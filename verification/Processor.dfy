/** The event processor's code: the de-duplication gate, the aggregate, persistence, the dead-letter
    route and restarts, step by step over the live store and the live records. */
module Processor {
  import opened Common
  import opened Aggregate
  import opened LiveStats
  import opened Matches
  import opened Protocol
  import opened Redis
  import opened Consumer
  import opened Accounting
  import opened Persistence

  /** How store, broker and clock answer while one message is handled. */
  datatype Replies = Replies(
    nx: Reply, evict: bool, getOk: bool, mark: Reply, save: Reply, cache: Reply, list: Reply, publish: Reply, clock: string)

  /** Milliseconds in the default of six hours. */
  const DEFAULT_TTL: nat := 6 * 60 * 60 * 1000

  /** A setting that does not parse, or is not positive, leaves the default in place. */
  function DedupeTTL(setting: Option<int>): (ttl: nat)
    ensures setting.Some? && setting.value > 0 ==> ttl == setting.value
    ensures setting.None? || setting.value <= 0 ==> ttl == 21_600_000
  {
    if setting.Some? && setting.value > 0 then setting.value else DEFAULT_TTL
  }

  // ----- the protocol steps one event takes

  /** The gate lets the event through. */
  predicate Continues(v: Store, e: MatchEvent, r: Replies) {
    e.eventID == "" || r.nx.Failed? || e.eventID !in v.dedupe || !r.getOk
  }

  function Claiming(p: Schedule, v: Store, e: MatchEvent, r: Replies): Schedule {
    if e.eventID == "" then Step(p, Bypass(ME))
    else if r.nx.Failed? || e.eventID !in v.dedupe then Step(p, SetNX(ME, r.nx))
    else if Gone(v, e.eventID, r.evict) then Step(Step(Step(p, SetNX(ME, r.nx)), Expire(e.eventID)), Get(ME, r.getOk))
    else Step(Step(p, SetNX(ME, r.nx)), Get(ME, r.getOk))
  }

  /** The steps after the gate. */
  const ADMISSION_STEPS: nat := 6

  function AdmissionStep(r: Replies, k: nat): Action {
    if k == 0 then Protocol.Count(ME)
    else if k == 1 then Mark(ME, r.mark)
    else if k == 2 then Save(ME, r.save)
    else if k == 3 then Cache(ME, r.cache)
    else if k == 4 then List(ME, r.list)
    else Publish(ME)
  }

  function Admitting(p: Schedule, r: Replies, k: nat): Schedule {
    if k == 0 then p else Step(Admitting(p, r, k - 1), AdmissionStep(r, k - 1))
  }

  /** All of processEvent. */
  function Script(p: Schedule, v: Store, e: MatchEvent, r: Replies): Schedule {
    var claimed := Claiming(Step(p, Receive(ME, e)), v, e, r);
    if Continues(v, e, r) then Admitting(claimed, r, ADMISSION_STEPS) else claimed
  }

  lemma ScriptSplits(p: Schedule, v: Store, e: MatchEvent, r: Replies)
    ensures var claimed := Claiming(Step(p, Receive(ME, e)), v, e, r);
      Script(p, v, e, r) == if e.eventID == "" || r.nx.Failed? || e.eventID !in v.dedupe || !r.getOk
                            then Admitting(claimed, r, ADMISSION_STEPS) else claimed
  {
  }

  /** Where the process dies inside processEvent. */
  datatype Death = BeforeReserve | BeforeGet | OnceReserved(steps: nat)

  /** The store refuses the claim, so a GET follows. */
  predicate Refuses(v: Store, e: MatchEvent, r: Replies) {
    e.eventID != "" && r.nx.Fine? && e.eventID in v.dedupe
  }

  /** What processEvent has done when it dies; a skipped event dies after its skip at the latest. */
  function CutShort(p: Schedule, v: Store, e: MatchEvent, r: Replies, death: Death): Schedule {
    var received := Step(p, Receive(ME, e));
    if death.BeforeReserve? then received
    else if death.BeforeGet? && Refuses(v, e, r) then Step(received, SetNX(ME, r.nx))
    else if death.BeforeGet? || !Continues(v, e, r) then Claiming(received, v, e, r)
    else Admitting(Claiming(received, v, e, r), r, death.steps)
  }

  lemma AdmittingUpTo(p: Schedule, r: Replies)
    ensures Admitting(p, r, 0) == p
    ensures Admitting(p, r, 1) == Step(p, Protocol.Count(ME))
    ensures Admitting(p, r, 2) == Step(Admitting(p, r, 1), Mark(ME, r.mark))
    ensures Admitting(p, r, 3) == Step(Admitting(p, r, 2), Save(ME, r.save))
    ensures Admitting(p, r, 4) == Step(Admitting(p, r, 3), Cache(ME, r.cache))
    ensures Admitting(p, r, 5) == Step(Admitting(p, r, 4), List(ME, r.list))
    ensures Admitting(p, r, ADMISSION_STEPS) == Step(Admitting(p, r, 5), Publish(ME))
  {
  }

  class EventProcessor {
    const db: StatsStore
    const ttl: nat
    ghost const origin: nat
    var table: Table

    var processed: nat
    var duplicatesProcessed: nat
    var duplicatesInFlight: nat
    var withoutID: nat
    var reserveErrors: nat
    var markErrors: nat
    var redisWriteErrors: nat
    var kafkaWriteErrors: nat
    /** The outgoing topic. */
    var matchStats: seq<Stats>

    var unparseable: nat
    var dlqPublished: nat
    var dlqPublishErrors: nat
    /** The dead-letter topic. */
    var deadLetters: seq<DLQRecord>

    /** Messages handled by this incarnation. */
    ghost var handled: nat

    /** The protocol state the code is in, and the run that led there. */
    ghost var Core: State
    ghost var Path: Schedule

    ghost predicate Traced()
      reads `Core, `Path
    {
      Possible(Init(origin), Path, ttl) && Run(Init(origin), Path, ttl) == Core
    }

    ghost predicate Linked()
      reads `Core, `Path, `table, db, table, table.Owner.Keys, table.Backing
    {
      ttl > 0 && Traced() && db.Valid() && table.Valid() && db.View == Core.store && table.Mem == Core.mem
    }

    /** A boot, against an empty store or what any earlier run of the protocol has left. */
    constructor (db: StatsStore, setting: Option<int>, membersOk: bool, unreadable: set<string>, ghost origin: nat, ghost past: Schedule)
      requires db.Valid() && Possible(Init(origin), past, DedupeTTL(setting))
      requires Run(Init(origin), past, DedupeTTL(setting)).store == db.View
      ensures Valid() && this.db == db && this.origin == origin && ttl == DedupeTTL(setting)
      ensures fresh(table) && fresh(table.Owner.Keys) && fresh(table.Backing)
      ensures forall m :: m in table.Mem <==> membersOk && m in db.View.active && m in db.View.stats && m !in unreadable
      ensures forall m :: m in table.Mem ==> table.Mem[m] == db.View.stats[m]
      ensures var lost := Run(Init(origin), past, DedupeTTL(setting));
        Path == Step(past, Crash(Reloadable(db.View, membersOk, unreadable)))
        && Core == AfterCrash(lost, Reloadable(db.View, membersOk, unreadable))
    {
      this.db, ttl, this.origin := db, DedupeTTL(setting), origin;
      table := new Table();
      processed, duplicatesProcessed, duplicatesInFlight, withoutID, reserveErrors, markErrors := 0, 0, 0, 0, 0, 0;
      redisWriteErrors, kafkaWriteErrors, matchStats := 0, 0, [];
      unparseable, dlqPublished, dlqPublishErrors, deadLetters, handled := 0, 0, 0, [], 0;
      Core, Path := Run(Init(origin), past, DedupeTTL(setting)), past;
      new;
      hide Run, Possible, StatsStore.Valid, AfterCrash;
      Reload(membersOk, unreadable);
    }

    /** Nothing handled goes uncounted. */
    ghost predicate Balanced()
      reads `handled, `processed, `duplicatesProcessed, `duplicatesInFlight, `unparseable, `dlqPublished, `dlqPublishErrors
    {
      && handled == unparseable + processed + duplicatesProcessed + duplicatesInFlight
      && unparseable == dlqPublished + dlqPublishErrors
    }

    ghost predicate Valid()
      reads this, db, table, table.Owner.Keys, table.Backing
    {
      Linked() && Core.pc == map[] && Balanced()
    }

    ghost method Do(a: Action)
      requires Traced() && Enabled(Core, a)
      modifies `Core, `Path
      ensures Traced() && Core == Next(old(Core), a, ttl) && Path == Step(old(Path), a)
    {
      hide Next, Enabled;
      Core, Path := Next(Core, a, ttl), Step(Path, a);
    }

    /** A message reaches the code. */
    ghost method Begin(event: MatchEvent)
      requires Linked() && Core.pc == map[]
      modifies `Core, `Path
      ensures Linked() && Path == Step(old(Path), Receive(ME, event)) && Core.pc == map[ME := Received(event)]
    {
      hide Run, Possible, StatsStore.Valid, Table.Valid;
      Do(Receive(ME, event));
    }

    /** The protocol steps of the gate. */
    ghost method Claim(event: MatchEvent, r: Replies)
      requires Traced() && Core.pc == map[ME := Received(event)]
      modifies `Core, `Path
      ensures Traced() && Path == Claiming(old(Path), old(Core).store, event, r)
      ensures Core.mem == old(Core).mem
      ensures Core.pc == if Continues(old(Core).store, event, r) then map[ME := Granted(event)] else map[]
      ensures Core.store == if event.eventID == "" then old(Core).store
                            else AfterReserve(old(Core).store, event.eventID, ttl, r.nx, r.evict)
      ensures var d := Core.store.dedupe;
        !Continues(old(Core).store, event, r) ==>
          Core.trace.Then? && Core.trace.act ==
            Skipped(event.eventID, if event.eventID in d && d[event.eventID].mark.Processed? then AlreadyProcessed else InFlight)
    {
      hide Run, Possible;
      if event.eventID == "" {
        Do(Bypass(ME));
        return;
      }
      var v := Core.store;
      Do(SetNX(ME, r.nx));
      if event.eventID in v.dedupe && r.nx.Fine? {
        if Gone(v, event.eventID, r.evict) {
          Do(Expire(event.eventID));
        }
        Do(Get(ME, r.getOk));
      }
    }

    /** The gate. The two kinds of error let the event through. A skip is logged under the reason whose
        counter it raises: processed if the key says so, else in flight. */
    method ReserveForProcessing(event: MatchEvent, r: Replies) returns (proceed: bool)
      requires Linked() && Core.pc == map[]
      modifies `Core, `Path, `withoutID, `reserveErrors, `duplicatesProcessed, `duplicatesInFlight, db
      ensures Linked() && Path == Claiming(Step(old(Path), Receive(ME, event)), old(db.View), event, r)
      ensures Core.pc == if proceed then map[ME := Granted(event)] else map[]
      ensures proceed <==> event.eventID == "" || r.nx.Failed? || event.eventID !in old(db.View).dedupe || !r.getOk
      ensures withoutID == old(withoutID) + if event.eventID == "" then 1 else 0
      ensures reserveErrors == old(reserveErrors) +
        if event.eventID != "" && (r.nx.Failed? || (event.eventID in old(db.View).dedupe && !r.getOk)) then 1 else 0
      ensures proceed ==> duplicatesProcessed == old(duplicatesProcessed) && duplicatesInFlight == old(duplicatesInFlight)
      ensures !proceed ==>
        Core.trace.Then? && Core.trace.act.Skipped? && Core.trace.act.id == event.eventID
        && (Core.trace.act.why == AlreadyProcessed <==> event.eventID in db.View.dedupe && db.View.dedupe[event.eventID].mark.Processed?)
      ensures !proceed && Core.trace.act.why == AlreadyProcessed ==>
        duplicatesProcessed == old(duplicatesProcessed) + 1 && duplicatesInFlight == old(duplicatesInFlight)
      ensures !proceed && Core.trace.act.why == InFlight ==>
        duplicatesProcessed == old(duplicatesProcessed) && duplicatesInFlight == old(duplicatesInFlight) + 1
      ensures db.View == old(db.View).(dedupe := db.View.dedupe)
      ensures var id, d := event.eventID, old(db.View).dedupe;
        db.View.dedupe ==
          if id == "" then d
          else if id !in d then (if r.nx.Landed() then d[id := Reservation(Processing, db.View.now + ttl)] else d)
          else if r.nx.Fine? && r.evict && d[id].deadline <= db.View.now then d - {id}
          else d
    {
      hide Run, Possible, Claiming, StatsStore.Valid, Table.Valid;
      Begin(event);
      Claim(event, r);
      if event.eventID == "" {
        withoutID := withoutID + 1;
        return true;
      }
      var state, err := db.ReserveEvent(event.eventID, ttl, r.nx, r.evict, r.getOk);
      if err {
        reserveErrors := reserveErrors + 1;
        return true;
      }
      if state.Acquired? {
        return true;
      }
      if state.why.AlreadyProcessed? {
        duplicatesProcessed := duplicatesProcessed + 1;
      } else {
        duplicatesInFlight := duplicatesInFlight + 1;
      }
      return false;
    }

    /** The critical section. */
    method CountLive(event: MatchEvent, slack: nat) returns (copy: StatsCopy)
      requires Linked() && Core.pc == map[ME := Granted(event)]
      modifies `Core, `Path, table, table.Owner.Keys, table.Backing
      ensures Linked() && Path == Step(old(Path), Protocol.Count(ME))
      ensures forall o :: o in table.Owner && o !in old(table.Owner) ==> fresh(o)
      ensures forall o :: o in table.Backing && o !in old(table.Backing) ==> fresh(o)
      ensures table.Mem == old(table.Mem)[event.matchID := Apply(Current(old(table.Mem), event.matchID), event)]
      ensures Core.pc == map[ME := Applied(event, table.Mem[event.matchID])]
      ensures copy.events.Valid() && copy.Value() == table.Mem[event.matchID]
    {
      hide Run, Possible, StatsStore.Valid, Table.Valid, Apply, Empty, StatsCopy.Value;
      Do(Protocol.Count(ME));
      copy := table.Count(event, slack);
    }

    /** The aggregate and the mark behind it. */
    method CountAndMark(event: MatchEvent, slack: nat, r: Replies) returns (copy: StatsCopy)
      requires Linked() && Core.pc == map[ME := Granted(event)]
      modifies `Core, `Path, `markErrors, `processed, db, table, table.Owner.Keys, table.Backing
      ensures Linked() && Path == Step(Step(old(Path), Protocol.Count(ME)), Mark(ME, r.mark))
      ensures forall o :: o in table.Owner && o !in old(table.Owner) ==> fresh(o)
      ensures forall o :: o in table.Backing && o !in old(table.Backing) ==> fresh(o)
      ensures table.Mem == old(table.Mem)[event.matchID := Apply(Current(old(table.Mem), event.matchID), event)]
      ensures Core.pc == map[ME := Marked(event, table.Mem[event.matchID])]
      ensures copy.events.Valid() && copy.Value() == table.Mem[event.matchID]
      ensures processed == old(processed) + 1
      ensures markErrors == old(markErrors) + if event.eventID != "" && r.mark.Failed? then 1 else 0
      ensures db.View == if event.eventID != "" && r.mark.Landed()
                         then old(db.View).(dedupe := old(db.View).dedupe[event.eventID := Reservation(Processed, old(db.View).now + ttl)])
                         else old(db.View)
    {
      hide Run, Possible, EventProcessor.Linked, Apply, Empty, StatsCopy.Value, Current;
      copy := CountLive(event, slack);
      Remember(event, table.Mem[event.matchID], r);
      processed := processed + 1;
    }

    /** A failed mark is only counted: the reservation stays as it was. */
    method Remember(event: MatchEvent, ghost data: Stats, r: Replies)
      requires Linked() && Core.pc == map[ME := Applied(event, data)]
      modifies `Core, `Path, `markErrors, db
      ensures Linked() && Path == Step(old(Path), Mark(ME, r.mark)) && Core.pc == map[ME := Marked(event, data)]
      ensures markErrors == old(markErrors) + if event.eventID != "" && r.mark.Failed? then 1 else 0
      ensures db.View == if event.eventID != "" && r.mark.Landed()
                         then old(db.View).(dedupe := old(db.View).dedupe[event.eventID := Reservation(Processed, old(db.View).now + ttl)])
                         else old(db.View)
    {
      hide Run, Possible, StatsStore.Valid, Table.Valid;
      Do(Mark(ME, r.mark));
      if event.eventID == "" {
        return;
      }
      var err := db.MarkProcessed(event.eventID, ttl, r.mark);
      if err {
        markErrors := markErrors + 1;
      }
    }

    method SaveRecord(event: MatchEvent, data: Stats, r: Replies)
      requires Linked() && Core.pc == map[ME := Marked(event, data)]
      modifies `Core, `Path, `redisWriteErrors, db
      ensures Linked() && Path == Step(old(Path), Save(ME, r.save))
      ensures Core.pc == map[ME := Saved(event, data)]
      ensures redisWriteErrors == old(redisWriteErrors) + if r.save.Failed? then 1 else 0
      ensures db.View == if r.save.Landed() then old(db.View).(stats := old(db.View).stats[event.matchID := data]) else old(db.View)
    {
      hide Run, Possible, StatsStore.Valid, Table.Valid;
      Do(Save(ME, r.save));
      var err := db.SetStats(StatsOf(event.matchID), data, r.save);
      if err { redisWriteErrors := redisWriteErrors + 1; }
    }

    method CacheRecord(event: MatchEvent, data: Stats, r: Replies)
      requires Linked() && Core.pc == map[ME := Saved(event, data)]
      modifies `Core, `Path, `redisWriteErrors, db
      ensures Linked() && Path == Step(old(Path), Cache(ME, r.cache))
      ensures Core.pc == map[ME := Cached(event, data)]
      ensures redisWriteErrors == old(redisWriteErrors) + if r.cache.Failed? then 1 else 0
      ensures db.View == if r.cache.Landed() then old(db.View).(latest := old(db.View).latest[event.matchID := data]) else old(db.View)
    {
      hide Run, Possible, StatsStore.Valid, Table.Valid;
      Do(Cache(ME, r.cache));
      var err := db.SetStats(LatestOf(event.matchID), data, r.cache);
      if err { redisWriteErrors := redisWriteErrors + 1; }
    }

    method ListMatch(event: MatchEvent, data: Stats, r: Replies)
      requires Linked() && Core.pc == map[ME := Cached(event, data)]
      modifies `Core, `Path, `redisWriteErrors, db
      ensures Linked() && Path == Step(old(Path), List(ME, r.list))
      ensures Core.pc == map[ME := Listed(event, data)]
      ensures redisWriteErrors == old(redisWriteErrors) + if r.list.Failed? then 1 else 0
      ensures db.View == if r.list.Landed() then old(db.View).(active := old(db.View).active + {event.matchID}) else old(db.View)
    {
      hide Run, Possible, StatsStore.Valid, Table.Valid;
      Do(List(ME, r.list));
      var err := db.AddActiveMatch(event.matchID, r.list);
      if err { redisWriteErrors := redisWriteErrors + 1; }
    }

    method PublishRecord(event: MatchEvent, data: Stats, r: Replies)
      requires Linked() && Core.pc == map[ME := Listed(event, data)]
      modifies `Core, `Path, `kafkaWriteErrors, `matchStats
      ensures Linked() && Path == Step(old(Path), Publish(ME)) && Core.pc == map[]
      ensures matchStats == old(matchStats) + if r.publish.Landed() then [data] else []
      ensures kafkaWriteErrors == old(kafkaWriteErrors) + if r.publish.Failed? then 1 else 0
    {
      hide Run, Possible, StatsStore.Valid, Table.Valid;
      Do(Publish(ME));
      if r.publish.Landed() { matchStats := matchStats + [data]; }
      if r.publish.Failed? { kafkaWriteErrors := kafkaWriteErrors + 1; }
    }

    /** The three writes and the publish, none of which stops on an error. */
    method Persist(event: MatchEvent, data: Stats, r: Replies)
      requires Linked() && Core.pc == map[ME := Marked(event, data)]
      modifies `Core, `Path, `redisWriteErrors, `kafkaWriteErrors, `matchStats, db
      ensures Linked() && Core.pc == map[]
      ensures Path == Step(Step(Step(Step(old(Path), Save(ME, r.save)), Cache(ME, r.cache)), List(ME, r.list)), Publish(ME))
      ensures matchStats == old(matchStats) + if r.publish.Landed() then [data] else []
      ensures redisWriteErrors == old(redisWriteErrors)
        + (if r.save.Failed? then 1 else 0) + (if r.cache.Failed? then 1 else 0) + (if r.list.Failed? then 1 else 0)
      ensures kafkaWriteErrors == old(kafkaWriteErrors) + if r.publish.Failed? then 1 else 0
      ensures db.View.now == old(db.View).now && db.View.dedupe == old(db.View).dedupe
      ensures db.View.stats == if r.save.Landed() then old(db.View).stats[event.matchID := data] else old(db.View).stats
      ensures db.View.latest == if r.cache.Landed() then old(db.View).latest[event.matchID := data] else old(db.View).latest
      ensures db.View.active == if r.list.Landed() then old(db.View).active + {event.matchID} else old(db.View).active
    {
      hide EventProcessor.Linked;
      SaveRecord(event, data, r);
      CacheRecord(event, data, r);
      ListMatch(event, data, r);
      PublishRecord(event, data, r);
    }

    /** Everything after the gate. */
    method Admit(event: MatchEvent, slack: nat, r: Replies)
      requires Linked() && Core.pc == map[ME := Granted(event)]
      modifies `Core, `Path, `processed, `markErrors, `redisWriteErrors, `kafkaWriteErrors, `matchStats
      modifies db, table, table.Owner.Keys, table.Backing
      ensures Linked() && Core.pc == map[] && Path == Admitting(old(Path), r, ADMISSION_STEPS)
      ensures forall o :: o in table.Owner && o !in old(table.Owner) ==> fresh(o)
      ensures forall o :: o in table.Backing && o !in old(table.Backing) ==> fresh(o)
      ensures processed == old(processed) + 1
      ensures table.Mem == old(table.Mem)[event.matchID := Apply(Current(old(table.Mem), event.matchID), event)]
      ensures matchStats == old(matchStats) + if r.publish.Landed() then [table.Mem[event.matchID]] else []
      ensures markErrors == old(markErrors) + if event.eventID != "" && r.mark.Failed? then 1 else 0
      ensures redisWriteErrors == old(redisWriteErrors)
        + (if r.save.Failed? then 1 else 0) + (if r.cache.Failed? then 1 else 0) + (if r.list.Failed? then 1 else 0)
      ensures kafkaWriteErrors == old(kafkaWriteErrors) + if r.publish.Failed? then 1 else 0
      ensures db.View.now == old(db.View).now
      ensures db.View.dedupe == if event.eventID != "" && r.mark.Landed()
                                then old(db.View).dedupe[event.eventID := Reservation(Processed, old(db.View).now + ttl)]
                                else old(db.View).dedupe
      ensures db.View.stats == if r.save.Landed() then old(db.View).stats[event.matchID := table.Mem[event.matchID]] else old(db.View).stats
      ensures db.View.latest == if r.cache.Landed() then old(db.View).latest[event.matchID := table.Mem[event.matchID]] else old(db.View).latest
      ensures db.View.active == if r.list.Landed() then old(db.View).active + {event.matchID} else old(db.View).active
    {
      AdmittingUpTo(Path, r);
      hide EventProcessor.Linked, Apply, Empty, Current, Admitting, StatsCopy.Value;
      var copy := CountAndMark(event, slack, r);
      var data := Marshal(copy);
      Persist(event, data, r);
    }

    /** One event, whatever store and topic answer. What the gate and the steps behind it do to the
        error counters and to the event's reservation is said there. */
    method ProcessEvent(event: MatchEvent, slack: nat, r: Replies) returns (counted: bool)
      requires Linked() && Core.pc == map[]
      modifies `Core, `Path, `withoutID, `reserveErrors, `duplicatesProcessed, `duplicatesInFlight
      modifies `processed, `markErrors, `redisWriteErrors, `kafkaWriteErrors, `matchStats
      modifies db, table, table.Owner.Keys, table.Backing
      ensures Linked() && Core.pc == map[] && Path == Script(old(Path), old(db.View), event, r)
      ensures forall o :: o in table.Owner && o !in old(table.Owner) ==> fresh(o)
      ensures forall o :: o in table.Backing && o !in old(table.Backing) ==> fresh(o)
      ensures counted <==> event.eventID == "" || r.nx.Failed? || event.eventID !in old(db.View).dedupe || !r.getOk
      ensures !counted ==>
        && table.Mem == old(table.Mem) && matchStats == old(matchStats) && processed == old(processed)
        && db.View == old(db.View).(dedupe := db.View.dedupe)
      ensures !counted ==>
        Core.trace.Then? && Core.trace.act.Skipped? && Core.trace.act.id == event.eventID
        && (if Core.trace.act.why == AlreadyProcessed
            then duplicatesProcessed == old(duplicatesProcessed) + 1 && duplicatesInFlight == old(duplicatesInFlight)
            else duplicatesProcessed == old(duplicatesProcessed) && duplicatesInFlight == old(duplicatesInFlight) + 1)
      ensures counted ==>
        && table.Mem == old(table.Mem)[event.matchID := Apply(Current(old(table.Mem), event.matchID), event)]
        && matchStats == old(matchStats) + (if r.publish.Landed() then [table.Mem[event.matchID]] else [])
        && processed == old(processed) + 1
        && duplicatesProcessed == old(duplicatesProcessed) && duplicatesInFlight == old(duplicatesInFlight)
      ensures counted ==>
        db.View.stats == if r.save.Landed() then old(db.View).stats[event.matchID := table.Mem[event.matchID]] else old(db.View).stats
      ensures counted ==>
        db.View.latest == if r.cache.Landed() then old(db.View).latest[event.matchID := table.Mem[event.matchID]] else old(db.View).latest
      ensures counted ==>
        db.View.active == if r.list.Landed() then old(db.View).active + {event.matchID} else old(db.View).active
    {
      ScriptSplits(Path, db.View, event, r);
      hide EventProcessor.Linked, Script, Continues, Claiming, Admitting, Apply, Empty, Current;
      counted := ReserveForProcessing(event, r);
      if counted {
        Admit(event, slack, r);
      }
    }

    // ----- restarts

    /** Rebuilds the table from the listed matches. A match whose record is missing or cannot be
        read is skipped, and an unreadable list reloads nothing. */
    method LoadActiveMatches(membersOk: bool, unreadable: set<string>) returns (loaded: Table)
      requires db.Valid()
      ensures loaded.Valid() && fresh(loaded) && fresh(loaded.Owner.Keys) && fresh(loaded.Backing)
      ensures forall m :: m in loaded.Mem <==> membersOk && m in db.View.active && m in db.View.stats && m !in unreadable
      ensures forall m :: m in loaded.Mem ==> loaded.Mem[m] == db.View.stats[m]
      ensures loaded.Mem == Reloaded(db.View, Reloadable(db.View, membersOk, unreadable))
    {
      hide StatsStore.Valid, Table.Valid;
      loaded := new Table();
      var ids, err := db.ActiveMatches(membersOk);
      if err {
        return;
      }
      var todo := ids;
      while todo != {}
        invariant todo <= ids
        invariant loaded.Valid() && fresh(loaded) && fresh(loaded.Owner.Keys) && fresh(loaded.Backing)
        invariant forall m :: m in loaded.Mem <==> m in ids && m !in todo && m in db.View.stats && m !in unreadable
        invariant forall m :: m in loaded.Mem ==> loaded.Mem[m] == db.View.stats[m]
      {
        var id :| id in todo;
        todo := todo - {id};
        var data := db.GetStats(id, id !in unreadable);
        if data.Some? {
          loaded.Restore(id, data.value);
        }
      }
    }

    /** Starts processing an event and dies on the way. */
    method Die(event: MatchEvent, slack: nat, r: Replies, death: Death)
      requires Linked() && Core.pc == map[] && (death.OnceReserved? ==> death.steps < ADMISSION_STEPS)
      modifies `Core, `Path, `withoutID, `reserveErrors, `duplicatesProcessed, `duplicatesInFlight
      modifies `markErrors, `processed, `redisWriteErrors, db, table, table.Owner.Keys, table.Backing
      ensures Linked() && Path == CutShort(old(Path), old(db.View), event, r, death)
      ensures forall o :: o in table.Owner && o !in old(table.Owner) ==> fresh(o)
      ensures forall o :: o in table.Backing && o !in old(table.Backing) ==> fresh(o)
      ensures death.BeforeReserve? ==> db.View == old(db.View) && Core.pc == map[ME := Received(event)]
      ensures death.BeforeGet? && event.eventID != "" && r.nx.Fine? && event.eventID in old(db.View).dedupe ==>
        db.View == old(db.View) && Core.pc == map[ME := Refused(event)]
      ensures !death.OnceReserved? ==> table.Mem == old(table.Mem)
      ensures death.OnceReserved? && !(event.eventID == "" || r.nx.Failed? || event.eventID !in old(db.View).dedupe || !r.getOk) ==>
        Core.pc == map[] && table.Mem == old(table.Mem) && db.View == old(db.View).(dedupe := db.View.dedupe)
      ensures death.OnceReserved? && (event.eventID == "" || r.nx.Failed? || event.eventID !in old(db.View).dedupe || !r.getOk) ==>
        var steps := death.steps;
        && table.Mem == (if steps >= 1 then old(table.Mem)[event.matchID := Apply(Current(old(table.Mem), event.matchID), event)]
                         else old(table.Mem))
        && db.View.stats == (if steps >= 3 && r.save.Landed() then old(db.View).stats[event.matchID := table.Mem[event.matchID]]
                             else old(db.View).stats)
        && db.View.latest == (if steps >= 4 && r.cache.Landed() then old(db.View).latest[event.matchID := table.Mem[event.matchID]]
                              else old(db.View).latest)
        && db.View.active == (if steps == 5 && r.list.Landed() then old(db.View).active + {event.matchID} else old(db.View).active)
        && (steps == 0 ==> Core.pc == map[ME := Granted(event)])
        && (steps == 1 ==> Core.pc == map[ME := Applied(event, table.Mem[event.matchID])])
        && (steps == 2 ==> Core.pc == map[ME := Marked(event, table.Mem[event.matchID])])
        && (steps == 3 ==> Core.pc == map[ME := Saved(event, table.Mem[event.matchID])])
        && (steps == 4 ==> Core.pc == map[ME := Cached(event, table.Mem[event.matchID])])
        && (steps == 5 ==> Core.pc == map[ME := Listed(event, table.Mem[event.matchID])])
    {
      hide Run, Possible, Claiming, Admitting, Apply, Empty;
      hide StatsStore.Valid, Table.Valid, EventProcessor.Traced;
      if death.BeforeReserve? {
        Begin(event);
        return;
      }
      if death.BeforeGet? && event.eventID != "" && r.nx.Fine? {
        var taken := db.Taken(event.eventID);
        if taken {
          Begin(event);
          Do(SetNX(ME, r.nx));
          return;
        }
      }
      var proceed := ReserveForProcessing(event, r);
      if proceed && death.OnceReserved? {
        DieAfterReserve(event, slack, r, death.steps);
      }
    }

    method DieAfterReserve(event: MatchEvent, slack: nat, r: Replies, steps: nat)
      requires Linked() && Core.pc == map[ME := Granted(event)] && steps < ADMISSION_STEPS
      modifies `Core, `Path, `markErrors, `processed, `redisWriteErrors, db, table, table.Owner.Keys, table.Backing
      ensures Linked() && Path == Admitting(old(Path), r, steps)
      ensures forall o :: o in table.Owner && o !in old(table.Owner) ==> fresh(o)
      ensures forall o :: o in table.Backing && o !in old(table.Backing) ==> fresh(o)
      ensures table.Mem == (if steps >= 1 then old(table.Mem)[event.matchID := Apply(Current(old(table.Mem), event.matchID), event)]
                         else old(table.Mem))
        && db.View.stats == (if steps >= 3 && r.save.Landed() then old(db.View).stats[event.matchID := table.Mem[event.matchID]]
                             else old(db.View).stats)
        && db.View.latest == (if steps >= 4 && r.cache.Landed() then old(db.View).latest[event.matchID := table.Mem[event.matchID]]
                              else old(db.View).latest)
        && db.View.active == (if steps == 5 && r.list.Landed() then old(db.View).active + {event.matchID} else old(db.View).active)
      ensures (steps == 0 ==> Core.pc == map[ME := Granted(event)])
        && (steps == 1 ==> Core.pc == map[ME := Applied(event, table.Mem[event.matchID])])
        && (steps == 2 ==> Core.pc == map[ME := Marked(event, table.Mem[event.matchID])])
        && (steps == 3 ==> Core.pc == map[ME := Saved(event, table.Mem[event.matchID])])
        && (steps == 4 ==> Core.pc == map[ME := Cached(event, table.Mem[event.matchID])])
        && (steps == 5 ==> Core.pc == map[ME := Listed(event, table.Mem[event.matchID])])
    {
      hide Run, Possible, StatsStore.Valid, Table.Valid, EventProcessor.Traced, Apply, Empty, Current, StatsCopy.Value, Next, Enabled;
      AdmittingUpTo(Path, r);
      if steps == 0 {
        return;
      }
      if steps == 1 {
        var unused := CountLive(event, slack);
        return;
      }
      var copy := CountAndMark(event, slack, r);
      if steps == 2 {
        return;
      }
      var data := Marshal(copy);
      SaveSome(event, data, r, steps - 2);
    }

    /** The first one, two or three record writes. */
    method SaveSome(event: MatchEvent, data: Stats, r: Replies, writes: nat)
      requires Linked() && Core.pc == map[ME := Marked(event, data)] && 1 <= writes <= 3
      modifies `Core, `Path, `redisWriteErrors, db
      ensures Linked()
      ensures Path == if writes == 1 then Step(old(Path), Save(ME, r.save))
        else if writes == 2 then Step(Step(old(Path), Save(ME, r.save)), Cache(ME, r.cache))
        else Step(Step(Step(old(Path), Save(ME, r.save)), Cache(ME, r.cache)), List(ME, r.list))
      ensures Core.pc == map[ME := if writes == 1 then Saved(event, data) else if writes == 2 then Cached(event, data) else Listed(event, data)]
      ensures db.View.stats == if r.save.Landed() then old(db.View).stats[event.matchID := data] else old(db.View).stats
      ensures db.View.latest == if writes >= 2 && r.cache.Landed() then old(db.View).latest[event.matchID := data] else old(db.View).latest
      ensures db.View.active == if writes == 3 && r.list.Landed() then old(db.View).active + {event.matchID} else old(db.View).active
    {
      hide Run, Possible, StatsStore.Valid, Table.Valid, Next, Enabled;
      SaveRecord(event, data, r);
      if writes >= 2 {
        CacheRecord(event, data, r);
        if writes == 3 {
          ListMatch(event, data, r);
        }
      }
    }

    /** The process starts again, wherever it died: counters and records are new. */
    method Restart(membersOk: bool, unreadable: set<string>)
      requires Linked()
      modifies this
      ensures Valid() && fresh(table) && fresh(table.Owner.Keys) && fresh(table.Backing) && handled == 0
      ensures Path == Step(old(Path), Crash(Reloadable(db.View, membersOk, unreadable)))
      ensures forall m :: m in table.Mem <==> membersOk && m in db.View.active && m in db.View.stats && m !in unreadable
      ensures forall m :: m in table.Mem ==> table.Mem[m] == db.View.stats[m]
      ensures Core == AfterCrash(old(Core), Reloadable(db.View, membersOk, unreadable))
    {
      hide Run, Possible, StatsStore.Valid, Table.Valid, EventProcessor.Traced, AfterCrash;
      Reload(membersOk, unreadable);
      ResetCounters();
    }

    /** The crash step, with the records the new process gets back. */
    method Reload(membersOk: bool, unreadable: set<string>)
      requires ttl > 0 && Traced() && db.Valid() && db.View == Core.store
      modifies `table, `Core, `Path
      ensures Linked() && Core.pc == map[]
      ensures fresh(table) && fresh(table.Owner.Keys) && fresh(table.Backing)
      ensures Path == Step(old(Path), Crash(Reloadable(db.View, membersOk, unreadable)))
      ensures forall m :: m in table.Mem <==> membersOk && m in db.View.active && m in db.View.stats && m !in unreadable
      ensures forall m :: m in table.Mem ==> table.Mem[m] == db.View.stats[m]
      ensures Core == AfterCrash(old(Core), Reloadable(db.View, membersOk, unreadable))
    {
      hide Run, Possible, StatsStore.Valid, Table.Valid;
      table := LoadActiveMatches(membersOk, unreadable);
      Do(Crash(Reloadable(db.View, membersOk, unreadable)));
    }

    method ResetCounters()
      modifies `processed, `duplicatesProcessed, `duplicatesInFlight, `withoutID, `reserveErrors, `markErrors
      modifies `redisWriteErrors, `kafkaWriteErrors, `unparseable, `dlqPublished, `dlqPublishErrors, `handled
      ensures Balanced() && handled == 0
    {
      processed, duplicatesProcessed, duplicatesInFlight, withoutID, reserveErrors, markErrors := 0, 0, 0, 0, 0, 0;
      redisWriteErrors, kafkaWriteErrors := 0, 0;
      unparseable, dlqPublished, dlqPublishErrors, handled := 0, 0, 0, 0;
    }

    // ----- the world outside

    /** Time passes, no further than the nearest deadline. */
    method Elapse(to: nat)
      requires Valid() && Enabled(Core, Advance(to))
      modifies `Core, `Path, db
      ensures Valid() && Path == Step(old(Path), Advance(to)) && Core == Next(old(Core), Advance(to), ttl)
    {
      hide Run, Possible, StatsStore.Valid, Table.Valid;
      db.Tick(to);
      Do(Advance(to));
    }

    /** The server drops a reservation whose deadline has passed. */
    method Lapse(eventID: string)
      requires Valid() && Enabled(Core, Expire(eventID))
      modifies `Core, `Path, db
      ensures Valid() && Path == Step(old(Path), Expire(eventID)) && Core == Next(old(Core), Expire(eventID), ttl)
    {
      hide Run, Possible, StatsStore.Valid, Table.Valid;
      db.Evict(eventID);
      Do(Expire(eventID));
    }

    // ----- dead letters

    /** Publishes a message that does not decode, at most three times, sleeping in between. What the
        topic gains says where the message came from, what it was, why it failed and when, one record
        for each call that may have been written. */
    method RouteToDLQ(off: nat, msg: Message, clock: string, answers: seq<Reply>) returns (published: bool, calls: nat, slept: nat)
      requires msg.Bad? && |answers| == MAX_DLQ_ATTEMPTS
      modifies `unparseable, `dlqPublished, `dlqPublishErrors, `deadLetters
      ensures 1 <= calls <= 3 && (forall i :: 0 <= i < calls - 1 ==> answers[i].Failed?)
      ensures if published then answers[calls - 1].Fine? else calls == 3 && answers[calls - 1].Failed?
      ensures slept == if calls == 1 then 0 else if calls == 2 then 100 else 300
      ensures old(deadLetters) <= deadLetters
      ensures forall i :: |old(deadLetters)| <= i < |deadLetters| ==>
        && deadLetters[i].topic == "match-events" && deadLetters[i].partition == 0 && deadLetters[i].offset == off
        && deadLetters[i].payload == msg.payload && deadLetters[i].reason == msg.reason && deadLetters[i].failedAt == clock
        && 1 <= deadLetters[i].attempts <= calls && answers[deadLetters[i].attempts - 1].Landed()
      ensures forall i, j :: |old(deadLetters)| <= i < j < |deadLetters| ==> deadLetters[i].attempts < deadLetters[j].attempts
      ensures |deadLetters| == |old(deadLetters)| + (if answers[0].Landed() then 1 else 0)
        + (if calls >= 2 && answers[1].Landed() then 1 else 0) + (if calls == 3 && answers[2].Landed() then 1 else 0)
      ensures published ==> |deadLetters| > |old(deadLetters)| && deadLetters[|deadLetters| - 1].attempts == calls
      ensures unparseable == old(unparseable) + 1
      ensures dlqPublished == old(dlqPublished) + if published then 1 else 0
      ensures dlqPublishErrors == old(dlqPublishErrors) + if published then 0 else 1
    {
      unparseable := unparseable + 1;
      var letter := DLQRecord(TOPIC, PARTITION, off, msg.payload, msg.reason, 0, clock);
      calls, slept := 0, 0;
      for attempt := 1 to MAX_DLQ_ATTEMPTS + 1
        invariant calls == attempt - 1
        invariant forall i :: 0 <= i < calls ==> answers[i].Failed?
        invariant deadLetters == old(deadLetters) + Landed(letter, answers, calls)
        invariant slept == if attempt == 1 then 0 else if attempt == 2 then 100 else 300
        invariant dlqPublished == old(dlqPublished) && dlqPublishErrors == old(dlqPublishErrors) && unparseable == old(unparseable) + 1
      {
        calls := attempt;
        if answers[attempt - 1].Landed() {
          deadLetters := deadLetters + [letter.(attempts := attempt)];
        }
        if answers[attempt - 1].Fine? {
          dlqPublished := dlqPublished + 1;
          Appended(old(deadLetters), letter, answers, calls);
          return true, calls, slept;
        }
        if attempt < MAX_DLQ_ATTEMPTS {
          slept := slept + DLQ_BACKOFF * attempt;
        }
      }
      dlqPublishErrors := dlqPublishErrors + 1;
      published := false;
      Appended(old(deadLetters), letter, answers, calls);
    }

    /** One message, decoded or not: whatever store, broker and dead-letter topic answer, it ends. */
    method HandleMessage(off: nat, msg: Message, slack: nat, r: Replies, answers: seq<Reply>) returns (outcome: Outcome)
      requires Valid() && |answers| == MAX_DLQ_ATTEMPTS
      modifies this, db, table, table.Owner.Keys, table.Backing
      ensures Valid() && table == old(table) && handled == old(handled) + 1
      ensures forall o :: o in table.Owner && o !in old(table.Owner) ==> fresh(o)
      ensures forall o :: o in table.Backing && o !in old(table.Backing) ==> fresh(o)
      ensures msg.Bad? ==> outcome.DeadLettered? || outcome.Dropped?
      ensures msg.Bad? ==> db.View == old(db.View) && table.Mem == old(table.Mem) && Path == old(Path)
      ensures msg.Bad? ==> (outcome.Dropped? <==> forall a :: a in answers ==> a.Failed?)
      ensures msg.Good? ==> outcome == if Continues(old(db.View), msg.e, r) then Aggregated else Duplicate
      ensures msg.Good? ==> (outcome == Aggregated <==>
        msg.e.eventID == "" || r.nx.Failed? || msg.e.eventID !in old(db.View).dedupe || !r.getOk)
      ensures msg.Good? ==> Path == Script(old(Path), old(db.View), msg.e, r)
    {
      hide EventProcessor.Linked, Script, Apply, Empty, Current, Landed;
      handled := handled + 1;
      if msg.Bad? {
        var published, calls, slept := RouteToDLQ(off, msg, r.clock, answers);
        assert !published ==> forall i :: 0 <= i < |answers| ==> answers[i].Failed?;
        assert answers[calls - 1] in answers;
        outcome := if published then DeadLettered else Dropped;
      } else {
        var counted := ProcessEvent(msg.e, slack, r);
        outcome := if counted then Aggregated else Duplicate;
      }
    }
  }

  /** The matches a restart gets back. */
  function Reloadable(v: Store, membersOk: bool, unreadable: set<string>): set<string> {
    if membersOk then v.active * v.stats.Keys - unreadable else {}
  }

  function Reloaded(v: Store, matches: set<string>): map<string, Stats> {
    v.stats - (v.stats.Keys - matches)
  }

  const MAX_DLQ_ATTEMPTS: nat := 3
  /** Milliseconds. */
  const DLQ_BACKOFF: nat := 100

  const TOPIC := "match-events"
  const PARTITION: nat := 0

  /** A record in the dead-letter topic. */
  datatype DLQRecord = DLQRecord(
    topic: string, partition: nat, offset: nat, payload: string, reason: string, attempts: nat, failedAt: string)

  /** What n calls leave in the topic: a call that reports failure may have been written. */
  function Landed(letter: DLQRecord, answers: seq<Reply>, n: nat): seq<DLQRecord>
    requires n <= |answers|
  {
    if n == 0 then []
    else if answers[n - 1].Landed() then Landed(letter, answers, n - 1) + [letter.(attempts := n)]
    else Landed(letter, answers, n - 1)
  }

  /** Records of one message carry all of it and rising attempt numbers, none beyond the calls made, each
      of a call that may have been written; an acknowledged call has the last one. */
  lemma {:induction false} AttemptsAreCalls(letter: DLQRecord, answers: seq<Reply>, n: nat, d: seq<DLQRecord>)
    requires n <= |answers| && d == Landed(letter, answers, n)
    ensures forall i :: 0 <= i < |d| ==>
      d[i] == letter.(attempts := d[i].attempts) && 1 <= d[i].attempts <= n && answers[d[i].attempts - 1].Landed()
    ensures forall i, j :: 0 <= i < j < |d| ==> d[i].attempts < d[j].attempts
    ensures n > 0 && answers[n - 1].Landed() ==> d != [] && d[|d| - 1].attempts == n
  {
    if n > 0 {
      var before := Landed(letter, answers, n - 1);
      AttemptsAreCalls(letter, answers, n - 1, before);
      assert forall i :: 0 <= i < |before| ==> d[i] == before[i];
    }
  }

  /** The same, said of what the topic gains. */
  lemma Appended(before: seq<DLQRecord>, letter: DLQRecord, answers: seq<Reply>, n: nat)
    requires 1 <= n <= 3 <= |answers|
    ensures var d := before + Landed(letter, answers, n);
      && before <= d
      && (forall i :: |before| <= i < |d| ==>
            d[i] == letter.(attempts := d[i].attempts) && 1 <= d[i].attempts <= n && answers[d[i].attempts - 1].Landed())
      && (forall i, j :: |before| <= i < j < |d| ==> d[i].attempts < d[j].attempts)
      && (answers[n - 1].Landed() ==> |d| > |before| && d[|d| - 1].attempts == n)
      && |d| == |before| + (if answers[0].Landed() then 1 else 0)
           + (if n >= 2 && answers[1].Landed() then 1 else 0) + (if n == 3 && answers[2].Landed() then 1 else 0)
  {
    var gain := Landed(letter, answers, n);
    AttemptsAreCalls(letter, answers, n, gain);
    var first, second := Landed(letter, answers, 1), if n >= 2 then Landed(letter, answers, 2) else [];
    assert |first| == if answers[0].Landed() then 1 else 0;
    assert n >= 2 ==> |second| == |first| + if answers[1].Landed() then 1 else 0;
    hide Landed;
    var d := before + gain;
    assert forall i :: |before| <= i < |d| ==> d[i] == gain[i - |before|];
  }

  /** When the gate has just skipped an event, another delivery of its ID was let through before; when
      the counter of processed duplicates was raised for it, the event had been counted. */
  lemma CodeSkipsWithCause(p: EventProcessor)
    requires p.Linked() && p.Core.trace.Then? && p.Core.trace.act.Skipped? && p.Core.trace.act.id != ""
    ensures var past, skip := p.Core.trace.before, p.Core.trace.act;
      Grants(past, skip.id) >= 1 && (skip.why == AlreadyProcessed ==> Counts(past, skip.id) >= 1)
  {
    hide Run, Possible, Grants, Counts;
    SkipsAreJustified(p.origin, p.Path, p.ttl, p.Core.trace.act.id);
  }

  /** Every use of the code is a run of the protocol, so its guarantees hold of the live objects: at
      rest each grant of an event was used once or died in a restart, every skip was justified, and
      each record, live or stored since its reload, is the fold of events in the order applied. */
  lemma CodeKeepsAccounts(p: EventProcessor, id: string, m: string)
    requires p.Valid() && id != ""
    ensures var t := p.Core.trace;
      && Claims(t, id) + FailOpens(t, id) == Counts(t, id) + Abandoned(t, id)
      && Counts(t, id) <= 1 + Expiries(t, id) + FailOpens(t, id)
      && Justified(t, id) && Spaced(ClaimTimes(t, id), p.ttl)
    ensures m in p.table.Mem ==> p.table.Mem[m] == Fold(m, Order(p.Core.trace, m))
    ensures m in p.db.View.stats && m !in p.Core.stale ==> PrefixOf(p.db.View.stats[m], m, Order(p.Core.trace, m))
  {
    hide Run, Possible, Fold, Order, PrefixOf, Justified, Claims, FailOpens, Counts, Abandoned, Expiries, Spaced, ClaimTimes;
    CountsAreBounded(p.origin, p.Path, p.ttl, id);
    SkipsAreJustified(p.origin, p.Path, p.ttl, id);
    ClaimsAreSpaced(p.origin, p.Path, p.ttl, id);
    StoredRecordsArePrefixes(p.origin, p.Path, p.ttl, m);
  }
}
