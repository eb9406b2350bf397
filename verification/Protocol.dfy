/** The event processor's consumption protocol as a state machine: any number of workers of one
    process, the store they share, the clock, key expiry, lost replies and crashes.
    Every call into the store is one atomic step, so `ReserveEvent` is two. */
module Protocol {
  import opened Common
  import opened Aggregate

  datatype Mark = Processing | Processed

  datatype Reservation = Reservation(mark: Mark, deadline: nat)

  /** The store, one typed map per key family. */
  datatype Store = Store(
    now: nat,
    dedupe: map<string, Reservation>,
    stats: map<string, Stats>,
    latest: map<string, Stats>,
    active: set<string>)

  /** Where a busy worker stands inside `processEvent`; each name is the last thing it has done. */
  datatype Pc =
    | Received(e: MatchEvent)                // before SET NX
    | Refused(e: MatchEvent)                 // the key existed; before GET
    | Granted(e: MatchEvent)                 // allowed to continue; before the critical section
    | Applied(e: MatchEvent, snap: Stats)    // before MarkProcessed
    | Marked(e: MatchEvent, snap: Stats)     // before SET match:<id>:stats
    | Saved(e: MatchEvent, snap: Stats)      // before SET match:<id>:latest
    | Cached(e: MatchEvent, snap: Stats)     // before SADD matches:active
    | Listed(e: MatchEvent, snap: Stats)     // before the Kafka publish

  /** The reply to a write. A failed one may or may not have taken effect. */
  datatype Reply = Fine | Failed(landed: bool)
  {
    predicate Landed() {
      Fine? || landed
    }
  }

  datatype Reason = AlreadyProcessed | InFlight

  /** What happened so far, as far as the theorems need it. */
  datatype Act =
    | Claimed(id: string, at: nat)           // SET NX succeeded
    | FailedOpen(id: string)                 // a store error let the event through
    | Skipped(id: string, why: Reason)
    | Counted(e: MatchEvent)                 // folded into the aggregate
    | Expired(id: string)
    | Crashed(pcs: map<nat, Pc>, reloaded: map<string, Stats>)

  /** Everything logged so far, the latest act outermost. */
  datatype Trace = Start | Then(before: Trace, act: Act)

  datatype State = State(
    store: Store,
    mem: map<string, Stats>,
    pc: map<nat, Pc>,                        // the busy workers
    trace: Trace,
    stale: set<string>)                      // stored by an earlier incarnation and not reloaded by this one

  datatype Action =
    | Receive(w: nat, e: MatchEvent)
    | Bypass(w: nat)                         // no event ID, no deduplication
    | SetNX(w: nat, reply: Reply)
    | Get(w: nat, ok: bool)
    | Count(w: nat)
    | Mark(w: nat, reply: Reply)
    | Save(w: nat, reply: Reply)
    | Cache(w: nat, reply: Reply)
    | List(w: nat, reply: Reply)
    | Publish(w: nat)
    | Expire(id: string)
    | Advance(to: nat)
    | Crash(reloaded: set<string>)           // restart, reloading these matches

  function Init(now: nat): State {
    State(Store(now, map[], map[], map[], {}), map[], map[], Start, {})
  }

  function Move(s: State, w: nat, p: Pc): State {
    s.(pc := s.pc[w := p])
  }

  function Finish(s: State, w: nat): State {
    s.(pc := s.pc - {w})
  }

  function Log(s: State, a: Act): State {
    s.(trace := Then(s.trace, a))
  }

  predicate Enabled(s: State, a: Action) {
    if a.Receive? then a.w !in s.pc
    else if a.Bypass? then a.w in s.pc && s.pc[a.w].Received? && s.pc[a.w].e.eventID == ""
    else if a.SetNX? then a.w in s.pc && s.pc[a.w].Received? && s.pc[a.w].e.eventID != ""
    else if a.Get? then a.w in s.pc && s.pc[a.w].Refused?
    else if a.Count? then a.w in s.pc && s.pc[a.w].Granted?
    else if a.Mark? then a.w in s.pc && s.pc[a.w].Applied?
    else if a.Save? then a.w in s.pc && s.pc[a.w].Marked?
    else if a.Cache? then a.w in s.pc && s.pc[a.w].Saved?
    else if a.List? then a.w in s.pc && s.pc[a.w].Cached?
    else if a.Publish? then a.w in s.pc && s.pc[a.w].Listed?
    else if a.Expire? then a.id in s.store.dedupe && s.store.dedupe[a.id].deadline <= s.store.now
    else if a.Advance? then
      s.store.now <= a.to && forall id :: id in s.store.dedupe ==> a.to <= s.store.dedupe[id].deadline
    else a.reloaded <= s.store.active && a.reloaded <= s.store.stats.Keys
  }

  function Reserve(s: State, id: string, mark: Mark, ttl: nat): State {
    s.(store := s.store.(dedupe := s.store.dedupe[id := Reservation(mark, s.store.now + ttl)]))
  }

  /** SET NX: an error reply lets the event through whether or not the key was written. */
  function AfterSetNX(s: State, w: nat, reply: Reply, ttl: nat): State
    requires Enabled(s, SetNX(w, reply))
  {
    var e := s.pc[w].e;
    var free := e.eventID !in s.store.dedupe;
    var s' := if free && reply.Landed() then Reserve(s, e.eventID, Processing, ttl) else s;
    if reply.Failed? then Log(Move(s', w, Granted(e)), FailedOpen(e.eventID))
    else if free then Log(Move(s', w, Granted(e)), Claimed(e.eventID, s.store.now))
    else Move(s', w, Refused(e))
  }

  /** GET of an existing key; a key that expired in between counts as in flight. */
  function AfterGet(s: State, w: nat, ok: bool): State
    requires Enabled(s, Get(w, ok))
  {
    var e := s.pc[w].e;
    var d := s.store.dedupe;
    if !ok then Log(Move(s, w, Granted(e)), FailedOpen(e.eventID))
    else if e.eventID in d && d[e.eventID].mark.Processed? then Log(Finish(s, w), Skipped(e.eventID, AlreadyProcessed))
    else Log(Finish(s, w), Skipped(e.eventID, InFlight))
  }

  /** The critical section: apply the event in memory and copy the record. */
  function AfterCount(s: State, w: nat): State
    requires Enabled(s, Count(w))
  {
    var e := s.pc[w].e;
    var after := Apply(Current(s.mem, e.matchID), e);
    Log(Move(s.(mem := s.mem[e.matchID := after]), w, Applied(e, after)), Counted(e))
  }

  function AfterMark(s: State, w: nat, reply: Reply, ttl: nat): State
    requires Enabled(s, Mark(w, reply))
  {
    var p := s.pc[w];
    var s' := if p.e.eventID != "" && reply.Landed() then Reserve(s, p.e.eventID, Processed, ttl) else s;
    Move(s', w, Marked(p.e, p.snap))
  }

  function AfterSave(s: State, w: nat, reply: Reply): State
    requires Enabled(s, Save(w, reply))
  {
    var p := s.pc[w];
    var m := p.e.matchID;
    var s' := if reply.Landed()
              then s.(store := s.store.(stats := s.store.stats[m := p.snap]), stale := s.stale - {m})
              else s;
    Move(s', w, Saved(p.e, p.snap))
  }

  function AfterCache(s: State, w: nat, reply: Reply): State
    requires Enabled(s, Cache(w, reply))
  {
    var p := s.pc[w];
    var s' := if reply.Landed() then s.(store := s.store.(latest := s.store.latest[p.e.matchID := p.snap])) else s;
    Move(s', w, Cached(p.e, p.snap))
  }

  function AfterList(s: State, w: nat, reply: Reply): State
    requires Enabled(s, List(w, reply))
  {
    var p := s.pc[w];
    var s' := if reply.Landed() then s.(store := s.store.(active := s.store.active + {p.e.matchID})) else s;
    Move(s', w, Listed(p.e, p.snap))
  }

  /** The process dies and restarts: memory is rebuilt from the matches it manages to reload. */
  function AfterCrash(s: State, reloaded: set<string>): State
    requires Enabled(s, Crash(reloaded))
  {
    var stale := s.store.stats.Keys - reloaded;
    var mem := s.store.stats - stale;
    Log(s.(mem := mem, pc := map[], stale := stale), Crashed(s.pc, mem))
  }

  function Next(s: State, a: Action, ttl: nat): State
    requires Enabled(s, a)
  {
    if a.Receive? then Move(s, a.w, Received(a.e))
    else if a.Bypass? then Move(s, a.w, Granted(s.pc[a.w].e))
    else if a.SetNX? then AfterSetNX(s, a.w, a.reply, ttl)
    else if a.Get? then AfterGet(s, a.w, a.ok)
    else if a.Count? then AfterCount(s, a.w)
    else if a.Mark? then AfterMark(s, a.w, a.reply, ttl)
    else if a.Save? then AfterSave(s, a.w, a.reply)
    else if a.Cache? then AfterCache(s, a.w, a.reply)
    else if a.List? then AfterList(s, a.w, a.reply)
    else if a.Publish? then Finish(s, a.w)
    else if a.Expire? then Log(s.(store := s.store.(dedupe := s.store.dedupe - {a.id})), Expired(a.id))
    else if a.Advance? then s.(store := s.store.(now := a.to))
    else AfterCrash(s, a.reloaded)
  }

  // ----- runs

  datatype Schedule = Begin | Step(earlier: Schedule, action: Action)

  predicate Possible(s: State, schedule: Schedule, ttl: nat)
    decreases schedule, 0
  {
    match schedule
    case Begin => true
    case Step(earlier, a) => Possible(s, earlier, ttl) && Enabled(Run(s, earlier, ttl), a)
  }

  /** The state a schedule leads to. */
  function Run(s: State, schedule: Schedule, ttl: nat): State
    requires Possible(s, schedule, ttl)
    decreases schedule, 1
  {
    match schedule
    case Begin => s
    case Step(earlier, a) => Next(Run(s, earlier, ttl), a, ttl)
  }

  /** Extends a schedule by one action. */
  lemma Extend(s: State, schedule: Schedule, a: Action, ttl: nat)
    requires Possible(s, schedule, ttl) && Enabled(Run(s, schedule, ttl), a)
    ensures Possible(s, Step(schedule, a), ttl)
    ensures Run(s, Step(schedule, a), ttl) == Next(Run(s, schedule, ttl), a, ttl)
  {
  }

  /** The worker carries a copy of the record. */
  predicate Holds(p: Pc) {
    p.Applied? || p.Marked? || p.Saved? || p.Cached? || p.Listed?
  }

  /** Steps that neither touch a reservation nor decide about one. */
  predicate Quiet(a: Action) {
    a.Receive? || a.Bypass? || a.Save? || a.Cache? || a.List? || a.Publish?
  }

  lemma QuietStep(s: State, a: Action, ttl: nat)
    requires Quiet(a) && Enabled(s, a)
    ensures var s' := Next(s, a, ttl);
      && s'.trace == s.trace && s'.store.dedupe == s.store.dedupe && s'.store.now == s.store.now
      && s'.mem == s.mem && s'.pc - {a.w} == s.pc - {a.w}
      && (a.w in s'.pc ==> !s'.pc[a.w].Refused? && !s'.pc[a.w].Applied? && (s'.pc[a.w].Granted? ==> s'.pc[a.w].e.eventID == ""))
      && (a.w in s.pc ==> !s.pc[a.w].Granted?)
      && (a.w in s'.pc && Holds(s'.pc[a.w]) ==>
            a.w in s.pc && Holds(s.pc[a.w]) && s'.pc[a.w].e == s.pc[a.w].e && s'.pc[a.w].snap == s.pc[a.w].snap)
      && (!a.Save? ==> s'.store.stats == s.store.stats && s'.stale == s.stale)
  {
  }
}
