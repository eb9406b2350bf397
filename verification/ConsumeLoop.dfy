/** The loop of main: fetch, handle, commit, with a growing pause after read errors. Whatever store,
    broker and clock answer, it is a run of the consume-loop machine, so what holds of the machine's
    runs holds of the live objects. */
module ConsumeLoop {
  import opened Common
  import opened Aggregate
  import opened Protocol
  import opened Redis
  import opened Matches
  import opened Consumer
  import opened OffsetSafety
  import opened ClaimSafety
  import opened ExactlyOnce
  import opened PartialRecords
  import opened Delivery
  import opened Processor

  /** How much is asked of a run: nothing, that the reservation commands answer, or that the record
      and SADD writes and the reloads succeed as well. */
  datatype Grade = Any | Gate | Full

  predicate Meets(grade: Grade, c: Loop, log: seq<Message>, t: Turn) {
    (grade.Gate? ==> Gated(c, log, t)) && (grade.Full? ==> Steady(c, log, t))
  }

  predicate AllMeet(grade: Grade, now: nat, log: seq<Message>, turns: Turns, ttl: nat)
    requires Feasible(now, log, turns, ttl)
  {
    (grade.Gate? ==> AllGated(now, log, turns, ttl)) && (grade.Full? ==> AllSteady(now, log, turns, ttl))
  }

  predicate Suits(grade: Grade, r: Replies) {
    && (!grade.Any? ==> r.nx.Fine? && !r.evict && r.getOk)
    && (grade.Full? ==> r.save.Fine? && r.list.Fine?)
  }

  // ----- protocol steps as turns of the loop

  /** The turns and the protocol steps tell the same run, and it meets the grade. */
  predicate Together(grade: Grade, now: nat, log: seq<Message>, turns: Turns, path: Schedule, ttl: nat, c: Loop) {
    && Reaches(now, log, turns, ttl, c) && AllMeet(grade, now, log, turns, ttl)
    && Possible(Init(now), path, ttl) && Run(Init(now), path, ttl) == c.core
  }

  lemma TurnTogether(grade: Grade, now: nat, log: seq<Message>, turns: Turns, path: Schedule, ttl: nat, c: Loop, t: Turn)
    returns (c': Loop)
    requires Together(grade, now, log, turns, path, ttl, c) && Can(c, log, t) && Meets(grade, c, log, t)
    ensures c' == After(c, log, t, ttl) && Together(grade, now, log, Also(turns, t), Taken(c, log, t, path), ttl, c')
  {
    hide After, Can, Taken, Steady, Gated, Possible, Run;
    c' := After(c, log, t, ttl);
    ExtendMoves(now, log, turns, t, ttl);
    TurnIsProtocol(now, path, c, log, t, ttl);
  }

  lemma WorkTogether(grade: Grade, now: nat, log: seq<Message>, turns: Turns, path: Schedule, ttl: nat, c: Loop, a: Action)
    returns (c': Loop)
    requires Together(grade, now, log, turns, path, ttl, c) && Can(c, log, Work(a)) && Meets(grade, c, log, Work(a))
    ensures c' == AfterWork(c, log, a, ttl) && Together(grade, now, log, Also(turns, Work(a)), Step(path, a), ttl, c')
  {
    hide Together, AfterWork, Meets, Can;
    c' := TurnTogether(grade, now, log, turns, path, ttl, c, Work(a));
  }

  /** Nothing but the message at hand moves. */
  predicate Same(c: Loop, c': Loop) {
    c'.offsets == c.offsets && c'.crashes == c.crashes
  }

  lemma ClaimTogether(grade: Grade, now: nat, log: seq<Message>, turns: Turns, path: Schedule, ttl: nat, c: Loop, e: MatchEvent, r: Replies)
    returns (longer: Turns, c': Loop)
    requires Together(grade, now, log, turns, path, ttl, c) && Suits(grade, r) && (grade.Any? || e.eventID != "")
    requires c.phase.Handling? && c.phase.off < |log| && log[c.phase.off] == Good(e) && c.core.pc == map[ME := Received(e)]
    ensures Together(grade, now, log, longer, Claiming(path, c.core.store, e, r), ttl, c') && Same(c, c')
    ensures if Continues(c.core.store, e, r) then c'.phase == c.phase && c'.core.pc == map[ME := Granted(e)]
            else c'.phase == Done(c.phase.off) && c'.core.pc == map[]
  {
    hide Together, Apply, Ahead;
    if e.eventID == "" {
      c' := WorkTogether(grade, now, log, turns, path, ttl, c, Bypass(ME));
      longer := Also(turns, Work(Bypass(ME)));
    } else {
      c' := WorkTogether(grade, now, log, turns, path, ttl, c, SetNX(ME, r.nx));
      longer := Also(turns, Work(SetNX(ME, r.nx)));
      if Refuses(c.core.store, e, r) {
        longer, c' := GetTogether(grade, now, log, longer, Step(path, SetNX(ME, r.nx)), ttl, c', e, r);
      }
    }
  }

  /** The GET, and the expiry that may come before it. */
  lemma GetTogether(grade: Grade, now: nat, log: seq<Message>, turns: Turns, path: Schedule, ttl: nat, c: Loop, e: MatchEvent, r: Replies)
    returns (longer: Turns, c': Loop)
    requires Together(grade, now, log, turns, path, ttl, c) && Suits(grade, r) && e.eventID != ""
    requires c.phase.Handling? && c.phase.off < |log| && log[c.phase.off] == Good(e) && c.core.pc == map[ME := Refused(e)]
    ensures var p := if Gone(c.core.store, e.eventID, r.evict) then Step(path, Expire(e.eventID)) else path;
      Together(grade, now, log, longer, Step(p, Get(ME, r.getOk)), ttl, c') && Same(c, c')
    ensures if r.getOk then c'.phase == Done(c.phase.off) && c'.core.pc == map[]
            else c'.phase == c.phase && c'.core.pc == map[ME := Granted(e)]
  {
    hide Together, Apply, Ahead;
    var p;
    longer, p, c' := turns, path, c;
    if Gone(c.core.store, e.eventID, r.evict) {
      c' := TurnTogether(grade, now, log, turns, path, ttl, c, Turn.Lapse(e.eventID));
      longer, p := Also(turns, Turn.Lapse(e.eventID)), Step(path, Expire(e.eventID));
    }
    c' := WorkTogether(grade, now, log, longer, p, ttl, c', Get(ME, r.getOk));
    longer := Also(longer, Work(Get(ME, r.getOk)));
  }

  /** Where the worker stands after k steps past the gate. */
  predicate StandsAfter(k: nat, pc: map<nat, Pc>) {
    if k >= ADMISSION_STEPS then pc == map[]
    else
      && pc.Keys == {ME}
      && (if k == 0 then pc[ME].Granted? else if k == 1 then pc[ME].Applied? else if k == 2 then pc[ME].Marked?
          else if k == 3 then pc[ME].Saved? else if k == 4 then pc[ME].Cached? else pc[ME].Listed?)
  }

  lemma {:induction false} AdmitTogether(grade: Grade, now: nat, log: seq<Message>, turns: Turns, path: Schedule, ttl: nat, c: Loop,
                                         r: Replies, k: nat)
    returns (longer: Turns, c': Loop)
    requires Together(grade, now, log, turns, path, ttl, c) && Suits(grade, r) && k <= ADMISSION_STEPS
    requires c.phase.Handling? && c.phase.off < |log| && log[c.phase.off].Good? && StandsAfter(0, c.core.pc)
    ensures Together(grade, now, log, longer, Admitting(path, r, k), ttl, c') && Same(c, c')
    ensures StandsAfter(k, c'.core.pc) && c'.phase == if k == ADMISSION_STEPS then Done(c.phase.off) else c.phase
  {
    hide Together, Apply, Empty, Ahead;
    if k == 0 {
      longer, c' := turns, c;
    } else {
      longer, c' := AdmitTogether(grade, now, log, turns, path, ttl, c, r, k - 1);
      var a, before := AdmissionStep(r, k - 1), c';
      AdmissionIsOrderly(before, log, r, k - 1, ttl);
      hide AdmissionStep, AfterWork, Can, StandsAfter;
      c' := WorkTogether(grade, now, log, longer, Admitting(path, r, k - 1), ttl, before, a);
      longer := Also(longer, Work(a));
    }
  }

  lemma AdmissionIsOrderly(c: Loop, log: seq<Message>, r: Replies, k: nat, ttl: nat)
    requires c.phase.Handling? && c.phase.off < |log| && log[c.phase.off].Good? && k < ADMISSION_STEPS && StandsAfter(k, c.core.pc)
    ensures var a := AdmissionStep(r, k);
      && Can(c, log, Work(a)) && (forall grade :: Suits(grade, r) ==> Meets(grade, c, log, Work(a)))
      && var c' := AfterWork(c, log, a, ttl);
        && Same(c, c') && StandsAfter(k + 1, c'.core.pc)
        && c'.phase == if k + 1 == ADMISSION_STEPS then Done(c.phase.off) else c.phase
  {
    hide Apply, Empty, Ahead;
  }

  /** Handling and committing the next message, however everything answers. */
  lemma MessageTogether(grade: Grade, now: nat, log: seq<Message>, turns: Turns, path: Schedule, ttl: nat, c: Loop, r: Replies,
                        published: bool, accepted: bool)
    returns (longer: Turns, c': Loop)
    requires Together(grade, now, log, turns, path, ttl, c) && Suits(grade, r) && (grade.Any? || AllHaveIDs(log))
    requires c.phase.Ready? && c.core.pc == map[] && c.offsets.pos < |log|
    ensures var msg, off := log[c.offsets.pos], c.offsets.pos;
      && Together(grade, now, log, longer, if msg.Bad? then path else Script(path, c.core.store, msg.e, r), ttl, c')
      && c'.phase.Ready? && c'.core.pc == map[] && c'.crashes == c.crashes
      && c'.offsets == Offsets(off + 1, if accepted then off + 1 else c.offsets.requested, c.offsets.committed)
  {
    var off := c.offsets.pos;
    hide Together, Ahead, Apply;
    c' := TurnTogether(grade, now, log, turns, path, ttl, c, Fetch);
    longer := Also(turns, Fetch);
    var p := path;
    if log[off].Good? {
      var e := log[off].e;
      p := Step(path, Receive(ME, e));
      longer, c' := ClaimTogether(grade, now, log, longer, p, ttl, c', e, r);
      p := Claiming(p, c.core.store, e, r);
      if Continues(c.core.store, e, r) {
        hide Claiming, Admitting;
        longer, c' := AdmitTogether(grade, now, log, longer, p, ttl, c', r, ADMISSION_STEPS);
        p := Admitting(p, r, ADMISSION_STEPS);
      }
    } else {
      c' := TurnTogether(grade, now, log, longer, p, ttl, c', DeadLetter(published));
      longer := Also(longer, DeadLetter(published));
    }
    c' := TurnTogether(grade, now, log, longer, p, ttl, c', Commit(accepted));
    longer := Also(longer, Commit(accepted));
  }

  // ----- the reader

  /** A consumer-group reader over one partition: it commits only what it is told to, and a commit
      reaches the broker later than it is accepted. */
  class Reader {
    const log: seq<Message>
    var pos: nat
    var requested: nat
    var committed: nat

    constructor (log: seq<Message>)
      ensures this.log == log && At() == Offsets(0, 0, 0)
    {
      this.log, pos, requested, committed := log, 0, 0, 0;
    }

    function At(): Offsets
      reads this
    {
      Offsets(pos, requested, committed)
    }

    method FetchMessage() returns (off: nat, msg: Message)
      requires pos < |log|
      modifies `pos
      ensures off == old(pos) && msg == log[off] && pos == off + 1
    {
      off, msg, pos := pos, log[pos], pos + 1;
    }

    method CommitMessages(off: nat, accepted: bool)
      modifies `requested
      ensures requested == if accepted then off + 1 else old(requested)
    {
      if accepted { requested := off + 1; }
    }

    /** Accepted commits reach the broker. */
    method Flush()
      modifies `committed
      ensures committed == requested
    {
      committed := requested;
    }

    /** A rebalance: reading resumes at the broker's offset. */
    method Rewind()
      modifies `pos
      ensures pos == committed
    {
      pos := committed;
    }

    /** A new process resumes at the broker's offset and knows of no pending commit. */
    method Reconnect()
      modifies `pos, `requested
      ensures pos == committed && requested == committed
    {
      pos, requested := committed, committed;
    }
  }

  // ----- pauses

  const MAX_READ_BACKOFF: nat := 30

  /** The pause, in seconds, after a read error that k others immediately precede. */
  function Pause(k: nat): nat {
    if Pow2(k) < MAX_READ_BACKOFF then Pow2(k) else MAX_READ_BACKOFF
  }

  datatype Round = ReadError | Arrival(slack: nat, r: Replies, answers: seq<Reply>, accepted: bool)

  /** How many read errors end the first n rounds. */
  function Streak(rounds: seq<Round>, n: nat): nat
    requires n <= |rounds|
  {
    if n == 0 || rounds[n - 1].Arrival? then 0 else 1 + Streak(rounds, n - 1)
  }

  /** All pauses of the first n rounds. */
  function Pauses(rounds: seq<Round>, n: nat): seq<nat>
    requires n <= |rounds|
  {
    if n == 0 then []
    else if rounds[n - 1].ReadError? then Pauses(rounds, n - 1) + [Pause(Streak(rounds, n - 1))]
    else Pauses(rounds, n - 1)
  }

  function Arrivals(rounds: seq<Round>, n: nat): nat
    requires n <= |rounds|
  {
    if n == 0 then 0 else Arrivals(rounds, n - 1) + if rounds[n - 1].Arrival? then 1 else 0
  }

  lemma {:induction false} ArrivalsFit(rounds: seq<Round>, n: nat)
    requires n <= |rounds|
    ensures Arrivals(rounds, n) <= n && |Pauses(rounds, n)| == n - Arrivals(rounds, n)
  {
    if n > 0 {
      ArrivalsFit(rounds, n - 1);
    }
  }

  /** The pause for the read error of round i: a second if it is the first, or comes right after an arrival,
      and otherwise twice the pause before, but never more than half a minute. */
  predicate PauseAt(rounds: seq<Round>, i: nat, pauses: seq<nat>)
    requires i < |rounds|
  {
    var k := i - Arrivals(rounds, i);
    && 0 <= k < |pauses|
    && (i == 0 || rounds[i - 1].Arrival? ==> pauses[k] == 1)
    && (i > 0 && rounds[i - 1].ReadError? ==> k > 0 && pauses[k] == if pauses[k - 1] >= 15 then 30 else 2 * pauses[k - 1])
  }

  /** One pause for each read error, in order. */
  predicate Doubling(rounds: seq<Round>, n: nat, pauses: seq<nat>)
    requires n <= |rounds|
  {
    && |pauses| == n - Arrivals(rounds, n)
    && forall i :: 0 <= i < n && rounds[i].ReadError? ==> PauseAt(rounds, i, pauses)
  }

  lemma PauseDoubles(k: nat)
    ensures Pause(0) == 1 && Pause(k + 1) == if Pause(k) >= 15 then 30 else 2 * Pause(k)
  {
  }

  /** The pause after a read error, from how the errors before it ended. */
  lemma LastPause(rounds: seq<Round>, n: nat)
    requires 0 < n <= |rounds| && rounds[n - 1].ReadError?
    ensures var before, pause := Pauses(rounds, n - 1), Pause(Streak(rounds, n - 1));
      && Pauses(rounds, n) == before + [pause] && Arrivals(rounds, n) == Arrivals(rounds, n - 1)
      && (n == 1 || rounds[n - 2].Arrival? ==> pause == 1)
      && (n > 1 && rounds[n - 2].ReadError? ==>
            before != [] && pause == if before[|before| - 1] >= 15 then 30 else 2 * before[|before| - 1])
  {
    if n > 1 {
      PauseDoubles(Streak(rounds, n - 2));
    } else {
      PauseDoubles(0);
    }
    hide Pause;
  }

  lemma {:induction false} PausesDouble(rounds: seq<Round>, n: nat)
    requires n <= |rounds|
    ensures Doubling(rounds, n, Pauses(rounds, n))
  {
    if n > 0 {
      var before := Pauses(rounds, n - 1);
      PausesDouble(rounds, n - 1);
      assert rounds[n - 1].Arrival? ==> Pauses(rounds, n) == before && Arrivals(rounds, n) == Arrivals(rounds, n - 1) + 1;
      if rounds[n - 1].ReadError? {
        LastPause(rounds, n);
        DoublingGrows(rounds, n, before, Pause(Streak(rounds, n - 1)));
      }
      hide Pauses, Pause, Streak, PauseAt, Arrivals;
    }
  }

  lemma DoublingGrows(rounds: seq<Round>, n: nat, before: seq<nat>, pause: nat)
    requires 0 < n <= |rounds| && rounds[n - 1].ReadError? && Doubling(rounds, n - 1, before)
    requires n == 1 || rounds[n - 2].Arrival? ==> pause == 1
    requires n > 1 && rounds[n - 2].ReadError? ==>
      before != [] && pause == if before[|before| - 1] >= 15 then 30 else 2 * before[|before| - 1]
    ensures Doubling(rounds, n, before + [pause])
  {
    var pauses := before + [pause];
    assert Arrivals(rounds, n) == Arrivals(rounds, n - 1);
    hide Arrivals;
    forall i | 0 <= i < n && rounds[i].ReadError? ensures PauseAt(rounds, i, pauses) {
      if i < n - 1 {
        assert PauseAt(rounds, i, before);
      }
    }
  }

  /** Every dead-letter attempt has its answer. */
  predicate Answered(rounds: seq<Round>) {
    forall i :: 0 <= i < |rounds| && rounds[i].Arrival? ==> |rounds[i].answers| == MAX_DLQ_ATTEMPTS
  }

  predicate AllSuit(grade: Grade, rounds: seq<Round>) {
    forall i :: 0 <= i < |rounds| && rounds[i].Arrival? ==> Suits(grade, rounds[i].r)
  }

  // ----- the loop

  /** The consume-loop machine, after these turns, is where reader and processor are. */
  ghost predicate Tells(p: EventProcessor, reader: Reader, story: Turns, grade: Grade)
    reads p, reader
  {
    && Feasible(p.origin, reader.log, story, p.ttl) && AllMeet(grade, p.origin, reader.log, story, p.ttl)
    && var c := Reached(p.origin, reader.log, story, p.ttl);
      c.phase.Ready? && c.core == p.Core && c.offsets == reader.At()
  }

  /** The crashes inside messages so far. */
  function Wounds(now: nat, log: seq<Message>, turns: Turns, ttl: nat): Crashes
    requires Feasible(now, log, turns, ttl)
  {
    Reached(now, log, turns, ttl).crashes
  }

  lemma Retell(grade: Grade, now: nat, log: seq<Message>, turns: Turns, path: Schedule, ttl: nat, r: Replies,
               published: bool, accepted: bool)
    returns (longer: Turns)
    requires Suits(grade, r) && (grade.Any? || AllHaveIDs(log))
    requires Feasible(now, log, turns, ttl) && AllMeet(grade, now, log, turns, ttl) && Possible(Init(now), path, ttl)
    requires var c := Reached(now, log, turns, ttl);
      c.phase.Ready? && c.core.pc == map[] && c.core == Run(Init(now), path, ttl) && c.offsets.pos < |log|
    ensures Feasible(now, log, longer, ttl) && AllMeet(grade, now, log, longer, ttl)
    ensures var c, c', off := Reached(now, log, turns, ttl), Reached(now, log, longer, ttl), Reached(now, log, turns, ttl).offsets.pos;
      && (log[off].Bad? ==> c'.core == c.core)
      && (log[off].Good? ==> Possible(Init(now), Script(path, c.core.store, log[off].e, r), ttl))
      && (log[off].Good? ==> c'.core == Run(Init(now), Script(path, c.core.store, log[off].e, r), ttl))
      && c'.phase.Ready? && c'.crashes == c.crashes
      && c'.offsets == Offsets(off + 1, if accepted then off + 1 else c.offsets.requested, c.offsets.committed)
  {
    hide Run, Possible, Reached, Feasible, Script, AllMeet;
    var c := Reached(now, log, turns, ttl);
    assert Together(grade, now, log, turns, path, ttl, c);
    var c';
    longer, c' := MessageTogether(grade, now, log, turns, path, ttl, c, r, published, accepted);
  }

  /** Fetches, handles and commits one message. */
  method Deliver(p: EventProcessor, reader: Reader, slack: nat, r: Replies, answers: seq<Reply>, accepted: bool,
                 ghost story: Turns, ghost grade: Grade)
    returns (ghost longer: Turns)
    requires p.Valid() && reader.pos < |reader.log| && |answers| == MAX_DLQ_ATTEMPTS
    requires Tells(p, reader, story, grade) && Suits(grade, r) && (grade.Any? || AllHaveIDs(reader.log))
    modifies p, p.db, p.table, p.table.Owner.Keys, p.table.Backing, reader
    ensures p.Valid() && p.table == old(p.table) && p.handled == old(p.handled) + 1
    ensures fresh(p.table.Owner.Keys - old(p.table.Owner.Keys)) && fresh(p.table.Backing - old(p.table.Backing))
    ensures reader.pos == old(reader.pos) + 1 && reader.committed == old(reader.committed)
    ensures reader.requested == if accepted then reader.pos else old(reader.requested)
    ensures var msg := reader.log[old(reader.pos)];
      p.Path == if msg.Good? then Script(old(p.Path), old(p.db.View), msg.e, r) else old(p.Path)
    ensures Tells(p, reader, longer, grade)
    ensures Wounds(p.origin, reader.log, longer, p.ttl) == Wounds(p.origin, reader.log, story, p.ttl)
  {
    hide Run, Possible, Reached, Feasible, AllHaveIDs, AllMeet, Suits, Continues, Script;
    hide StatsStore.Valid, Table.Valid, EventProcessor.Balanced;
    var off, msg := reader.FetchMessage();
    var outcome := p.HandleMessage(off, msg, slack, r, answers);
    reader.CommitMessages(off, accepted);
    longer := Retell(grade, p.origin, reader.log, story, old(p.Path), p.ttl, r, outcome.DeadLettered?, accepted);
  }

  /** The loop, for as long as messages or read errors come. A message that arrives when the log is
      exhausted cannot be: the loop waits there. */
  method Consume(p: EventProcessor, reader: Reader, rounds: seq<Round>, ghost story: Turns, ghost grade: Grade)
    returns (done: nat, pauses: seq<nat>, ghost longer: Turns)
    requires p.Valid() && Answered(rounds)
    requires Tells(p, reader, story, grade) && AllSuit(grade, rounds) && (grade.Any? || AllHaveIDs(reader.log))
    modifies p, p.db, p.table, p.table.Owner.Keys, p.table.Backing, reader
    ensures p.Valid() && p.table == old(p.table)
    ensures fresh(p.table.Owner.Keys - old(p.table.Owner.Keys)) && fresh(p.table.Backing - old(p.table.Backing))
    ensures done <= |rounds| && (done < |rounds| ==> rounds[done].Arrival? && reader.pos >= |reader.log|)
    ensures Doubling(rounds, done, pauses)
    ensures p.handled == old(p.handled) + Arrivals(rounds, done) && reader.pos == old(reader.pos) + Arrivals(rounds, done)
    ensures Tells(p, reader, longer, grade)
    ensures Wounds(p.origin, reader.log, longer, p.ttl) == Wounds(p.origin, reader.log, story, p.ttl)
  {
    hide AllHaveIDs, EventProcessor.Valid, Suits, Wounds, AllMeet, Reached, Doubling;
    var readBackoff := 1;
    done, pauses, longer := 0, [], story;
    while done < |rounds|
      invariant done <= |rounds| && readBackoff == Pause(Streak(rounds, done))
      invariant p.Valid() && p.table == old(p.table)
      invariant fresh(p.table.Owner.Keys - old(p.table.Owner.Keys)) && fresh(p.table.Backing - old(p.table.Backing))
      invariant pauses == Pauses(rounds, done)
      invariant p.handled == old(p.handled) + Arrivals(rounds, done) && reader.pos == old(reader.pos) + Arrivals(rounds, done)
      invariant Tells(p, reader, longer, grade)
      invariant Wounds(p.origin, reader.log, longer, p.ttl) == Wounds(p.origin, reader.log, story, p.ttl)
    {
      if rounds[done].ReadError? {
        pauses := pauses + [readBackoff];
        readBackoff := readBackoff * 2;
        if readBackoff > MAX_READ_BACKOFF {
          readBackoff := MAX_READ_BACKOFF;
        }
      } else {
        if reader.pos >= |reader.log| {
          break;
        }
        readBackoff := 1;
        longer := Deliver(p, reader, rounds[done].slack, rounds[done].r, rounds[done].answers, rounds[done].accepted, longer, grade);
      }
      done := done + 1;
    }
    PausesDouble(rounds, done);
  }

  /** From every point between messages that any run reaches, and whatever store, broker and commit then
      answer, the next message is completed and passed, a bad one without touching store or memory: nothing
      blocks the partition. */
  lemma NextMessageCompletes(now: nat, log: seq<Message>, turns: Turns, ttl: nat, r: Replies, published: bool, accepted: bool)
    returns (longer: Turns)
    requires Feasible(now, log, turns, ttl)
    requires var c := Reached(now, log, turns, ttl); c.phase.Ready? && c.offsets.pos < |log|
    ensures Feasible(now, log, longer, ttl)
    ensures var c, c' := Reached(now, log, turns, ttl), Reached(now, log, longer, ttl);
      && c'.phase.Ready? && c'.offsets.pos == c.offsets.pos + 1
      && (log[c.offsets.pos].Bad? ==> c'.core == c.core)
      && Carried(c'.ledger, c'.core.trace, log, c.offsets.pos)
  {
    RunIsSound(now, log, turns, ttl);
    LoopIsProtocol(now, log, turns, ttl);
    var c := Reached(now, log, turns, ttl);
    assert c.core.pc == map[];
    hide Reached, Feasible, Possible, Run, StepsOf, Script;
    longer := Retell(Any, now, log, turns, StepsOf(now, log, turns, ttl), ttl, r, published, accepted);
    RunIsSound(now, log, longer, ttl);
  }

  // ----- the life of the service

  datatype Episode =
    | Consuming(rounds: seq<Round>)
    | Flushing
    | Rebalancing
    | Waiting(to: nat)
    | Lapsing(eventID: string, careful: bool)   // if careful, only of an ID that will not be read again
    | Restarting(membersOk: bool, unreadable: set<string>)
    | Dying(slack: nat, r: Replies, death: Death, membersOk: bool, unreadable: set<string>)

  /** An episode is well formed: no death comes after the last step. */
  predicate Sensible(e: Episode) {
    && (e.Consuming? ==> Answered(e.rounds))
    && (e.Dying? && e.death.OnceReserved? ==> e.death.steps < ADMISSION_STEPS)
  }

  /** An episode leaves a run of this grade one of this grade. */
  predicate Bearable(grade: Grade, e: Episode) {
    && (e.Consuming? ==> AllSuit(grade, e.rounds))
    && (e.Dying? ==> Suits(grade, e.r))
    && (e.Lapsing? && !grade.Any? ==> e.careful)
    && (grade.Full? && (e.Restarting? || e.Dying?) ==> e.membersOk && e.unreadable == {})
  }

  lemma CutTogether(grade: Grade, now: nat, log: seq<Message>, turns: Turns, path: Schedule, ttl: nat, c: Loop, r: Replies, death: Death)
    returns (longer: Turns, c': Loop)
    requires Together(grade, now, log, turns, path, ttl, c) && Suits(grade, r) && (grade.Any? || AllHaveIDs(log))
    requires c.phase.Ready? && c.core.pc == map[] && c.offsets.pos < |log|
    requires death.OnceReserved? ==> death.steps < ADMISSION_STEPS
    ensures var msg := log[c.offsets.pos];
      && Together(grade, now, log, longer, if msg.Bad? then path else CutShort(path, c.core.store, msg.e, r, death), ttl, c')
      && Same(c, c')
  {
    var off := c.offsets.pos;
    hide Together, Ahead, Apply, Admitting;
    c' := TurnTogether(grade, now, log, turns, path, ttl, c, Fetch);
    longer := Also(turns, Fetch);
    if log[off].Good? && !death.BeforeReserve? {
      var e, p := log[off].e, Step(path, Receive(ME, log[off].e));
      if death.BeforeGet? && Refuses(c.core.store, e, r) {
        c' := WorkTogether(grade, now, log, longer, p, ttl, c', SetNX(ME, r.nx));
        longer := Also(longer, Work(SetNX(ME, r.nx)));
      } else {
        longer, c' := ClaimTogether(grade, now, log, longer, p, ttl, c', e, r);
        if death.OnceReserved? && Continues(c.core.store, e, r) {
          hide Claiming;
          longer, c' := AdmitTogether(grade, now, log, longer, Claiming(p, c.core.store, e, r), ttl, c', r, death.steps);
        }
      }
    }
  }

  lemma RestartTogether(grade: Grade, now: nat, log: seq<Message>, turns: Turns, path: Schedule, ttl: nat, c: Loop,
                        membersOk: bool, unreadable: set<string>)
    returns (c': Loop)
    requires Together(grade, now, log, turns, path, ttl, c) && (grade.Full? ==> membersOk && unreadable == {})
    ensures var reloaded := Reloadable(c.core.store, membersOk, unreadable);
      && Enabled(c.core, Crash(reloaded)) && c' == AfterRestart(c, reloaded)
      && Together(grade, now, log, Also(turns, Turn.Restart(reloaded)), Step(path, Crash(reloaded)), ttl, c')
  {
    hide Together, AfterCrash;
    var reloaded := Reloadable(c.core.store, membersOk, unreadable);
    c' := TurnTogether(grade, now, log, turns, path, ttl, c, Turn.Restart(reloaded));
  }

  /** One stretch of the service's life: any messages, read errors and commits, flushed commits, rewinds,
      time, expiry, restarts and deaths inside a message. */
  method Live(p: EventProcessor, reader: Reader, episode: Episode, ghost story: Turns, ghost grade: Grade) returns (ghost longer: Turns)
    requires p.Valid() && Sensible(episode) && Tells(p, reader, story, grade)
    requires Bearable(grade, episode) && (grade.Any? || AllHaveIDs(reader.log))
    modifies p, p.db, p.table, p.table.Owner.Keys, p.table.Backing, reader
    ensures p.Valid() && Tells(p, reader, longer, grade)
    ensures fresh({p.table} - {old(p.table)})
    ensures fresh(p.table.Owner.Keys - old(p.table.Owner.Keys)) && fresh(p.table.Backing - old(p.table.Backing))
    ensures !episode.Dying? ==> Wounds(p.origin, reader.log, longer, p.ttl) == Wounds(p.origin, reader.log, story, p.ttl)
  {
    hide AllHaveIDs, AllMeet, Suits, Wounds, Ahead, EventProcessor.Valid, Tells;
    if episode.Consuming? {
      var done, pauses;
      done, pauses, longer := Consume(p, reader, episode.rounds, story, grade);
    } else if episode.Flushing? || episode.Rebalancing? {
      longer := Reposition(p, reader, episode.Flushing?, story, grade);
    } else if episode.Waiting? {
      longer := Wait(p, reader, episode.to, story, grade);
    } else if episode.Lapsing? && episode.careful && Ahead(reader.log, Floor(reader.At()), episode.eventID) {
      longer := story;
    } else if episode.Lapsing? {
      longer := Forget(p, reader, episode.eventID, story, grade);
    } else if episode.Restarting? {
      longer := Reboot(p, reader, episode.membersOk, episode.unreadable, story, grade);
    } else if reader.pos < |reader.log| {
      longer := Perish(p, reader, episode.slack, episode.r, episode.death, episode.membersOk, episode.unreadable, story, grade);
    } else {
      longer := story;
    }
  }

  method Reposition(p: EventProcessor, reader: Reader, flush: bool, ghost story: Turns, ghost grade: Grade) returns (ghost longer: Turns)
    requires p.Valid() && Tells(p, reader, story, grade)
    modifies reader
    ensures p.Valid() && Tells(p, reader, longer, grade)
    ensures Wounds(p.origin, reader.log, longer, p.ttl) == Wounds(p.origin, reader.log, story, p.ttl)
  {
    hide Reached, Feasible, AllGated, AllSteady, EventProcessor.Valid;
    if flush {
      reader.Flush();
    } else {
      reader.Rewind();
    }
    ghost var t := if flush then Flush else Rewind;
    ExtendMoves(p.origin, reader.log, story, t, p.ttl);
    QuietTurnMeets(grade, p.origin, reader.log, story, t, p.ttl);
    longer := Also(story, t);
  }

  /** Flushing, rewinding and time meet every grade. */
  lemma QuietTurnMeets(grade: Grade, now: nat, log: seq<Message>, turns: Turns, t: Turn, ttl: nat)
    requires Feasible(now, log, Also(turns, t), ttl) && Feasible(now, log, turns, ttl) && AllMeet(grade, now, log, turns, ttl)
    requires t.Flush? || t.Rewind? || t.Tick?
    ensures AllMeet(grade, now, log, Also(turns, t), ttl)
  {
  }

  method Wait(p: EventProcessor, reader: Reader, to: nat, ghost story: Turns, ghost grade: Grade) returns (ghost longer: Turns)
    requires p.Valid() && Tells(p, reader, story, grade)
    modifies p`Core, p`Path, p.db
    ensures p.Valid() && Tells(p, reader, longer, grade)
    ensures Wounds(p.origin, reader.log, longer, p.ttl) == Wounds(p.origin, reader.log, story, p.ttl)
  {
    hide Run, Possible, Reached, Feasible, AllGated, AllSteady, AllMeet, Refines, Table.Valid, EventProcessor.Balanced;
    longer := story;
    var free := p.db.NoneDueBefore(to);
    if free && p.db.now <= to {
      p.Elapse(to);
      ExtendMoves(p.origin, reader.log, story, Tick(to), p.ttl);
      QuietTurnMeets(grade, p.origin, reader.log, story, Tick(to), p.ttl);
      longer := Also(story, Tick(to));
    }
  }

  method Forget(p: EventProcessor, reader: Reader, eventID: string, ghost story: Turns, ghost grade: Grade) returns (ghost longer: Turns)
    requires p.Valid() && Tells(p, reader, story, grade)
    requires grade.Any? || !Ahead(reader.log, Floor(reader.At()), eventID)
    modifies p`Core, p`Path, p.db
    ensures p.Valid() && Tells(p, reader, longer, grade)
    ensures Wounds(p.origin, reader.log, longer, p.ttl) == Wounds(p.origin, reader.log, story, p.ttl)
  {
    hide Run, Possible, Reached, Feasible, Ahead, Refines, Table.Valid, EventProcessor.Balanced;
    longer := story;
    var due := p.db.Due(eventID);
    if due {
      p.Lapse(eventID);
      ExtendMoves(p.origin, reader.log, story, Turn.Lapse(eventID), p.ttl);
      longer := Also(story, Turn.Lapse(eventID));
    }
  }

  method Reboot(p: EventProcessor, reader: Reader, membersOk: bool, unreadable: set<string>, ghost story: Turns, ghost grade: Grade)
    returns (ghost longer: Turns)
    requires p.Valid() && Tells(p, reader, story, grade) && (grade.Full? ==> membersOk && unreadable == {})
    modifies p, reader
    ensures p.Valid() && Tells(p, reader, longer, grade)
    ensures fresh(p.table) && fresh(p.table.Owner.Keys) && fresh(p.table.Backing)
    ensures Wounds(p.origin, reader.log, longer, p.ttl) == Wounds(p.origin, reader.log, story, p.ttl)
  {
    hide Run, Possible, Reached, Feasible, AllMeet, Reloadable, StatsStore.Valid, Table.Valid, EventProcessor.Balanced, AfterCrash;
    ghost var c := Reached(p.origin, reader.log, story, p.ttl);
    ghost var reloaded := Reloadable(p.db.View, membersOk, unreadable);
    assert Together(grade, p.origin, reader.log, story, p.Path, p.ttl, c);
    ghost var c' := RestartTogether(grade, p.origin, reader.log, story, p.Path, p.ttl, c, membersOk, unreadable);
    p.Restart(membersOk, unreadable);
    reader.Reconnect();
    longer := Also(story, Turn.Restart(reloaded));
  }

  /** Fetches a message and dies on the way; the next process takes over. */
  method Perish(p: EventProcessor, reader: Reader, slack: nat, r: Replies, death: Death, membersOk: bool, unreadable: set<string>,
                ghost story: Turns, ghost grade: Grade)
    returns (ghost longer: Turns)
    requires p.Valid() && Tells(p, reader, story, grade) && reader.pos < |reader.log| && Suits(grade, r)
    requires grade.Full? ==> membersOk && unreadable == {}
    requires (death.OnceReserved? ==> death.steps < ADMISSION_STEPS) && (grade.Any? || AllHaveIDs(reader.log))
    modifies p, p.db, p.table, p.table.Owner.Keys, p.table.Backing, reader
    ensures p.Valid() && Tells(p, reader, longer, grade)
    ensures fresh(p.table) && fresh(p.table.Owner.Keys) && fresh(p.table.Backing)
  {
    hide Run, Possible, Reached, Feasible, AllMeet, Suits, CutShort, Reloadable, AllHaveIDs;
    hide StatsStore.Valid, Table.Valid, EventProcessor.Balanced, AfterCrash, Apply, Empty;
    ghost var c := Reached(p.origin, reader.log, story, p.ttl);
    assert Together(grade, p.origin, reader.log, story, p.Path, p.ttl, c);
    ghost var cut, c1 := CutTogether(grade, p.origin, reader.log, story, p.Path, p.ttl, c, r, death);
    var off, msg := reader.FetchMessage();
    if msg.Good? {
      p.Die(msg.e, slack, r, death);
    }
    assert p.Core == c1.core;
    ghost var reloaded := Reloadable(p.db.View, membersOk, unreadable);
    ghost var c2 := RestartTogether(grade, p.origin, reader.log, cut, p.Path, p.ttl, c1, membersOk, unreadable);
    p.Restart(membersOk, unreadable);
    reader.Reconnect();
    longer := Also(cut, Turn.Restart(reloaded));
  }

  method Open(log: seq<Message>, setting: Option<int>, now: nat, ghost grade: Grade)
    returns (p: EventProcessor, reader: Reader, ghost story: Turns)
    ensures p.Valid() && reader.log == log && Tells(p, reader, story, grade)
    ensures Wounds(p.origin, log, story, p.ttl) == NoCrash
    ensures fresh(p) && fresh(p.db) && fresh(p.table) && fresh(p.table.Owner.Keys) && fresh(p.table.Backing) && fresh(reader)
  {
    hide EventProcessor.Valid, StatsStore.Valid, Refines;
    var db := new StatsStore(now);
    NothingRun(now, DedupeTTL(setting));
    p := new EventProcessor(db, setting, true, {}, now, Begin);
    reader := new Reader(log);
    story := Also(NoTurns, Turn.Restart({}));
    StartReached(now, log, p.ttl);
    assert Reloadable(db.View, true, {}) == {};
    FirstBoot(now, log, p.ttl, grade);
  }

  lemma NothingRun(now: nat, ttl: nat)
    ensures Possible(Init(now), Begin, ttl) && Run(Init(now), Begin, ttl) == Init(now)
  {
  }

  lemma FirstBoot(now: nat, log: seq<Message>, ttl: nat, grade: Grade)
    ensures var boot := Also(NoTurns, Turn.Restart({}));
      && Feasible(now, log, boot, ttl) && AllMeet(grade, now, log, boot, ttl)
      && Reached(now, log, boot, ttl) == AfterRestart(Boot(now), {})
  {
    StartReached(now, log, ttl);
    assert Boot(now).core.store.active * Boot(now).core.store.stats.Keys == {};
  }

  /** The whole service, from its first boot, through any plan of episodes. Always: offsets never pass what
      was handled, and what lies below the committed one was handled as its kind demands. If the
      reservation commands answer: each live record counts some first occurrences, in log order, no ID
      twice. If the record writes and reloads succeed too: all first occurrences claimed so far, except
      what a death took, which is at most one event a death; without a death, all. */
  method Serve(log: seq<Message>, setting: Option<int>, now: nat, plan: seq<Episode>, ghost grade: Grade)
    returns (p: EventProcessor, reader: Reader, ghost story: Turns)
    requires grade.Any? || AllHaveIDs(log)
    requires forall i :: 0 <= i < |plan| ==> Sensible(plan[i]) && Bearable(grade, plan[i])
    ensures p.Valid() && reader.log == log && Tells(p, reader, story, grade)
    ensures Steered(p, reader, story)
    ensures !grade.Any? ==> Reflected(p, reader, story)
    ensures grade.Full? ==> Accountable(p, reader, story)
    ensures (forall i :: 0 <= i < |plan| ==> !plan[i].Dying?) ==> Wounds(p.origin, log, story, p.ttl) == NoCrash
  {
    hide EventProcessor.Valid, Wounds, AllHaveIDs, AllMeet, Reached, Sensible, Bearable, Steered, Reflected, Accountable;
    p, reader, story := Open(log, setting, now, grade);
    for i := 0 to |plan|
      invariant p.Valid() && reader.log == log && Tells(p, reader, story, grade)
      invariant fresh(p) && fresh(p.db) && fresh(p.table) && fresh(p.table.Owner.Keys) && fresh(p.table.Backing) && fresh(reader)
      invariant (forall k :: 0 <= k < i ==> !plan[k].Dying?) ==> Wounds(p.origin, log, story, p.ttl) == NoCrash
    {
      story := Live(p, reader, plan[i], story, grade);
    }
    IsSteered(p, reader, story, grade);
    if !grade.Any? { IsReflected(p, reader, story, grade); }
    if grade.Full? { IsAccountable(p, reader, story); }
  }

  // ----- what the machine guarantees, of the objects it tells about

  ghost predicate Steered(p: EventProcessor, reader: Reader, story: Turns)
    reads p, reader
    requires Feasible(p.origin, reader.log, story, p.ttl)
  {
    var c := Reached(p.origin, reader.log, story, p.ttl);
    && reader.pos <= c.progress.furthest <= |reader.log|
    && reader.requested <= c.progress.furthest && reader.committed <= c.progress.furthest
    && forall off :: 0 <= off < reader.committed ==> Carried(c.ledger, p.Core.trace, reader.log, off)
  }

  lemma IsSteered(p: EventProcessor, reader: Reader, story: Turns, grade: Grade)
    requires Tells(p, reader, story, grade)
    ensures Steered(p, reader, story)
  {
    hide Reached, Feasible, AllMeet;
    RunIsSound(p.origin, reader.log, story, p.ttl);
  }

  ghost predicate Reflected(p: EventProcessor, reader: Reader, story: Turns)
    reads p, p.table, reader
    requires Feasible(p.origin, reader.log, story, p.ttl)
  {
    var n := Reached(p.origin, reader.log, story, p.ttl).progress.reach;
    n <= |reader.log| && forall m :: m in p.table.Mem ==>
      OfFirsts(p.table.Mem[m], reader.log, n, m) && DistinctIDs(p.table.Mem[m].events)
  }

  lemma IsReflected(p: EventProcessor, reader: Reader, story: Turns, grade: Grade)
    requires p.Valid() && Tells(p, reader, story, grade) && !grade.Any? && AllHaveIDs(reader.log)
    ensures Reflected(p, reader, story)
  {
    if grade.Full? {
      SteadyIsGated(p.origin, reader.log, story, p.ttl);
    }
    hide Reached, Feasible, AllGated, AllSteady, AllHaveIDs, OfFirsts, DistinctIDs, Run, Possible;
    forall m | m in p.table.Mem
      ensures OfFirsts(p.table.Mem[m], reader.log, Reached(p.origin, reader.log, story, p.ttl).progress.reach, m)
      ensures DistinctIDs(p.table.Mem[m].events)
    {
      RecordsFoldSubsequences(p.origin, reader.log, story, p.ttl, m);
    }
    RecordsFoldSubsequences(p.origin, reader.log, story, p.ttl, "");
  }

  ghost predicate Accountable(p: EventProcessor, reader: Reader, story: Turns)
    reads p, p.table, reader
    requires Feasible(p.origin, reader.log, story, p.ttl)
  {
    var c := Reached(p.origin, reader.log, story, p.ttl);
    var n := c.progress.reach;
    && n <= |reader.log| && c.progress.furthest <= n && Missing(reader.log, n, c.crashes) <= Hits(c.crashes)
    && (c.crashes.NoCrash? ==> n == c.progress.furthest)
    && forall m :: Current(p.table.Mem, m) == Fold(m, History(reader.log, n, c.crashes, m))
  }

  lemma IsAccountable(p: EventProcessor, reader: Reader, story: Turns)
    requires p.Valid() && Tells(p, reader, story, Full) && AllHaveIDs(reader.log)
    ensures Accountable(p, reader, story)
  {
    hide Reached, Feasible, AllSteady, AllHaveIDs, History, Fold, Run, Possible, Current, Missing, Hits, Keyed;
    var c := Reached(p.origin, reader.log, story, p.ttl);
    RunKeeps(p.origin, reader.log, story, p.ttl);
    AtMostOneLossPerCrash(reader.log, c.progress.reach, c.crashes);
    forall m ensures Current(p.table.Mem, m) == Fold(m, History(reader.log, c.progress.reach, c.crashes, m)) {
      RecordsFoldTheLog(p.origin, reader.log, story, p.ttl, m);
    }
  }
}
