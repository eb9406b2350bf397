/** The guarantees of the consume loop, for every log and run; what a run must not do to keep each of
    them is said in terms of `Gated` and `Steady`. */
module Delivery {
  import opened Common
  import opened Aggregate
  import opened Protocol
  import opened Accounting
  import opened Persistence
  import opened SnapshotOrder
  import opened Consumer
  import opened OffsetSafety
  import opened ClaimSafety
  import opened ExactlyOnce
  import opened PartialRecords

  // ----- exactly once, crashes included

  /** Wherever crashes fell, between messages each record in memory is the fold of the first
      occurrences claimed so far without the events lost, and the stored copy equals it. */
  lemma RecordsFoldTheLog(now: nat, log: seq<Message>, turns: Turns, ttl: nat, m: string)
    requires AllHaveIDs(log) && Feasible(now, log, turns, ttl) && AllSteady(now, log, turns, ttl)
    requires ME !in Reached(now, log, turns, ttl).core.pc
    ensures var c := Reached(now, log, turns, ttl);
      && c.progress.furthest <= c.progress.reach <= c.progress.furthest + 1 && c.progress.reach <= |log|
      && Current(c.core.mem, m) == Fold(m, History(log, c.progress.reach, c.crashes, m))
      && (m in c.core.mem ==> m in c.core.store.active && m in c.core.store.stats && c.core.store.stats[m] == c.core.mem[m])
  {
    hide History, Fold, Keyed;
    RunKeeps(now, log, turns, ttl);
    EmptyIsFold(m);
  }

  /** When every restart falls between messages, rewinds, failed commits, failed marks and restarts
      leave no trace: each record is the fold of the first occurrences in the log so far. */
  lemma RestartsAreTransparent(now: nat, log: seq<Message>, turns: Turns, ttl: nat, m: string)
    requires AllHaveIDs(log) && Feasible(now, log, turns, ttl) && AllSteady(now, log, turns, ttl)
    requires ME !in Reached(now, log, turns, ttl).core.pc && Reached(now, log, turns, ttl).crashes.NoCrash?
    ensures var c := Reached(now, log, turns, ttl);
      c.progress.furthest <= |log| && Current(c.core.mem, m) == Fold(m, History(log, c.progress.furthest, NoCrash, m))
  {
    hide History, Fold, Keyed;
    RunKeeps(now, log, turns, ttl);
    RecordsFoldTheLog(now, log, turns, ttl, m);
  }

  // ----- when record writes, SADD and reloads fail too

  /** Whatever happens to record writes, to SADD and to reloads, and wherever crashes fall: each record,
      live or stored, is the fold of some first occurrences in log order, and counts no ID twice. */
  lemma RecordsFoldSubsequences(now: nat, log: seq<Message>, turns: Turns, ttl: nat, m: string)
    requires AllHaveIDs(log) && Feasible(now, log, turns, ttl) && AllGated(now, log, turns, ttl)
    ensures var c := Reached(now, log, turns, ttl); c.progress.reach <= |log|
    ensures var c := Reached(now, log, turns, ttl);
      m in c.core.mem ==> OfFirsts(c.core.mem[m], log, c.progress.reach, m) && DistinctIDs(c.core.mem[m].events)
    ensures var c := Reached(now, log, turns, ttl);
      m in c.core.store.stats ==>
        OfFirsts(c.core.store.stats[m], log, c.progress.reach, m) && DistinctIDs(c.core.store.stats[m].events)
  {
    hide OfFirsts, Whole, Reached, Feasible, AllGated, DistinctIDs, Ordered, Tracked;
    var c := Reached(now, log, turns, ttl);
    RunIsFair(now, log, turns, ttl);
    RunIsThin(now, log, turns, ttl);
    StatsLater(c, log);
    ReachIsInLog(c, log);
    if m in c.core.mem { OfFirstsAreDistinct(c.core.mem[m], log, c.progress.reach, m); }
    if m in c.core.store.stats { OfFirstsAreDistinct(c.core.store.stats[m], log, c.progress.reach, m); }
  }

  lemma ReachIsInLog(c: Loop, log: seq<Message>)
    requires Fair(c, log)
    ensures c.progress.reach <= |log|
  {
  }

  lemma OfFirstsAreDistinct(s: Stats, log: seq<Message>, n: nat, m: string)
    requires n <= |log| && OfFirsts(s, log, n, m)
    ensures DistinctIDs(s.events)
  {
    hide History, Fold, DistinctIDs;
    NothingCountedTwice(log, n, NoCrash, m);
    SubsequenceIsDistinct(s.events, History(log, n, NoCrash, m));
  }

  /** Until the first restart, failed record writes and SADDs do not even show: each live record is
      the fold of all first occurrences handled. */
  lemma LiveRecordsNeedNoWrites(now: nat, log: seq<Message>, turns: Turns, ttl: nat, m: string)
    requires AllHaveIDs(log) && Feasible(now, log, turns, ttl) && AllGated(now, log, turns, ttl)
    requires var c := Reached(now, log, turns, ttl); ME !in c.core.pc && Calm(c.core.trace)
    ensures var c := Reached(now, log, turns, ttl);
      c.progress.reach <= |log| && Current(c.core.mem, m) == Fold(m, History(log, c.progress.reach, NoCrash, m))
  {
    hide History, Fold, Current, OfFirsts, Reached, Feasible, AllGated;
    RunIsThin(now, log, turns, ttl);
  }

  // ----- what a history contains

  /** Every event of a history is a first occurrence in the log that was not lost. */
  lemma {:induction false} HistoryMembers(log: seq<Message>, n: nat, crashes: Crashes, m: string, e: MatchEvent) returns (off: nat)
    requires n <= |log| && e in History(log, n, crashes, m)
    ensures off < n && log[off] == Good(e) && First(log, off) && e.matchID == m && !Lost(crashes, off)
  {
    if e in History(log, n - 1, crashes, m) {
      off := HistoryMembers(log, n - 1, crashes, m, e);
    } else {
      off := n - 1;
    }
  }

  lemma {:induction false} FirstsDiffer(log: seq<Message>, i: nat, j: nat)
    requires i < j < |log| && First(log, i) && First(log, j)
    ensures log[i].e.eventID != log[j].e.eventID
  {
    if log[i].e.eventID == log[j].e.eventID {
      SeenIsMonotone(log, i + 1, j, log[i].e.eventID);
    }
  }

  predicate DistinctIDs(h: seq<MatchEvent>) {
    forall i, j :: 0 <= i < j < |h| ==> h[i].eventID != h[j].eventID
  }

  /** No event ID is counted twice within a match ... */
  lemma {:induction false} NothingCountedTwice(log: seq<Message>, n: nat, crashes: Crashes, m: string)
    requires n <= |log|
    ensures DistinctIDs(History(log, n, crashes, m))
  {
    if n > 0 {
      NothingCountedTwice(log, n - 1, crashes, m);
      var before := History(log, n - 1, crashes, m);
      if History(log, n, crashes, m) != before {
        forall i | 0 <= i < |before| ensures before[i].eventID != log[n - 1].e.eventID {
          var off := HistoryMembers(log, n - 1, crashes, m, before[i]);
          FirstsDiffer(log, off, n - 1);
        }
      }
    }
  }

  /** ... nor in two matches. */
  lemma NothingCountedInTwoMatches(log: seq<Message>, n: nat, crashes: Crashes, m: string, m': string, e: MatchEvent, e': MatchEvent)
    requires n <= |log| && e in History(log, n, crashes, m) && e' in History(log, n, crashes, m')
    requires e.eventID == e'.eventID
    ensures e == e' && m == m'
  {
    var i := HistoryMembers(log, n, crashes, m, e);
    var j := HistoryMembers(log, n, crashes, m', e');
    if i < j {
      FirstsDiffer(log, i, j);
    } else if j < i {
      FirstsDiffer(log, j, i);
    }
  }

  // ----- what crashes cost

  function Hits(crashes: Crashes): nat {
    if crashes.Hit? then 1 + Hits(crashes.before) else 0
  }

  /** First occurrences lost among the first n messages, of any match or of one. */
  function Missing(log: seq<Message>, n: nat, crashes: Crashes): nat
    requires n <= |log|
  {
    if n == 0 then 0 else Missing(log, n - 1, crashes) + if First(log, n - 1) && Lost(crashes, n - 1) then 1 else 0
  }

  function MissingFrom(log: seq<Message>, n: nat, crashes: Crashes, m: string): nat
    requires n <= |log|
  {
    if n == 0 then 0
    else MissingFrom(log, n - 1, crashes, m)
         + if First(log, n - 1) && Lost(crashes, n - 1) && log[n - 1].e.matchID == m then 1 else 0
  }

  lemma {:induction false} SubsequenceMembers(a: seq<MatchEvent>, b: seq<MatchEvent>, e: MatchEvent)
    requires Subsequence(a, b) && e in a
    ensures e in b
  {
    var p, q := a[..|a| - 1], b[..|b| - 1];
    if !Subsequence(a, q) {
      if e in p {
        SubsequenceMembers(p, q, e);
      } else {
        assert e == a[|a| - 1];
      }
    } else {
      SubsequenceMembers(a, q, e);
    }
  }

  lemma {:induction false} SubsequenceIsDistinct(a: seq<MatchEvent>, b: seq<MatchEvent>)
    requires Subsequence(a, b) && DistinctIDs(b)
    ensures DistinctIDs(a)
  {
    if a != [] {
      var p, q := a[..|a| - 1], b[..|b| - 1];
      if Subsequence(a, q) {
        SubsequenceIsDistinct(a, q);
      } else {
        SubsequenceIsDistinct(p, q);
        forall i | 0 <= i < |p| ensures a[i].eventID != a[|a| - 1].eventID {
          assert p[i] in p;
          SubsequenceMembers(p, q, p[i]);
        }
      }
    }
  }

  /** A crash costs a match's history exactly the lost events, and leaves the rest in order. */
  lemma {:induction false} CrashesOnlyRemove(log: seq<Message>, n: nat, crashes: Crashes, m: string)
    requires n <= |log|
    ensures Subsequence(History(log, n, crashes, m), History(log, n, NoCrash, m))
    ensures |History(log, n, NoCrash, m)| == |History(log, n, crashes, m)| + MissingFrom(log, n, crashes, m)
  {
    hide Subsequence, Seen;
    if n == 0 {
      WholeSubsequence([]);
    } else {
      CrashesOnlyRemove(log, n - 1, crashes, m);
      if First(log, n - 1) && log[n - 1].e.matchID == m {
        SubsequenceGrows(History(log, n - 1, crashes, m), History(log, n - 1, NoCrash, m), log[n - 1].e);
      }
    }
  }

  lemma {:induction false} OneHitCostsAtMostOne(log: seq<Message>, n: nat, before: Crashes, off: nat, stage: Pc, listed: bool)
    requires n <= |log|
    ensures Missing(log, n, Hit(before, off, stage, listed)) <= Missing(log, n, before) + if off < n then 1 else 0
  {
    if n > 0 {
      OneHitCostsAtMostOne(log, n - 1, before, off, stage, listed);
    }
  }

  /** At most one event is lost per crash. */
  lemma {:induction false} AtMostOneLossPerCrash(log: seq<Message>, n: nat, crashes: Crashes)
    requires n <= |log|
    ensures Missing(log, n, crashes) <= Hits(crashes)
  {
    match crashes
    case NoCrash => NoneMissing(log, n);
    case Hit(before, off, stage, listed) =>
      AtMostOneLossPerCrash(log, n, before);
      OneHitCostsAtMostOne(log, n, before, off, stage, listed);
  }

  lemma {:induction false} NoneMissing(log: seq<Message>, n: nat)
    requires n <= |log|
    ensures Missing(log, n, NoCrash) == 0
  {
    if n > 0 {
      NoneMissing(log, n - 1);
    }
  }

  // ----- every run of the loop is a run of the protocol

  /** The protocol steps a turn takes. */
  function Taken(c: Loop, log: seq<Message>, t: Turn, path: Schedule): Schedule
    requires Can(c, log, t)
  {
    if t.Fetch? then if log[c.offsets.pos].Good? then Step(path, Receive(ME, log[c.offsets.pos].e)) else path
    else if t.Work? then Step(path, t.a)
    else if t.Restart? then Step(path, Crash(t.reloaded))
    else if t.Tick? then Step(path, Advance(t.to))
    else if t.Lapse? then Step(path, Expire(t.id))
    else path
  }

  function StepsOf(now: nat, log: seq<Message>, turns: Turns, ttl: nat): Schedule
    requires Feasible(now, log, turns, ttl)
  {
    match turns
    case NoTurns => Begin
    case Also(earlier, t) => Taken(Reached(now, log, earlier, ttl), log, t, StepsOf(now, log, earlier, ttl))
  }

  lemma TurnIsProtocol(now: nat, path: Schedule, c: Loop, log: seq<Message>, t: Turn, ttl: nat)
    requires Possible(Init(now), path, ttl) && Run(Init(now), path, ttl) == c.core && Can(c, log, t)
    ensures var path' := Taken(c, log, t, path);
      Possible(Init(now), path', ttl) && Run(Init(now), path', ttl) == After(c, log, t, ttl).core
  {
    hide Possible, Run;
    match t
    case Fetch => if log[c.offsets.pos].Good? { Extend(Init(now), path, Receive(ME, log[c.offsets.pos].e), ttl); }
    case Work(a) => WorkIsProtocol(now, path, c, log, a, ttl);
    case Restart(reloaded) => Extend(Init(now), path, Crash(reloaded), ttl);
    case Tick(to) => Extend(Init(now), path, Advance(to), ttl);
    case Lapse(id) => Extend(Init(now), path, Expire(id), ttl);
    case _ =>
  }

  lemma WorkIsProtocol(now: nat, path: Schedule, c: Loop, log: seq<Message>, a: Action, ttl: nat)
    requires Possible(Init(now), path, ttl) && Run(Init(now), path, ttl) == c.core && Can(c, log, Work(a))
    ensures Possible(Init(now), Step(path, a), ttl) && Run(Init(now), Step(path, a), ttl) == AfterWork(c, log, a, ttl).core
  {
    hide Possible, Run, Next, Enabled;
    Extend(Init(now), path, a, ttl);
  }

  /** So everything proved of the protocol holds of the loop. */
  lemma {:induction false} LoopIsProtocol(now: nat, log: seq<Message>, turns: Turns, ttl: nat)
    requires Feasible(now, log, turns, ttl)
    ensures var path := StepsOf(now, log, turns, ttl);
      && Possible(Init(now), path, ttl) && Run(Init(now), path, ttl) == Reached(now, log, turns, ttl).core
      && OneWorker(path, ME)
  {
    if turns.Also? {
      hide Possible, Run, After;
      LoopIsProtocol(now, log, turns.earlier, ttl);
      TurnIsProtocol(now, StepsOf(now, log, turns.earlier, ttl), Reached(now, log, turns.earlier, ttl), log, turns.turn, ttl);
    }
  }

  /** No turn of any run, whatever fails, makes a stored record shorter, unless the last restart left
      it behind. */
  lemma StoredRecordsNeverShrink(now: nat, log: seq<Message>, turns: Turns, turn: Turn, ttl: nat, m: string)
    requires Feasible(now, log, Also(turns, turn), ttl)
    requires var c := Reached(now, log, turns, ttl).core; m in c.store.stats && m !in c.stale
    ensures var before, after := Reached(now, log, turns, ttl).core.store.stats,
                                 Reached(now, log, Also(turns, turn), ttl).core.store.stats;
      m in after && |before[m].events| <= |after[m].events|
  {
    var path, path' := StepsOf(now, log, turns, ttl), StepsOf(now, log, Also(turns, turn), ttl);
    LoopIsProtocol(now, log, turns, ttl);
    LoopIsProtocol(now, log, Also(turns, turn), ttl);
    assert path' == Taken(Reached(now, log, turns, ttl), log, turn, path);
    hide Reached, Feasible, StepsOf, Possible, Run, OneWorker, Can;
    if path'.Step? && path' != path {
      OneWorkerNeverShortens(now, path, ttl, ME, path'.action, m);
    }
  }

  // ----- one more turn

  lemma ExtendMoves(now: nat, log: seq<Message>, turns: Turns, turn: Turn, ttl: nat)
    requires Feasible(now, log, turns, ttl) && Can(Reached(now, log, turns, ttl), log, turn)
    ensures Feasible(now, log, Also(turns, turn), ttl)
    ensures Reached(now, log, Also(turns, turn), ttl) == After(Reached(now, log, turns, ttl), log, turn, ttl)
  {
  }

  /** These turns lead here. */
  predicate Reaches(now: nat, log: seq<Message>, turns: Turns, ttl: nat, c: Loop) {
    Feasible(now, log, turns, ttl) && Reached(now, log, turns, ttl) == c
  }

  // ----- what is not guaranteed

  /** A crash between claim and apply loses the event for good once its redelivery, skipped as in
      flight, is committed: nothing will deliver it again, although nothing else failed and the key
      has not expired. */
  lemma SkippedRedeliveryCanBeLost(now: nat, e: MatchEvent, ttl: nat)
    requires e.eventID != ""
    ensures exists turns :: IsSteadyRun(now, [Good(e)], turns, ttl) && GoneFor(Reached(now, [Good(e)], turns, ttl), e)
  {
    var log := [Good(e)];
    hide Feasible, Reached, Apply, AllSteady;
    var r3 := CrashAfterClaim(now, e, ttl);
    var c3 := Reached(now, log, r3, ttl);
    SteadyTurn(now, log, r3, Fetch, ttl);
    var c4 := AfterFetch(c3, log);
    var r4 := Also(r3, Fetch);
    SteadyTurn(now, log, r4, Work(SetNX(ME, Fine)), ttl);
    var c5 := AfterWork(c4, log, SetNX(ME, Fine), ttl);
    var r5 := Also(r4, Work(SetNX(ME, Fine)));
    SteadyTurn(now, log, r5, Work(Get(ME, true)), ttl);
    var c6 := AfterWork(c5, log, Get(ME, true), ttl);
    var r6 := Also(r5, Work(Get(ME, true)));
    SteadyTurn(now, log, r6, Commit(true), ttl);
    var r7 := Also(r6, Commit(true));
    SteadyTurn(now, log, r7, Flush, ttl);
    assert GoneFor(Reached(now, log, Also(r7, Flush), ttl), e);
  }

  lemma CrashAfterClaim(now: nat, e: MatchEvent, ttl: nat) returns (turns: Turns)
    requires e.eventID != ""
    ensures IsSteadyRun(now, [Good(e)], turns, ttl)
    ensures var c := Reached(now, [Good(e)], turns, ttl);
      && c.phase.Ready? && c.offsets == Offsets(0, 0, 0) && c.core.pc == map[] && c.core.mem == map[]
      && c.core.store.stats == map[] && e.eventID in c.core.store.dedupe
  {
    var log := [Good(e)];
    StartReached(now, log, ttl);
    assert IsSteadyRun(now, log, NoTurns, ttl);
    hide Feasible, Reached, Apply, AllSteady, IsSteadyRun;
    SteadyTurn(now, log, NoTurns, Fetch, ttl);
    var c1 := AfterFetch(Boot(now), log);
    var r1 := Also(NoTurns, Fetch);
    SteadyTurn(now, log, r1, Work(SetNX(ME, Fine)), ttl);
    var r2 := Also(r1, Work(SetNX(ME, Fine)));
    SteadyTurn(now, log, r2, Restart({}), ttl);
    turns := Also(r2, Restart({}));
  }

  predicate IsSteadyRun(now: nat, log: seq<Message>, turns: Turns, ttl: nat) {
    Feasible(now, log, turns, ttl) && AllSteady(now, log, turns, ttl)
  }

  lemma SteadyTurn(now: nat, log: seq<Message>, turns: Turns, t: Turn, ttl: nat)
    requires IsSteadyRun(now, log, turns, ttl)
    requires var c := Reached(now, log, turns, ttl); Can(c, log, t) && Steady(c, log, t)
    ensures IsSteadyRun(now, log, Also(turns, t), ttl)
    ensures Reached(now, log, Also(turns, t), ttl) == After(Reached(now, log, turns, ttl), log, t, ttl)
  {
    ExtendMoves(now, log, turns, t, ttl);
  }

  predicate GoneFor(c: Loop, e: MatchEvent) {
    c.offsets.committed == 1 && e.matchID !in c.core.mem && e.matchID !in c.core.store.stats && e.eventID in c.core.store.dedupe
  }

  lemma StartReached(now: nat, log: seq<Message>, ttl: nat)
    ensures Feasible(now, log, NoTurns, ttl) && Reached(now, log, NoTurns, ttl) == Boot(now)
  {
  }

  // ----- when a redelivery is counted

  /** More work on the message at hand, with the reservation commands answering. */
  predicate Worked(now: nat, log: seq<Message>, turns: Turns, more: Turns, ttl: nat)
    requires Feasible(now, log, more, ttl)
  {
    more == turns || (
      && more.Also? && more.turn.Work? && Worked(now, log, turns, more.earlier, ttl)
      && Gated(Reached(now, log, more.earlier, ttl), log, more.turn))
  }

  /** How far a message that started at c has come at c'. */
  predicate Underway(c: Loop, c': Loop)
    requires c.phase.Handling? && ME in c.core.pc
  {
    var e, trace := c.core.pc[ME].e, c.core.trace;
    var free := e.eventID !in c.core.store.dedupe;
    if c'.phase.Done? then
      && c'.ledger == Entry(c.ledger, c.phase.off, if free then Aggregated else Duplicate)
      && CountsOf(c'.core.trace, e) == CountsOf(trace, e) + if free then 1 else 0
    else
      && c'.phase == c.phase && c'.ledger == c.ledger && ME in c'.core.pc && c'.core.pc[ME].e == e
      && (c'.core.pc[ME].Received? ==> (e.eventID in c'.core.store.dedupe <==> !free))
      && (c'.core.pc[ME].Refused? ==> !free)
      && (c'.core.pc[ME].Granted? || Holds(c'.core.pc[ME]) ==> free)
      && CountsOf(c'.core.trace, e) == CountsOf(trace, e) + if Holds(c'.core.pc[ME]) then 1 else 0
  }

  function CountsOf(trace: Trace, e: MatchEvent): nat {
    if trace.Start? then 0 else CountsOf(trace.before, e) + if trace.act == Counted(e) then 1 else 0
  }

  lemma WorkIsUnderway(c: Loop, c1: Loop, log: seq<Message>, a: Action, ttl: nat)
    requires c.phase.Handling? && ME in c.core.pc && c.core.pc[ME].e.eventID != ""
    requires Underway(c, c1) && Can(c1, log, Work(a)) && Gated(c1, log, Work(a))
    ensures Underway(c, AfterWork(c1, log, a, ttl))
  {
    hide Apply, Ahead;
    if Quiet(a) {
      assert Next(c1.core, a, ttl).trace == c1.core.trace;
    }
  }

  /** Whatever else fails, a delivery that is worked to its end with the reservation commands answering
      folds the event in, once, exactly when its ID is not reserved at the start, and is skipped
      otherwise. */
  lemma {:induction false} DeliveryIsCountedIffUnreserved(now: nat, log: seq<Message>, turns: Turns, more: Turns, ttl: nat)
    requires Feasible(now, log, more, ttl) && Feasible(now, log, turns, ttl) && Worked(now, log, turns, more, ttl)
    requires var c := Reached(now, log, turns, ttl);
      c.phase.Handling? && ME in c.core.pc && c.core.pc[ME].Received? && c.core.pc[ME].e.eventID != ""
    ensures Underway(Reached(now, log, turns, ttl), Reached(now, log, more, ttl))
  {
    if more != turns {
      hide Underway, Gated, AfterWork;
      DeliveryIsCountedIffUnreserved(now, log, turns, more.earlier, ttl);
      WorkIsUnderway(Reached(now, log, turns, ttl), Reached(now, log, more.earlier, ttl), log, more.turn.a, ttl);
    }
  }

  /** So an event that a crash interrupted is counted by a redelivery, as the documentation promises, only
      after its reservation has expired: claimed before and not expired since, it is skipped. */
  lemma UnexpiredClaimsAreSkipped(now: nat, log: seq<Message>, turns: Turns, more: Turns, ttl: nat)
    requires Feasible(now, log, more, ttl) && Feasible(now, log, turns, ttl) && Worked(now, log, turns, more, ttl)
    requires var c := Reached(now, log, turns, ttl);
      && c.phase.Handling? && ME in c.core.pc && c.core.pc[ME].Received? && c.core.pc[ME].e.eventID != ""
      && StillClaimed(c.core.trace, c.core.pc[ME].e.eventID)
    requires Reached(now, log, more, ttl).phase.Done?
    ensures var c, c' := Reached(now, log, turns, ttl), Reached(now, log, more, ttl);
      && c'.ledger == Entry(c.ledger, c.phase.off, Duplicate)
      && CountsOf(c'.core.trace, c.core.pc[ME].e) == CountsOf(c.core.trace, c.core.pc[ME].e)
  {
    hide Reached, Feasible, Worked, Possible, Run, StillClaimed, StepsOf;
    LoopIsProtocol(now, log, turns, ttl);
    ClaimsHoldUntilExpiry(now, StepsOf(now, log, turns, ttl), ttl, Reached(now, log, turns, ttl).core.pc[ME].e.eventID);
    DeliveryIsCountedIffUnreserved(now, log, turns, more, ttl);
  }
}
