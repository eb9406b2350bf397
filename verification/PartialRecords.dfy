/** What records reflect when record and SADD writes fail and restarts reload what they like, as long
    as the reservation commands answer: never an event twice, never one out of order, and between
    restarts every first occurrence. */
module PartialRecords {
  import opened Common
  import opened Aggregate
  import opened Protocol
  import opened Consumer
  import opened OffsetSafety
  import opened ClaimSafety
  import opened ExactlyOnce

  predicate Subsequence(a: seq<MatchEvent>, b: seq<MatchEvent>) {
    a == [] || (b != [] && (
      (a[|a| - 1] == b[|b| - 1] && Subsequence(a[..|a| - 1], b[..|b| - 1])) || Subsequence(a, b[..|b| - 1])))
  }

  lemma SubsequenceGrows(a: seq<MatchEvent>, b: seq<MatchEvent>, e: MatchEvent)
    requires Subsequence(a, b)
    ensures Subsequence(a + [e], b + [e]) && Subsequence(a, b + [e])
  {
    assert (a + [e])[..|a|] == a && (b + [e])[..|b|] == b;
  }

  lemma {:induction false} WholeSubsequence(a: seq<MatchEvent>)
    ensures Subsequence(a, a)
  {
    if a != [] {
      WholeSubsequence(a[..|a| - 1]);
    }
  }

  /** The statistics of some of the first occurrences among the first n messages, in log order. */
  predicate OfFirsts(s: Stats, log: seq<Message>, n: int, m: string) {
    0 <= n <= |log| && s == Fold(m, s.events) && Subsequence(s.events, History(log, n, NoCrash, m))
  }

  lemma {:induction false} OfFirstsLater(s: Stats, log: seq<Message>, n: nat, n': nat, m: string)
    requires n <= n' <= |log| && OfFirsts(s, log, n, m)
    ensures OfFirsts(s, log, n', m)
  {
    hide Fold;
    if n < n' {
      OfFirstsLater(s, log, n, n' - 1, m);
      if First(log, n' - 1) && log[n' - 1].e.matchID == m {
        SubsequenceGrows(s.events, History(log, n' - 1, NoCrash, m), log[n' - 1].e);
      }
      hide Subsequence;
    }
  }

  /** No restart so far. */
  predicate Calm(trace: Trace) {
    trace.Then? ==> !trace.act.Crashed? && Calm(trace.before)
  }

  ghost predicate AllOfFirsts(records: map<string, Stats>, log: seq<Message>, n: int) {
    forall m :: m in records ==> OfFirsts(records[m], log, n, m)
  }

  ghost predicate Whole(mem: map<string, Stats>, log: seq<Message>, n: int) {
    0 <= n <= |log| && forall m :: Current(mem, m) == Fold(m, History(log, n, NoCrash, m))
  }

  ghost predicate Thin(c: Loop, log: seq<Message>) {
    && AllOfFirsts(c.core.mem, log, InMemory(c))
    && AllOfFirsts(c.core.store.stats, log, InMemory(c))
    && (ME in c.core.pc && Holds(c.core.pc[ME]) ==> OfFirsts(c.core.pc[ME].snap, log, c.progress.reach, c.core.pc[ME].e.matchID))
    && (Calm(c.core.trace) ==> Whole(c.core.mem, log, InMemory(c)))
  }

  lemma AllLater(records: map<string, Stats>, log: seq<Message>, n: nat, n': nat)
    requires n <= n' <= |log| && AllOfFirsts(records, log, n)
    ensures AllOfFirsts(records, log, n')
  {
    forall m | m in records ensures OfFirsts(records[m], log, n', m) {
      OfFirstsLater(records[m], log, n, n', m);
    }
  }

  // ----- steps

  /** The histories of the log are the same up to here and there. */
  ghost predicate SameHistories(log: seq<Message>, n: int, n': int) {
    0 <= n <= |log| && 0 <= n' <= |log| && forall m :: History(log, n', NoCrash, m) == History(log, n, NoCrash, m)
  }

  /** A turn that changes no record and adds nothing to the histories. */
  lemma QuietTurnIsThin(c: Loop, c': Loop, log: seq<Message>)
    requires Thin(c, log) && SameHistories(log, InMemory(c), InMemory(c'))
    requires c'.core.mem == c.core.mem && c'.core.store.stats == c.core.store.stats
    requires Grown(c.core.trace, c'.core.trace)
    requires ME in c'.core.pc && Holds(c'.core.pc[ME]) ==>
      && ME in c.core.pc && Holds(c.core.pc[ME]) && c'.core.pc[ME].snap == c.core.pc[ME].snap
      && c'.core.pc[ME].e == c.core.pc[ME].e && c'.progress.reach == c.progress.reach
    ensures Thin(c', log)
  {
    hide History, Fold, Subsequence;
    forall m, s | OfFirsts(s, log, InMemory(c), m) ensures OfFirsts(s, log, InMemory(c'), m) {
    }
  }

  lemma CompletionIsThin(c: Loop, log: seq<Message>, core: State, outcome: Outcome)
    requires Fair(c, log) && Thin(c, log) && c.phase.Handling?
    requires ME in c.core.pc ==> c.core.pc[ME].Refused?
    requires core.pc == map[] && core.store == c.core.store && core.mem == c.core.mem && Grown(c.core.trace, core.trace)
    ensures Thin(Finished(c, core, outcome), log)
  {
    hide History, Seen, First, AllOfFirsts, Whole, OfFirsts, Calm;
    NothingNew(log, c.progress.reach, c.phase.off, NoCrash);
    QuietTurnIsThin(c, Finished(c, core, outcome), log);
  }

  lemma SetNXIsThin(c: Loop, log: seq<Message>, ttl: nat)
    requires Fair(c, log) && Thin(c, log) && Can(c, log, Work(SetNX(ME, Fine)))
    ensures Thin(AfterWork(c, log, SetNX(ME, Fine), ttl), log)
  {
    hide History, First, Seen, AllOfFirsts, Whole, OfFirsts, Calm, Keyed, Ahead;
    var c' := AfterWork(c, log, SetNX(ME, Fine), ttl);
    assert c'.core == AfterSetNX(c.core, ME, Fine, ttl);
    if c.core.pc[ME].e.eventID !in c.core.store.dedupe {
      FreshIsNext(c, log);
    }
    QuietTurnIsThin(c, c', log);
  }

  lemma GetIsThin(c: Loop, log: seq<Message>, ttl: nat)
    requires Fair(c, log) && Thin(c, log) && Can(c, log, Work(Get(ME, true)))
    ensures Thin(AfterWork(c, log, Get(ME, true), ttl), log)
  {
    var core := Next(c.core, Get(ME, true), ttl);
    assert core == AfterGet(c.core, ME, true);
    CompletionIsThin(c, log, core, Duplicate);
  }

  /** One more first occurrence is applied. */
  lemma ApplyOfFirsts(s: Stats, log: seq<Message>, off: nat, e: MatchEvent)
    requires off < |log| && log[off] == Good(e) && First(log, off) && OfFirsts(s, log, off, e.matchID)
    ensures OfFirsts(Apply(s, e), log, off + 1, e.matchID)
  {
    SubsequenceGrows(s.events, History(log, off, NoCrash, e.matchID), e);
    HistoriesGrow(log, off, NoCrash);
    FoldSnoc(e.matchID, s.events, e);
    hide History, Fold, Seen, First, Subsequence, Apply;
  }

  lemma EmptyOfFirsts(log: seq<Message>, n: nat, m: string)
    requires n <= |log|
    ensures OfFirsts(Empty(m), log, n, m)
  {
    EmptyIsFold(m);
  }

  lemma ApplyWhole(mem: map<string, Stats>, log: seq<Message>, off: nat, e: MatchEvent)
    requires off < |log| && log[off] == Good(e) && First(log, off) && Whole(mem, log, off)
    ensures Whole(mem[e.matchID := Apply(Current(mem, e.matchID), e)], log, off + 1)
  {
    HistoriesGrow(log, off, NoCrash);
    FoldSnoc(e.matchID, History(log, off, NoCrash, e.matchID), e);
    hide History, Fold, Seen, First, Apply, Empty;
    var mem' := mem[e.matchID := Apply(Current(mem, e.matchID), e)];
    forall m ensures Current(mem', m) == Fold(m, History(log, off + 1, NoCrash, m)) {
      if m != e.matchID {
        assert Current(mem', m) == Current(mem, m);
      }
    }
  }

  lemma ApplyIsThin(mem: map<string, Stats>, log: seq<Message>, off: nat, e: MatchEvent)
    requires off < |log| && log[off] == Good(e) && First(log, off) && AllOfFirsts(mem, log, off)
    ensures var after := Apply(Current(mem, e.matchID), e);
      && OfFirsts(after, log, off + 1, e.matchID)
      && AllOfFirsts(mem[e.matchID := after], log, off + 1)
      && (Whole(mem, log, off) ==> Whole(mem[e.matchID := after], log, off + 1))
  {
    hide First, OfFirsts, Whole, Apply, Empty;
    EmptyOfFirsts(log, off, e.matchID);
    ApplyOfFirsts(Current(mem, e.matchID), log, off, e);
    AllLater(mem, log, off, off + 1);
    if Whole(mem, log, off) {
      ApplyWhole(mem, log, off, e);
    }
  }

  lemma CountIsThin(c: Loop, log: seq<Message>, ttl: nat)
    requires Fair(c, log) && Thin(c, log) && Can(c, log, Work(Count(ME)))
    ensures Thin(AfterWork(c, log, Count(ME), ttl), log)
  {
    hide History, First, Seen, AllOfFirsts, Whole, OfFirsts, Apply, Keyed;
    var c' := AfterWork(c, log, Count(ME), ttl);
    assert c'.core == AfterCount(c.core, ME);
    ApplyIsThin(c.core.mem, log, c.phase.off, c.core.pc[ME].e);
    StatsLater(c, log);
  }

  lemma StatsLater(c: Loop, log: seq<Message>)
    requires Fair(c, log) && Thin(c, log)
    ensures AllOfFirsts(c.core.mem, log, c.progress.reach) && AllOfFirsts(c.core.store.stats, log, c.progress.reach)
  {
    hide AllOfFirsts, Whole, OfFirsts, First, Keyed;
    AllLater(c.core.mem, log, InMemory(c), c.progress.reach);
    AllLater(c.core.store.stats, log, InMemory(c), c.progress.reach);
  }

  lemma SaveIsThin(c: Loop, log: seq<Message>, reply: Reply, ttl: nat)
    requires Fair(c, log) && Thin(c, log) && Can(c, log, Work(Save(ME, reply)))
    ensures Thin(AfterWork(c, log, Save(ME, reply), ttl), log)
  {
    hide History, First, Seen, Whole, OfFirsts, Keyed;
    var c' := AfterWork(c, log, Save(ME, reply), ttl);
    assert c'.core == AfterSave(c.core, ME, reply);
    assert InMemory(c') == InMemory(c) == c.progress.reach;
  }

  lemma OtherWorkIsThin(c: Loop, log: seq<Message>, a: Action, ttl: nat)
    requires Fair(c, log) && Thin(c, log) && Can(c, log, Work(a)) && (a.Mark? || a.Cache? || a.List? || a.Publish?)
    ensures Thin(AfterWork(c, log, a, ttl), log)
  {
    hide History, First, Seen, AllOfFirsts, Whole, OfFirsts, Calm, Keyed;
    var core := Next(c.core, a, ttl);
    assert core.mem == c.core.mem && core.store.stats == c.core.store.stats && core.trace == c.core.trace;
    assert AfterWork(c, log, a, ttl).core == core;
    QuietTurnIsThin(c, AfterWork(c, log, a, ttl), log);
  }

  lemma RestartIsThin(c: Loop, log: seq<Message>, reloaded: set<string>)
    requires Fair(c, log) && Thin(c, log) && Enabled(c.core, Crash(reloaded))
    ensures Thin(AfterRestart(c, reloaded), log)
  {
    StatsLater(c, log);
    hide History, First, Seen, Whole, OfFirsts, Keyed;
  }

  lemma WorkIsThin(c: Loop, log: seq<Message>, a: Action, ttl: nat)
    requires Fair(c, log) && Thin(c, log) && Can(c, log, Work(a)) && Gated(c, log, Work(a))
    ensures Thin(AfterWork(c, log, a, ttl), log)
  {
    hide Fair, Thin, AfterWork, Enabled;
    match a
    case SetNX(w, reply) => SetNXIsThin(c, log, ttl);
    case Get(w, ok) => GetIsThin(c, log, ttl);
    case Count(w) => CountIsThin(c, log, ttl);
    case Save(w, reply) => SaveIsThin(c, log, reply, ttl);
    case _ => OtherWorkIsThin(c, log, a, ttl);
  }

  lemma OtherTurnIsThin(c: Loop, log: seq<Message>, t: Turn, ttl: nat)
    requires Fair(c, log) && Thin(c, log) && Can(c, log, t)
    requires t.Fetch? || t.Commit? || t.Flush? || t.Rewind? || t.Tick? || t.Lapse?
    ensures Thin(After(c, log, t, ttl), log)
  {
    hide History, First, Seen, AllOfFirsts, Whole, OfFirsts, Calm, Keyed;
    QuietTurnIsThin(c, After(c, log, t, ttl), log);
  }

  lemma StepIsThin(c: Loop, log: seq<Message>, t: Turn, ttl: nat)
    requires Fair(c, log) && Thin(c, log) && Can(c, log, t) && Gated(c, log, t)
    ensures Thin(After(c, log, t, ttl), log)
  {
    hide Fair, Thin;
    match t
    case Work(a) => WorkIsThin(c, log, a, ttl);
    case DeadLetter(published) => DeadLetterIsThin(c, log, published);
    case Restart(reloaded) => RestartIsThin(c, log, reloaded);
    case _ => OtherTurnIsThin(c, log, t, ttl);
  }

  lemma DeadLetterIsThin(c: Loop, log: seq<Message>, published: bool)
    requires Fair(c, log) && Thin(c, log) && Can(c, log, DeadLetter(published))
    ensures Thin(Finished(c, c.core, if published then DeadLettered else Dropped), log)
  {
    CompletionIsThin(c, log, c.core, if published then DeadLettered else Dropped);
  }

  lemma {:induction false} RunIsThin(now: nat, log: seq<Message>, turns: Turns, ttl: nat)
    requires AllHaveIDs(log) && Feasible(now, log, turns, ttl) && AllGated(now, log, turns, ttl)
    ensures Thin(Reached(now, log, turns, ttl), log)
  {
    if turns.Also? {
      hide Fair, Thin;
      RunIsFair(now, log, turns.earlier, ttl);
      RunIsThin(now, log, turns.earlier, ttl);
      StepIsThin(Reached(now, log, turns.earlier, ttl), log, turns.turn, ttl);
    } else {
      NothingYet(log);
    }
  }

  lemma NothingYet(log: seq<Message>)
    ensures forall m :: Fold(m, History(log, 0, NoCrash, m)) == Empty(m)
  {
    forall m ensures Fold(m, History(log, 0, NoCrash, m)) == Empty(m) {
      EmptyIsFold(m);
    }
  }
}
