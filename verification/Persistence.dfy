/** What the stored snapshots are worth, for any number of workers that copy the record under the
    mutex and write it outside. */
module Persistence {
  import opened Common
  import opened Aggregate
  import opened Protocol

  /** The events folded into a match's record by the running incarnation, in order: what it
      reloaded at its start, then what it counted. */
  function Order(trace: Trace, m: string): seq<MatchEvent> {
    match trace
    case Start => []
    case Then(before, a) =>
      if a.Counted? && a.e.matchID == m then Order(before, m) + [a.e]
      else if a.Crashed? then (if m in a.reloaded then a.reloaded[m].events else [])
      else Order(before, m)
  }

  /** The statistics after a non-empty prefix of an order. */
  predicate PrefixOf(snap: Stats, m: string, order: seq<MatchEvent>) {
    snap.events != [] && snap.events <= order && snap == Fold(m, snap.events)
  }

  ghost predicate Faithful(s: State, m: string) {
    && Current(s.mem, m) == Fold(m, Order(s.trace, m))
    && (m in s.mem <==> Order(s.trace, m) != [])
    && (forall w :: w in s.pc && Holds(s.pc[w]) && s.pc[w].e.matchID == m ==> PrefixOf(s.pc[w].snap, m, Order(s.trace, m)))
    && (m in s.store.stats ==> s.store.stats[m].events != [] && s.store.stats[m] == Fold(m, s.store.stats[m].events))
    && (m in s.store.stats && m !in s.stale ==> s.store.stats[m].events <= Order(s.trace, m))
  }

  /** One worker moves without counting: nothing the invariant mentions gets worse. */
  lemma FaithfulMove(s: State, s': State, w: nat, m: string)
    requires Faithful(s, m) && s'.mem == s.mem && s.pc - {w} == s'.pc - {w}
    requires Order(s'.trace, m) == Order(s.trace, m)
    requires w in s'.pc && Holds(s'.pc[w]) ==> w in s.pc && Holds(s.pc[w]) && s'.pc[w].e == s.pc[w].e && s'.pc[w].snap == s.pc[w].snap
    requires s'.store.stats == s.store.stats && s'.stale == s.stale
    ensures Faithful(s', m)
  {
    forall v | v in s'.pc && Holds(s'.pc[v]) && s'.pc[v].e.matchID == m
      ensures PrefixOf(s'.pc[v].snap, m, Order(s'.trace, m))
    {
      if v != w {
        assert v in s'.pc - {w} && v in s.pc - {w} && s'.pc[v] == s.pc[v];
      }
    }
  }

  lemma FaithfulCount(s: State, w: nat, m: string)
    requires Faithful(s, m) && Enabled(s, Count(w))
    ensures Faithful(AfterCount(s, w), m)
  {
    hide Fold, Apply;
    var s' := AfterCount(s, w);
    var e := s.pc[w].e;
    var order := Order(s.trace, m);
    if e.matchID == m {
      FoldSnoc(m, order, e);
      assert order <= order + [e];
    }
    forall v | v in s'.pc && Holds(s'.pc[v]) && s'.pc[v].e.matchID == m
      ensures PrefixOf(s'.pc[v].snap, m, Order(s'.trace, m))
    {
      if v != w {
        assert PrefixOf(s.pc[v].snap, m, order);
      }
    }
  }

  lemma FaithfulSave(s: State, w: nat, reply: Reply, m: string)
    requires Faithful(s, m) && Enabled(s, Save(w, reply))
    ensures Faithful(AfterSave(s, w, reply), m)
  {
    hide Fold;
    assert s.pc[w].e.matchID == m ==> PrefixOf(s.pc[w].snap, m, Order(s.trace, m));
  }

  lemma FaithfulCrash(s: State, reloaded: set<string>, m: string)
    requires Faithful(s, m) && Enabled(s, Crash(reloaded))
    ensures Faithful(AfterCrash(s, reloaded), m)
  {
  }

  lemma FaithfulStep(s: State, a: Action, ttl: nat, m: string)
    requires Faithful(s, m) && Enabled(s, a)
    ensures Faithful(Next(s, a, ttl), m)
  {
    hide Fold, Apply, Faithful;
    if Quiet(a) && !a.Save? {
      QuietStep(s, a, ttl);
      FaithfulMove(s, Next(s, a, ttl), a.w, m);
    } else {
      match a
      case SetNX(w, reply) => FaithfulMove(s, AfterSetNX(s, w, reply, ttl), w, m);
      case Get(w, ok) => FaithfulMove(s, AfterGet(s, w, ok), w, m);
      case Count(w) => FaithfulCount(s, w, m);
      case Mark(w, reply) => FaithfulMove(s, AfterMark(s, w, reply, ttl), w, m);
      case Save(w, reply) => FaithfulSave(s, w, reply, m);
      case Expire(id) => FaithfulMove(s, Next(s, a, ttl), 0, m);
      case Advance(to) => FaithfulMove(s, Next(s, a, ttl), 0, m);
      case Crash(reloaded) => FaithfulCrash(s, reloaded, m);
    }
  }

  lemma {:induction false} FaithfulRun(now: nat, schedule: Schedule, ttl: nat, m: string)
    requires Possible(Init(now), schedule, ttl)
    ensures Faithful(Run(Init(now), schedule, ttl), m)
  {
    if schedule.Step? {
      FaithfulRun(now, schedule.earlier, ttl, m);
      FaithfulStep(Run(Init(now), schedule.earlier, ttl), schedule.action, ttl, m);
    }
  }

  /** In every run the record in memory is the fold of its apply order, and the stored one is the
      fold of a prefix of it, unless an earlier incarnation left it behind unreloaded. */
  lemma StoredRecordsArePrefixes(now: nat, schedule: Schedule, ttl: nat, m: string)
    requires Possible(Init(now), schedule, ttl)
    ensures var s := Run(Init(now), schedule, ttl);
      && (m in s.mem ==> s.mem[m] == Fold(m, Order(s.trace, m)))
      && (m in s.store.stats && m !in s.stale ==> PrefixOf(s.store.stats[m], m, Order(s.trace, m)))
  {
    FaithfulRun(now, schedule, ttl, m);
  }

  /** Across a restart a stored record stays a prefix of the apply order exactly when it is reloaded. */
  lemma RestartKeepsPrefixIffReloaded(now: nat, schedule: Schedule, ttl: nat, reloaded: set<string>, m: string)
    requires Possible(Init(now), schedule, ttl) && Enabled(Run(Init(now), schedule, ttl), Crash(reloaded))
    requires m in Run(Init(now), schedule, ttl).store.stats
    ensures var s := AfterCrash(Run(Init(now), schedule, ttl), reloaded);
      PrefixOf(s.store.stats[m], m, Order(s.trace, m)) <==> m in reloaded
  {
    FaithfulRun(now, schedule, ttl, m);
  }

  // ----- what can go wrong

  /** A match's record is stored with these events while its apply order is that one. */
  predicate Leaves(s: State, m: string, stored: seq<MatchEvent>, order: seq<MatchEvent>) {
    m in s.store.stats && s.store.stats[m].events == stored && Order(s.trace, m) == order
  }

  /** A worker takes an event from delivery to the point where its snapshot is ready to be saved. */
  function UpToMarked(start: Schedule, w: nat, e: MatchEvent): Schedule {
    Step(Step(Step(Step(start, Receive(w, e)), SetNX(w, Fine)), Count(w)), Mark(w, Fine))
  }

  lemma ReachMarked(now: nat, start: Schedule, w: nat, e: MatchEvent, ttl: nat)
    requires Possible(Init(now), start, ttl)
    requires var s := Run(Init(now), start, ttl); w !in s.pc && e.eventID !in s.store.dedupe
    requires e.eventID != ""
    ensures Possible(Init(now), UpToMarked(start, w, e), ttl)
    ensures IsMarked(Run(Init(now), start, ttl), Run(Init(now), UpToMarked(start, w, e), ttl), w, e)
  {
    hide Apply, Possible, Run;
    var s0 := Run(Init(now), start, ttl);
    var s1 := Move(s0, w, Received(e));
    Extend(Init(now), start, Receive(w, e), ttl);
    assert Next(s0, Receive(w, e), ttl) == s1;
    var r1 := Step(start, Receive(w, e));
    var s2 := AfterSetNX(s1, w, Fine, ttl);
    Extend(Init(now), r1, SetNX(w, Fine), ttl);
    assert Next(s1, SetNX(w, Fine), ttl) == s2;
    var r2 := Step(r1, SetNX(w, Fine));
    var s3 := AfterCount(s2, w);
    Extend(Init(now), r2, Count(w), ttl);
    assert Next(s2, Count(w), ttl) == s3;
    var r3 := Step(r2, Count(w));
    var s4 := AfterMark(s3, w, Fine, ttl);
    Extend(Init(now), r3, Mark(w, Fine), ttl);
    assert Next(s3, Mark(w, Fine), ttl) == s4;
    assert s4.pc == s0.pc[w := Marked(e, Apply(Current(s0.mem, e.matchID), e))];
    assert s4.store.dedupe.Keys == s0.store.dedupe.Keys + {e.eventID};
    assert Order(s4.trace, e.matchID) == Order(s0.trace, e.matchID) + [e];
  }

  predicate IsMarked(s: State, s': State, w: nat, e: MatchEvent) {
    && s'.pc == s.pc[w := Marked(e, Apply(Current(s.mem, e.matchID), e))]
    && s'.mem == s.mem[e.matchID := Apply(Current(s.mem, e.matchID), e)]
    && s'.store.stats == s.store.stats
    && s'.store.dedupe.Keys == s.store.dedupe.Keys + {e.eventID}
    && Order(s'.trace, e.matchID) == Order(s.trace, e.matchID) + [e]
  }

  /** A crash between saving a match's first record and listing the match as active leaves a stored
      record that the next incarnation does not build on. */
  lemma UnlistedRecordIsLost(now: nat, e: MatchEvent, ttl: nat)
    requires e.eventID != ""
    ensures exists schedule :: Possible(Init(now), schedule, ttl) && Leaves(Run(Init(now), schedule, ttl), e.matchID, [e], [])
  {
    hide Fold, Apply, Possible, Run;
    EmptyRun(now, ttl);
    ReachMarked(now, Begin, 0, e, ttl);
    var marked := UpToMarked(Begin, 0, e);
    var s := Run(Init(now), marked, ttl);
    Extend(Init(now), marked, Save(0, Fine), ttl);
    var saved := AfterSave(s, 0, Fine);
    assert Next(s, Save(0, Fine), ttl) == saved;
    Extend(Init(now), Step(marked, Save(0, Fine)), Crash({}), ttl);
    assert Next(saved, Crash({}), ttl) == AfterCrash(saved, {});
    assert Leaves(AfterCrash(saved, {}), e.matchID, [e], []);
  }

  lemma EmptyRun(now: nat, ttl: nat)
    ensures Possible(Init(now), Begin, ttl) && Run(Init(now), Begin, ttl) == Init(now)
  {
  }

  /** With two workers the stored record can go back: the later snapshot is written first and the
      earlier one over it. */
  lemma OlderSnapshotCanWin(now: nat, e: MatchEvent, f: MatchEvent, ttl: nat)
    requires e.eventID != "" && f.eventID != "" && e.eventID != f.eventID && e.matchID == f.matchID
    ensures exists schedule :: Possible(Init(now), schedule, ttl) && Leaves(Run(Init(now), schedule, ttl), e.matchID, [e], [e, f])
  {
    hide Fold, Apply, Possible, Run;
    EmptyRun(now, ttl);
    ReachMarked(now, Begin, 0, e, ttl);
    var one := UpToMarked(Begin, 0, e);
    ReachMarked(now, one, 1, f, ttl);
    var two := UpToMarked(one, 1, f);
    var s := Run(Init(now), two, ttl);
    Extend(Init(now), two, Save(1, Fine), ttl);
    var s1 := AfterSave(s, 1, Fine);
    assert Next(s, Save(1, Fine), ttl) == s1;
    Extend(Init(now), Step(two, Save(1, Fine)), Save(0, Fine), ttl);
    var s2 := AfterSave(s1, 0, Fine);
    assert Next(s1, Save(0, Fine), ttl) == s2;
    assert Leaves(s2, e.matchID, [e], [e, f]);
  }
}
