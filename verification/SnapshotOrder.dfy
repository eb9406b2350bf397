/** When a snapshot written outside the mutex sets a stored record back: for any number of workers,
    exactly when the one it overwrites was counted later. */
module SnapshotOrder {
  import opened Common
  import opened Aggregate
  import opened Protocol
  import opened Persistence

  function Length(schedule: Schedule): nat {
    match schedule
    case Begin => 0
    case Step(earlier, a) => 1 + Length(earlier)
  }

  /** When a worker last counted. */
  function CountTime(schedule: Schedule, w: nat): nat {
    match schedule
    case Begin => 0
    case Step(earlier, a) => if a == Count(w) then Length(schedule) else CountTime(earlier, w)
  }

  /** When the record that was saved last since the last restart was counted; 0 if none was. */
  function SaveTime(now: nat, schedule: Schedule, ttl: nat, m: string): nat
    requires Possible(Init(now), schedule, ttl)
  {
    match schedule
    case Begin => 0
    case Step(earlier, a) =>
      if a.Crash? then 0
      else if a.Save? && a.reply.Landed() && Run(Init(now), earlier, ttl).pc[a.w].e.matchID == m then CountTime(earlier, a.w)
      else SaveTime(now, earlier, ttl, m)
  }

  predicate HasSnap(s: State, w: nat, m: string) {
    w in s.pc && Holds(s.pc[w]) && s.pc[w].e.matchID == m
  }

  /** The longer a snapshot, the later it was counted. */
  ghost predicate Aligned(s: State, schedule: Schedule, saved: nat, m: string) {
    && saved <= Length(schedule)
    && (forall w :: HasSnap(s, w, m) ==> CountTime(schedule, w) <= Length(schedule))
    && (forall w, v :: HasSnap(s, w, m) && HasSnap(s, v, m) ==>
          (CountTime(schedule, w) < CountTime(schedule, v) <==> |s.pc[w].snap.events| < |s.pc[v].snap.events|))
    && (m in s.store.stats && m !in s.stale ==> forall w :: HasSnap(s, w, m) ==>
          (CountTime(schedule, w) < saved <==> |s.pc[w].snap.events| < |s.store.stats[m].events|))
  }

  /** A fresh snapshot is longer than every other one and than what is stored. */
  lemma FreshIsLongest(s: State, w: nat, m: string)
    requires Faithful(s, m) && Enabled(s, Count(w)) && s.pc[w].e.matchID == m
    ensures var n := |AfterCount(s, w).pc[w].snap.events|;
      && (forall v :: HasSnap(s, v, m) ==> |s.pc[v].snap.events| < n)
      && (m in s.store.stats && m !in s.stale ==> |s.store.stats[m].events| < n)
  {
    hide Fold, Apply;
    assert |AfterCount(s, w).pc[w].snap.events| == |Order(s.trace, m)| + 1;
    assert forall v :: HasSnap(s, v, m) ==> PrefixOf(s.pc[v].snap, m, Order(s.trace, m));
  }

  /** Counting gives one worker a snapshot and leaves all others theirs. */
  lemma CountSnaps(s: State, w: nat, m: string)
    requires Enabled(s, Count(w))
    ensures var s' := AfterCount(s, w);
      && s'.store == s.store && s'.stale == s.stale
      && (HasSnap(s', w, m) <==> s.pc[w].e.matchID == m)
      && (forall v :: v != w && HasSnap(s', v, m) ==> HasSnap(s, v, m) && s'.pc[v].snap == s.pc[v].snap)
  {
    hide Apply, Fold, Current;
    var s' := AfterCount(s, w);
    forall v | v != w && HasSnap(s', v, m) ensures HasSnap(s, v, m) && s'.pc[v].snap == s.pc[v].snap {
      assert v in s.pc && s'.pc[v] == s.pc[v];
    }
  }

  lemma CountTimes(schedule: Schedule, w: nat)
    ensures var schedule' := Step(schedule, Count(w));
      && Length(schedule') == Length(schedule) + 1 && CountTime(schedule', w) == Length(schedule')
      && forall v :: v != w ==> CountTime(schedule', v) == CountTime(schedule, v)
  {
  }

  lemma CountAligns(s: State, schedule: Schedule, saved: nat, w: nat, m: string)
    requires Aligned(s, schedule, saved, m) && Faithful(s, m) && Enabled(s, Count(w))
    ensures Aligned(AfterCount(s, w), Step(schedule, Count(w)), saved, m)
  {
    hide Apply, Fold, Faithful, AfterCount, HasSnap, CountTime, Length;
    CountSnaps(s, w, m);
    CountTimes(schedule, w);
    if s.pc[w].e.matchID == m {
      FreshIsLongest(s, w, m);
    }
  }

  /** A save moves one worker on, keeping all snapshots, and may replace one record by the worker's. */
  lemma SaveSnaps(s: State, w: nat, reply: Reply, m: string)
    requires Enabled(s, Save(w, reply))
    ensures var s' := AfterSave(s, w, reply);
      && (forall v :: HasSnap(s', v, m) ==> HasSnap(s, v, m) && s'.pc[v].snap == s.pc[v].snap)
      && (HasSnap(s, w, m) <==> s.pc[w].e.matchID == m)
      && (if reply.Landed() && s.pc[w].e.matchID == m
          then m in s'.store.stats && s'.store.stats[m] == s.pc[w].snap && m !in s'.stale
          else (m in s'.store.stats <==> m in s.store.stats) && (m in s'.stale <==> m in s.stale)
               && (m in s.store.stats ==> s'.store.stats[m] == s.store.stats[m]))
  {
    hide Fold;
    var s' := AfterSave(s, w, reply);
    forall v | HasSnap(s', v, m) ensures HasSnap(s, v, m) && s'.pc[v].snap == s.pc[v].snap {
      assert v != w ==> s'.pc[v] == s.pc[v];
    }
  }

  lemma SaveTimes(schedule: Schedule, w: nat, reply: Reply)
    ensures var schedule' := Step(schedule, Save(w, reply));
      Length(schedule') == Length(schedule) + 1 && forall v :: CountTime(schedule', v) == CountTime(schedule, v)
  {
  }

  lemma SaveAligns(s: State, schedule: Schedule, saved: nat, w: nat, reply: Reply, m: string)
    requires Aligned(s, schedule, saved, m) && Enabled(s, Save(w, reply))
    ensures Aligned(AfterSave(s, w, reply), Step(schedule, Save(w, reply)),
                    if reply.Landed() && s.pc[w].e.matchID == m then CountTime(schedule, w) else saved, m)
  {
    hide Enabled, AfterSave, HasSnap, CountTime, Length;
    SaveSnaps(s, w, reply, m);
    SaveTimes(schedule, w, reply);
  }

  /** Steps that make no snapshot and save none. */
  lemma OtherStep(s: State, a: Action, ttl: nat, v: nat)
    requires Enabled(s, a) && !a.Count? && !a.Save?
    ensures var s' := Next(s, a, ttl);
      v in s'.pc && Holds(s'.pc[v]) ==> v in s.pc && Holds(s.pc[v]) && s'.pc[v].e == s.pc[v].e && s'.pc[v].snap == s.pc[v].snap
  {
    var s' := Next(s, a, ttl);
    if Quiet(a) {
      QuietStep(s, a, ttl);
      assert v != a.w && v in s'.pc ==> v in s'.pc - {a.w} && v in s.pc - {a.w} && s'.pc[v] == s.pc[v];
    }
  }

  lemma OtherAligns(s: State, schedule: Schedule, saved: nat, a: Action, ttl: nat, m: string)
    requires Aligned(s, schedule, saved, m) && Enabled(s, a) && !a.Count? && !a.Save?
    ensures Aligned(Next(s, a, ttl), Step(schedule, a), if a.Crash? then 0 else saved, m)
  {
    var s', schedule' := Next(s, a, ttl), Step(schedule, a);
    assert if a.Crash? then s'.pc == map[] else s'.store.stats == s.store.stats && s'.stale == s.stale;
    assert Length(schedule') == Length(schedule) + 1;
    assert forall v :: CountTime(schedule', v) == CountTime(schedule, v);
    hide Aligned, Next, Enabled, CountTime, Length;
    forall v | HasSnap(s', v, m) ensures HasSnap(s, v, m) && s'.pc[v].snap == s.pc[v].snap {
      OtherStep(s, a, ttl, v);
    }
    StaysAligned(s, s', schedule, schedule', saved, if a.Crash? then 0 else saved, m);
  }

  lemma StaysAligned(s: State, s': State, schedule: Schedule, schedule': Schedule, saved: nat, saved': nat, m: string)
    requires Aligned(s, schedule, saved, m) && Length(schedule) <= Length(schedule') && saved' <= saved
    requires forall v :: HasSnap(s', v, m) ==> HasSnap(s, v, m) && s'.pc[v].snap == s.pc[v].snap
    requires forall v :: CountTime(schedule', v) == CountTime(schedule, v)
    requires s'.pc == map[] || (s'.store.stats == s.store.stats && s'.stale == s.stale && saved' == saved)
    ensures Aligned(s', schedule', saved', m)
  {
  }

  lemma {:induction false} AlignedRun(now: nat, schedule: Schedule, ttl: nat, m: string)
    requires Possible(Init(now), schedule, ttl)
    ensures Aligned(Run(Init(now), schedule, ttl), schedule, SaveTime(now, schedule, ttl, m), m)
  {
    if schedule.Step? {
      var s, a := Run(Init(now), schedule.earlier, ttl), schedule.action;
      var saved := SaveTime(now, schedule.earlier, ttl, m);
      AlignedRun(now, schedule.earlier, ttl, m);
      FaithfulRun(now, schedule.earlier, ttl, m);
      hide Aligned, Faithful, CountTime, Next, Enabled;
      if a.Count? {
        CountAligns(s, schedule.earlier, saved, a.w, m);
        NextCount(s, a.w, ttl);
      } else if a.Save? {
        SaveAligns(s, schedule.earlier, saved, a.w, a.reply, m);
        NextSave(s, a.w, a.reply, ttl);
      } else {
        OtherAligns(s, schedule.earlier, saved, a, ttl, m);
      }
    }
  }

  lemma NextCount(s: State, w: nat, ttl: nat)
    requires Enabled(s, Count(w))
    ensures Next(s, Count(w), ttl) == AfterCount(s, w)
  {
  }

  lemma NextSave(s: State, w: nat, reply: Reply, ttl: nat)
    requires Enabled(s, Save(w, reply))
    ensures Next(s, Save(w, reply), ttl) == AfterSave(s, w, reply)
  {
  }

  /** A save that takes effect makes a record stored or reloaded by this incarnation shorter if and
      only if that record was counted later by a worker that saved it since the last restart. */
  lemma SaveShortensIffOlder(now: nat, schedule: Schedule, ttl: nat, w: nat, reply: Reply)
    requires Possible(Init(now), schedule, ttl)
    requires var s := Run(Init(now), schedule, ttl);
      && Enabled(s, Save(w, reply)) && reply.Landed()
      && s.pc[w].e.matchID in s.store.stats && s.pc[w].e.matchID !in s.stale
    ensures var s := Run(Init(now), schedule, ttl);
      var m := s.pc[w].e.matchID;
      |AfterSave(s, w, reply).store.stats[m].events| < |s.store.stats[m].events|
      <==> CountTime(schedule, w) < SaveTime(now, schedule, ttl, m)
  {
    var s := Run(Init(now), schedule, ttl);
    AlignedRun(now, schedule, ttl, s.pc[w].e.matchID);
    assert HasSnap(s, w, s.pc[w].e.matchID);
  }

  // ----- one worker

  predicate OneWorker(schedule: Schedule, w: nat) {
    schedule.Step? ==>
      && OneWorker(schedule.earlier, w)
      && (schedule.action.Expire? || schedule.action.Advance? || schedule.action.Crash? || schedule.action.w == w)
  }

  lemma {:induction false} SavedInTurn(now: nat, schedule: Schedule, ttl: nat, w: nat, m: string)
    requires Possible(Init(now), schedule, ttl) && OneWorker(schedule, w)
    ensures SaveTime(now, schedule, ttl, m) <= CountTime(schedule, w) <= Length(schedule)
  {
    if schedule.Step? {
      SavedInTurn(now, schedule.earlier, ttl, w, m);
    }
  }

  /** A single worker, whatever fails, never makes a stored record shorter, unless a restart left it
      behind. */
  lemma OneWorkerNeverShortens(now: nat, schedule: Schedule, ttl: nat, w: nat, a: Action, m: string)
    requires Possible(Init(now), Step(schedule, a), ttl) && OneWorker(Step(schedule, a), w)
    requires var s := Run(Init(now), schedule, ttl); m in s.store.stats && m !in s.stale
    ensures var s, s' := Run(Init(now), schedule, ttl), Run(Init(now), Step(schedule, a), ttl);
      m in s'.store.stats && |s.store.stats[m].events| <= |s'.store.stats[m].events|
  {
    var s := Run(Init(now), schedule, ttl);
    hide Aligned, CountTime, SaveTime, OneWorker;
    if a.Save? {
      NextSave(s, a.w, a.reply, ttl);
      if a.reply.Landed() && s.pc[a.w].e.matchID == m {
        OnlyWorker(schedule, w, a);
        SavedInTurn(now, schedule, ttl, w, m);
        SaveShortensIffOlder(now, schedule, ttl, w, a.reply);
      }
    } else {
      OthersKeepRecords(s, a, ttl);
    }
  }

  lemma OnlyWorker(schedule: Schedule, w: nat, a: Action)
    requires OneWorker(Step(schedule, a), w)
    ensures OneWorker(schedule, w) && (a.Save? ==> a.w == w)
  {
  }

  lemma OthersKeepRecords(s: State, a: Action, ttl: nat)
    requires Enabled(s, a) && !a.Save?
    ensures Next(s, a, ttl).store.stats == s.store.stats
  {
    if Quiet(a) {
      QuietStep(s, a, ttl);
    }
  }

  // ----- what a restart takes

  /** The events of the snapshot that was saved last, in whatever incarnation. */
  function LastSaved(now: nat, schedule: Schedule, ttl: nat, m: string): seq<MatchEvent>
    requires Possible(Init(now), schedule, ttl)
  {
    match schedule
    case Begin => []
    case Step(earlier, a) =>
      if a.Save? && a.reply.Landed() && Run(Init(now), earlier, ttl).pc[a.w].e.matchID == m
      then Run(Init(now), earlier, ttl).pc[a.w].snap.events
      else LastSaved(now, earlier, ttl, m)
  }

  lemma {:induction false} StoredIsLastSaved(now: nat, schedule: Schedule, ttl: nat, m: string)
    requires Possible(Init(now), schedule, ttl)
    ensures var s, kept := Run(Init(now), schedule, ttl), LastSaved(now, schedule, ttl, m);
      (m in s.store.stats <==> kept != []) && (m in s.store.stats ==> s.store.stats[m].events == kept)
  {
    if schedule.Step? {
      var s, a := Run(Init(now), schedule.earlier, ttl), schedule.action;
      StoredIsLastSaved(now, schedule.earlier, ttl, m);
      FaithfulRun(now, schedule.earlier, ttl, m);
      if a.Save? {
        NextSave(s, a.w, a.reply, ttl);
        SnapsAreNotEmpty(s, a.w, m);
      } else {
        OthersKeepRecords(s, a, ttl);
      }
    }
  }

  lemma SnapsAreNotEmpty(s: State, w: nat, m: string)
    requires Faithful(s, m)
    ensures HasSnap(s, w, m) ==> s.pc[w].snap.events != []
  {
    assert HasSnap(s, w, m) ==> PrefixOf(s.pc[w].snap, m, Order(s.trace, m));
  }

  /** Whichever writes failed before: a restart keeps of a match exactly what its last effective save
      held if it is reloaded, and nothing otherwise. For a match this incarnation has saved or reloaded
      that is a prefix of what it had applied, so exactly the tail after that save is taken. */
  lemma RestartTakesTheUnsavedTail(now: nat, schedule: Schedule, ttl: nat, reloaded: set<string>, m: string)
    requires Possible(Init(now), schedule, ttl) && Enabled(Run(Init(now), schedule, ttl), Crash(reloaded))
    ensures var s := Run(Init(now), schedule, ttl);
      var s', kept := AfterCrash(s, reloaded), if m in reloaded then LastSaved(now, schedule, ttl, m) else [];
      && Order(s'.trace, m) == kept && Current(s'.mem, m) == Fold(m, kept)
      && (m !in s.stale ==> kept <= Order(s.trace, m))
  {
    var s := Run(Init(now), schedule, ttl);
    StoredIsLastSaved(now, schedule, ttl, m);
    FaithfulRun(now, schedule, ttl, m);
    FaithfulCrash(s, reloaded, m);
    hide Fold;
    assert m in reloaded <==> m in AfterCrash(s, reloaded).mem;
  }

  // ----- the second copy, under match:<id>:latest

  /** The events of the snapshot that was written there last, in whatever incarnation. */
  function LastCached(now: nat, schedule: Schedule, ttl: nat, m: string): seq<MatchEvent>
    requires Possible(Init(now), schedule, ttl)
  {
    match schedule
    case Begin => []
    case Step(earlier, a) =>
      if a.Cache? && a.reply.Landed() && Run(Init(now), earlier, ttl).pc[a.w].e.matchID == m
      then Run(Init(now), earlier, ttl).pc[a.w].snap.events
      else LastCached(now, earlier, ttl, m)
  }

  /** No restart has left the copy behind: since the last one it was written again, or what it held then
      was a prefix of what was reloaded. */
  predicate KeptUp(now: nat, schedule: Schedule, ttl: nat, m: string)
    requires Possible(Init(now), schedule, ttl)
  {
    match schedule
    case Begin => true
    case Step(earlier, a) =>
      if a.Crash? then m in a.reloaded && LastCached(now, earlier, ttl, m) <= LastSaved(now, earlier, ttl, m)
      else if a.Cache? && a.reply.Landed() && Run(Init(now), earlier, ttl).pc[a.w].e.matchID == m then true
      else KeptUp(now, earlier, ttl, m)
  }

  lemma NextCache(s: State, w: nat, reply: Reply, ttl: nat)
    requires Enabled(s, Cache(w, reply))
    ensures var s', m := Next(s, Cache(w, reply), ttl), s.pc[w].e.matchID;
      && HasSnap(s, w, m) && s'.trace == s.trace
      && s'.store.latest == if reply.Landed() then s.store.latest[m := s.pc[w].snap] else s.store.latest
  {
  }

  lemma OthersKeepCopies(s: State, a: Action, ttl: nat, m: string)
    requires Enabled(s, a) && !a.Cache?
    ensures Next(s, a, ttl).store.latest == s.store.latest
    ensures !a.Crash? ==> Order(s.trace, m) <= Order(Next(s, a, ttl).trace, m)
  {
    hide Apply, Empty;
    if Quiet(a) {
      QuietStep(s, a, ttl);
    }
  }

  /** The copy is the fold of these events. */
  predicate CopyIs(s: State, m: string, kept: seq<MatchEvent>) {
    (m in s.store.latest <==> kept != [])
    && (m in s.store.latest ==> s.store.latest[m].events == kept && s.store.latest[m] == Fold(m, kept))
  }

  /** Right after a restart the copy is a prefix of the apply order exactly when its match was reloaded and
      the reloaded record has all the events of the copy. */
  lemma CopyAfterCrash(s: State, reloaded: set<string>, m: string, kept: seq<MatchEvent>)
    requires Enabled(s, Crash(reloaded)) && CopyIs(s, m, kept) && m in s.store.latest
    ensures PrefixOf(s.store.latest[m], m, Order(AfterCrash(s, reloaded).trace, m))
            <==> m in reloaded && s.store.latest[m].events <= s.store.stats[m].events
  {
    hide Fold;
    assert m in AfterCrash(s, reloaded).mem <==> m in reloaded;
  }

  /** In every run, whatever writes fail, the second copy is the fold of what the last effective write held,
      and unless a restart left it behind that is a non-empty prefix of the apply order. */
  lemma {:induction false} CopiesArePrefixes(now: nat, schedule: Schedule, ttl: nat, m: string)
    requires Possible(Init(now), schedule, ttl)
    ensures var s, kept := Run(Init(now), schedule, ttl), LastCached(now, schedule, ttl, m);
      && (m in s.store.latest <==> kept != [])
      && (m in s.store.latest ==> s.store.latest[m].events == kept && s.store.latest[m] == Fold(m, kept))
      && (m in s.store.latest && KeptUp(now, schedule, ttl, m) ==> PrefixOf(s.store.latest[m], m, Order(s.trace, m)))
  {
    if schedule.Step? {
      var s, a := Run(Init(now), schedule.earlier, ttl), schedule.action;
      CopiesArePrefixes(now, schedule.earlier, ttl, m);
      assert CopyIs(s, m, LastCached(now, schedule.earlier, ttl, m));
      FaithfulRun(now, schedule.earlier, ttl, m);
      hide Fold, Order, Next, Enabled, HasSnap;
      if a.Cache? {
        NextCache(s, a.w, a.reply, ttl);
        SnapIsPrefix(s, a.w, m);
      } else {
        OthersKeepCopies(s, a, ttl, m);
        if a.Crash? && m in s.store.latest {
          CopyAfterCrash(s, a.reloaded, m, LastCached(now, schedule.earlier, ttl, m));
          StoredIsLastSaved(now, schedule.earlier, ttl, m);
          NextCrash(s, a.reloaded, ttl);
        }
      }
    }
  }

  lemma NextCrash(s: State, reloaded: set<string>, ttl: nat)
    requires Enabled(s, Crash(reloaded))
    ensures Next(s, Crash(reloaded), ttl) == AfterCrash(s, reloaded) && reloaded <= s.store.stats.Keys
  {
  }

  lemma SnapIsPrefix(s: State, w: nat, m: string)
    requires Faithful(s, m)
    ensures HasSnap(s, w, m) ==> PrefixOf(s.pc[w].snap, m, Order(s.trace, m))
  {
  }

  /** So of any run: a restart leaves the copy behind exactly unless its match is reloaded with at least
      the events the last effective write to the copy held. */
  lemma RestartLeavesCopyBehindIff(now: nat, schedule: Schedule, ttl: nat, reloaded: set<string>, m: string)
    requires Possible(Init(now), schedule, ttl) && Enabled(Run(Init(now), schedule, ttl), Crash(reloaded))
    requires m in Run(Init(now), schedule, ttl).store.latest
    ensures var s := AfterCrash(Run(Init(now), schedule, ttl), reloaded);
      !PrefixOf(s.store.latest[m], m, Order(s.trace, m))
      <==> m !in reloaded || !(LastCached(now, schedule, ttl, m) <= LastSaved(now, schedule, ttl, m))
  {
    var s := Run(Init(now), schedule, ttl);
    CopiesArePrefixes(now, schedule, ttl, m);
    StoredIsLastSaved(now, schedule, ttl, m);
    hide Fold, Order, PrefixOf;
    CopyAfterCrash(s, reloaded, m, LastCached(now, schedule, ttl, m));
  }
}
