/** What the consume loop keeps in every run in which only marks, `:latest` writes, publishes and
    commits fail: each match's record is the fold of the first occurrences in the log, minus exactly
    the events whose processing a crash interrupted before their record could be reloaded. */
module ExactlyOnce {
  import opened Common
  import opened Aggregate
  import opened Protocol
  import opened Consumer
  import opened OffsetSafety
  import opened ClaimSafety

  // ----- facts about histories

  lemma {:induction false} HitsAreLocal(log: seq<Message>, n: nat, crashes: Crashes, off: nat, stage: Pc, listed: bool, m: string)
    requires n <= |log| && (n <= off || !Fatal(stage, listed))
    ensures History(log, n, Hit(crashes, off, stage, listed), m) == History(log, n, crashes, m)
  {
    if n > 0 {
      HitsAreLocal(log, n - 1, crashes, off, stage, listed, m);
    }
  }

  /** What one more first occurrence does to the histories. */
  lemma HistoriesGrow(log: seq<Message>, off: nat, crashes: Crashes)
    requires off < |log| && First(log, off) && !Lost(crashes, off)
    ensures forall m ::
      (m == log[off].e.matchID ==> History(log, off + 1, crashes, m) == History(log, off, crashes, m) + [log[off].e]) &&
      (m != log[off].e.matchID ==> History(log, off + 1, crashes, m) == History(log, off, crashes, m))
  {
  }

  lemma RememberOne(mem: map<string, Stats>, log: seq<Message>, off: nat, crashes: Crashes, e: MatchEvent)
    requires off < |log| && log[off] == Good(e) && First(log, off) && !Lost(crashes, off)
    requires Remembers(mem, log, off, crashes)
    ensures Remembers(mem[e.matchID := Apply(Current(mem, e.matchID), e)], log, off + 1, crashes)
  {
    hide History, Fold, Seen, First, Apply;
    var h := History(log, off, crashes, e.matchID);
    HistoriesGrow(log, off, crashes);
    FoldSnoc(e.matchID, h, e);
    EmptyIsFold(e.matchID);
    assert Current(mem, e.matchID) == Fold(e.matchID, h);
  }

  lemma EmptyIsFold(m: string)
    ensures Fold(m, []) == Empty(m)
  {
  }

  // ----- the invariant

  /** How much of the log the memory, the stored records and the active set reflect. */
  function InMemory(c: Loop): int {
    if ME in c.core.pc && c.core.pc[ME].Granted? then c.progress.reach - 1 else c.progress.reach
  }

  function InRecords(c: Loop): int {
    if ME in c.core.pc && (c.core.pc[ME].Granted? || c.core.pc[ME].Applied? || c.core.pc[ME].Marked?)
    then c.progress.reach - 1 else c.progress.reach
  }

  function InActive(c: Loop): int {
    if ME in c.core.pc && IsClaimed(c.core.pc[ME]) && !c.core.pc[ME].Listed?
    then c.progress.reach - 1 else c.progress.reach
  }

  ghost predicate Remembers(mem: map<string, Stats>, log: seq<Message>, n: int, crashes: Crashes) {
    0 <= n <= |log| && forall m ::
      && (m in mem <==> History(log, n, crashes, m) != [])
      && (m in mem ==> mem[m] == Fold(m, History(log, n, crashes, m)))
  }

  ghost predicate Stores(stats: map<string, Stats>, log: seq<Message>, n: int, crashes: Crashes) {
    0 <= n <= |log| && forall m ::
      && (History(log, n, crashes, m) != [] ==> m in stats && stats[m] == Fold(m, History(log, n, crashes, m)))
      && (History(log, n, crashes, m) == [] && m in stats ==> |stats[m].events| == 1)
  }

  ghost predicate Lists(active: set<string>, log: seq<Message>, n: int, crashes: Crashes) {
    0 <= n <= |log| && forall m :: m in active <==> History(log, n, crashes, m) != []
  }

  ghost predicate Content(c: Loop, log: seq<Message>) {
    && c.progress.reach <= |log|
    && Remembers(c.core.mem, log, InMemory(c), c.crashes)
    && Stores(c.core.store.stats, log, InRecords(c), c.crashes)
    && Lists(c.core.store.active, log, InActive(c), c.crashes)
    && (ME in c.core.pc && Holds(c.core.pc[ME]) ==>
          var m := c.core.pc[ME].e.matchID; c.core.pc[ME].snap == Fold(m, History(log, c.progress.reach, c.crashes, m)))
  }

  ghost predicate Inv(c: Loop, log: seq<Message>) {
    Fair(c, log) && Content(c, log)
  }

  // ----- claiming and completing

  /** A message that leaves store and memory alone and was not claimed is completed. */
  lemma CompletionKeeps(c: Loop, log: seq<Message>, core: State, outcome: Outcome)
    requires Inv(c, log) && c.phase.Handling?
    requires ME in c.core.pc ==> c.core.pc[ME].Refused?
    requires core.pc == map[] && core.store == c.core.store && core.mem == c.core.mem
    ensures Content(Finished(c, core, outcome), log)
  {
    hide History, Fold, Seen, First;
    NothingNew(log, c.progress.reach, c.phase.off, c.crashes);
  }

  /** An event that finds its ID free is the next to be claimed. */
  lemma FreshIsNext(c: Loop, log: seq<Message>)
    requires Fair(c, log) && ME in c.core.pc && c.core.pc[ME].e.eventID !in c.core.store.dedupe
    ensures c.phase.off == c.progress.reach
  {
    var e, off := c.core.pc[ME].e, c.phase.off;
    assert Ahead(log, Floor(c.offsets), e.eventID);
    if off < c.progress.reach {
      SeenIsMonotone(log, off + 1, c.progress.reach, e.eventID);
    }
  }

  lemma SetNXKeeps(c: Loop, log: seq<Message>, ttl: nat)
    requires Inv(c, log) && Can(c, log, Work(SetNX(ME, Fine))) && Fair(AfterWork(c, log, SetNX(ME, Fine), ttl), log)
    ensures Content(AfterWork(c, log, SetNX(ME, Fine), ttl), log)
  {
    hide History, Fold, Seen, First, Ahead, Keyed;
    var c' := AfterWork(c, log, SetNX(ME, Fine), ttl);
    assert c'.core == AfterSetNX(c.core, ME, Fine, ttl);
    if c.core.pc[ME].e.eventID !in c.core.store.dedupe {
      FreshIsNext(c, log);
    }
  }

  lemma GetKeeps(c: Loop, log: seq<Message>, ttl: nat)
    requires Inv(c, log) && Can(c, log, Work(Get(ME, true)))
    ensures Content(AfterWork(c, log, Get(ME, true), ttl), log)
  {
    var core := Next(c.core, Get(ME, true), ttl);
    assert core == AfterGet(c.core, ME, true);
    CompletionKeeps(c, log, core, Duplicate);
  }

  // ----- applying and persisting

  lemma CountKeeps(c: Loop, log: seq<Message>, ttl: nat)
    requires Inv(c, log) && Can(c, log, Work(Count(ME)))
    ensures Content(AfterWork(c, log, Count(ME), ttl), log)
  {
    hide History, Fold, Seen, First, Apply, Keyed;
    var c' := AfterWork(c, log, Count(ME), ttl);
    assert c'.core == AfterCount(c.core, ME);
    RememberOne(c.core.mem, log, c.phase.off, c.crashes, c.core.pc[ME].e);
  }

  lemma StoreOne(stats: map<string, Stats>, log: seq<Message>, off: nat, crashes: Crashes, snap: Stats)
    requires off < |log| && First(log, off) && !Lost(crashes, off)
    requires Stores(stats, log, off, crashes)
    requires var m := log[off].e.matchID; snap == Fold(m, History(log, off + 1, crashes, m))
    ensures Stores(stats[log[off].e.matchID := snap], log, off + 1, crashes)
  {
    hide History, Fold, Seen, First;
    HistoriesGrow(log, off, crashes);
  }

  lemma SaveKeeps(c: Loop, log: seq<Message>, ttl: nat)
    requires Inv(c, log) && Can(c, log, Work(Save(ME, Fine)))
    ensures Content(AfterWork(c, log, Save(ME, Fine), ttl), log)
  {
    hide History, Fold, Seen, First, Keyed;
    var c' := AfterWork(c, log, Save(ME, Fine), ttl);
    assert c'.core == AfterSave(c.core, ME, Fine);
    StoreOne(c.core.store.stats, log, c.phase.off, c.crashes, c.core.pc[ME].snap);
  }

  lemma ListOne(active: set<string>, log: seq<Message>, off: nat, crashes: Crashes)
    requires off < |log| && First(log, off) && !Lost(crashes, off)
    requires Lists(active, log, off, crashes)
    ensures Lists(active + {log[off].e.matchID}, log, off + 1, crashes)
  {
    hide History, Seen, First;
    HistoriesGrow(log, off, crashes);
  }

  lemma ListKeeps(c: Loop, log: seq<Message>, ttl: nat)
    requires Inv(c, log) && Can(c, log, Work(List(ME, Fine)))
    ensures Content(AfterWork(c, log, List(ME, Fine), ttl), log)
  {
    hide History, Fold, Seen, First, Keyed;
    var c' := AfterWork(c, log, List(ME, Fine), ttl);
    assert c'.core == AfterList(c.core, ME, Fine);
    ListOne(c.core.store.active, log, c.phase.off, c.crashes);
  }

  /** Marking, caching and publishing touch nothing a record reflects. */
  lemma OtherWorkKeeps(c: Loop, log: seq<Message>, a: Action, ttl: nat)
    requires Inv(c, log) && Can(c, log, Work(a)) && (a.Mark? || a.Cache? || a.Publish?)
    ensures Content(AfterWork(c, log, a, ttl), log)
  {
    hide History, Fold, Seen, First, Keyed;
    var core := Next(c.core, a, ttl);
    assert core.mem == c.core.mem && core.store.stats == c.core.store.stats && core.store.active == c.core.store.active;
    assert AfterWork(c, log, a, ttl).core == core;
  }

  // ----- crashing

  /** Where the interrupted event stood decides whether the reloaded records still have it. */
  lemma HitHistories(log: seq<Message>, n: nat, crashes: Crashes, off: nat, stage: Pc, listed: bool)
    requires n <= |log| && (n <= off || !Fatal(stage, listed))
    ensures forall m :: History(log, n, Hit(crashes, off, stage, listed), m) == History(log, n, crashes, m)
  {
    forall m ensures History(log, n, Hit(crashes, off, stage, listed), m) == History(log, n, crashes, m) {
      HitsAreLocal(log, n, crashes, off, stage, listed, m);
    }
  }

  /** A lost first occurrence adds nothing. */
  lemma LostHistories(log: seq<Message>, off: nat, crashes: Crashes)
    requires off < |log| && Lost(crashes, off)
    ensures forall m :: History(log, off + 1, crashes, m) == History(log, off, crashes, m)
  {
  }

  /** The reloaded memory reflects n messages when the records and the active set do. */
  lemma Reload(stats: map<string, Stats>, active: set<string>, log: seq<Message>, n: nat, crashes: Crashes)
    requires Stores(stats, log, n, crashes) && Lists(active, log, n, crashes)
    ensures Remembers(stats - (stats.Keys - active * stats.Keys), log, n, crashes)
  {
    hide History, Fold;
  }

  /** A fatal crash: what was saved and listed before the event is all there is. */
  lemma FatalContent(stats: map<string, Stats>, active: set<string>, log: seq<Message>, off: nat, crashes: Crashes, stage: Pc)
    requires off < |log| && log[off] == Good(stage.e) && First(log, off) && !Lost(crashes, off)
    requires Fatal(stage, stage.e.matchID in active) && Lists(active, log, off, crashes)
    requires Stores(stats, log, if stage.Saved? || stage.Cached? then off + 1 else off, crashes)
    ensures var after := Hit(crashes, off, stage, stage.e.matchID in active);
      Stores(stats, log, off + 1, after) && Lists(active, log, off + 1, after)
  {
    var listed := stage.e.matchID in active;
    HitHistories(log, off, crashes, off, stage, listed);
    LostHistories(log, off, Hit(crashes, off, stage, listed));
    HistoriesGrow(log, off, crashes);
    hide History, Fold, Seen, First;
    forall m | History(log, off + 1, Hit(crashes, off, stage, listed), m) != []
      ensures m in stats && stats[m] == Fold(m, History(log, off, crashes, m))
    {
      assert m in active && History(log, off, crashes, m) != [];
    }
    forall m | History(log, off + 1, Hit(crashes, off, stage, listed), m) == [] && m in stats
      ensures |stats[m].events| == 1
    {
      assert History(log, off, crashes, m) == [];
    }
  }

  /** A crash that leaves the event reloadable, or hits one that was never claimed. */
  lemma HarmlessContent(stats: map<string, Stats>, active: set<string>, log: seq<Message>, n: nat,
                        crashes: Crashes, off: nat, stage: Pc, listed: bool)
    requires Stores(stats, log, n, crashes) && Lists(active, log, n, crashes) && !Fatal(stage, listed)
    ensures Stores(stats, log, n, Hit(crashes, off, stage, listed)) && Lists(active, log, n, Hit(crashes, off, stage, listed))
  {
    hide History, Fold;
    HitHistories(log, n, crashes, off, stage, listed);
  }

  /** Records and active set reflect everything claimed, once the interrupted event is written off
      if it is lost. */
  lemma SurvivingContent(c: Loop, log: seq<Message>, reloaded: set<string>)
    requires Inv(c, log) && Enabled(c.core, Crash(reloaded))
    ensures var crashes := AfterRestart(c, reloaded).crashes;
      Stores(c.core.store.stats, log, c.progress.reach, crashes) && Lists(c.core.store.active, log, c.progress.reach, crashes)
  {
    hide History, Fold, Seen, First, Keyed;
    var stats, active := c.core.store.stats, c.core.store.active;
    if ME in c.core.pc {
      var stage, off := c.core.pc[ME], c.phase.off;
      var m := stage.e.matchID;
      hide Stores, Lists;
      if Fatal(stage, m in active) {
        FatalContent(stats, active, log, off, c.crashes, stage);
      } else {
        if stage.Saved? || stage.Cached? {
          ListOne(active, log, off, c.crashes);
          assert active + {m} == active;
        }
        HarmlessContent(stats, active, log, c.progress.reach, c.crashes, off, stage, m in active);
      }
    }
  }

  lemma RestartKeeps(c: Loop, log: seq<Message>, reloaded: set<string>)
    requires Inv(c, log) && Can(c, log, Restart(reloaded)) && Steady(c, log, Restart(reloaded))
    ensures Content(AfterRestart(c, reloaded), log)
  {
    hide History, Fold, Seen, First, Keyed;
    var c' := AfterRestart(c, reloaded);
    SurvivingContent(c, log, reloaded);
    Reload(c.core.store.stats, c.core.store.active, log, c.progress.reach, c'.crashes);
    assert c'.core.pc == map[] && c'.core.store == c.core.store;
  }

  // ----- every run

  lemma WorkKeeps(c: Loop, log: seq<Message>, a: Action, ttl: nat)
    requires Inv(c, log) && Can(c, log, Work(a)) && Steady(c, log, Work(a)) && Fair(AfterWork(c, log, a, ttl), log)
    ensures Content(AfterWork(c, log, a, ttl), log)
  {
    hide Inv, AfterWork, Enabled, Content, Fair;
    match a
    case SetNX(w, reply) => SetNXKeeps(c, log, ttl);
    case Get(w, ok) => GetKeeps(c, log, ttl);
    case Count(w) => CountKeeps(c, log, ttl);
    case Save(w, reply) => SaveKeeps(c, log, ttl);
    case List(w, reply) => ListKeeps(c, log, ttl);
    case _ => OtherWorkKeeps(c, log, a, ttl);
  }

  lemma StepKeeps(c: Loop, log: seq<Message>, t: Turn, ttl: nat)
    requires Inv(c, log) && Can(c, log, t) && Steady(c, log, t) && Fair(After(c, log, t, ttl), log)
    ensures Content(After(c, log, t, ttl), log)
  {
    match t
    case Work(a) => WorkKeeps(c, log, a, ttl);
    case DeadLetter(published) => CompletionKeeps(c, log, c.core, if published then DeadLettered else Dropped);
    case Restart(reloaded) => RestartKeeps(c, log, reloaded);
    case _ => OtherTurnKeeps(c, log, t, ttl);
  }

  lemma OtherTurnKeeps(c: Loop, log: seq<Message>, t: Turn, ttl: nat)
    requires Inv(c, log) && Can(c, log, t)
    requires t.Fetch? || t.Commit? || t.Flush? || t.Rewind? || t.Tick? || t.Lapse?
    ensures Content(After(c, log, t, ttl), log)
  {
    hide History, Fold, Seen, First, Keyed;
  }

  lemma {:induction false} SteadyIsGated(now: nat, log: seq<Message>, turns: Turns, ttl: nat)
    requires Feasible(now, log, turns, ttl) && AllSteady(now, log, turns, ttl)
    ensures AllGated(now, log, turns, ttl)
  {
    if turns.Also? {
      SteadyIsGated(now, log, turns.earlier, ttl);
    }
  }

  lemma {:induction false} RunKeeps(now: nat, log: seq<Message>, turns: Turns, ttl: nat)
    requires AllHaveIDs(log) && Feasible(now, log, turns, ttl) && AllSteady(now, log, turns, ttl)
    ensures Inv(Reached(now, log, turns, ttl), log)
  {
    SteadyIsGated(now, log, turns, ttl);
    RunIsFair(now, log, turns, ttl);
    if turns.Also? {
      hide Fair, Content, AllGated;
      RunKeeps(now, log, turns.earlier, ttl);
      StepKeeps(Reached(now, log, turns.earlier, ttl), log, turns.turn, ttl);
    }
  }
}
