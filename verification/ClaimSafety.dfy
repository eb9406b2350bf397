/** What claims mean while the reservation commands answer and only IDs that will not be read again
    expire: the event a worker has claimed is the first with its ID in the log, and everything below
    it was claimed before. Record writes, SADD and restarts may fail at will. */
module ClaimSafety {
  import opened Common
  import opened Aggregate
  import opened Protocol
  import opened Consumer
  import opened OffsetSafety

  predicate IsClaimed(p: Pc) {
    p.Granted? || Holds(p)
  }

  lemma {:induction false} SeenIsMonotone(log: seq<Message>, n: nat, n': nat, id: string)
    requires n <= n' <= |log| && Seen(log, n, id)
    ensures Seen(log, n', id)
  {
    if n < n' {
      SeenIsMonotone(log, n, n' - 1, id);
    }
  }

  /** A message that is no first occurrence adds nothing. */
  lemma NothingNew(log: seq<Message>, reach: nat, off: nat, crashes: Crashes)
    requires off <= reach <= |log| && off < |log|
    requires log[off].Good? ==> Seen(log, reach, log[off].e.eventID)
    ensures forall m :: History(log, Max(reach, off + 1), crashes, m) == History(log, reach, crashes, m)
    ensures forall id :: Seen(log, Max(reach, off + 1), id) <==> Seen(log, reach, id)
  {
  }

  // ----- the invariant

  /** What a worker's stage says about the offset it handles. */
  predicate Stands(c: Loop, log: seq<Message>, stage: Pc)
    requires c.phase.Handling? && c.phase.off < |log| && c.progress.reach <= |log|
  {
    && (stage.Refused? ==> Seen(log, c.progress.reach, stage.e.eventID))
    && (IsClaimed(stage) ==>
          && c.progress.reach == c.phase.off + 1 && c.progress.furthest == c.phase.off
          && First(log, c.phase.off) && !Lost(c.crashes, c.phase.off))
  }

  predicate Placed(c: Loop, log: seq<Message>)
    requires Ordered(c, log)
  {
    && (ME in c.core.pc ==> Stands(c, log, c.core.pc[ME]))
    && (c.crashes.NoCrash? && (ME in c.core.pc ==> !IsClaimed(c.core.pc[ME])) ==> c.progress.reach == c.progress.furthest)
  }

  /** The reserved IDs are among those of the log so far, and include all that can be read again. */
  ghost predicate Keyed(dedupe: map<string, Reservation>, log: seq<Message>, n: nat, floor: nat)
    requires n <= |log|
  {
    && (forall id :: id in dedupe ==> Seen(log, n, id))
    && (forall id :: Seen(log, n, id) && Ahead(log, floor, id) ==> id in dedupe)
  }

  ghost predicate Tracked(c: Loop, log: seq<Message>)
    requires Ordered(c, log)
  {
    && Placed(c, log)
    && Keyed(c.core.store.dedupe, log, c.progress.reach, Floor(c.offsets))
    && forall off: nat :: Lost(c.crashes, off) ==> off < c.progress.reach
  }

  ghost predicate Fair(c: Loop, log: seq<Message>) {
    Ordered(c, log) && Tracked(c, log)
  }

  lemma KeyedHigher(dedupe: map<string, Reservation>, log: seq<Message>, n: nat, floor: nat, floor': nat)
    requires n <= |log| && floor <= floor' && Keyed(dedupe, log, n, floor)
    ensures Keyed(dedupe, log, n, floor')
  {
    hide Seen;
    forall id | Seen(log, n, id) && Ahead(log, floor', id) ensures id in dedupe {
      var i :| floor' <= i < |log| && log[i].Good? && log[i].e.eventID == id;
      assert Ahead(log, floor, id);
    }
  }

  // ----- steps

  /** A message that leaves the store alone and was not claimed is completed: skipped, dead-lettered
      or dropped. */
  lemma CompletionIsFair(c: Loop, log: seq<Message>, core: State, outcome: Outcome)
    requires Fair(c, log) && c.phase.Handling? && Ordered(Finished(c, core, outcome), log)
    requires ME in c.core.pc ==> c.core.pc[ME].Refused?
    requires core.pc == map[] && core.store == c.core.store
    ensures Fair(Finished(c, core, outcome), log)
  {
    hide History, Seen, First, Ahead;
    NothingNew(log, c.progress.reach, c.phase.off, c.crashes);
  }

  lemma SetNXIsFair(c: Loop, log: seq<Message>, ttl: nat)
    requires Fair(c, log) && Can(c, log, Work(SetNX(ME, Fine)))
    requires Ordered(AfterWork(c, log, SetNX(ME, Fine), ttl), log)
    ensures Fair(AfterWork(c, log, SetNX(ME, Fine), ttl), log)
  {
    var e, off, reach := c.core.pc[ME].e, c.phase.off, c.progress.reach;
    var c' := AfterWork(c, log, SetNX(ME, Fine), ttl);
    assert c'.core == AfterSetNX(c.core, ME, Fine, ttl);
    assert Ahead(log, Floor(c.offsets), e.eventID);
    if e.eventID !in c.core.store.dedupe {
      if off < reach {
        SeenIsMonotone(log, off + 1, reach, e.eventID);
      }
      assert reach == off && c'.progress.reach == off + 1;
      forall id ensures Seen(log, off + 1, id) <==> Seen(log, off, id) || id == e.eventID {
      }
      assert Keyed(c'.core.store.dedupe, log, off + 1, Floor(c.offsets));
    }
  }

  lemma MarkIsFair(c: Loop, log: seq<Message>, reply: Reply, ttl: nat)
    requires Fair(c, log) && Can(c, log, Work(Mark(ME, reply)))
    requires Ordered(AfterWork(c, log, Mark(ME, reply), ttl), log)
    ensures Fair(AfterWork(c, log, Mark(ME, reply), ttl), log)
  {
    hide First, Ahead;
    var c' := AfterWork(c, log, Mark(ME, reply), ttl);
    assert c'.core == AfterMark(c.core, ME, reply, ttl);
    assert Seen(log, c.progress.reach, c.core.pc[ME].e.eventID);
    hide Seen;
  }

  lemma GetIsFair(c: Loop, log: seq<Message>, ttl: nat)
    requires Fair(c, log) && Can(c, log, Work(Get(ME, true)))
    requires Ordered(AfterWork(c, log, Get(ME, true), ttl), log)
    ensures Fair(AfterWork(c, log, Get(ME, true), ttl), log)
  {
    var core := Next(c.core, Get(ME, true), ttl);
    assert core == AfterGet(c.core, ME, true);
    CompletionIsFair(c, log, core, Duplicate);
  }

  lemma OtherWorkIsFair(c: Loop, log: seq<Message>, a: Action, ttl: nat)
    requires Fair(c, log) && Can(c, log, Work(a)) && Ordered(AfterWork(c, log, a, ttl), log)
    requires a.Count? || a.Save? || a.Cache? || a.List? || a.Publish?
    ensures Fair(AfterWork(c, log, a, ttl), log)
  {
    hide Seen, First, Ahead;
    var core := Next(c.core, a, ttl);
    assert core.store.dedupe == c.core.store.dedupe;
    assert AfterWork(c, log, a, ttl).core == core;
  }

  lemma WorkIsFair(c: Loop, log: seq<Message>, a: Action, ttl: nat)
    requires Fair(c, log) && Can(c, log, Work(a)) && Gated(c, log, Work(a)) && Ordered(AfterWork(c, log, a, ttl), log)
    ensures Fair(AfterWork(c, log, a, ttl), log)
  {
    hide Fair, Ordered, Enabled, AfterWork;
    match a
    case SetNX(w, reply) => SetNXIsFair(c, log, ttl);
    case Get(w, ok) => GetIsFair(c, log, ttl);
    case Mark(w, reply) => MarkIsFair(c, log, reply, ttl);
    case _ => OtherWorkIsFair(c, log, a, ttl);
  }

  lemma StepIsFair(c: Loop, log: seq<Message>, t: Turn, ttl: nat)
    requires Fair(c, log) && Can(c, log, t) && Gated(c, log, t) && Ordered(After(c, log, t, ttl), log)
    ensures Fair(After(c, log, t, ttl), log)
  {
    var c' := After(c, log, t, ttl);
    match t
    case Work(a) => WorkIsFair(c, log, a, ttl);
    case DeadLetter(published) => CompletionIsFair(c, log, c.core, if published then DeadLettered else Dropped);
    case Lapse(id) => LapseIsFair(c, log, id, ttl);
    case Restart(reloaded) => RestartIsFair(c, log, reloaded);
    case _ =>
      hide Seen, First, Ahead;
      KeyedHigher(c.core.store.dedupe, log, c.progress.reach, Floor(c.offsets), Floor(c'.offsets));
  }

  lemma RestartIsFair(c: Loop, log: seq<Message>, reloaded: set<string>)
    requires Fair(c, log) && Enabled(c.core, Crash(reloaded)) && Ordered(AfterRestart(c, reloaded), log)
    ensures Fair(AfterRestart(c, reloaded), log)
  {
    hide Seen, First, Ahead;
    var c' := AfterRestart(c, reloaded);
    KeyedHigher(c.core.store.dedupe, log, c.progress.reach, Floor(c.offsets), Floor(c'.offsets));
    forall off: nat | Lost(c'.crashes, off) ensures off < c.progress.reach {
      assert Lost(c.crashes, off) || (ME in c.core.pc && off == c.phase.off && IsClaimed(c.core.pc[ME]));
    }
  }

  lemma LapseIsFair(c: Loop, log: seq<Message>, id: string, ttl: nat)
    requires Fair(c, log) && Can(c, log, Lapse(id)) && Gated(c, log, Lapse(id)) && Ordered(AfterLapse(c, id, ttl), log)
    ensures Fair(AfterLapse(c, id, ttl), log)
  {
    hide Seen, First, Ahead;
    assert AfterLapse(c, id, ttl).core.store.dedupe == c.core.store.dedupe - {id};
  }

  lemma {:induction false} RunIsFair(now: nat, log: seq<Message>, turns: Turns, ttl: nat)
    requires AllHaveIDs(log) && Feasible(now, log, turns, ttl) && AllGated(now, log, turns, ttl)
    ensures Fair(Reached(now, log, turns, ttl), log)
  {
    RunIsSound(now, log, turns, ttl);
    if turns.Also? {
      hide Fair, Handled;
      RunIsFair(now, log, turns.earlier, ttl);
      StepIsFair(Reached(now, log, turns.earlier, ttl), log, turns.turn, ttl);
    }
  }
}
