/** What the consume loop keeps in every run, however badly the store behaves: offsets never pass
    what was handled, and what was handled was handled as its kind demands. */
module OffsetSafety {
  import opened Common
  import opened Aggregate
  import opened Protocol
  import opened Consumer

  predicate Logged(trace: Trace, act: Act) {
    trace.Then? && (trace.act == act || Logged(trace.before, act))
  }

  /** An event was folded into an aggregate or skipped for a reason on record; anything else was
      dead-lettered, or dropped after its retries. */
  predicate Treated(msg: Message, outcome: Outcome, trace: Trace) {
    if msg.Bad? then outcome.DeadLettered? || outcome.Dropped?
    else if outcome.Aggregated? then Logged(trace, Counted(msg.e))
    else outcome.Duplicate? && exists why :: Logged(trace, Skipped(msg.e.eventID, why))
  }

  /** Some incarnation completed the message at this offset. */
  predicate Carried(ledger: Ledger, trace: Trace, log: seq<Message>, off: nat)
    requires off < |log|
  {
    ledger.Entry? && (Carried(ledger.before, trace, log, off) || (ledger.off == off && Treated(log[off], ledger.outcome, trace)))
  }

  /** The trace only grows. */
  predicate Grown(trace: Trace, trace': Trace) {
    trace' == trace || (trace'.Then? && trace'.before == trace)
  }

  lemma TreatedStays(msg: Message, outcome: Outcome, trace: Trace, trace': Trace)
    requires Treated(msg, outcome, trace) && Grown(trace, trace')
    ensures Treated(msg, outcome, trace')
  {
    if msg.Good? && outcome.Duplicate? {
      var why :| Logged(trace, Skipped(msg.e.eventID, why));
      assert Logged(trace', Skipped(msg.e.eventID, why));
    }
  }

  lemma {:induction false} CarriedStays(ledger: Ledger, trace: Trace, trace': Trace, log: seq<Message>, off: nat)
    requires off < |log| && Carried(ledger, trace, log, off) && Grown(trace, trace')
    ensures Carried(ledger, trace', log, off)
  {
    if Carried(ledger.before, trace, log, off) {
      CarriedStays(ledger.before, trace, trace', log, off);
    } else {
      TreatedStays(log[off], ledger.outcome, trace, trace');
    }
  }

  /** Offsets, phase and worker fit together. */
  predicate Ordered(c: Loop, log: seq<Message>) {
    var o, p := c.offsets, c.progress;
    && p.furthest <= p.reach <= p.furthest + 1 && p.reach <= |log|
    && o.pos <= p.furthest && o.requested <= p.furthest && o.committed <= p.furthest
    && (c.phase.Done? ==> c.phase.off == o.pos < p.furthest)
    && (c.phase.Handling? ==> c.phase.off == o.pos < |log|)
    && c.core.pc.Keys == (if c.phase.Handling? && log[c.phase.off].Good? then {ME} else {})
    && (ME in c.core.pc ==>
          && log[c.phase.off] == Good(c.core.pc[ME].e)
          && (Holds(c.core.pc[ME]) ==> Logged(c.core.trace, Counted(c.core.pc[ME].e))))
  }

  ghost predicate Handled(c: Loop, log: seq<Message>)
    requires c.progress.furthest <= |log|
  {
    forall off :: 0 <= off < c.progress.furthest ==> Carried(c.ledger, c.core.trace, log, off)
  }

  ghost predicate Sound(c: Loop, log: seq<Message>) {
    Ordered(c, log) && Handled(c, log)
  }

  lemma HandledStays(c: Loop, c': Loop, log: seq<Message>)
    requires c.progress.furthest == c'.progress.furthest <= |log| && Handled(c, log)
    requires c'.ledger == c.ledger && Grown(c.core.trace, c'.core.trace)
    ensures Handled(c', log)
  {
    forall off | 0 <= off < c'.progress.furthest ensures Carried(c'.ledger, c'.core.trace, log, off) {
      CarriedStays(c.ledger, c.core.trace, c'.core.trace, log, off);
    }
  }

  /** Completing a message as its kind demands. */
  lemma FinishedIsSound(c: Loop, log: seq<Message>, core: State, outcome: Outcome)
    requires Sound(c, log) && c.phase.Handling? && core.pc == map[]
    requires Grown(c.core.trace, core.trace) && Treated(log[c.phase.off], outcome, core.trace)
    ensures Sound(Finished(c, core, outcome), log)
  {
    hide Treated;
    var c' := Finished(c, core, outcome);
    forall off | 0 <= off < c'.progress.furthest ensures Carried(c'.ledger, core.trace, log, off) {
      if off < c.progress.furthest {
        CarriedStays(c.ledger, c.core.trace, core.trace, log, off);
      }
    }
  }

  /** What a step of the worker does to the worker and to the trace. */
  lemma WorkEffect(s: State, a: Action, ttl: nat)
    requires Mine(a) && Enabled(s, a) && s.pc.Keys == {ME}
    ensures var s', e := Next(s, a, ttl), s.pc[ME].e;
      && Grown(s.trace, s'.trace)
      && (a.Publish? ==> Holds(s.pc[ME]) && s'.pc == map[])
      && (!a.Publish? && ME !in s'.pc ==> s'.pc == map[] && exists why :: Logged(s'.trace, Skipped(e.eventID, why)))
      && (ME in s'.pc ==> s'.pc.Keys == {ME} && s'.pc[ME].e == e)
      && (ME in s'.pc && Holds(s'.pc[ME]) ==> Holds(s.pc[ME]) || Logged(s'.trace, Counted(e)))
  {
    hide Apply, Current;
    var s', e := Next(s, a, ttl), s.pc[ME].e;
    if Quiet(a) {
      assert s'.trace == s.trace;
    } else if a.Get? {
      assert s' == AfterGet(s, ME, a.ok);
      assert ME !in s'.pc ==> Logged(s'.trace, Skipped(e.eventID, AlreadyProcessed)) || Logged(s'.trace, Skipped(e.eventID, InFlight));
    }
  }

  lemma WorkIsSound(c: Loop, log: seq<Message>, a: Action, ttl: nat)
    requires Sound(c, log) && Can(c, log, Work(a))
    ensures Sound(AfterWork(c, log, a, ttl), log)
  {
    hide Next, Enabled, Mine;
    var c', core := AfterWork(c, log, a, ttl), Next(c.core, a, ttl);
    WorkEffect(c.core, a, ttl);
    if a.Publish? || ME !in core.pc {
      FinishedIsSound(c, log, core, if a.Publish? then Aggregated else Duplicate);
    } else {
      HandledStays(c, c', log);
    }
  }

  lemma StepIsSound(c: Loop, log: seq<Message>, t: Turn, ttl: nat)
    requires Sound(c, log) && Can(c, log, t)
    ensures Sound(After(c, log, t, ttl), log)
  {
    var c' := After(c, log, t, ttl);
    match t
    case Work(a) => WorkIsSound(c, log, a, ttl);
    case DeadLetter(published) => FinishedIsSound(c, log, c.core, if published then DeadLettered else Dropped);
    case _ => HandledStays(c, c', log);
  }

  lemma {:induction false} RunIsSound(now: nat, log: seq<Message>, turns: Turns, ttl: nat)
    requires Feasible(now, log, turns, ttl)
    ensures Sound(Reached(now, log, turns, ttl), log)
  {
    if turns.Also? {
      hide Sound;
      RunIsSound(now, log, turns.earlier, ttl);
      StepIsSound(Reached(now, log, turns.earlier, ttl), log, turns.turn, ttl);
    }
  }

  /** In every run, whatever fails: every offset below the committed one was handled to the end by some
      incarnation, as its kind demands: folded into an aggregate, skipped as a duplicate, dead-lettered
      or dropped after its retries. */
  lemma CommittedOffsetsWereHandled(now: nat, log: seq<Message>, turns: Turns, ttl: nat, off: nat)
    requires Feasible(now, log, turns, ttl)
    requires off < Reached(now, log, turns, ttl).offsets.committed
    ensures var c := Reached(now, log, turns, ttl); off < |log| && Carried(c.ledger, c.core.trace, log, off)
  {
    RunIsSound(now, log, turns, ttl);
  }

  /** In every run, whatever fails: what is read next, asked to be committed or committed is never
      beyond what was handled. */
  lemma PositionIsHandled(now: nat, log: seq<Message>, turns: Turns, ttl: nat)
    requires Feasible(now, log, turns, ttl)
    ensures var c := Reached(now, log, turns, ttl);
      c.offsets.pos <= c.progress.furthest <= |log| && c.offsets.requested <= c.progress.furthest
      && c.offsets.committed <= c.progress.furthest
  {
    RunIsSound(now, log, turns, ttl);
  }
}
