/** Claims, skips and the deduplication window, for any number of workers in any interleaving. */
module Accounting {
  import opened Common
  import opened Protocol

  predicate MayApply(p: Pc, id: string) {
    p.Granted? && p.e.eventID == id
  }

  function Has(pc: map<nat, Pc>, w: nat, id: string): nat {
    if w in pc && MayApply(pc[w], id) then 1 else 0
  }

  /** How many workers may still apply the event. */
  ghost function Pending(pc: map<nat, Pc>, id: string): nat
    decreases |pc|
  {
    if pc == map[] then 0 else var w :| w in pc; Has(pc, w, id) + Pending(pc - {w}, id)
  }

  lemma {:induction false} PendingAt(pc: map<nat, Pc>, w: nat, id: string)
    ensures Pending(pc, id) == Pending(pc - {w}, id) + Has(pc, w, id)
    decreases |pc|
  {
    if w !in pc {
      assert pc - {w} == pc;
    } else {
      var v :| v in pc && Pending(pc, id) == Has(pc, v, id) + Pending(pc - {v}, id);
      if v != w {
        PendingAt(pc - {v}, w, id);
        PendingAt(pc - {w}, v, id);
        assert pc - {v} - {w} == pc - {w} - {v};
        assert Has(pc - {v}, w, id) == Has(pc, w, id) && Has(pc - {w}, v, id) == Has(pc, v, id);
      }
    }
  }

  /** Successful claims of an event ID. */
  function Claims(trace: Trace, id: string): nat {
    match trace
    case Start => 0
    case Then(before, a) => Claims(before, id) + if a.Claimed? && a.id == id then 1 else 0
  }

  /** Store errors that let the event through. */
  function FailOpens(trace: Trace, id: string): nat {
    match trace
    case Start => 0
    case Then(before, a) => FailOpens(before, id) + if a.FailedOpen? && a.id == id then 1 else 0
  }

  /** Times the event was folded into an aggregate. */
  function Counts(trace: Trace, id: string): nat {
    match trace
    case Start => 0
    case Then(before, a) => Counts(before, id) + if a.Counted? && a.e.eventID == id then 1 else 0
  }

  function Expiries(trace: Trace, id: string): nat {
    match trace
    case Start => 0
    case Then(before, a) => Expiries(before, id) + if a.Expired? && a.id == id then 1 else 0
  }

  /** Grants that died in a crash before they were used. */
  ghost function Abandoned(trace: Trace, id: string): nat {
    match trace
    case Start => 0
    case Then(before, a) => Abandoned(before, id) + if a.Crashed? then Pending(a.pcs, id) else 0
  }

  function Grants(trace: Trace, id: string): nat {
    Claims(trace, id) + FailOpens(trace, id)
  }

  /** The accounting of one event ID: claims are paid for by expiries; every grant was used, is
      still pending or was abandoned in a crash; a key exists only after a grant and says
      "processed" only after the event was counted. */
  ghost predicate Accounted(s: State, id: string) {
    var d := s.store.dedupe;
    && Claims(s.trace, id) <= Expiries(s.trace, id) + (if id in d then 1 else 0)
    && Grants(s.trace, id) == Counts(s.trace, id) + Pending(s.pc, id) + Abandoned(s.trace, id)
    && (id in d ==> Grants(s.trace, id) >= 1)
    && (id in d && d[id].mark.Processed? ==> Counts(s.trace, id) >= 1)
    && (forall w :: w in s.pc && s.pc[w].e.eventID == id ==> Explained(s.trace, s.pc[w], id))
  }

  predicate Explained(trace: Trace, p: Pc, id: string) {
    && (p.Refused? ==> Grants(trace, id) >= 1)
    && (p.Applied? ==> Counts(trace, id) >= 1)
  }

  predicate Logged(s: State, s': State) {
    s'.trace == s.trace || (s'.trace.Then? && s'.trace.before == s.trace && !s'.trace.act.Crashed?)
  }

  /** One worker moves: the books stay balanced when the totals change as its move says. */
  lemma AccountedMove(s: State, s': State, w: nat, id: string)
    requires Accounted(s, id) && s.pc - {w} == s'.pc - {w} && Logged(s, s')
    requires Grants(s'.trace, id) + Counts(s.trace, id) + Has(s.pc, w, id)
          == Grants(s.trace, id) + Counts(s'.trace, id) + Has(s'.pc, w, id)
    requires var d' := s'.store.dedupe;
      && Claims(s'.trace, id) <= Expiries(s'.trace, id) + (if id in d' then 1 else 0)
      && (id in d' ==> Grants(s'.trace, id) >= 1)
      && (id in d' && d'[id].mark.Processed? ==> Counts(s'.trace, id) >= 1)
    requires w in s'.pc && s'.pc[w].e.eventID == id ==> Explained(s'.trace, s'.pc[w], id)
    ensures Accounted(s', id)
  {
    PendingAt(s.pc, w, id);
    PendingAt(s'.pc, w, id);
    forall v | v in s'.pc && s'.pc[v].e.eventID == id ensures Explained(s'.trace, s'.pc[v], id) {
      if v != w {
        assert v in s'.pc - {w} && v in s.pc - {w} && s'.pc[v] == s.pc[v];
      }
    }
  }

  lemma AccountedCrash(s: State, reloaded: set<string>, id: string)
    requires Accounted(s, id) && Enabled(s, Crash(reloaded))
    ensures Accounted(AfterCrash(s, reloaded), id)
  {
  }

  lemma AccountedSetNX(s: State, w: nat, reply: Reply, ttl: nat, id: string)
    requires Accounted(s, id) && Enabled(s, SetNX(w, reply))
    ensures Accounted(AfterSetNX(s, w, reply, ttl), id)
  {
    AccountedMove(s, AfterSetNX(s, w, reply, ttl), w, id);
  }

  lemma AccountedGet(s: State, w: nat, ok: bool, id: string)
    requires Accounted(s, id) && Enabled(s, Get(w, ok))
    ensures Accounted(AfterGet(s, w, ok), id)
  {
    AccountedMove(s, AfterGet(s, w, ok), w, id);
  }

  lemma AccountedCount(s: State, w: nat, id: string)
    requires Accounted(s, id) && Enabled(s, Count(w))
    ensures Accounted(AfterCount(s, w), id)
  {
    AccountedMove(s, AfterCount(s, w), w, id);
  }

  lemma AccountedMark(s: State, w: nat, reply: Reply, ttl: nat, id: string)
    requires Accounted(s, id) && Enabled(s, Mark(w, reply))
    ensures Accounted(AfterMark(s, w, reply, ttl), id)
  {
    AccountedMove(s, AfterMark(s, w, reply, ttl), w, id);
  }

  lemma AccountedStep(s: State, a: Action, ttl: nat, id: string)
    requires Accounted(s, id) && id != "" && Enabled(s, a)
    ensures Accounted(Next(s, a, ttl), id)
  {
    var s' := Next(s, a, ttl);
    if Quiet(a) {
      QuietStep(s, a, ttl);
      AccountedMove(s, s', a.w, id);
    } else {
      match a
      case SetNX(w, reply) => AccountedSetNX(s, w, reply, ttl, id);
      case Get(w, ok) => AccountedGet(s, w, ok, id);
      case Count(w) => AccountedCount(s, w, id);
      case Mark(w, reply) => AccountedMark(s, w, reply, ttl, id);
      case Crash(reloaded) => AccountedCrash(s, reloaded, id);
      case Expire(x) =>
      case Advance(to) =>
    }
  }

  lemma {:induction false} AccountedRun(now: nat, schedule: Schedule, ttl: nat, id: string)
    requires Possible(Init(now), schedule, ttl) && id != ""
    ensures Accounted(Run(Init(now), schedule, ttl), id)
  {
    if schedule.Step? {
      AccountedRun(now, schedule.earlier, ttl, id);
      AccountedStep(Run(Init(now), schedule.earlier, ttl), schedule.action, ttl, id);
    }
  }

  /** Conservation: in every run every grant of an event was used once, can still be used, or died
      in a crash. So an event is counted at most once, plus once for each expiry of its key and
      each store error that let it through. */
  lemma CountsAreBounded(now: nat, schedule: Schedule, ttl: nat, id: string)
    requires Possible(Init(now), schedule, ttl) && id != ""
    ensures var s := Run(Init(now), schedule, ttl);
      && Claims(s.trace, id) + FailOpens(s.trace, id) == Counts(s.trace, id) + Pending(s.pc, id) + Abandoned(s.trace, id)
      && Counts(s.trace, id) <= 1 + Expiries(s.trace, id) + FailOpens(s.trace, id)
  {
    AccountedRun(now, schedule, ttl, id);
  }

  // ----- skips

  /** Every skip came after a grant, and "already processed" after the event was counted. */
  predicate Justified(trace: Trace, id: string) {
    match trace
    case Start => true
    case Then(before, a) =>
      Justified(before, id) &&
      (a.Skipped? && a.id == id ==>
        Grants(before, id) >= 1 && (a.why.AlreadyProcessed? ==> Counts(before, id) >= 1))
  }

  lemma {:induction false} SkipsAreJustified(now: nat, schedule: Schedule, ttl: nat, id: string)
    requires Possible(Init(now), schedule, ttl) && id != ""
    ensures Justified(Run(Init(now), schedule, ttl).trace, id)
  {
    if schedule.Step? {
      var s, a := Run(Init(now), schedule.earlier, ttl), schedule.action;
      SkipsAreJustified(now, schedule.earlier, ttl, id);
      AccountedRun(now, schedule.earlier, ttl, id);
      if a.Get? {
        assert Next(s, a, ttl) == AfterGet(s, a.w, a.ok);
      } else if Quiet(a) {
        QuietStep(s, a, ttl);
      }
    }
  }

  predicate RefusedNamed(s: State) {
    forall w :: w in s.pc && s.pc[w].Refused? ==> s.pc[w].e.eventID != ""
  }

  lemma RefusedNamedStep(s: State, a: Action, ttl: nat)
    requires RefusedNamed(s) && Enabled(s, a)
    ensures RefusedNamed(Next(s, a, ttl))
  {
    var s' := Next(s, a, ttl);
    if Quiet(a) {
      QuietStep(s, a, ttl);
      forall w | w in s'.pc && s'.pc[w].Refused? ensures s'.pc[w].e.eventID != "" {
        assert w in s'.pc - {a.w} && w in s.pc - {a.w} && s'.pc[w] == s.pc[w];
      }
    }
  }

  /** A worker only refuses events that carry an ID. */
  lemma {:induction false} RefusedEventsHaveIDs(now: nat, schedule: Schedule, ttl: nat)
    requires Possible(Init(now), schedule, ttl)
    ensures RefusedNamed(Run(Init(now), schedule, ttl))
  {
    if schedule.Step? {
      RefusedEventsHaveIDs(now, schedule.earlier, ttl);
      RefusedNamedStep(Run(Init(now), schedule.earlier, ttl), schedule.action, ttl);
    }
  }

  /** At the moment a worker skips an event, whether it read "processed", "processing" or found the
      key gone, another grant was already used, can still be used, or died in a crash. */
  lemma SkipMeansHandledElsewhere(now: nat, schedule: Schedule, w: nat, ttl: nat)
    requires Possible(Init(now), schedule, ttl)
    requires Enabled(Run(Init(now), schedule, ttl), Get(w, true))
    ensures var s := Run(Init(now), schedule, ttl);
            var id := s.pc[w].e.eventID;
      && (Counts(s.trace, id) >= 1 || Pending(s.pc, id) >= 1 || Abandoned(s.trace, id) >= 1)
      && (AfterGet(s, w, true).trace == Then(s.trace, Skipped(id, AlreadyProcessed)) ==> Counts(s.trace, id) >= 1)
  {
    RefusedEventsHaveIDs(now, schedule, ttl);
    var s := Run(Init(now), schedule, ttl);
    AccountedRun(now, schedule, ttl, s.pc[w].e.eventID);
  }

  /** Claimed, and not expired since. */
  predicate StillClaimed(trace: Trace, id: string) {
    match trace
    case Start => false
    case Then(before, a) =>
      if a.Claimed? && a.id == id then true
      else if a.Expired? && a.id == id then false
      else StillClaimed(before, id)
  }

  lemma ClaimHoldsStep(s: State, a: Action, ttl: nat, id: string)
    requires (StillClaimed(s.trace, id) ==> id in s.store.dedupe) && Enabled(s, a)
    ensures var s' := Next(s, a, ttl); StillClaimed(s'.trace, id) ==> id in s'.store.dedupe
  {
    if Quiet(a) {
      QuietStep(s, a, ttl);
    }
  }

  /** Nothing but expiry gives a claim back: not a crash, not a restart, not a failed mark. */
  lemma {:induction false} ClaimsHoldUntilExpiry(now: nat, schedule: Schedule, ttl: nat, id: string)
    requires Possible(Init(now), schedule, ttl)
    ensures var s := Run(Init(now), schedule, ttl); StillClaimed(s.trace, id) ==> id in s.store.dedupe
  {
    if schedule.Step? {
      ClaimsHoldUntilExpiry(now, schedule.earlier, ttl, id);
      ClaimHoldsStep(Run(Init(now), schedule.earlier, ttl), schedule.action, ttl, id);
    }
  }

  // ----- the deduplication window

  /** When an event was claimed, oldest first. */
  function ClaimTimes(trace: Trace, id: string): seq<nat> {
    match trace
    case Start => []
    case Then(before, a) =>
      if a.Claimed? && a.id == id then ClaimTimes(before, id) + [a.at] else ClaimTimes(before, id)
  }

  predicate Spaced(times: seq<nat>, gap: nat) {
    forall i :: 0 < i < |times| ==> times[i - 1] + gap <= times[i]
  }

  /** The key of the latest claim outlives the window, or the window has passed. */
  predicate Timed(s: State, ttl: nat, id: string) {
    var times, d := ClaimTimes(s.trace, id), s.store.dedupe;
    && Spaced(times, ttl)
    && (times != [] ==>
          && times[|times| - 1] <= s.store.now
          && times[|times| - 1] + ttl <= if id in d then d[id].deadline else s.store.now)
  }

  lemma TimedSetNX(s: State, w: nat, reply: Reply, ttl: nat, id: string)
    requires Timed(s, ttl, id) && Enabled(s, SetNX(w, reply))
    ensures Timed(AfterSetNX(s, w, reply, ttl), ttl, id)
  {
  }

  lemma TimedMark(s: State, w: nat, reply: Reply, ttl: nat, id: string)
    requires Timed(s, ttl, id) && Enabled(s, Mark(w, reply))
    ensures Timed(AfterMark(s, w, reply, ttl), ttl, id)
  {
  }

  lemma TimedSame(s: State, s': State, ttl: nat, id: string)
    requires Timed(s, ttl, id) && s'.store.dedupe == s.store.dedupe && s'.store.now == s.store.now
    requires s'.trace == s.trace || (s'.trace.Then? && s'.trace.before == s.trace && !s'.trace.act.Claimed?)
    ensures Timed(s', ttl, id)
  {
  }

  lemma TimedStep(s: State, a: Action, ttl: nat, id: string)
    requires Timed(s, ttl, id) && Enabled(s, a)
    ensures Timed(Next(s, a, ttl), ttl, id)
  {
    if Quiet(a) {
      QuietStep(s, a, ttl);
    } else {
      match a
      case SetNX(w, reply) => TimedSetNX(s, w, reply, ttl, id);
      case Get(w, ok) => TimedSame(s, AfterGet(s, w, ok), ttl, id);
      case Count(w) => TimedSame(s, AfterCount(s, w), ttl, id);
      case Mark(w, reply) => TimedMark(s, w, reply, ttl, id);
      case Crash(reloaded) => TimedSame(s, AfterCrash(s, reloaded), ttl, id);
      case Expire(x) =>
      case Advance(to) =>
    }
  }

  /** Two successful claims of one event are at least the TTL apart, whatever errors, marks,
      expiries and crashes lie between them. */
  lemma {:induction false} ClaimsAreSpaced(now: nat, schedule: Schedule, ttl: nat, id: string)
    requires Possible(Init(now), schedule, ttl)
    ensures Timed(Run(Init(now), schedule, ttl), ttl, id)
  {
    if schedule.Step? {
      ClaimsAreSpaced(now, schedule.earlier, ttl, id);
      TimedStep(Run(Init(now), schedule.earlier, ttl), schedule.action, ttl, id);
    }
  }

  lemma {:induction false} SpacedApart(times: seq<nat>, gap: nat, i: nat, j: nat)
    requires Spaced(times, gap) && i <= j < |times|
    ensures times[i] + (j - i) * gap <= times[j]
    decreases j
  {
    if i < j {
      SpacedApart(times, gap, i, j - 1);
    }
  }

  lemma QuotientBound(n: nat, ttl: nat, span: nat)
    requires ttl > 0 && n * ttl <= span
    ensures n <= span / ttl
  {
    var q := span / ttl;
    assert span < q * ttl + ttl;
    assert (q + 1 - n) * ttl > 0;
  }

  /** Any window of a given length holds at most length / TTL + 1 claims of one event. */
  lemma ClaimsPerWindow(now: nat, schedule: Schedule, ttl: nat, id: string, from: nat, span: nat, i: nat, j: nat)
    requires Possible(Init(now), schedule, ttl) && ttl > 0
    requires i <= j < |ClaimTimes(Run(Init(now), schedule, ttl).trace, id)|
    requires var times := ClaimTimes(Run(Init(now), schedule, ttl).trace, id);
      from <= times[i] && times[j] <= from + span
    ensures j - i + 1 <= span / ttl + 1
  {
    ClaimsAreSpaced(now, schedule, ttl, id);
    SpacedApart(ClaimTimes(Run(Init(now), schedule, ttl).trace, id), ttl, i, j);
    QuotientBound(j - i, ttl, span);
  }
}
