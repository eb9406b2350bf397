/** The simulator's way to event-api: one POST per attempt, at most three attempts. Requests and
    responses may be lost, the broker may report failures that took effect, and the context may be
    cancelled at any moment. */
module Sender {
  import opened Common
  import opened Consumer
  import opened Ingest

  const MAX_SEND_ATTEMPTS: nat := 3
  /** Milliseconds. */
  const SEND_BACKOFF: nat := 200

  /** A context: cancelled from some poll on, for good. */
  class Context {
    const deadline: Option<nat>
    var polls: nat

    constructor (deadline: Option<nat>)
      ensures this.deadline == deadline && polls == 0
    {
      this.deadline, polls := deadline, 0;
    }

    predicate Cancelled()
      reads this
    {
      deadline.Some? && deadline.value <= polls
    }

    /** Looks at the context, or sleeps on it: whether it is cancelled by then. */
    method Poll() returns (cancelled: bool)
      modifies this
      ensures polls == old(polls) + 1 && cancelled == Cancelled()
      ensures old(Cancelled()) ==> cancelled
    {
      polls := polls + 1;
      cancelled := Cancelled();
    }
  }

  /** The fate of one attempt: whether the request arrives, what the broker does, and whether the
      response comes back. */
  datatype Attempt = Attempt(arrives: bool, random: seq<byte>, clock: string, broker: Publication, answered: bool)
  {
    predicate Valid() {
      |random| == EVENT_ID_BYTES && clock != ""
    }
  }

  datatype SendError = Fine | Transient | Permanent

  /** What one attempt leaves in the topic. */
  function Leaves(event: MatchEvent, a: Attempt): seq<Message> {
    if a.arrives && Acceptable(event) then Repeat(Stamped(event, a), a.broker.copies) else []
  }

  function Stamped(event: MatchEvent, a: Attempt): MatchEvent {
    event.(eventID := if event.eventID != "" then event.eventID else "evt-" + Hex(a.random),
           timestamp := if event.timestamp != "" then event.timestamp else a.clock)
  }

  /** Success needs an answer and an acknowledged write; an answer that the event is unacceptable is
      final; everything else may be tried again, also when the write took effect. The topic gains the
      copies the broker keeps, stamped where the event left a field open. */
  method Send(api: EventAPI, event: MatchEvent, a: Attempt) returns (err: SendError)
    requires api.Valid() && a.Valid()
    modifies api
    ensures api.Valid() && api.log == old(api.log) + Leaves(event, a)
    ensures err.Fine? <==> a.arrives && a.answered && Acceptable(event) && a.broker.acked
    ensures err.Permanent? <==> a.arrives && a.answered && !Acceptable(event)
    ensures err.Transient? <==> !a.arrives || !a.answered || (Acceptable(event) && !a.broker.acked)
    ensures |api.log| == |old(api.log)| + if a.arrives && Acceptable(event) then a.broker.copies else 0
    ensures old(api.log) <= api.log
    ensures forall i :: |old(api.log)| <= i < |api.log| ==>
      && api.log[i].Good? && api.log[i].e == event.(eventID := api.log[i].e.eventID, timestamp := api.log[i].e.timestamp)
      && api.log[i].e.eventID == (if event.eventID != "" then event.eventID else "evt-" + Hex(a.random))
      && api.log[i].e.timestamp == (if event.timestamp != "" then event.timestamp else a.clock)
  {
    var status := 0;
    if a.arrives {
      ghost var e;
      status, e := api.EventsHandler(Request(true, Some(event)), a.random, a.clock, a.broker);
    }
    if !a.arrives || !a.answered || status >= 500 {
      err := Transient;
    } else if status >= 400 {
      err := Permanent;
    } else {
      err := Fine;
    }
  }

  datatype SendResult = Delivered | Rejected | GaveUp | Cancelled

  datatype Ending = Ending(result: SendResult, calls: nat)

  /** Retrying ends this way: an attempt is followed by another only while no answer decides, the last
      one decides, and giving up takes all three. */
  predicate Ends(event: MatchEvent, attempts: seq<Attempt>, end: Ending) {
    && 1 <= end.calls <= |attempts|
    && (forall i :: 0 <= i < end.calls - 1 ==> Undecided(event, attempts[i]))
    && (end.result.Delivered? <==> Answered(attempts[end.calls - 1]) && Acceptable(event) && attempts[end.calls - 1].broker.acked)
    && (end.result.Rejected? <==> Answered(attempts[end.calls - 1]) && !Acceptable(event))
    && (end.result.GaveUp? ==> end.calls == MAX_SEND_ATTEMPTS)
  }

  predicate Answered(a: Attempt) {
    a.arrives && a.answered
  }

  predicate Undecided(event: MatchEvent, a: Attempt) {
    !Answered(a) || (Acceptable(event) && !a.broker.acked)
  }

  /** What the first n attempts leave in the topic. */
  function Left(event: MatchEvent, attempts: seq<Attempt>, n: nat): seq<Message>
    requires n <= |attempts|
  {
    if n == 0 then [] else Left(event, attempts, n - 1) + Leaves(event, attempts[n - 1])
  }

  /** At most three attempts, with doubling pauses between them, and none once the context is
      cancelled. */
  method SendWithRetry(ctx: Context, api: EventAPI, event: MatchEvent, attempts: seq<Attempt>)
    returns (end: Ending, pauses: seq<nat>)
    requires api.Valid() && |attempts| == MAX_SEND_ATTEMPTS && forall i :: 0 <= i < |attempts| ==> attempts[i].Valid()
    modifies ctx, api
    ensures Ends(event, attempts, end)
    ensures 1 <= end.calls <= 3
    ensures forall i :: 0 <= i < end.calls - 1 ==>
      !attempts[i].arrives || !attempts[i].answered || (Acceptable(event) && !attempts[i].broker.acked)
    ensures var last := attempts[end.calls - 1];
      && (end.result.Delivered? <==> last.arrives && last.answered && Acceptable(event) && last.broker.acked)
      && (end.result.Rejected? <==> last.arrives && last.answered && !Acceptable(event))
    ensures Acceptable(event) ==> !end.result.Rejected?
    ensures end.calls < 3 ==> !end.result.GaveUp?
    ensures api.Valid() && api.log == old(api.log) + Left(event, attempts, end.calls)
    ensures end.result.Cancelled? ==> ctx.Cancelled()
    ensures end.result.GaveUp? ==> !ctx.Cancelled()
    ensures old(ctx.Cancelled()) ==> end.calls == 1
    ensures ctx.polls == old(ctx.polls) + |pauses| + end.calls - if end.result.Delivered? || end.result.Rejected? then 1 else 0
    ensures end.calls - 1 <= |pauses| <= end.calls && (|pauses| == end.calls ==> end.result.Cancelled?)
    ensures pauses <= [200, 400]
  {
    hide Leaves, Acceptable, EventAPI.Valid;
    var calls := 0;
    pauses := [];
    for attempt := 1 to MAX_SEND_ATTEMPTS + 1
      invariant calls == attempt - 1 && api.Valid()
      invariant forall i :: 0 <= i < calls ==> Undecided(event, attempts[i])
      invariant |pauses| == if attempt <= MAX_SEND_ATTEMPTS then calls else calls - 1
      invariant pauses <= [200, 400]
      invariant api.log == old(api.log) + Left(event, attempts, calls)
      invariant ctx.polls == old(ctx.polls) + calls + |pauses| && (calls > 0 ==> !ctx.Cancelled())
    {
      var err := Send(api, event, attempts[attempt - 1]);
      calls := attempt;
      if err.Fine? {
        return Ending(Delivered, calls), pauses;
      }
      if err.Permanent? {
        return Ending(Rejected, calls), pauses;
      }
      var cancelled := ctx.Poll();
      if cancelled {
        return Ending(Cancelled, calls), pauses;
      }
      if attempt < MAX_SEND_ATTEMPTS {
        assert Pow2(0) == 1 && Pow2(1) == 2;
        pauses := pauses + [SEND_BACKOFF * Pow2(attempt - 1)];
        cancelled := ctx.Poll();
        if cancelled {
          return Ending(Cancelled, calls), pauses;
        }
      }
    }
    end := Ending(GaveUp, calls);
  }

  // ----- what retries put into the topic

  /** An event as the simulator makes it: nothing for event-api to fill in. */
  predicate Complete(e: MatchEvent) {
    Acceptable(e) && e.eventID != "" && e.timestamp != ""
  }

  lemma {:induction false} RepeatsJoin(e: MatchEvent, m: nat, n: nat)
    ensures Repeat(e, m) + Repeat(e, n) == Repeat(e, m + n)
  {
  }

  lemma StampsNothing(event: MatchEvent, a: Attempt)
    requires event.eventID != "" && event.timestamp != ""
    ensures Stamped(event, a) == event
  {
  }

  /** The copies the broker kept of the first n attempts. */
  function Kept(attempts: seq<Attempt>, n: nat): nat
    requires n <= |attempts|
  {
    if n == 0 then 0 else Kept(attempts, n - 1) + if attempts[n - 1].arrives then attempts[n - 1].broker.copies else 0
  }

  lemma {:induction false} KeptNone(attempts: seq<Attempt>, n: nat)
    requires n <= |attempts|
    ensures Kept(attempts, n) == 0 <==> forall i :: 0 <= i < n && attempts[i].arrives ==> attempts[i].broker.copies == 0
  {
    if n > 0 {
      KeptNone(attempts, n - 1);
    }
  }

  /** Whatever is lost on the way, the attempts of a complete event leave copies of that very event
      and nothing else: none exactly if no attempt that arrived left any, so at least one if the last
      arrived and a durable broker acknowledged it. */
  lemma {:induction false} RetriesOnlyRepeat(event: MatchEvent, attempts: seq<Attempt>, n: nat) returns (copies: nat)
    requires n <= |attempts| && Complete(event)
    requires forall i :: 0 <= i < |attempts| ==> attempts[i].Valid()
    ensures Left(event, attempts, n) == Repeat(event, copies)
    ensures copies == 0 <==> forall i :: 0 <= i < n && attempts[i].arrives ==> attempts[i].broker.copies == 0
    ensures n > 0 && attempts[n - 1].arrives && attempts[n - 1].broker.acked && attempts[n - 1].broker.Durable() ==> copies > 0
  {
    copies := Kept(attempts, n);
    LeftAreKept(event, attempts, n);
    KeptNone(attempts, n);
  }

  lemma {:induction false} LeftAreKept(event: MatchEvent, attempts: seq<Attempt>, n: nat)
    requires n <= |attempts| && Complete(event)
    ensures Left(event, attempts, n) == Repeat(event, Kept(attempts, n))
  {
    hide ValidateEventID, Acceptable, Stamped, Hex;
    if n > 0 {
      var a := attempts[n - 1];
      LeftAreKept(event, attempts, n - 1);
      StampsNothing(event, a);
      assert Acceptable(event);
      hide Repeat;
      RepeatsJoin(event, Kept(attempts, n - 1), if a.arrives then a.broker.copies else 0);
      if !a.arrives {
        assert Left(event, attempts, n) == Left(event, attempts, n - 1);
      }
    }
  }

  lemma {:induction false} LeftBy(event: MatchEvent, attempts: seq<Attempt>, n: nat, msg: Message) returns (i: nat)
    requires n <= |attempts| && msg in Left(event, attempts, n)
    ensures i < n && Leaves(event, attempts[i]) != [] && msg == Good(Stamped(event, attempts[i]))
  {
    hide ValidateEventID, Acceptable, Stamped, Hex;
    if msg in Leaves(event, attempts[n - 1]) {
      i := n - 1;
    } else {
      i := LeftBy(event, attempts, n - 1, msg);
    }
  }

  lemma {:induction false} LeftContains(event: MatchEvent, attempts: seq<Attempt>, n: nat, i: nat)
    requires i < n <= |attempts| && Leaves(event, attempts[i]) != []
    ensures Good(Stamped(event, attempts[i])) in Left(event, attempts, n)
  {
    hide ValidateEventID, Acceptable, Stamped, Hex;
    var before, added := Left(event, attempts, n - 1), Leaves(event, attempts[n - 1]);
    assert Left(event, attempts, n) == before + added;
    if i == n - 1 {
      assert added[0] == Good(Stamped(event, attempts[i]));
      hide Leaves, Left, Repeat;
      assert (before + added)[|before|] == added[0];
    } else {
      hide Leaves, Left, Repeat;
      LeftContains(event, attempts, n - 1, i);
    }
  }

  predicate OneID(msgs: seq<Message>) {
    forall a, b :: a in msgs && b in msgs && a.Good? && b.Good? ==> a.e.eventID == b.e.eventID
  }

  /** Two attempts both reached the topic. */
  predicate Doubled(event: MatchEvent, attempts: seq<Attempt>, n: nat)
    requires n <= |attempts|
  {
    exists i, j :: 0 <= i < j < n && Leaves(event, attempts[i]) != [] && Leaves(event, attempts[j]) != []
  }

  lemma FreshIDsDiffer(event: MatchEvent, a: Attempt, b: Attempt)
    requires event.eventID == "" && a.Valid() && b.Valid() && a.random != b.random
    ensures Stamped(event, a).eventID != Stamped(event, b).eventID
  {
    hide Hex;
    if "evt-" + Hex(a.random) == "evt-" + Hex(b.random) {
      GeneratedIDsAreInjective(a.random, b.random);
    }
  }

  lemma KeepsGivenID(event: MatchEvent, a: Attempt)
    requires event.eventID != ""
    ensures Stamped(event, a).eventID == event.eventID
  {
  }

  lemma SharedID(event: MatchEvent, attempts: seq<Attempt>, n: nat, x: Message, y: Message)
    requires n <= |attempts| && x in Left(event, attempts, n) && y in Left(event, attempts, n)
    requires event.eventID != "" || !Doubled(event, attempts, n)
    ensures x.Good? && y.Good? && x.e.eventID == y.e.eventID
  {
    hide Leaves, Left, Stamped;
    var i := LeftBy(event, attempts, n, x);
    var j := LeftBy(event, attempts, n, y);
    if event.eventID != "" {
      KeepsGivenID(event, attempts[i]);
      KeepsGivenID(event, attempts[j]);
    }
  }

  /** Retries can be recognised downstream exactly when the client chose the ID itself, or only one
      attempt reached the topic: without an ID every attempt gets a fresh one. */
  lemma RetriesAreRecognisable(event: MatchEvent, attempts: seq<Attempt>, n: nat)
    requires n <= |attempts|
    requires forall i :: 0 <= i < |attempts| ==> attempts[i].Valid()
    requires forall i, j :: 0 <= i < j < |attempts| ==> attempts[i].random != attempts[j].random
    ensures OneID(Left(event, attempts, n)) <==> event.eventID != "" || !Doubled(event, attempts, n)
  {
    hide Leaves, Left, Stamped;
    var msgs := Left(event, attempts, n);
    if event.eventID != "" || !Doubled(event, attempts, n) {
      forall x, y | x in msgs && y in msgs ensures x.Good? && y.Good? && x.e.eventID == y.e.eventID {
        SharedID(event, attempts, n, x, y);
      }
    } else {
      var i, j :| 0 <= i < j < n && Leaves(event, attempts[i]) != [] && Leaves(event, attempts[j]) != [];
      LeftContains(event, attempts, n, i);
      LeftContains(event, attempts, n, j);
      FreshIDsDiffer(event, attempts[i], attempts[j]);
    }
  }
}
