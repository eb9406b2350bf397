/** event-api: the handler that decides about one request, fills in what the client omitted and
    publishes to the topic. */
module Ingest {
  import opened Common
  import opened Consumer

  datatype Request = Request(isPost: bool, body: Option<MatchEvent>)

  /** How a publish ends: the copies it leaves in the topic (the Kafka writer retries on its own) and
      whether it reports success. The writer sets no acknowledgement level, so even success promises
      no copy unless the broker is durable. */
  datatype Publication = Publication(copies: nat, acked: bool)
  {
    predicate Durable() {
      acked ==> copies > 0
    }
  }

  const ACCEPTED := 202
  const BAD_REQUEST := 400
  const METHOD_NOT_ALLOWED := 405
  const INTERNAL_ERROR := 500

  /** The event is taken: the rest is up to the broker. */
  predicate Acceptable(e: MatchEvent) {
    e.matchID != "" && e.eventType != "" && (e.eventID == "" || ValidateEventID(e.eventID) == ValidID)
  }

  /** What every event in the topic satisfies. */
  predicate Publishable(msg: Message) {
    msg.Good? && ValidateEventID(msg.e.eventID) == ValidID && msg.e.matchID != "" && msg.e.eventType != "" && msg.e.timestamp != ""
  }

  function Repeat(e: MatchEvent, copies: nat): (s: seq<Message>)
    ensures |s| == copies && forall i :: 0 <= i < copies ==> s[i] == Good(e)
  {
    if copies == 0 then [] else Repeat(e, copies - 1) + [Good(e)]
  }

  class EventAPI {
    /** The match-events topic, appended to only here. */
    var log: seq<Message>
    var eventIDsGenerated: nat
    var eventsReceived: nat
    var eventsPublished: nat
    var publishErrors: nat

    ghost predicate Valid()
      reads this
    {
      && (forall i :: 0 <= i < |log| ==> Publishable(log[i]))
      && eventsReceived == eventsPublished + publishErrors
    }

    constructor ()
      ensures Valid() && log == []
    {
      log, eventIDsGenerated, eventsReceived, eventsPublished, publishErrors := [], 0, 0, 0, 0;
    }

    /** The whole decision: 405 for another method, 400 for a body that does not decode, lacks a
        match or type, or carries an ID that is too long or holds one of seven characters, and otherwise
        whatever the broker says. Only then the event reaches the topic, whole, under its own ID or a
        fresh one. */
    method EventsHandler(q: Request, random: seq<byte>, clock: string, broker: Publication) returns (status: int, ghost e: MatchEvent)
      requires Valid() && |random| == EVENT_ID_BYTES && clock != ""
      modifies this
      ensures Valid()
      ensures status == 405 <==> !q.isPost
      ensures status == 400 <==>
        q.isPost && (q.body.None? || q.body.value.matchID == "" || q.body.value.eventType == "" || |q.body.value.eventID| > 128
                     || exists i :: 0 <= i < |q.body.value.eventID| && q.body.value.eventID[i] in " \t\r\n:{}")
      ensures status == 202 || status == 500 <==> Taken(q)
      ensures status == 202 ==> broker.acked
      ensures status == 500 ==> !broker.acked
      ensures eventsReceived == old(eventsReceived) + if status == 202 || status == 500 then 1 else 0
      ensures eventsPublished == old(eventsPublished) + if status == 202 then 1 else 0
      ensures publishErrors == old(publishErrors) + if status == 500 then 1 else 0
      ensures !Taken(q) ==> log == old(log) && eventIDsGenerated == old(eventIDsGenerated)
      ensures Taken(q) ==> log == old(log) + Repeat(e, broker.copies)
      ensures Taken(q) ==> e == q.body.value.(eventID := e.eventID, timestamp := e.timestamp)
      ensures Taken(q) ==> e.eventID == if q.body.value.eventID != "" then q.body.value.eventID else "evt-" + Hex(random)
      ensures Taken(q) ==> 1 <= |e.eventID| <= 128 && forall i :: 0 <= i < |e.eventID| ==> e.eventID[i] !in " \t\r\n:{}"
      ensures Taken(q) ==> eventIDsGenerated == old(eventIDsGenerated) + if q.body.value.eventID != "" then 0 else 1
      ensures Taken(q) ==> e.timestamp == if q.body.value.timestamp != "" then q.body.value.timestamp else clock
    {
      e := ZERO_EVENT;
      if !q.isPost {
        return METHOD_NOT_ALLOWED, e;
      }
      if q.body.None? {
        return BAD_REQUEST, e;
      }
      var event := q.body.value;
      if event.matchID == "" || event.eventType == "" {
        return BAD_REQUEST, e;
      }
      if event.eventID == "" {
        var id := NewEventID(random);
        event := event.(eventID := id);
        eventIDsGenerated := eventIDsGenerated + 1;
      } else if ValidateEventID(event.eventID) != ValidID {
        return BAD_REQUEST, e;
      }
      if event.timestamp == "" {
        event := event.(timestamp := clock);
      }
      e := event;
      eventsReceived := eventsReceived + 1;
      log := log + Repeat(event, broker.copies);
      if !broker.acked {
        publishErrors := publishErrors + 1;
        return INTERNAL_ERROR, e;
      }
      eventsPublished := eventsPublished + 1;
      return ACCEPTED, e;
    }
  }

  predicate Taken(q: Request) {
    q.isPost && q.body.Some? && Acceptable(q.body.value)
  }

  /** The topic is fit for the consume loop: every message decodes and carries an ID. */
  lemma TopicHasIDs(api: EventAPI)
    requires api.Valid()
    ensures AllHaveIDs(api.log)
  {
  }
}
