/** The store as Redis sees it: one flat keyspace of strings, records and sets, each key with an
    optional deadline. Every command may fail, and a failed write may still have landed. */
module Redis {
  import opened Common
  import opened Aggregate
  import opened Protocol

  const PROCESSING := "processing"
  const PROCESSED := "processed"

  datatype Value = Text(text: string) | Record(stats: Stats) | Members(ids: set<string>)

  datatype Entry = Entry(value: Value, deadline: Option<nat>)

  /** The outcome of trying to claim an event ID. */
  datatype ReservationState = Acquired | Held(why: Reason)

  function MarkText(mark: Mark): string {
    if mark.Processed? then PROCESSED else PROCESSING
  }

  lemma MarksDiffer(mark: Mark)
    ensures MarkText(mark) == PROCESSED <==> mark.Processed?
  {
    assert PROCESSED[7] != PROCESSING[7];
  }

  lemma DedupeName(eventID: string)
    ensures Name(DedupeOf(eventID)) == "event:" + eventID + ":dedupe"
  {
  }

  lemma RecordName(k: Key)
    requires k.StatsOf? || k.LatestOf?
    ensures Name(k) == "match:" + k.matchID + if k.StatsOf? then ":stats" else ":latest"
  {
  }

  /** What a key holds when the keyspace is read as one typed map per family. */
  function Content(v: Store, k: Key): Option<Entry> {
    match k
    case DedupeOf(id) => if id in v.dedupe then Some(Entry(Text(MarkText(v.dedupe[id].mark)), Some(v.dedupe[id].deadline))) else None
    case StatsOf(m) => if m in v.stats then Some(Entry(Record(v.stats[m]), None)) else None
    case LatestOf(m) => if m in v.latest then Some(Entry(Record(v.latest[m]), None)) else None
    case ActiveSet => if v.active != {} then Some(Entry(Members(v.active), None)) else None
  }

  function Lookup(keys: map<string, Entry>, name: string): Option<Entry> {
    if name in keys then Some(keys[name]) else None
  }

  /** The flat keyspace and the typed one hold the same. */
  ghost predicate Refines(keys: map<string, Entry>, v: Store) {
    forall k: Key :: Lookup(keys, Name(k)) == Content(v, k)
  }

  /** Writing or deleting one key changes that key's content only. */
  lemma Rewrite(keys: map<string, Entry>, keys': map<string, Entry>, v: Store, v': Store, k: Key)
    requires Refines(keys, v)
    requires keys' - {Name(k)} == keys - {Name(k)}
    requires Lookup(keys', Name(k)) == Content(v', k)
    requires forall j: Key :: j != k ==> Content(v', j) == Content(v, j)
    ensures Refines(keys', v')
  {
    hide Name, Content;
    forall j: Key ensures Lookup(keys', Name(j)) == Content(v', j) {
      if j != k {
        if Name(j) == Name(k) { KeysNeverCollide(j, k); }
        assert Name(j) in keys' - {Name(k)} <==> Name(j) in keys - {Name(k)};
        assert Lookup(keys', Name(j)) == Lookup(keys, Name(j));
      }
    }
  }

  class StatsStore {
    var now: nat
    var keys: map<string, Entry>

    /** The same content, one typed map per key family. */
    ghost var View: Store

    ghost predicate Valid()
      reads this
    {
      View.now == now && Refines(keys, View)
    }

    constructor (now: nat)
      ensures Valid() && View == Store(now, map[], map[], map[], {})
    {
      this.now, keys := now, map[];
      View := Store(now, map[], map[], map[], {});
    }

    // ----- commands

    method SetNX(key: string, text: string, ttl: nat, reply: Reply) returns (set_: bool, err: bool)
      modifies `keys
      ensures err == reply.Failed?
      ensures !err ==> set_ == (key !in old(keys))
      ensures keys == if key !in old(keys) && reply.Landed()
                      then old(keys)[key := Entry(Text(text), Some(now + ttl))]
                      else old(keys)
    {
      set_, err := key !in keys, reply.Failed?;
      if set_ && reply.Landed() {
        keys := keys[key := Entry(Text(text), Some(now + ttl))];
      }
    }

    /** Replaces value and deadline; a TTL of zero stores the key without a deadline. */
    method Set(key: string, value: Value, ttl: nat, reply: Reply) returns (err: bool)
      modifies `keys
      ensures err == reply.Failed?
      ensures keys == if reply.Landed()
                      then old(keys)[key := Entry(value, if ttl == 0 then None else Some(now + ttl))]
                      else old(keys)
    {
      err := reply.Failed?;
      if reply.Landed() {
        keys := keys[key := Entry(value, if ttl == 0 then None else Some(now + ttl))];
      }
    }

    method Get(key: string, ok: bool) returns (found: Option<Entry>, err: bool)
      ensures err == !ok
      ensures ok ==> found == Lookup(keys, key)
    {
      found, err := Lookup(keys, key), !ok;
    }

    method SAdd(key: string, member: string, reply: Reply) returns (err: bool)
      requires key in keys ==> keys[key].value.Members?
      modifies `keys
      ensures err == reply.Failed?
      ensures keys == if reply.Landed()
                      then old(keys)[key := Entry(Members((if key in old(keys) then old(keys)[key].value.ids else {}) + {member}), None)]
                      else old(keys)
    {
      err := reply.Failed?;
      if reply.Landed() {
        keys := keys[key := Entry(Members((if key in keys then keys[key].value.ids else {}) + {member}), None)];
      }
    }

    method SMembers(key: string, ok: bool) returns (ids: set<string>, err: bool)
      requires key in keys ==> keys[key].value.Members?
      ensures err == !ok
      ensures ok ==> ids == if key in keys then keys[key].value.ids else {}
    {
      ids, err := if key in keys then keys[key].value.ids else {}, !ok;
    }

    /** The server drops a reservation. */
    method Evict(eventID: string)
      requires Valid()
      modifies this
      ensures Valid() && View == old(View).(dedupe := old(View).dedupe - {eventID})
    {
      hide Name, DedupeKey;
      keys := keys - {Name(DedupeOf(eventID))};
      View := View.(dedupe := View.dedupe - {eventID});
      Rewrite(old(keys), keys, old(View), View, DedupeOf(eventID));
    }

    predicate Overdue(e: Entry)
      reads `now
    {
      e.deadline.Some? && e.deadline.value <= now
    }

    /** No key's deadline comes before this time. */
    method NoneDueBefore(to: nat) returns (yes: bool)
      requires Valid()
      ensures yes ==> forall id :: id in View.dedupe ==> to <= View.dedupe[id].deadline
    {
      hide Name;
      yes := forall name :: name in keys && keys[name].deadline.Some? ==> to <= keys[name].deadline.value;
      forall id | yes && id in View.dedupe ensures to <= View.dedupe[id].deadline {
        assert Lookup(keys, Name(DedupeOf(id))) == Content(View, DedupeOf(id));
      }
    }

    /** The reservation's deadline has come. */
    method Due(eventID: string) returns (due: bool)
      requires Valid()
      ensures due == (eventID in View.dedupe && View.dedupe[eventID].deadline <= View.now)
    {
      hide Name;
      var name := Name(DedupeOf(eventID));
      assert Lookup(keys, name) == Content(View, DedupeOf(eventID));
      due := name in keys && Overdue(keys[name]);
    }

    /** The server's clock moves on. */
    method Tick(to: nat)
      requires Valid()
      modifies this
      ensures Valid() && View == old(View).(now := to)
    {
      hide Name;
      now := to;
      View := View.(now := to);
      assert forall k: Key :: Content(View, k) == Content(old(View), k);
    }

    // ----- what the processor asks of the store

    /** SET NX, then GET when the key exists. The server may evict a key whose deadline has passed
        between the two. A free ID is claimed as processing until the TTL ends, if the command lands; a
        taken one is reported processed exactly when that is what its key says, and in flight otherwise,
        also when the key is gone by the time of the GET. */
    method ReserveEvent(eventID: string, ttl: nat, nx: Reply, evict: bool, getOk: bool)
      returns (state: ReservationState, err: bool)
      requires Valid()
      modifies this
      ensures Valid()
      ensures View == AfterReserve(old(View), eventID, ttl, nx, evict)
      ensures View == old(View).(dedupe := View.dedupe) && View.dedupe - {eventID} == old(View).dedupe - {eventID}
      ensures eventID !in old(View).dedupe ==> (eventID in View.dedupe <==> nx.Landed())
      ensures eventID !in old(View).dedupe && nx.Landed() ==>
        View.dedupe[eventID] == Reservation(Processing, View.now + ttl)
        && "event:" + eventID + ":dedupe" in keys
        && keys["event:" + eventID + ":dedupe"] == Entry(Text("processing"), Some(View.now + ttl))
      ensures eventID in old(View).dedupe ==>
        (eventID !in View.dedupe <==> nx.Fine? && evict && old(View).dedupe[eventID].deadline <= View.now)
        && (eventID in View.dedupe ==> View.dedupe[eventID] == old(View).dedupe[eventID])
      ensures err <==> nx.Failed? || (eventID in old(View).dedupe && !getOk)
      ensures err ==> state == Acquired
      ensures !err ==> (state == Acquired <==> eventID !in old(View).dedupe)
      ensures !err && state.Held? ==> (state.why == AlreadyProcessed <==> eventID in View.dedupe && View.dedupe[eventID].mark.Processed?)
      ensures !err ==> (state == Held(AlreadyProcessed) <==>
        "event:" + eventID + ":dedupe" in keys && keys["event:" + eventID + ":dedupe"].value == Text("processed"))
    {
      hide Name;
      DedupeName(eventID);
      hide DedupeKey;
      var k := DedupeOf(eventID);
      assert Lookup(keys, Name(k)) == Content(View, k);
      var ok;
      ok, err := SetNX(Name(k), PROCESSING, ttl, nx);
      if eventID !in View.dedupe && nx.Landed() {
        View := View.(dedupe := View.dedupe[eventID := Reservation(Processing, now + ttl)]);
        Rewrite(old(keys), keys, old(View), View, k);
      }
      state := Acquired;
      if err || ok {
        return;
      }
      if evict && Overdue(keys[Name(k)]) {
        Evict(eventID);
      }
      assert Lookup(keys, Name(k)) == Content(View, k);
      var current;
      current, err := Get(Name(k), getOk);
      if err {
        return;
      }
      state := Held(InFlight);
      assert forall id :: id in View.dedupe - {eventID} <==> id in old(View).dedupe - {eventID};
      if current.Some? {
        MarksDiffer(View.dedupe[eventID].mark);
        if current.value.value == Text(PROCESSED) {
          state := Held(AlreadyProcessed);
        }
      }
    }

    /** Whether SET NX finds the key taken; then it changes nothing. */
    method Taken(eventID: string) returns (taken: bool)
      requires Valid()
      ensures taken == (eventID in View.dedupe)
    {
      hide Name;
      assert Lookup(keys, Name(DedupeOf(eventID))) == Content(View, DedupeOf(eventID));
      taken := Name(DedupeOf(eventID)) in keys;
    }

    /** Overwrites the reservation, or creates it, with the full TTL. */
    method MarkProcessed(eventID: string, ttl: nat, reply: Reply) returns (err: bool)
      requires Valid() && ttl > 0
      modifies this
      ensures reply.Landed() ==>
        "event:" + eventID + ":dedupe" in keys && keys["event:" + eventID + ":dedupe"] == Entry(Text("processed"), Some(now + ttl))
      ensures Valid() && err == reply.Failed?
      ensures View == if reply.Landed()
                      then old(View).(dedupe := old(View).dedupe[eventID := Reservation(Processed, old(View).now + ttl)])
                      else old(View)
    {
      hide Name;
      DedupeName(eventID);
      hide DedupeKey;
      err := Set(Name(DedupeOf(eventID)), Text(PROCESSED), ttl, reply);
      if reply.Landed() {
        View := View.(dedupe := View.dedupe[eventID := Reservation(Processed, now + ttl)]);
        Rewrite(old(keys), keys, old(View), View, DedupeOf(eventID));
      }
    }

    /** Drops a reservation whatever its state. */
    method ReleaseReservation(eventID: string, reply: Reply) returns (err: bool)
      requires Valid()
      modifies this
      ensures Valid() && err == reply.Failed?
      ensures View == if reply.Landed() then old(View).(dedupe := old(View).dedupe - {eventID}) else old(View)
    {
      err := reply.Failed?;
      if reply.Landed() {
        Evict(eventID);
      }
    }

    /** Writes a record under one of its two keys, without a deadline. */
    method SetStats(k: Key, data: Stats, reply: Reply) returns (err: bool)
      requires Valid() && (k.StatsOf? || k.LatestOf?)
      modifies this
      ensures var name := "match:" + k.matchID + if k.StatsOf? then ":stats" else ":latest";
        reply.Landed() ==> name in keys && keys[name] == Entry(Record(data), None)
      ensures Valid() && err == reply.Failed?
      ensures View == if !reply.Landed() then old(View)
                      else if k.StatsOf? then old(View).(stats := old(View).stats[k.matchID := data])
                      else old(View).(latest := old(View).latest[k.matchID := data])
    {
      RecordName(k);
      hide Name;
      err := Set(Name(k), Record(data), 0, reply);
      if reply.Landed() {
        View := if k.StatsOf? then View.(stats := View.stats[k.matchID := data])
                else View.(latest := View.latest[k.matchID := data]);
        Rewrite(old(keys), keys, old(View), View, k);
      }
    }

    method AddActiveMatch(matchID: string, reply: Reply) returns (err: bool)
      requires Valid()
      modifies this
      ensures reply.Landed() ==> "matches:active" in keys && keys["matches:active"] == Entry(Members(View.active), None)
      ensures Valid() && err == reply.Failed?
      ensures View == if reply.Landed() then old(View).(active := old(View).active + {matchID}) else old(View)
    {
      assert Name(ActiveSet) == "matches:active";
      hide Name;
      assert Lookup(keys, Name(ActiveSet)) == Content(View, ActiveSet);
      err := SAdd(Name(ActiveSet), matchID, reply);
      if reply.Landed() {
        View := View.(active := View.active + {matchID});
        Rewrite(old(keys), keys, old(View), View, ActiveSet);
      }
    }

    /** The members of `matches:active`. */
    method ActiveMatches(ok: bool) returns (ids: set<string>, err: bool)
      requires Valid()
      ensures err == !ok
      ensures ok ==> ids == View.active
    {
      hide Name;
      assert Lookup(keys, Name(ActiveSet)) == Content(View, ActiveSet);
      ids, err := SMembers(Name(ActiveSet), ok);
    }

    /** A stored record; absent or unreadable ones are errors alike. */
    method GetStats(matchID: string, ok: bool) returns (data: Option<Stats>)
      requires Valid()
      ensures data == if ok && matchID in View.stats then Some(View.stats[matchID]) else None
    {
      hide Name;
      assert Lookup(keys, Name(StatsOf(matchID))) == Content(View, StatsOf(matchID));
      var found, err := Get(Name(StatsOf(matchID)), ok);
      data := if !err && found.Some? then Some(found.value.value.stats) else None;
    }
  }

  /** The reservation has reached its deadline and the server evicts it. */
  predicate Gone(v: Store, eventID: string, evict: bool) {
    evict && eventID in v.dedupe && v.dedupe[eventID].deadline <= v.now
  }

  /** What a reservation attempt leaves in the store. */
  function AfterReserve(v: Store, eventID: string, ttl: nat, nx: Reply, evict: bool): Store {
    if eventID !in v.dedupe && nx.Landed() then v.(dedupe := v.dedupe[eventID := Reservation(Processing, v.now + ttl)])
    else if nx.Fine? && Gone(v, eventID, evict) then v.(dedupe := v.dedupe - {eventID})
    else v
  }
}
