/** The process's table of live records, one mutable object per match. */
module Matches {
  import opened Common
  import opened Aggregate
  import opened LiveStats

  class Table {
    var stats: map<string, MatchStats>

    /** What the records show. */
    ghost var Mem: map<string, Stats>
    /** Every live record made so far, with its match. */
    ghost var Owner: map<MatchStats, string>
    /** Every array that ever backed an event list. */
    ghost var Backing: set<array<MatchEvent>>

    ghost predicate Valid()
      reads this, Owner.Keys, Backing
    {
      && stats.Keys == Mem.Keys
      && (forall o :: o in Owner ==> o.Arrays <= Backing)
      && (forall m :: m in stats ==> stats[m] in Owner && Owner[stats[m]] == m && stats[m].Shows(Mem[m]))
      && (forall o, p :: o in Owner && p in Owner && o != p ==> o.Arrays !! p.Arrays)
    }

    constructor ()
      ensures Valid() && Mem == map[] && Owner == map[] && Backing == {}
    {
      stats, Mem, Owner, Backing := map[], map[], map[], {};
    }

    method Put(matchID: string, live: MatchStats, s: Stats)
      requires Valid() && live !in Owner && live.Arrays !! Backing && live.Shows(s)
      modifies this
      ensures Valid() && Owner == old(Owner)[live := matchID] && Backing == old(Backing) + live.Arrays
      ensures Mem == old(Mem)[matchID := s] && stats == old(stats)[matchID := live]
    {
      hide MatchStats.Shows, MatchStats.Valid, MatchStats.Value;
      stats := stats[matchID := live];
      Mem, Owner, Backing := Mem[matchID := s], Owner[live := matchID], Backing + live.Arrays;
    }

    /** Installs a record decoded from the store. */
    method Restore(matchID: string, s: Stats)
      requires Valid()
      modifies this
      ensures Valid() && fresh(Owner.Keys - old(Owner.Keys)) && fresh(Backing - old(Backing))
      ensures Mem == old(Mem)[matchID := s]
    {
      hide MatchStats.Shows, MatchStats.Valid, MatchStats.Value;
      var live := new MatchStats.Decode(s);
      Put(matchID, live, s);
    }

    /** The critical section: find or create the record, apply the event, copy the struct. */
    method Count(event: MatchEvent, slack: nat) returns (copy: StatsCopy)
      requires Valid()
      modifies this, Owner.Keys, Backing
      ensures Valid() && fresh(Owner.Keys - old(Owner.Keys)) && fresh(Backing - old(Backing))
      ensures Mem == old(Mem)[event.matchID := Apply(Current(old(Mem), event.matchID), event)]
      ensures copy.events.Valid() && copy.Value() == Mem[event.matchID]
    {
      hide Apply, Empty, StatsCopy.Value, MatchStats.Shows, MatchStats.Valid, MatchStats.Value;
      if event.matchID !in stats {
        var created := new MatchStats(event.matchID);
        Put(event.matchID, created, Empty(event.matchID));
      }
      copy := Update(event, slack);
    }

    method Update(event: MatchEvent, slack: nat) returns (copy: StatsCopy)
      requires Valid() && event.matchID in stats
      modifies `Mem, `Backing, stats[event.matchID], stats[event.matchID].Arrays
      ensures Valid() && fresh(Backing - old(Backing))
      ensures Mem == old(Mem)[event.matchID := Apply(old(Mem)[event.matchID], event)]
      ensures copy.events.Valid() && copy.Value() == Mem[event.matchID]
    {
      hide Apply, Empty, StatsCopy.Value, MatchStats.Shows, MatchStats.Valid, MatchStats.Value;
      var m := event.matchID;
      var live := stats[m];
      live.Showing(Mem[m]);
      copy := live.Update(event, slack);
      Settle(m, Apply(Mem[m], event));
    }

    /** Books the new reading of one record whose event list may have moved to a new array. */
    ghost method Settle(m: string, s: Stats)
      requires stats.Keys == Mem.Keys && m in stats && stats[m].Shows(s)
      requires forall n :: n in stats ==> stats[n] in Owner && Owner[stats[n]] == n
      requires forall n :: n in stats && n != m ==> stats[n].Shows(Mem[n])
      requires forall o :: o in Owner && o != stats[m] ==> o.Arrays <= Backing
      requires forall o, p :: o in Owner && p in Owner && o != p ==> o.Arrays !! p.Arrays
      modifies `Mem, `Backing
      ensures Valid() && Backing == old(Backing) + stats[m].Arrays && Mem == old(Mem)[m := s]
    {
      hide Apply, Empty, MatchStats.Shows, MatchStats.Valid, MatchStats.Value;
      Backing, Mem := Backing + stats[m].Arrays, Mem[m := s];
    }
  }
}
