/** The mutable per-match record. Its event list is a Go slice: a backing array that may be
    longer than the list, shared by every struct copy taken of the record. */
module LiveStats {
  import opened Common
  import opened Aggregate

  /** A slice header. */
  datatype Slice = Slice(backing: array<MatchEvent>, length: nat)
  {
    ghost predicate Valid() {
      length <= backing.Length
    }

    ghost function View(): seq<MatchEvent>
      requires Valid()
      reads backing
    {
      backing[..length]
    }
  }

  /** A struct copy: every field by value, the event list by its slice header. */
  datatype StatsCopy = StatsCopy(header: Stats, events: Slice)
  {
    ghost function Value(): Stats
      requires events.Valid()
      reads events.backing
    {
      header.(events := events.View())
    }
  }

  /** Encodes a struct copy; on records the encoding is the identity. */
  method Marshal(copy: StatsCopy) returns (data: Stats)
    requires copy.events.Valid()
    ensures data == copy.Value()
  {
    data := copy.header.(events := copy.events.backing[..copy.events.length]);
  }

  class MatchStats {
    var matchID: string
    var minute: int
    var homeTeam: string
    var awayTeam: string
    var homeGoals: int
    var awayGoals: int
    var homeShots: int
    var awayShots: int
    var homeShotsOT: int
    var awayShotsOT: int
    var homeFouls: int
    var awayFouls: int
    var homeCorners: int
    var awayCorners: int
    var homeYellow: int
    var awayYellow: int
    var homeRed: int
    var awayRed: int
    var events: array<MatchEvent>
    var length: nat
    var lastEvent: MatchEvent

    /** Every array that ever backed the event list. */
    ghost var Arrays: set<array<MatchEvent>>
    /** Every struct copy handed out, with the record it showed at that moment. */
    ghost var Copies: seq<(StatsCopy, Stats)>

    ghost predicate Valid()
      reads `events, `length, `Arrays, `Copies, Arrays
      ensures Valid() ==> events in Arrays && length <= events.Length
    {
      && events in Arrays
      && length <= events.Length
      && forall c :: c in Copies ==>
           && c.0.events.backing in Arrays
           && c.0.events.Valid()
           && c.0.Value() == c.1
           && (c.0.events.backing == events ==> c.0.events.length <= length)
    }

    ghost function Home(): Counters
      reads `homeGoals, `homeShots, `homeShotsOT, `homeFouls, `homeCorners, `homeYellow, `homeRed
    {
      Counters(homeGoals, homeShots, homeShotsOT, homeFouls, homeCorners, homeYellow, homeRed)
    }

    ghost function Away(): Counters
      reads `awayGoals, `awayShots, `awayShotsOT, `awayFouls, `awayCorners, `awayYellow, `awayRed
    {
      Counters(awayGoals, awayShots, awayShotsOT, awayFouls, awayCorners, awayYellow, awayRed)
    }

    ghost function Value(): Stats
      requires length <= events.Length
      reads this, events
    {
      Stats(matchID, minute, homeTeam, awayTeam, Home(), Away(), events[..length], lastEvent)
    }

    /** The live record is intact and reads as s. */
    ghost predicate Shows(s: Stats)
      reads this, Arrays
    {
      Valid() && Value() == s
    }

    lemma Showing(s: Stats)
      requires Shows(s)
      ensures Valid() && Value() == s
    {
    }

    /** The record of a match not seen before. */
    constructor (matchID: string)
      ensures Valid() && fresh(Arrays) && Copies == []
      ensures Value() == Empty(matchID) && Shows(Empty(matchID))
    {
      this.matchID, minute, homeTeam, awayTeam := matchID, 0, "", "";
      homeGoals, homeShots, homeShotsOT, homeFouls, homeCorners, homeYellow, homeRed := 0, 0, 0, 0, 0, 0, 0;
      awayGoals, awayShots, awayShotsOT, awayFouls, awayCorners, awayYellow, awayRed := 0, 0, 0, 0, 0, 0, 0;
      events, length, lastEvent := new MatchEvent[0], 0, ZERO_EVENT;
      Copies := [];
      new;
      Arrays := {events};
    }

    /** A record decoded from the store. */
    constructor Decode(s: Stats)
      ensures Valid() && fresh(Arrays) && Copies == []
      ensures Value() == s && Shows(s)
    {
      matchID, minute, homeTeam, awayTeam := s.matchID, s.minute, s.homeTeam, s.awayTeam;
      homeGoals, homeShots, homeShotsOT, homeFouls := s.home.goals, s.home.shots, s.home.onTarget, s.home.fouls;
      homeCorners, homeYellow, homeRed := s.home.corners, s.home.yellows, s.home.reds;
      awayGoals, awayShots, awayShotsOT, awayFouls := s.away.goals, s.away.shots, s.away.onTarget, s.away.fouls;
      awayCorners, awayYellow, awayRed := s.away.corners, s.away.yellows, s.away.reds;
      var list := new MatchEvent[|s.events|](i requires 0 <= i < |s.events| => s.events[i]);
      events, length, lastEvent := list, |s.events|, s.lastEvent;
      Copies := [];
      new;
      Arrays := {events};
      assert events[..length] == s.events;
    }

    /** Go's append: in place while capacity remains, else into a larger array. `slack` is
        whatever spare capacity the runtime's growth policy adds. */
    method Append(e: MatchEvent, slack: nat)
      requires Valid()
      modifies `events, `length, `Arrays, events
      ensures Valid() && fresh(Arrays - old(Arrays)) && (events == old(events) || fresh(events))
      ensures events[..length] == old(events[..length]) + [e]
    {
      if length == events.Length {
        var grown := new MatchEvent[length + 1 + slack];
        forall i | 0 <= i < length {
          grown[i] := events[i];
        }
        Arrays := Arrays + {grown};
        events := grown;
      }
      events[length] := e;
      length := length + 1;
    }

    method ApplyEvent(event: MatchEvent, slack: nat) returns (isHome: bool)
      requires Valid()
      modifies this, events
      ensures Valid() && fresh(Arrays - old(Arrays)) && Copies == old(Copies)
      ensures events == old(events) || fresh(events)
      ensures Value() == Apply(old(Value()), event)
      ensures isHome <==> event.team != "" && event.team == homeTeam
      ensures homeTeam == if old(homeTeam) != "" then old(homeTeam) else event.team
      ensures awayTeam == if old(awayTeam) == "" && old(homeTeam) != "" && event.team != old(homeTeam) then event.team else old(awayTeam)
      ensures minute == event.minute && lastEvent == event && matchID == old(matchID)
      ensures homeGoals == old(homeGoals) + if isHome && event.eventType == "goal" then 1 else 0
      ensures awayGoals == old(awayGoals) + if !isHome && event.eventType == "goal" then 1 else 0
      ensures homeShots == old(homeShots) + if isHome && event.eventType == "shot" then 1 else 0
      ensures awayShots == old(awayShots) + if !isHome && event.eventType == "shot" then 1 else 0
      ensures homeShotsOT == old(homeShotsOT) + if isHome && event.eventType == "shot" && event.detail == "on_target" then 1 else 0
      ensures awayShotsOT == old(awayShotsOT) + if !isHome && event.eventType == "shot" && event.detail == "on_target" then 1 else 0
      ensures homeFouls == old(homeFouls) + if isHome && event.eventType == "foul" then 1 else 0
      ensures awayFouls == old(awayFouls) + if !isHome && event.eventType == "foul" then 1 else 0
      ensures homeCorners == old(homeCorners) + if isHome && event.eventType == "corner" then 1 else 0
      ensures awayCorners == old(awayCorners) + if !isHome && event.eventType == "corner" then 1 else 0
      ensures homeYellow == old(homeYellow) + if isHome && event.eventType == "card" && event.detail == "yellow" then 1 else 0
      ensures awayYellow == old(awayYellow) + if !isHome && event.eventType == "card" && event.detail == "yellow" then 1 else 0
      ensures homeRed == old(homeRed) + if isHome && event.eventType == "card" && event.detail == "red" then 1 else 0
      ensures awayRed == old(awayRed) + if !isHome && event.eventType == "card" && event.detail == "red" then 1 else 0
    {
      isHome := Score(event);
      Append(event, slack);
    }

    /** Every effect of an event but the append. */
    method Score(event: MatchEvent) returns (isHome: bool)
      requires length <= events.Length
      modifies `homeTeam, `awayTeam, `minute, `lastEvent
      modifies `homeGoals, `homeShots, `homeShotsOT, `homeFouls, `homeCorners, `homeYellow, `homeRed
      modifies `awayGoals, `awayShots, `awayShotsOT, `awayFouls, `awayCorners, `awayYellow, `awayRed
      ensures Value() == Apply(old(Value()), event).(events := old(Value()).events)
      ensures isHome == IsHome(old(Value()), event)
      ensures homeGoals == old(homeGoals) + if isHome && event.eventType == "goal" then 1 else 0
      ensures awayGoals == old(awayGoals) + if !isHome && event.eventType == "goal" then 1 else 0
      ensures homeShots == old(homeShots) + if isHome && event.eventType == "shot" then 1 else 0
      ensures awayShots == old(awayShots) + if !isHome && event.eventType == "shot" then 1 else 0
      ensures homeShotsOT == old(homeShotsOT) + if isHome && event.eventType == "shot" && event.detail == "on_target" then 1 else 0
      ensures awayShotsOT == old(awayShotsOT) + if !isHome && event.eventType == "shot" && event.detail == "on_target" then 1 else 0
      ensures homeFouls == old(homeFouls) + if isHome && event.eventType == "foul" then 1 else 0
      ensures awayFouls == old(awayFouls) + if !isHome && event.eventType == "foul" then 1 else 0
      ensures homeCorners == old(homeCorners) + if isHome && event.eventType == "corner" then 1 else 0
      ensures awayCorners == old(awayCorners) + if !isHome && event.eventType == "corner" then 1 else 0
      ensures homeYellow == old(homeYellow) + if isHome && event.eventType == "card" && event.detail == "yellow" then 1 else 0
      ensures awayYellow == old(awayYellow) + if !isHome && event.eventType == "card" && event.detail == "yellow" then 1 else 0
      ensures homeRed == old(homeRed) + if isHome && event.eventType == "card" && event.detail == "red" then 1 else 0
      ensures awayRed == old(awayRed) + if !isHome && event.eventType == "card" && event.detail == "red" then 1 else 0
    {
      hide Add;
      isHome := LearnTeams(event);
      CountKind(event, isHome);
      minute := event.minute;
      lastEvent := event;
    }

    method LearnTeams(event: MatchEvent) returns (isHome: bool)
      requires length <= events.Length
      modifies `homeTeam, `awayTeam
      ensures homeTeam == HomeAfter(old(Value()), event) && awayTeam == AwayAfter(old(Value()), event)
      ensures isHome == IsHome(old(Value()), event)
    {
      if event.team != "" {
        if homeTeam == "" {
          homeTeam := event.team;
        } else if awayTeam == "" && event.team != homeTeam {
          awayTeam := event.team;
        }
      }
      isHome := event.team != "" && event.team == homeTeam;
    }

    /** The switch on the event type. */
    method CountKind(event: MatchEvent, isHome: bool)
      modifies `homeGoals, `homeShots, `homeShotsOT, `homeFouls, `homeCorners, `homeYellow, `homeRed
      modifies `awayGoals, `awayShots, `awayShotsOT, `awayFouls, `awayCorners, `awayYellow, `awayRed
      ensures Home() == if isHome then Add(old(Home()), event) else old(Home())
      ensures Away() == if isHome then old(Away()) else Add(old(Away()), event)
      ensures homeGoals == old(homeGoals) + if isHome && event.eventType == "goal" then 1 else 0
      ensures awayGoals == old(awayGoals) + if !isHome && event.eventType == "goal" then 1 else 0
      ensures homeShots == old(homeShots) + if isHome && event.eventType == "shot" then 1 else 0
      ensures awayShots == old(awayShots) + if !isHome && event.eventType == "shot" then 1 else 0
      ensures homeShotsOT == old(homeShotsOT) + if isHome && event.eventType == "shot" && event.detail == "on_target" then 1 else 0
      ensures awayShotsOT == old(awayShotsOT) + if !isHome && event.eventType == "shot" && event.detail == "on_target" then 1 else 0
      ensures homeFouls == old(homeFouls) + if isHome && event.eventType == "foul" then 1 else 0
      ensures awayFouls == old(awayFouls) + if !isHome && event.eventType == "foul" then 1 else 0
      ensures homeCorners == old(homeCorners) + if isHome && event.eventType == "corner" then 1 else 0
      ensures awayCorners == old(awayCorners) + if !isHome && event.eventType == "corner" then 1 else 0
      ensures homeYellow == old(homeYellow) + if isHome && event.eventType == "card" && event.detail == "yellow" then 1 else 0
      ensures awayYellow == old(awayYellow) + if !isHome && event.eventType == "card" && event.detail == "yellow" then 1 else 0
      ensures homeRed == old(homeRed) + if isHome && event.eventType == "card" && event.detail == "red" then 1 else 0
      ensures awayRed == old(awayRed) + if !isHome && event.eventType == "card" && event.detail == "red" then 1 else 0
    {
      if event.eventType == "goal" {
        if isHome { homeGoals := homeGoals + 1; } else { awayGoals := awayGoals + 1; }
      } else if event.eventType == "shot" {
        if isHome {
          homeShots := homeShots + 1;
          if event.detail == "on_target" { homeShotsOT := homeShotsOT + 1; }
        } else {
          awayShots := awayShots + 1;
          if event.detail == "on_target" { awayShotsOT := awayShotsOT + 1; }
        }
      } else if event.eventType == "foul" {
        if isHome { homeFouls := homeFouls + 1; } else { awayFouls := awayFouls + 1; }
      } else if event.eventType == "corner" {
        if isHome { homeCorners := homeCorners + 1; } else { awayCorners := awayCorners + 1; }
      } else if event.eventType == "card" {
        if event.detail == "yellow" {
          if isHome { homeYellow := homeYellow + 1; } else { awayYellow := awayYellow + 1; }
        } else if event.detail == "red" {
          if isHome { homeRed := homeRed + 1; } else { awayRed := awayRed + 1; }
        }
      }
    }

    /** The struct copy taken under the mutex before it is released. */
    method Copy() returns (c: StatsCopy)
      requires Valid()
      modifies this`Copies
      ensures Valid() && c.events.Valid() && c.events.backing in Arrays
      ensures c.Value() == Value()
      ensures Copies == old(Copies) + [(c, Value())]
    {
      var home := Counters(homeGoals, homeShots, homeShotsOT, homeFouls, homeCorners, homeYellow, homeRed);
      var away := Counters(awayGoals, awayShots, awayShotsOT, awayFouls, awayCorners, awayYellow, awayRed);
      c := StatsCopy(Stats(matchID, minute, homeTeam, awayTeam, home, away, [], lastEvent), Slice(events, length));
      Copies := Copies + [(c, Value())];
    }

    /** Apply and copy, in one go. */
    method Update(event: MatchEvent, slack: nat) returns (c: StatsCopy)
      requires Valid()
      modifies this, events
      ensures Shows(Aggregate.Apply(old(Value()), event)) && fresh(Arrays - old(Arrays))
      ensures c.events.Valid() && c.Value() == Aggregate.Apply(old(Value()), event)
    {
      hide Aggregate.Apply;
      var isHome := ApplyEvent(event, slack);
      c := Copy();
    }

    /** Snapshot isolation: although a copy shares the backing array, no later run of events,
        appended in place or by regrowing, changes what any copy shows. */
    method ApplyLater(batch: seq<MatchEvent>, slack: nat)
      requires Valid()
      modifies this, events
      ensures Valid() && fresh(Arrays - old(Arrays)) && Copies == old(Copies)
      ensures Value() == ApplyAll(old(Value()), batch)
      ensures forall c :: c in old(Copies) ==> c.0.events.Valid() && c.0.Value() == old(c.0.Value())
    {
      for i := 0 to |batch|
        invariant Valid() && fresh(Arrays - old(Arrays)) && (events == old(events) || fresh(events)) && Copies == old(Copies)
        invariant Value() == ApplyAll(old(Value()), batch[..i])
      {
        var isHome := ApplyEvent(batch[i], slack);
        assert batch[..i + 1][..i] == batch[..i];
      }
      assert batch[..|batch|] == batch;
    }
  }

  function ApplyAll(s: Stats, batch: seq<MatchEvent>): Stats {
    if batch == [] then s else Apply(ApplyAll(s, batch[..|batch| - 1]), batch[|batch| - 1])
  }
}
