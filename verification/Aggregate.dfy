/** What a match's statistics mean: the effect of one event, its fold over a history,
    and an order-free description of the result. */
module Aggregate {
  import opened Common

  // ----- what one event counts as

  datatype Kind = Goal | Shot(onTarget: bool) | Foul | Corner | Yellow | Red | Other

  function KindOf(e: MatchEvent): Kind {
    if e.eventType == "goal" then Goal
    else if e.eventType == "shot" then Shot(e.detail == "on_target")
    else if e.eventType == "foul" then Foul
    else if e.eventType == "corner" then Corner
    else if e.eventType == "card" then
      if e.detail == "yellow" then Yellow else if e.detail == "red" then Red else Other
    else Other
  }

  /** The seven quantities kept for each side. */
  datatype Stat = Goals | Shots | OnTarget | Fouls | Corners | Yellows | Reds

  /** What one event counts as, whichever side it is credited to. */
  function Credit(e: MatchEvent): multiset<Stat> {
    match KindOf(e)
    case Goal => multiset{Goals}
    case Shot(onTarget) => if onTarget then multiset{Shots, OnTarget} else multiset{Shots}
    case Foul => multiset{Fouls}
    case Corner => multiset{Corners}
    case Yellow => multiset{Yellows}
    case Red => multiset{Reds}
    case Other => multiset{}
  }

  /** The counters of one side. */
  datatype Counters = Counters(
    goals: int, shots: int, onTarget: int, fouls: int, corners: int, yellows: int, reds: int)
  {
    function Get(stat: Stat): int {
      match stat
      case Goals => goals
      case Shots => shots
      case OnTarget => onTarget
      case Fouls => fouls
      case Corners => corners
      case Yellows => yellows
      case Reds => reds
    }
  }

  const ZERO := Counters(0, 0, 0, 0, 0, 0, 0)

  /** The counters of a side credited with one more event. */
  function Add(c: Counters, e: MatchEvent): Counters {
    match KindOf(e)
    case Goal => c.(goals := c.goals + 1)
    case Shot(on) => c.(shots := c.shots + 1, onTarget := if on then c.onTarget + 1 else c.onTarget)
    case Foul => c.(fouls := c.fouls + 1)
    case Corner => c.(corners := c.corners + 1)
    case Yellow => c.(yellows := c.yellows + 1)
    case Red => c.(reds := c.reds + 1)
    case Other => c
  }

  lemma AddGet(c: Counters, e: MatchEvent, stat: Stat)
    ensures Add(c, e).Get(stat) == c.Get(stat) + Credit(e)[stat]
  {
  }

  lemma CountersExtensional(c: Counters, d: Counters)
    requires forall stat :: c.Get(stat) == d.Get(stat)
    ensures c == d
  {
    assert c.Get(Goals) == d.Get(Goals) && c.Get(Shots) == d.Get(Shots) && c.Get(OnTarget) == d.Get(OnTarget);
    assert c.Get(Fouls) == d.Get(Fouls) && c.Get(Corners) == d.Get(Corners);
    assert c.Get(Yellows) == d.Get(Yellows) && c.Get(Reds) == d.Get(Reds);
  }

  // ----- one event

  datatype Stats = Stats(
    matchID: string, minute: int, homeTeam: string, awayTeam: string,
    home: Counters, away: Counters, events: seq<MatchEvent>, lastEvent: MatchEvent)

  function Empty(matchID: string): Stats {
    Stats(matchID, 0, "", "", ZERO, ZERO, [], ZERO_EVENT)
  }

  /** A match's record in a table of records; a match not seen before has the empty one. */
  function Current(mem: map<string, Stats>, m: string): Stats {
    if m in mem then mem[m] else Empty(m)
  }

  function HomeAfter(s: Stats, e: MatchEvent): string {
    if e.team != "" && s.homeTeam == "" then e.team else s.homeTeam
  }

  function AwayAfter(s: Stats, e: MatchEvent): string {
    if e.team != "" && s.homeTeam != "" && s.awayTeam == "" && e.team != s.homeTeam then e.team else s.awayTeam
  }

  predicate IsHome(s: Stats, e: MatchEvent) {
    e.team != "" && e.team == HomeAfter(s, e)
  }

  function Apply(s: Stats, e: MatchEvent): (r: Stats)
    ensures r.events == s.events + [e] && r.matchID == s.matchID
  {
    var isHome := IsHome(s, e);
    Stats(
      s.matchID, e.minute, HomeAfter(s, e), AwayAfter(s, e),
      if isHome then Add(s.home, e) else s.home,
      if isHome then s.away else Add(s.away, e),
      s.events + [e], e)
  }

  /** The statistics after a whole history. */
  function Fold(matchID: string, h: seq<MatchEvent>): (s: Stats)
    ensures s.events == h && s.matchID == matchID
    ensures s.lastEvent == (if h == [] then ZERO_EVENT else h[|h| - 1]) && s.minute == s.lastEvent.minute
  {
    if h == [] then Empty(matchID)
    else
      assert h == h[..|h| - 1] + [h[|h| - 1]];
      Apply(Fold(matchID, h[..|h| - 1]), h[|h| - 1])
  }

  lemma FoldSnoc(matchID: string, h: seq<MatchEvent>, e: MatchEvent)
    ensures Fold(matchID, h + [e]) == Apply(Fold(matchID, h), e)
  {
    assert (h + [e])[..|h|] == h;
  }

  // ----- the order-free description

  /** The first team named in a history, or "" when none is. */
  function FirstTeam(h: seq<MatchEvent>): string {
    if h == [] then "" else if h[0].team != "" then h[0].team else FirstTeam(h[1..])
  }

  /** The first team named that is neither "" nor `other`. */
  function FirstTeamBut(h: seq<MatchEvent>, other: string): string {
    if h == [] then ""
    else if h[0].team != "" && h[0].team != other then h[0].team
    else FirstTeamBut(h[1..], other)
  }

  /** What the events that carry a team credit it with. */
  function CountFor(h: seq<MatchEvent>, team: string): multiset<Stat> {
    if h == [] then multiset{}
    else (if h[0].team == team then Credit(h[0]) else multiset{}) + CountFor(h[1..], team)
  }

  /** What all events of a history are worth. */
  function Count(h: seq<MatchEvent>): multiset<Stat> {
    if h == [] then multiset{} else Credit(h[0]) + Count(h[1..])
  }

  /** Some counter goes by this type, and for cards by this detail. */
  predicate Recognised(eventType: string, detail: string) {
    || eventType == "goal" || eventType == "shot" || eventType == "foul" || eventType == "corner"
    || (eventType == "card" && (detail == "yellow" || detail == "red"))
  }

  function Uncounted(h: seq<MatchEvent>): nat {
    if h == [] then 0 else (if Recognised(h[0].eventType, h[0].detail) then 0 else 1) + Uncounted(h[1..])
  }

  /** What the home side is credited with: nothing while no team has been named. */
  function HomeCount(h: seq<MatchEvent>): multiset<Stat> {
    if FirstTeam(h) == "" then multiset{} else CountFor(h, FirstTeam(h))
  }

  lemma {:induction false} FirstTeamSnoc(h: seq<MatchEvent>, e: MatchEvent)
    ensures FirstTeam(h + [e]) == if FirstTeam(h) == "" then e.team else FirstTeam(h)
  {
    if h != [] {
      assert (h + [e])[1..] == h[1..] + [e];
      FirstTeamSnoc(h[1..], e);
    }
  }

  lemma {:induction false} FirstTeamButSnoc(h: seq<MatchEvent>, e: MatchEvent, other: string)
    ensures FirstTeamBut(h + [e], other) ==
      if FirstTeamBut(h, other) == "" && e.team != other then e.team else FirstTeamBut(h, other)
  {
    if h != [] {
      assert (h + [e])[1..] == h[1..] + [e];
      FirstTeamButSnoc(h[1..], e, other);
    }
  }

  lemma {:induction false} CountConcat(g: seq<MatchEvent>, h: seq<MatchEvent>, team: string)
    ensures CountFor(g + h, team) == CountFor(g, team) + CountFor(h, team)
    ensures Count(g + h) == Count(g) + Count(h)
  {
    if g == [] {
      assert g + h == h;
    } else {
      assert (g + h)[1..] == g[1..] + h;
      CountConcat(g[1..], h, team);
    }
  }

  /** Before any team is named, no named team is credited with anything. */
  lemma {:induction false} NoTeamNoCredit(h: seq<MatchEvent>, team: string)
    requires FirstTeam(h) == ""
    ensures team != "" ==> CountFor(h, team) == multiset{}
    ensures FirstTeamBut(h, team) == ""
  {
    if h != [] {
      NoTeamNoCredit(h[1..], team);
    }
  }

  /** The teams learned are the first one named and the first later one that differs from it. */
  lemma {:induction false} TeamsLearned(matchID: string, h: seq<MatchEvent>)
    ensures Fold(matchID, h).homeTeam == FirstTeam(h)
    ensures Fold(matchID, h).awayTeam == FirstTeamBut(h, FirstTeam(h))
  {
    if h != [] {
      var p, e := h[..|h| - 1], h[|h| - 1];
      assert h == p + [e];
      TeamsLearned(matchID, p);
      FirstTeamSnoc(p, e);
      FirstTeamButSnoc(p, e, FirstTeam(h));
      if FirstTeam(p) == "" {
        NoTeamNoCredit(p, FirstTeam(p));
        NoTeamNoCredit(p, FirstTeam(h));
      }
    }
  }

  lemma {:induction false} FirstIsFirst(h: seq<MatchEvent>, other: string)
    ensures FirstTeamBut(h, other) == "" <==> forall i :: 0 <= i < |h| ==> h[i].team == "" || h[i].team == other
    ensures FirstTeamBut(h, other) != "" ==>
      FirstTeamBut(h, other) != other
      && exists i :: 0 <= i < |h| && h[i].team == FirstTeamBut(h, other)
                     && forall j :: 0 <= j < i ==> h[j].team == "" || h[j].team == other
  {
    if h != [] && (h[0].team == "" || h[0].team == other) {
      var rest := h[1..];
      FirstIsFirst(rest, other);
      assert forall i :: 0 < i < |h| ==> h[i] == rest[i - 1];
      if FirstTeamBut(h, other) != "" {
        var i :| 0 <= i < |rest| && rest[i].team == FirstTeamBut(h, other) && forall j :: 0 <= j < i ==> rest[j].team == "" || rest[j].team == other;
        assert h[i + 1].team == FirstTeamBut(h, other);
        assert forall j :: 0 <= j < i + 1 ==> h[j].team == "" || h[j].team == other;
      } else {
        assert forall i :: 0 <= i < |rest| ==> rest[i] == h[i + 1];
      }
    }
  }

  lemma {:induction false} FirstTeamButNone(h: seq<MatchEvent>)
    ensures FirstTeamBut(h, "") == FirstTeam(h)
  {
    if h != [] {
      FirstTeamButNone(h[1..]);
    }
  }

  /** Said of the names themselves: a side is unnamed exactly while no event could name it, and otherwise
      named by an event before which none could. */
  lemma {:induction false} TeamsAreFirstNamed(matchID: string, h: seq<MatchEvent>)
    ensures var home := Fold(matchID, h).homeTeam;
      && (home == "" <==> forall i :: 0 <= i < |h| ==> h[i].team == "")
      && (home != "" ==> exists i :: 0 <= i < |h| && h[i].team == home && forall j :: 0 <= j < i ==> h[j].team == "")
    ensures var home, away := Fold(matchID, h).homeTeam, Fold(matchID, h).awayTeam;
      && (away == "" <==> forall i :: 0 <= i < |h| ==> h[i].team == "" || h[i].team == home)
      && (away != "" ==>
            away != home
            && exists i :: 0 <= i < |h| && h[i].team == away && forall j :: 0 <= j < i ==> h[j].team == "" || h[j].team == home)
  {
    hide Fold, FirstTeam, FirstTeamBut;
    TeamsLearned(matchID, h);
    FirstTeamButNone(h);
    FirstIsFirst(h, "");
    FirstIsFirst(h, FirstTeam(h));
  }

  lemma HomeCountSnoc(p: seq<MatchEvent>, e: MatchEvent)
    ensures HomeCount(p + [e]) == HomeCount(p) +
      if e.team != "" && e.team == FirstTeam(p + [e]) then Credit(e) else multiset{}
    ensures Count(p + [e]) == Count(p) + Credit(e)
  {
    FirstTeamSnoc(p, e);
    CountConcat(p, [e], FirstTeam(p + [e]));
    if FirstTeam(p) == "" {
      NoTeamNoCredit(p, FirstTeam(p + [e]));
    }
  }

  lemma ApplyKeepsClosedForm(s: Stats, p: seq<MatchEvent>, e: MatchEvent, stat: Stat)
    requires s.homeTeam == FirstTeam(p)
    requires s.home.Get(stat) == HomeCount(p)[stat] && s.home.Get(stat) + s.away.Get(stat) == Count(p)[stat]
    ensures var t := Apply(s, e);
      t.home.Get(stat) == HomeCount(p + [e])[stat] && t.home.Get(stat) + t.away.Get(stat) == Count(p + [e])[stat]
  {
    hide Add, Credit, Count, CountFor;
    FirstTeamSnoc(p, e);
    HomeCountSnoc(p, e);
    AddGet(s.home, e, stat);
    AddGet(s.away, e, stat);
  }

  /** All fourteen counters, on every history, in closed form: the home side is credited with the
      events that carry the first team named, the away side with all others. */
  lemma {:induction false} ClosedForm(matchID: string, h: seq<MatchEvent>, stat: Stat)
    ensures Fold(matchID, h).home.Get(stat) == HomeCount(h)[stat]
    ensures Fold(matchID, h).home.Get(stat) + Fold(matchID, h).away.Get(stat) == Count(h)[stat]
  {
    if h != [] {
      var p, e := h[..|h| - 1], h[|h| - 1];
      assert h == p + [e];
      ClosedForm(matchID, p, stat);
      TeamsLearned(matchID, p);
      FoldSnoc(matchID, p, e);
      hide Apply, Fold, Count, HomeCount;
      ApplyKeepsClosedForm(Fold(matchID, p), p, e, stat);
    }
  }

  /** The number of counted events; on-target shots are shots already. */
  function SumOfKinds(c: multiset<Stat>): nat {
    c[Goals] + c[Shots] + c[Fouls] + c[Corners] + c[Yellows] + c[Reds]
  }

  lemma SumOfCredit(e: MatchEvent, c: multiset<Stat>)
    ensures SumOfKinds(Credit(e) + c) == SumOfKinds(c) + if KindOf(e).Other? then 0 else 1
    ensures Credit(e)[OnTarget] <= Credit(e)[Shots]
  {
  }

  /** Every event is counted exactly once or recognised by no counter. */
  lemma {:induction false} EveryEventCountedOnce(h: seq<MatchEvent>)
    ensures SumOfKinds(Count(h)) + Uncounted(h) == |h|
  {
    if h != [] {
      EveryEventCountedOnce(h[1..]);
      SumOfCredit(h[0], Count(h[1..]));
    }
  }

  /** On-target shots are shots, for one team and for all others. */
  lemma {:induction false} OnTargetShotsAreShots(h: seq<MatchEvent>, team: string)
    ensures var mine, all := CountFor(h, team), Count(h);
      mine[OnTarget] <= mine[Shots] && mine <= all && (all - mine)[OnTarget] <= (all - mine)[Shots]
  {
    if h != [] {
      OnTargetShotsAreShots(h[1..], team);
      SumOfCredit(h[0], Count(h[1..]));
    }
  }

  /** What a reader of a stored record may rely on: on-target shots are among the shots of each
      side, and the counters and the unrecognised events add up to the stored history. */
  lemma RecordInvariants(matchID: string, h: seq<MatchEvent>)
    ensures var home, away := Fold(matchID, h).home, Fold(matchID, h).away;
      && home.onTarget <= home.shots && away.onTarget <= away.shots
      && home.goals + home.shots + home.fouls + home.corners + home.yellows + home.reds
         + away.goals + away.shots + away.fouls + away.corners + away.yellows + away.reds + Uncounted(h) == |h|
  {
    hide Fold, Count, CountFor;
    ClosedForm(matchID, h, Goals);
    ClosedForm(matchID, h, Shots);
    ClosedForm(matchID, h, OnTarget);
    ClosedForm(matchID, h, Fouls);
    ClosedForm(matchID, h, Corners);
    ClosedForm(matchID, h, Yellows);
    ClosedForm(matchID, h, Reds);
    EveryEventCountedOnce(h);
    OnTargetShotsAreShots(h, FirstTeam(h));
  }

  // ----- the counters, read off the events

  /** How many events of a type, and of a detail if one is asked for, carry this team, or do not. */
  function Number(h: seq<MatchEvent>, eventType: string, detail: Option<string>, team: string, mine: bool): nat {
    if h == [] then 0
    else
      var e := h[0];
      Number(h[1..], eventType, detail, team, mine) +
      if e.eventType == eventType && (detail.None? || e.detail == detail.value) && (team != "" && e.team == team) == mine then 1 else 0
  }

  /** A counter goes by exactly this type and detail. */
  ghost predicate GoesBy(stat: Stat, eventType: string, detail: Option<string>) {
    forall e: MatchEvent ::
      Credit(e)[stat] == if e.eventType == eventType && (detail.None? || e.detail == detail.value) then 1 else 0
  }

  lemma {:induction false} NumberIsCredited(h: seq<MatchEvent>, stat: Stat, eventType: string, detail: Option<string>, team: string)
    requires GoesBy(stat, eventType, detail)
    ensures Number(h, eventType, detail, team, true) == (if team == "" then 0 else CountFor(h, team)[stat])
    ensures Number(h, eventType, detail, team, true) + Number(h, eventType, detail, team, false) == Count(h)[stat]
  {
    hide Credit;
    if h != [] {
      NumberIsCredited(h[1..], stat, eventType, detail, team);
      assert Credit(h[0])[stat] == if h[0].eventType == eventType && (detail.None? || h[0].detail == detail.value) then 1 else 0;
      hide GoesBy;
    }
  }

  lemma CounterIsTally(matchID: string, h: seq<MatchEvent>, stat: Stat, eventType: string, detail: Option<string>)
    requires GoesBy(stat, eventType, detail)
    ensures Fold(matchID, h).home.Get(stat) == Number(h, eventType, detail, Fold(matchID, h).homeTeam, true)
    ensures Fold(matchID, h).away.Get(stat) == Number(h, eventType, detail, Fold(matchID, h).homeTeam, false)
  {
    hide Fold, Count, CountFor, GoesBy, Number;
    TeamsLearned(matchID, h);
    ClosedForm(matchID, h, stat);
    NumberIsCredited(h, stat, eventType, detail, FirstTeam(h));
  }

  lemma StatsGoBy()
    ensures GoesBy(Goals, "goal", None) && GoesBy(Shots, "shot", None) && GoesBy(OnTarget, "shot", Some("on_target"))
    ensures GoesBy(Fouls, "foul", None) && GoesBy(Corners, "corner", None)
    ensures GoesBy(Yellows, "card", Some("yellow")) && GoesBy(Reds, "card", Some("red"))
  {
    hide Credit;
    forall e: MatchEvent {
      TypesDiffer(e);
    }
  }

  lemma TypesDiffer(e: MatchEvent)
    ensures Credit(e)[Goals] == (if e.eventType == "goal" then 1 else 0)
    ensures Credit(e)[Shots] == (if e.eventType == "shot" then 1 else 0)
    ensures Credit(e)[OnTarget] == (if e.eventType == "shot" && e.detail == "on_target" then 1 else 0)
    ensures Credit(e)[Fouls] == (if e.eventType == "foul" then 1 else 0)
    ensures Credit(e)[Corners] == (if e.eventType == "corner" then 1 else 0)
    ensures Credit(e)[Yellows] == (if e.eventType == "card" && e.detail == "yellow" then 1 else 0)
    ensures Credit(e)[Reds] == (if e.eventType == "card" && e.detail == "red" then 1 else 0)
  {
  }

  /** All fourteen counters of every history, field by field: the events with that type, and detail where
      one matters, that carry the home team's name, and those that do not. */
  lemma CountersAreTallies(matchID: string, h: seq<MatchEvent>)
    ensures var s := Fold(matchID, h);
      && s.home.goals == Number(h, "goal", None, s.homeTeam, true)
      && s.away.goals == Number(h, "goal", None, s.homeTeam, false)
      && s.home.shots == Number(h, "shot", None, s.homeTeam, true)
      && s.away.shots == Number(h, "shot", None, s.homeTeam, false)
      && s.home.onTarget == Number(h, "shot", Some("on_target"), s.homeTeam, true)
      && s.away.onTarget == Number(h, "shot", Some("on_target"), s.homeTeam, false)
      && s.home.fouls == Number(h, "foul", None, s.homeTeam, true)
      && s.away.fouls == Number(h, "foul", None, s.homeTeam, false)
    ensures var s := Fold(matchID, h);
      && s.home.corners == Number(h, "corner", None, s.homeTeam, true)
      && s.away.corners == Number(h, "corner", None, s.homeTeam, false)
      && s.home.yellows == Number(h, "card", Some("yellow"), s.homeTeam, true)
      && s.away.yellows == Number(h, "card", Some("yellow"), s.homeTeam, false)
      && s.home.reds == Number(h, "card", Some("red"), s.homeTeam, true)
      && s.away.reds == Number(h, "card", Some("red"), s.homeTeam, false)
  {
    hide Fold, GoesBy, Number;
    StatsGoBy();
    CounterIsTally(matchID, h, Goals, "goal", None);
    CounterIsTally(matchID, h, Shots, "shot", None);
    CounterIsTally(matchID, h, OnTarget, "shot", Some("on_target"));
    CounterIsTally(matchID, h, Fouls, "foul", None);
    CounterIsTally(matchID, h, Corners, "corner", None);
    CounterIsTally(matchID, h, Yellows, "card", Some("yellow"));
    CounterIsTally(matchID, h, Reds, "card", Some("red"));
  }

  // ----- order

  lemma MatchingRemoval(g: seq<MatchEvent>, h: seq<MatchEvent>) returns (i: nat)
    requires g != [] && multiset(g) == multiset(h)
    ensures i < |h| && h[i] == g[0] && multiset(g[1..]) == multiset(h[..i] + h[i + 1..])
  {
    assert g[0] in multiset(h);
    i :| i < |h| && h[i] == g[0];
    assert g == [g[0]] + g[1..];
    assert h == h[..i] + [h[i]] + h[i + 1..];
    assert multiset(h[..i] + h[i + 1..]) == multiset(h) - multiset{h[i]};
    assert multiset(g[1..]) == multiset(g) - multiset{g[0]};
  }

  /** Counting an event first or in its place is the same. */
  lemma CountAt(h: seq<MatchEvent>, i: nat, team: string)
    requires i < |h|
    ensures var moved := [h[i]] + (h[..i] + h[i + 1..]); CountFor(h, team) == CountFor(moved, team) && Count(h) == Count(moved)
  {
    hide Credit, CountFor, Count;
    var a, e, b := h[..i], [h[i]], h[i + 1..];
    assert h == (a + e) + b;
    CountConcat(a + e, b, team);
    CountConcat(a, e, team);
    CountConcat(e, a + b, team);
    CountConcat(a, b, team);
  }

  /** Counting ignores order. */
  lemma {:induction false} CountPermuted(g: seq<MatchEvent>, h: seq<MatchEvent>, team: string)
    requires multiset(g) == multiset(h)
    ensures CountFor(g, team) == CountFor(h, team)
    ensures Count(g) == Count(h)
    decreases |g|
  {
    hide Credit;
    if g == [] {
      assert |multiset(h)| == 0;
    } else {
      var i := MatchingRemoval(g, h);
      var rest := h[..i] + h[i + 1..];
      CountPermuted(g[1..], rest, team);
      CountAt(h, i, team);
      assert ([h[i]] + rest)[1..] == rest;
    }
  }

  predicate SameCounters(s: Stats, t: Stats) {
    s.home == t.home && s.away == t.away
  }

  lemma {:induction false} NoTeam(h: seq<MatchEvent>)
    ensures FirstTeam(h) == "" <==> forall e :: e in h ==> e.team == ""
  {
    if h != [] {
      NoTeam(h[1..]);
      assert h == [h[0]] + h[1..];
    }
  }

  lemma SameEvents(g: seq<MatchEvent>, h: seq<MatchEvent>)
    requires multiset(g) == multiset(h)
    ensures forall e :: e in g <==> e in h
  {
    forall e ensures e in g <==> e in h { assert e in multiset(g) <==> e in multiset(h); }
  }

  lemma SameCredit(g: seq<MatchEvent>, h: seq<MatchEvent>)
    requires multiset(g) == multiset(h)
    ensures HomeCount(g) == HomeCount(h) <==> FirstTeam(g) == "" || CountFor(g, FirstTeam(g)) == CountFor(g, FirstTeam(h))
    ensures Count(g) == Count(h)
  {
    CountPermuted(g, h, FirstTeam(h));
    NoTeam(g);
    NoTeam(h);
    SameEvents(g, h);
  }

  /** Reordering a history keeps all fourteen counters exactly when the team that opens the new
      order has the same counts as the team that opened the old one. */
  lemma ReorderingKeepsCounters(matchID: string, g: seq<MatchEvent>, h: seq<MatchEvent>)
    requires multiset(g) == multiset(h)
    ensures SameCounters(Fold(matchID, g), Fold(matchID, h)) <==>
      FirstTeam(g) == "" || CountFor(g, FirstTeam(g)) == CountFor(g, FirstTeam(h))
  {
    hide Fold, Count, CountFor, HomeCount;
    var s, t := Fold(matchID, g), Fold(matchID, h);
    SameCredit(g, h);
    forall stat
      ensures s.home.Get(stat) == HomeCount(g)[stat] && t.home.Get(stat) == HomeCount(h)[stat]
      ensures s.home.Get(stat) + s.away.Get(stat) == Count(g)[stat] == t.home.Get(stat) + t.away.Get(stat)
    {
      ClosedForm(matchID, g, stat);
      ClosedForm(matchID, h, stat);
    }
    if HomeCount(g) == HomeCount(h) {
      CountersExtensional(s.home, t.home);
      CountersExtensional(s.away, t.away);
    } else {
      var stat :| HomeCount(g)[stat] != HomeCount(h)[stat];
      assert s.home.Get(stat) != t.home.Get(stat);
    }
  }

  lemma CountForPair(a: MatchEvent, b: MatchEvent, team: string)
    ensures CountFor([a, b], team) == (if a.team == team then Credit(a) else multiset{}) + if b.team == team then Credit(b) else multiset{}
  {
    assert [a, b][1..] == [b] && [b][1..] == [];
    assert CountFor([b], team) == if b.team == team then Credit(b) else multiset{};
  }

  /** The documented "counters commute" fails once a reordering opens with another team. */
  lemma CountersDoNotCommute(matchID: string)
    ensures exists g, h :: multiset(g) == multiset(h) && !SameCounters(Fold(matchID, g), Fold(matchID, h))
  {
    var a := ZERO_EVENT.(eventType := "goal", team := "A");
    var b := ZERO_EVENT.(team := "B");
    var g, h := [a, b], [b, a];
    assert "A"[0] != "B"[0];
    assert multiset(g) == multiset(h);
    assert FirstTeam(g) == "A" && FirstTeam(h) == "B";
    CountForPair(a, b, "A");
    CountForPair(a, b, "B");
    assert Credit(a) == multiset{Goals} && Credit(b) == multiset{};
    assert CountFor(g, "A")[Goals] == 1 && CountFor(g, "B")[Goals] == 0;
    ReorderingKeepsCounters(matchID, g, h);
  }

  lemma {:induction false} TwoTeams(h: seq<MatchEvent>, a: string, b: string)
    requires a != b && forall e :: e in h ==> e.team == a || e.team == b
    ensures CountFor(h, a) + CountFor(h, b) == Count(h)
  {
    if h != [] {
      TwoTeams(h[1..], a, b);
    }
  }

  lemma {:induction false} FirstTeamIn(h: seq<MatchEvent>)
    requires FirstTeam(h) != ""
    ensures exists e :: e in h && e.team == FirstTeam(h)
  {
    if h[0].team == "" {
      FirstTeamIn(h[1..]);
    } else {
      assert h[0] in h;
    }
  }

  lemma {:induction false} SecondTeam(h: seq<MatchEvent>, other: string)
    ensures FirstTeamBut(h, other) == "" ==> forall e :: e in h ==> e.team == "" || e.team == other
    ensures FirstTeamBut(h, other) != "" ==> exists e :: e in h && e.team == FirstTeamBut(h, other) && e.team != other
  {
    if h != [] {
      SecondTeam(h[1..], other);
      assert h == [h[0]] + h[1..];
    }
  }

  lemma MirroredTeams(g: seq<MatchEvent>, h: seq<MatchEvent>, a: string, b: string)
    requires multiset(g) == multiset(h)
    requires a != b && a != "" && b != "" && forall e :: e in g ==> e.team == a || e.team == b
    requires FirstTeam(g) == a && FirstTeam(h) == b
    ensures FirstTeamBut(g, a) == b && FirstTeamBut(h, b) == a
  {
    SameEvents(g, h);
    FirstTeamIn(g);
    FirstTeamIn(h);
    SecondTeam(g, a);
    SecondTeam(h, b);
  }

  lemma MirroredCounters(matchID: string, g: seq<MatchEvent>, h: seq<MatchEvent>, a: string, b: string)
    requires multiset(g) == multiset(h)
    requires a != b && a != "" && b != "" && forall e :: e in g ==> e.team == a || e.team == b
    requires FirstTeam(g) == a && FirstTeam(h) == b
    ensures var s, t := Fold(matchID, g), Fold(matchID, h);
      t.home == s.away && t.away == s.home
  {
    hide Fold, Count, CountFor;
    var s, t := Fold(matchID, g), Fold(matchID, h);
    CountPermuted(g, h, b);
    TwoTeams(g, a, b);
    forall stat ensures t.home.Get(stat) == s.away.Get(stat) && t.away.Get(stat) == s.home.Get(stat) {
      ClosedForm(matchID, g, stat);
      ClosedForm(matchID, h, stat);
      assert (CountFor(g, a) + CountFor(g, b))[stat] == Count(g)[stat];
    }
    CountersExtensional(t.home, s.away);
    CountersExtensional(t.away, s.home);
  }

  /** A two-team history replayed so that the other team opens it swaps every home/away pair. */
  lemma OpeningWithTheOtherTeamMirrors(matchID: string, g: seq<MatchEvent>, h: seq<MatchEvent>, a: string, b: string)
    requires multiset(g) == multiset(h)
    requires a != b && a != "" && b != "" && forall e :: e in g ==> e.team == a || e.team == b
    requires FirstTeam(g) == a && FirstTeam(h) == b
    ensures var s, t := Fold(matchID, g), Fold(matchID, h);
      t.home == s.away && t.away == s.home && t.homeTeam == s.awayTeam && t.awayTeam == s.homeTeam
  {
    MirroredCounters(matchID, g, h, a, b);
    MirroredTeams(g, h, a, b);
    TeamsLearned(matchID, g);
    TeamsLearned(matchID, h);
  }
}
