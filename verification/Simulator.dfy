/** The match simulator: what a minute of play produces, and ninety of them sent to event-api. */
module Simulator {
  import opened Common
  import opened Aggregate
  import opened Consumer
  import opened Ingest
  import opened Sender

  const MATCH_MINUTES: nat := 90
  const HALF_TIME_MINUTE: nat := 45
  const MAX_EVENTS_PER_MINUTE: nat := 5

  // ----- what is generated

  /** A goal directly follows an on-target shot of its team, a card is yellow and directly follows a
      foul of its team, and nothing else is generated but shots, fouls and corners. */
  predicate PairedAt(g: seq<MatchEvent>, i: nat)
    requires i < |g|
  {
    var k := KindOf(g[i]);
    && !k.Other? && !k.Red?
    && (k.Goal? ==> i > 0 && KindOf(g[i - 1]) == Shot(true) && g[i - 1].team == g[i].team)
    && (k.Yellow? ==> i > 0 && KindOf(g[i - 1]) == Foul && g[i - 1].team == g[i].team)
  }

  predicate Paired(g: seq<MatchEvent>) {
    forall i :: 0 <= i < |g| ==> PairedAt(g, i)
  }

  lemma PairedConcat(g: seq<MatchEvent>, h: seq<MatchEvent>)
    requires Paired(g) && Paired(h)
    ensures Paired(g + h)
  {
    forall i | 0 <= i < |g + h| ensures PairedAt(g + h, i) {
      if i < |g| {
        assert PairedAt(g, i);
      } else {
        assert PairedAt(h, i - |g|);
      }
    }
  }

  lemma PairedPrefix(g: seq<MatchEvent>, n: nat)
    requires Paired(g) && n <= |g|
    ensures Paired(g[..n])
  {
    forall i | 0 <= i < n ensures PairedAt(g[..n], i) {
      assert PairedAt(g, i);
    }
  }

  // ----- what it is worth

  /** The event is credited to the home side when that is this team. */
  predicate CreditedHome(e: MatchEvent, team: string) {
    team != "" && e.team == team
  }

  /** What the events of the home side, or those of the other, are worth when the home team is this. */
  function Worth(h: seq<MatchEvent>, team: string, mine: bool): multiset<Stat> {
    var home := if team == "" then multiset{} else CountFor(h, team);
    if mine then home else Aggregate.Count(h) - home
  }

  predicate Last(h: seq<MatchEvent>, k: Kind, team: string, mine: bool) {
    h != [] && KindOf(h[|h| - 1]) == k && CreditedHome(h[|h| - 1], team) == mine
  }

  /** One unmatched on-target shot or foul is available when it is the last event. */
  predicate Covered(h: seq<MatchEvent>, team: string, mine: bool) {
    var c := Worth(h, team, mine);
    && c[Goals] + (if Last(h, Shot(true), team, mine) then 1 else 0) <= c[OnTarget] <= c[Shots]
    && c[Reds] == 0
    && c[Yellows] + (if Last(h, Foul, team, mine) then 1 else 0) <= c[Fouls]
  }

  lemma CountOne(e: MatchEvent, team: string)
    ensures CountFor([e], team) == if e.team == team then Credit(e) else multiset{}
    ensures Count([e]) == Credit(e)
  {
    hide Credit;
  }

  lemma WorthSnoc(p: seq<MatchEvent>, e: MatchEvent, team: string, mine: bool)
    ensures Worth(p + [e], team, mine) == Worth(p, team, mine) + if CreditedHome(e, team) == mine then Credit(e) else multiset{}
  {
    hide Credit;
    CountConcat(p, [e], team);
    CountOne(e, team);
    hide Count, CountFor;
    OnTargetShotsAreShots(p, team);
  }

  lemma CreditByKind(e: MatchEvent)
    ensures var c, k := Credit(e), KindOf(e);
      && c[Goals] == (if k.Goal? then 1 else 0) && c[Shots] == (if k.Shot? then 1 else 0)
      && c[OnTarget] == (if k == Shot(true) then 1 else 0) && c[Fouls] == (if k.Foul? then 1 else 0)
      && c[Yellows] == (if k.Yellow? then 1 else 0) && c[Reds] == (if k.Red? then 1 else 0)
  {
  }

  lemma CoveredSnoc(p: seq<MatchEvent>, e: MatchEvent, team: string, mine: bool)
    requires Covered(p, team, mine) && PairedAt(p + [e], |p|)
    ensures Covered(p + [e], team, mine)
  {
    WorthSnoc(p, e, team, mine);
    hide Worth, KindOf, Credit;
    var h := p + [e];
    assert h[|h| - 1] == e && (p != [] ==> h[|p| - 1] == p[|p| - 1]);
    CreditByKind(e);
    if CreditedHome(e, team) == mine {
      assert Worth(h, team, mine) == Worth(p, team, mine) + Credit(e);
    } else {
      assert Worth(h, team, mine) == Worth(p, team, mine);
    }
  }

  lemma {:induction false} PairedIsCovered(g: seq<MatchEvent>, team: string, mine: bool)
    requires Paired(g)
    ensures Covered(g, team, mine)
  {
    if g != [] {
      var p, e := g[..|g| - 1], g[|g| - 1];
      assert g == p + [e];
      PairedPrefix(g, |g| - 1);
      PairedIsCovered(p, team, mine);
      assert PairedAt(g, |g| - 1);
      CoveredSnoc(p, e, team, mine);
    }
  }

  /** Each side's goals are among its on-target shots, those among its shots, and its yellow cards
      among its fouls. */
  predicate Plausible(c: Counters) {
    c.goals <= c.onTarget <= c.shots && c.yellows <= c.fouls && c.reds == 0
  }

  /** Each side of a record is worth what its events are. */
  lemma SidesOfFold(matchID: string, h: seq<MatchEvent>, stat: Stat)
    ensures Fold(matchID, h).home.Get(stat) == Worth(h, FirstTeam(h), true)[stat]
    ensures Fold(matchID, h).away.Get(stat) == Worth(h, FirstTeam(h), false)[stat]
  {
    hide Fold, Count, CountFor;
    OnTargetShotsAreShots(h, FirstTeam(h));
    ClosedForm(matchID, h, stat);
  }

  predicate PlausibleWorth(c: multiset<Stat>) {
    c[Goals] <= c[OnTarget] <= c[Shots] && c[Yellows] <= c[Fouls] && c[Reds] == 0
  }

  lemma PlausibleSides(matchID: string, h: seq<MatchEvent>)
    ensures Plausible(Fold(matchID, h).home) <==> PlausibleWorth(Worth(h, FirstTeam(h), true))
    ensures Plausible(Fold(matchID, h).away) <==> PlausibleWorth(Worth(h, FirstTeam(h), false))
  {
    hide Fold, Worth;
    forall stat
      ensures Fold(matchID, h).home.Get(stat) == Worth(h, FirstTeam(h), true)[stat]
      ensures Fold(matchID, h).away.Get(stat) == Worth(h, FirstTeam(h), false)[stat]
    {
      SidesOfFold(matchID, h, stat);
    }
    var home, away := Fold(matchID, h).home, Fold(matchID, h).away;
    assert home.Get(Goals) == home.goals && home.Get(OnTarget) == home.onTarget && home.Get(Shots) == home.shots;
    assert home.Get(Yellows) == home.yellows && home.Get(Fouls) == home.fouls && home.Get(Reds) == home.reds;
    assert away.Get(Goals) == away.goals && away.Get(OnTarget) == away.onTarget && away.Get(Shots) == away.shots;
    assert away.Get(Yellows) == away.yellows && away.Get(Fouls) == away.fouls && away.Get(Reds) == away.reds;
  }

  /** After every prefix of a simulated match delivered whole and in order, both sides' counters are
      plausible. */
  lemma SimulatedMatchIsPlausible(matchID: string, g: seq<MatchEvent>, n: nat)
    requires Paired(g) && n <= |g|
    ensures Plausible(Fold(matchID, g[..n]).home) && Plausible(Fold(matchID, g[..n]).away)
  {
    hide Fold, Worth;
    var h := g[..n];
    PairedPrefix(g, n);
    PairedIsCovered(h, FirstTeam(h), true);
    PairedIsCovered(h, FirstTeam(h), false);
    PlausibleSides(matchID, h);
  }

  // ----- the generator

  /** The injected sources: random numbers, IDs, of which the first MATCH_MINUTES * MAX_EVENTS_PER_MINUTE
      are fresh, and the clock. */
  datatype Sources = Sources(units: nat -> real, picks: nat -> nat, ids: nat -> string, clock: nat -> string)
  {
    ghost predicate Valid() {
      && (forall i :: 0.0 <= units(i) < 1.0)
      && (forall i :: ValidateEventID(ids(i)) == ValidID && clock(i) != "")
      && (forall i, j :: 0 <= i < j < MATCH_MINUTES * MAX_EVENTS_PER_MINUTE ==> ids(i) != ids(j))
    }
  }

  function NumberedID(i: nat): string {
    "evt-" + Hex([i / 256 % 256, i % 256])
  }

  /** Some sources: even chances, numbered IDs and a stopped clock. */
  const EVEN_SOURCES := Sources((i: nat) => 0.5, (i: nat) => i, NumberedID, (i: nat) => "now")

  lemma SourcesExist()
    ensures EVEN_SOURCES.Valid()
  {
    hide ValidateEventID;
    forall i: nat ensures ValidateEventID(EVEN_SOURCES.ids(i)) == ValidID {
      HexIDIsValid([i / 256 % 256, i % 256]);
    }
    forall i: nat, j: nat | i < j < MATCH_MINUTES * MAX_EVENTS_PER_MINUTE ensures EVEN_SOURCES.ids(i) != EVEN_SOURCES.ids(j) {
      var a, b := [i / 256 % 256, i % 256], [j / 256 % 256, j % 256];
      assert a[0] != b[0] || a[1] != b[1];
      if "evt-" + Hex(a) == "evt-" + Hex(b) {
        GeneratedIDsAreInjective(a, b);
      }
    }
  }

  datatype Squads = Squads(matchID: string, homeTeam: string, awayTeam: string, homePlayers: seq<string>, awayPlayers: seq<string>)
  {
    predicate Valid() {
      matchID != "" && homePlayers != [] && awayPlayers != []
    }
  }

  /** What the events count as, one by one. */
  function Kinds(events: seq<MatchEvent>): seq<Kind> {
    if events == [] then [] else Kinds(events[..|events| - 1]) + [KindOf(events[|events| - 1])]
  }

  lemma {:induction false} KindsConcat(g: seq<MatchEvent>, h: seq<MatchEvent>)
    ensures Kinds(g + h) == Kinds(g) + Kinds(h)
  {
    hide KindOf;
    if h == [] {
      assert g + h == g;
    } else {
      KindsConcat(g, h[..|h| - 1]);
      assert (g + h)[..|g + h| - 1] == g + h[..|h| - 1];
    }
  }

  lemma KindsOfFew(e: seq<MatchEvent>)
    requires |e| <= 2
    ensures Kinds(e) == if |e| == 0 then [] else if |e| == 1 then [KindOf(e[0])] else [KindOf(e[0]), KindOf(e[1])]
  {
    hide KindOf;
    if |e| == 2 {
      assert Kinds(e[..1]) == [KindOf(e[0])];
    }
  }

  lemma KindsOfThree(a: seq<MatchEvent>, c: seq<MatchEvent>, x: seq<MatchEvent>, p: seq<Kind>, q: seq<Kind>, r: seq<Kind>)
    requires Kinds(a) == p && Kinds(c) == q && Kinds(x) == r
    ensures Kinds(a + c + x) == p + q + r
  {
    KindsConcat(a + c, x);
    KindsConcat(a, c);
    hide Kinds;
  }

  /** What the sources dictate, from the d-th random number and the k-th ID on. */
  datatype Screenplay = Screenplay(src: Sources, squads: Squads)
  {
    ghost predicate Valid() {
      src.Valid() && squads.Valid()
    }

    function Team(d: nat): string {
      if src.units(d) < 0.5 then squads.homeTeam else squads.awayTeam
    }

    function Player(d: nat): string
      requires squads.Valid()
    {
      var players := if src.units(d) < 0.5 then squads.homePlayers else squads.awayPlayers;
      players[src.picks(d + 1) % |players|]
    }

    function Event(k: nat, minute: nat, eventType: string, d: nat, x: real, y: real, detail: string): MatchEvent
      requires squads.Valid()
    {
      MatchEvent(src.ids(k), squads.matchID, minute, eventType, Team(d), Player(d), x, y, detail, src.clock(k))
    }

    /** A shot, and the goal it may become. */
    function Attack(d: nat, k: nat, minute: nat): seq<MatchEvent>
      requires squads.Valid()
    {
      if src.units(d) < 0.33 then
        var onTarget := src.units(d + 3) < 0.4;
        var depth := 75.0 + src.units(d + 4) * 25.0;
        var x, y := if Team(d + 1) == squads.awayTeam then 100.0 - depth else depth, 20.0 + src.units(d + 5) * 60.0;
        var shot := Event(k, minute, "shot", d + 1, x, y, if onTarget then "on_target" else "off_target");
        if onTarget && src.units(d + 6) < 0.25 then [shot, Event(k + 1, minute, "goal", d + 1, x, y, "open_play")]
        else [shot]
      else []
    }

    function AttackDraws(d: nat): nat {
      if src.units(d) < 0.33 then if src.units(d + 3) < 0.4 then 7 else 6 else 1
    }

    /** A foul, and the yellow card it may draw. */
    function Challenge(d: nat, k: nat, minute: nat): seq<MatchEvent>
      requires squads.Valid()
    {
      if src.units(d) < 0.28 then
        var foul := Event(k, minute, "foul", d + 1, src.units(d + 3) * 100.0, src.units(d + 4) * 100.0, "");
        if src.units(d + 5) < 0.15
        then [foul, Event(k + 1, minute, "card", d + 1, src.units(d + 6) * 100.0, src.units(d + 7) * 100.0, "yellow")]
        else [foul]
      else []
    }

    function ChallengeDraws(d: nat): nat {
      if src.units(d) < 0.28 then if src.units(d + 5) < 0.15 then 8 else 6 else 1
    }

    function Corner(d: nat, k: nat, minute: nat): seq<MatchEvent>
      requires squads.Valid()
    {
      if src.units(d) < 0.11 then [Event(k, minute, "corner", d + 1, 100.0, 0.0, "")] else []
    }

    function CornerDraws(d: nat): nat {
      if src.units(d) < 0.11 then 3 else 1
    }

    function Minute(d: nat, k: nat, minute: nat): seq<MatchEvent>
      requires squads.Valid()
    {
      var a := Attack(d, k, minute);
      var d' := d + AttackDraws(d);
      var c := Challenge(d', k + |a|, minute);
      a + c + Corner(d' + ChallengeDraws(d'), k + |a| + |c|, minute)
    }

    function MinuteDraws(d: nat): nat {
      var d' := d + AttackDraws(d);
      var d'' := d' + ChallengeDraws(d');
      AttackDraws(d) + ChallengeDraws(d') + CornerDraws(d'')
    }

    /** The first n minutes, and where they leave the random numbers. */
    function Minutes(d: nat, k: nat, n: nat): seq<MatchEvent>
      requires squads.Valid()
    {
      if n == 0 then [] else Minutes(d, k, n - 1) + Minute(DrawsAfter(d, n - 1), k + |Minutes(d, k, n - 1)|, n)
    }

    function DrawsAfter(d: nat, n: nat): nat {
      if n == 0 then d else DrawsAfter(d, n - 1) + MinuteDraws(DrawsAfter(d, n - 1))
    }

    lemma NothingPlayed(d: nat, k: nat)
      requires squads.Valid()
      ensures Minutes(d, k, 0) == [] && DrawsAfter(d, 0) == d
    {
    }

    lemma NextMinute(d: nat, k: nat, n: nat)
      requires squads.Valid() && n > 0
      ensures var before, d' := Minutes(d, k, n - 1), DrawsAfter(d, n - 1);
        Minutes(d, k, n) == before + Minute(d', k + |before|, n) && DrawsAfter(d, n) == d' + MinuteDraws(d')
    {
      hide Minute, MinuteDraws;
    }

    lemma {:induction false} MinutesGrow(d: nat, k: nat, n: nat, n': nat)
      requires squads.Valid() && n <= n'
      ensures Minutes(d, k, n) <= Minutes(d, k, n')
      decreases n'
    {
      hide Minute;
      if n < n' {
        MinutesGrow(d, k, n, n' - 1);
      }
    }

    // ----- what holds of every script

    /** These events carry the k-th and following IDs. */
    ghost predicate Makes(events: seq<MatchEvent>, k: nat) {
      forall i :: 0 <= i < |events| ==>
        events[i].eventID == src.ids(k + i) && events[i].matchID == squads.matchID && Complete(events[i])
    }

    lemma EventsAreComplete(k: nat, minute: nat, eventType: string, d: nat, x: real, y: real, detail: string)
      requires Valid() && eventType != ""
      ensures Complete(Event(k, minute, eventType, d, x, y, detail))
    {
    }

    lemma AttackIsPaired(d: nat, k: nat, minute: nat)
      requires Valid()
      ensures var a := Attack(d, k, minute); Makes(a, k) && Paired(a) && |a| <= 2
    {
      hide ValidateEventID;
      var a := Attack(d, k, minute);
      forall i | 0 <= i < |a| ensures PairedAt(a, i) && Complete(a[i]) {
        EventsAreComplete(k + i, minute, a[i].eventType, d + 1, a[i].x, a[i].y, a[i].detail);
      }
    }

    lemma ChallengeIsPaired(d: nat, k: nat, minute: nat)
      requires Valid()
      ensures var c := Challenge(d, k, minute); Makes(c, k) && Paired(c) && |c| <= 2
    {
      hide ValidateEventID;
      var c := Challenge(d, k, minute);
      forall i | 0 <= i < |c| ensures PairedAt(c, i) && Complete(c[i]) {
        EventsAreComplete(k + i, minute, c[i].eventType, d + 1, c[i].x, c[i].y, c[i].detail);
      }
    }

    lemma CornerIsPaired(d: nat, k: nat, minute: nat)
      requires Valid()
      ensures var c := Corner(d, k, minute); Makes(c, k) && Paired(c) && |c| <= 1
    {
      hide ValidateEventID;
      var c := Corner(d, k, minute);
      forall i | 0 <= i < |c| ensures PairedAt(c, i) && Complete(c[i]) {
        EventsAreComplete(k + i, minute, c[i].eventType, d + 1, c[i].x, c[i].y, c[i].detail);
      }
    }

    lemma MakesConcat(g: seq<MatchEvent>, k: nat, h: seq<MatchEvent>)
      requires Makes(g, k) && Makes(h, k + |g|)
      ensures Makes(g + h, k)
    {
      hide Complete;
    }

    /** A minute brings at most five events, each complete, under fresh IDs, and paired. */
    lemma MinuteIsPaired(d: nat, k: nat, minute: nat)
      requires Valid()
      ensures var e := Minute(d, k, minute); Makes(e, k) && Paired(e) && |e| <= MAX_EVENTS_PER_MINUTE
    {
      hide Attack, Challenge, Corner, Makes, Paired;
      var a, d' := Attack(d, k, minute), d + AttackDraws(d);
      var c, d'' := Challenge(d', k + |a|, minute), d' + ChallengeDraws(d');
      var x := Corner(d'', k + |a| + |c|, minute);
      AttackIsPaired(d, k, minute);
      ChallengeIsPaired(d', k + |a|, minute);
      CornerIsPaired(d'', k + |a| + |c|, minute);
      MakesConcat(a, k, c);
      MakesConcat(a + c, k, x);
      PairedConcat(a, c);
      PairedConcat(a + c, x);
    }

    lemma NothingMade(k: nat)
      ensures Makes([], k) && Paired([])
    {
    }

    /** So does a match, with at most five events a minute. */
    lemma {:induction false} MinutesArePaired(d: nat, k: nat, n: nat)
      requires Valid()
      ensures var e := Minutes(d, k, n); Makes(e, k) && Paired(e) && |e| <= n * MAX_EVENTS_PER_MINUTE
    {
      hide Minute, Makes, Paired;
      if n == 0 {
        NothingMade(k);
      } else {
        MinutesArePaired(d, k, n - 1);
        var before := Minutes(d, k, n - 1);
        var e := Minute(DrawsAfter(d, n - 1), k + |before|, n);
        MinuteIsPaired(DrawsAfter(d, n - 1), k + |before|, n);
        MakesConcat(before, k, e);
        PairedConcat(before, e);
      }
    }

    /** A shot or a goal comes from the attacking third of its side, anything else from the pitch. */
    predicate Spotted(e: MatchEvent) {
      && 0.0 <= e.x <= 100.0 && 0.0 <= e.y <= 100.0
      && (e.eventType == "shot" || e.eventType == "goal" ==>
            (if e.team == squads.awayTeam then e.x <= 25.0 else e.x >= 75.0) && 20.0 <= e.y <= 80.0)
    }

    predicate AllSpotted(events: seq<MatchEvent>) {
      forall i :: 0 <= i < |events| ==> Spotted(events[i])
    }

    lemma AttackIsSpotted(d: nat, k: nat, minute: nat)
      requires Valid()
      ensures AllSpotted(Attack(d, k, minute))
    {
      hide ValidateEventID;
    }

    lemma ChallengeIsSpotted(d: nat, k: nat, minute: nat)
      requires Valid()
      ensures AllSpotted(Challenge(d, k, minute))
    {
      hide ValidateEventID;
    }

    lemma CornerIsSpotted(d: nat, k: nat, minute: nat)
      requires Valid()
      ensures AllSpotted(Corner(d, k, minute))
    {
    }

    lemma SpottedConcat(g: seq<MatchEvent>, h: seq<MatchEvent>)
      requires AllSpotted(g) && AllSpotted(h)
      ensures AllSpotted(g + h)
    {
      hide Spotted;
    }

    lemma MinuteIsSpotted(d: nat, k: nat, minute: nat)
      requires Valid()
      ensures AllSpotted(Minute(d, k, minute))
    {
      hide Attack, Challenge, Corner, AllSpotted;
      var a, d' := Attack(d, k, minute), d + AttackDraws(d);
      var c, d'' := Challenge(d', k + |a|, minute), d' + ChallengeDraws(d');
      AttackIsSpotted(d, k, minute);
      ChallengeIsSpotted(d', k + |a|, minute);
      CornerIsSpotted(d'', k + |a| + |c|, minute);
      SpottedConcat(a, c);
      SpottedConcat(a + c, Corner(d'', k + |a| + |c|, minute));
    }

    // ----- what the random numbers mean

    /** The player picked is one of the team picked. */
    lemma PlayerIsOfTeam(d: nat)
      requires squads.Valid()
      ensures src.units(d) < 0.5 ==> Team(d) == squads.homeTeam && Player(d) == squads.homePlayers[src.picks(d + 1) % |squads.homePlayers|]
      ensures src.units(d) >= 0.5 ==> Team(d) == squads.awayTeam && Player(d) == squads.awayPlayers[src.picks(d + 1) % |squads.awayPlayers|]
      ensures (Team(d) == squads.homeTeam && Player(d) in squads.homePlayers) || (Team(d) == squads.awayTeam && Player(d) in squads.awayPlayers)
    {
    }

    lemma AttackIsDictated(d: nat, k: nat, minute: nat)
      requires squads.Valid()
      ensures var u, a := src.units, Attack(d, k, minute);
        && AttackDraws(d) == (if u(d) >= 0.33 then 1 else if u(d + 3) < 0.4 then 7 else 6)
        && |a| == (if u(d) >= 0.33 then 0 else if u(d + 3) < 0.4 && u(d + 6) < 0.25 then 2 else 1)
        && (|a| >= 1 ==>
              && a[0].eventType == "shot" && a[0].detail == (if u(d + 3) < 0.4 then "on_target" else "off_target")
              && a[0].minute == minute && a[0].team == Team(d + 1) && a[0].player == Player(d + 1)
              && a[0].x == (if a[0].team == squads.awayTeam then 25.0 - u(d + 4) * 25.0 else 75.0 + u(d + 4) * 25.0)
              && a[0].y == 20.0 + u(d + 5) * 60.0)
        && (|a| == 2 ==> a[1] == a[0].(eventType := "goal", detail := "open_play", eventID := a[1].eventID, timestamp := a[1].timestamp))
    {
      hide Team, Player;
    }

    lemma ChallengeIsDictated(d: nat, k: nat, minute: nat)
      requires squads.Valid()
      ensures var u, c := src.units, Challenge(d, k, minute);
        && ChallengeDraws(d) == (if u(d) >= 0.28 then 1 else if u(d + 5) < 0.15 then 8 else 6)
        && |c| == (if u(d) >= 0.28 then 0 else if u(d + 5) < 0.15 then 2 else 1)
        && (|c| >= 1 ==>
              && c[0].eventType == "foul" && c[0].detail == ""
              && c[0].minute == minute && c[0].team == Team(d + 1) && c[0].player == Player(d + 1)
              && c[0].x == u(d + 3) * 100.0 && c[0].y == u(d + 4) * 100.0)
        && (|c| == 2 ==>
              c[1] == c[0].(eventType := "card", detail := "yellow", x := u(d + 6) * 100.0, y := u(d + 7) * 100.0,
                            eventID := c[1].eventID, timestamp := c[1].timestamp))
    {
      hide Team, Player;
    }

    lemma CornerIsDictated(d: nat, k: nat, minute: nat)
      requires squads.Valid()
      ensures var c := Corner(d, k, minute);
        && CornerDraws(d) == (if src.units(d) < 0.11 then 3 else 1)
        && |c| == (if src.units(d) < 0.11 then 1 else 0)
        && (|c| == 1 ==>
              && c[0].eventType == "corner" && c[0].detail == "" && c[0].x == 100.0 && c[0].y == 0.0
              && c[0].minute == minute && c[0].team == Team(d + 1) && c[0].player == Player(d + 1))
    {
      hide Team, Player;
    }

    /** What the dice from the d-th on say: a shot, its aim, and the goal of an aimed one. */
    function AttackDice(d: nat): seq<Kind> {
      (if src.units(d) < 0.33 then [Shot(src.units(d + 3) < 0.4)] else [])
      + (if src.units(d) < 0.33 && src.units(d + 3) < 0.4 && src.units(d + 6) < 0.25 then [Goal] else [])
    }

    /** A foul, and the card it draws. */
    function ChallengeDice(d: nat): seq<Kind> {
      (if src.units(d) < 0.28 then [Foul] else []) + (if src.units(d) < 0.28 && src.units(d + 5) < 0.15 then [Yellow] else [])
    }

    function CornerDice(d: nat): seq<Kind> {
      if src.units(d) < 0.11 then [Kind.Corner] else []
    }

    lemma AttackKinds(d: nat, k: nat, minute: nat)
      requires squads.Valid()
      ensures Kinds(Attack(d, k, minute)) == AttackDice(d)
    {
      AttackIsDictated(d, k, minute);
      hide Attack, Team, Player, Kinds;
      KindsOfFew(Attack(d, k, minute));
    }

    lemma ChallengeKinds(d: nat, k: nat, minute: nat)
      requires squads.Valid()
      ensures Kinds(Challenge(d, k, minute)) == ChallengeDice(d)
    {
      ChallengeIsDictated(d, k, minute);
      hide Challenge, Team, Player, Kinds;
      KindsOfFew(Challenge(d, k, minute));
    }

    lemma CornerKinds(d: nat, k: nat, minute: nat)
      requires squads.Valid()
      ensures Kinds(Corner(d, k, minute)) == CornerDice(d)
    {
    }

    lemma MinuteHasParts(d: nat, k: nat, minute: nat)
      requires squads.Valid()
      ensures var d1 := d + AttackDraws(d);
        var d2 := d1 + ChallengeDraws(d1);
        var a, c := Attack(d, k, minute), Challenge(d1, k + |Attack(d, k, minute)|, minute);
        && Minute(d, k, minute) == a + c + Corner(d2, k + |a| + |c|, minute)
        && MinuteDraws(d) == d2 + CornerDraws(d2) - d
    {
      hide Attack, Challenge, Corner, AttackDraws, ChallengeDraws, CornerDraws;
    }

    lemma MinuteKinds(d: nat, k: nat, minute: nat)
      requires squads.Valid()
      ensures var d1 := d + AttackDraws(d);
        Kinds(Minute(d, k, minute)) == AttackDice(d) + ChallengeDice(d1) + CornerDice(d1 + ChallengeDraws(d1))
    {
      hide *;
      var d1 := d + AttackDraws(d);
      var d2 := d1 + ChallengeDraws(d1);
      var a := Attack(d, k, minute);
      var c := Challenge(d1, k + |a|, minute);
      var x := Corner(d2, k + |a| + |c|, minute);
      MinuteHasParts(d, k, minute);
      AttackKinds(d, k, minute);
      ChallengeKinds(d1, k + |a|, minute);
      CornerKinds(d2, k + |a| + |c|, minute);
      KindsOfThree(a, c, x, AttackDice(d), ChallengeDice(d1), CornerDice(d2));
    }

    /** What happens in a minute, and in which order: each part at its place in the stream of random
        numbers, which depends on how many the parts before used up. */
    lemma MinuteIsDictated(d: nat, k: nat, minute: nat)
      requires squads.Valid()
      ensures var u := src.units;
        var d1 := d + if u(d) >= 0.33 then 1 else if u(d + 3) < 0.4 then 7 else 6;
        var d2 := d1 + if u(d1) >= 0.28 then 1 else if u(d1 + 5) < 0.15 then 8 else 6;
        && Kinds(Minute(d, k, minute)) == AttackDice(d) + ChallengeDice(d1) + CornerDice(d2)
        && MinuteDraws(d) == d2 - d + if u(d2) < 0.11 then 3 else 1
    {
      MinuteKinds(d, k, minute);
      MinuteHasParts(d, k, minute);
      hide Minute, MinuteDraws, Attack, Challenge, Corner, AttackDice, ChallengeDice, CornerDice, Kinds;
    }

    /** Of this minute, with a player of the squad of its team. */
    predicate Fielded(e: MatchEvent, minute: nat) {
      && e.minute == minute
      && ((e.team == squads.homeTeam && e.player in squads.homePlayers) || (e.team == squads.awayTeam && e.player in squads.awayPlayers))
    }

    lemma AttackIsFielded(d: nat, k: nat, minute: nat)
      requires squads.Valid()
      ensures forall e :: e in Attack(d, k, minute) ==> Fielded(e, minute)
    {
      AttackIsDictated(d, k, minute);
      hide Attack, Team, Player;
      PlayerIsOfTeam(d + 1);
    }

    lemma ChallengeIsFielded(d: nat, k: nat, minute: nat)
      requires squads.Valid()
      ensures forall e :: e in Challenge(d, k, minute) ==> Fielded(e, minute)
    {
      ChallengeIsDictated(d, k, minute);
      hide Challenge, Team, Player;
      PlayerIsOfTeam(d + 1);
    }

    lemma CornerIsFielded(d: nat, k: nat, minute: nat)
      requires squads.Valid()
      ensures forall e :: e in Corner(d, k, minute) ==> Fielded(e, minute)
    {
      CornerIsDictated(d, k, minute);
      hide Corner, Team, Player;
      PlayerIsOfTeam(d + 1);
    }

    lemma MinuteIsFielded(d: nat, k: nat, minute: nat)
      requires squads.Valid()
      ensures forall e :: e in Minute(d, k, minute) ==> Fielded(e, minute)
    {
      hide Attack, Challenge, Corner, AttackDraws, ChallengeDraws, Fielded;
      var a, d' := Attack(d, k, minute), d + AttackDraws(d);
      var c, d'' := Challenge(d', k + |a|, minute), d' + ChallengeDraws(d');
      AttackIsFielded(d, k, minute);
      ChallengeIsFielded(d', k + |a|, minute);
      CornerIsFielded(d'', k + |a| + |c|, minute);
    }

    predicate InOrder(g: seq<MatchEvent>, n: nat) {
      && (forall i :: 0 <= i < |g| ==> 1 <= g[i].minute <= n && Fielded(g[i], g[i].minute))
      && (forall i, j :: 0 <= i < j < |g| ==> g[i].minute <= g[j].minute)
    }

    lemma OrderGrows(g: seq<MatchEvent>, h: seq<MatchEvent>, n: nat)
      requires n > 0 && InOrder(g, n - 1) && forall e :: e in h ==> Fielded(e, n)
      ensures InOrder(g + h, n)
    {
      var all := g + h;
      forall i | 0 <= i < |h| ensures Fielded(h[i], n) {
        assert h[i] in h;
      }
      forall i | 0 <= i < |all| ensures 1 <= all[i].minute <= n && Fielded(all[i], all[i].minute) {
        assert all[i] == if i < |g| then g[i] else h[i - |g|];
      }
      forall i, j | 0 <= i < j < |all| ensures all[i].minute <= all[j].minute {
        assert all[i] == if i < |g| then g[i] else h[i - |g|];
        assert all[j] == if j < |g| then g[j] else h[j - |g|];
      }
    }

    lemma {:induction false} MinutesAreInOrder(d: nat, k: nat, n: nat)
      requires squads.Valid()
      ensures InOrder(Minutes(d, k, n), n)
    {
      hide Minute, InOrder, Fielded;
      if n == 0 {
        NothingPlayed(d, k);
        NothingInOrder();
      } else {
        var before := Minutes(d, k, n - 1);
        MinutesAreInOrder(d, k, n - 1);
        MinuteIsFielded(DrawsAfter(d, n - 1), k + |before|, n);
        NextMinute(d, k, n);
        OrderGrows(before, Minute(DrawsAfter(d, n - 1), k + |before|, n), n);
      }
    }

    lemma NothingInOrder()
      ensures InOrder([], 0)
    {
    }

    /** In a match of n minutes the events come in the order of their minutes, which are 1 to n, and each
        player belongs to the squad of the event's team. */
    lemma MatchIsFielded(d: nat, k: nat, n: nat)
      requires squads.Valid()
      ensures var g := Minutes(d, k, n);
        && (forall i :: 0 <= i < |g| ==> 1 <= g[i].minute <= n)
        && (forall i, j :: 0 <= i < j < |g| ==> g[i].minute <= g[j].minute)
        && (forall i :: 0 <= i < |g| ==>
              || (g[i].team == squads.homeTeam && g[i].player in squads.homePlayers)
              || (g[i].team == squads.awayTeam && g[i].player in squads.awayPlayers))
    {
      MinutesAreInOrder(d, k, n);
      hide Minutes;
    }

    /** Over the whole match: all events lie on the pitch, shots and goals in the attacking third of the
        side that takes them. */
    lemma {:induction false} MatchIsSpotted(d: nat, k: nat, n: nat)
      requires Valid()
      ensures AllSpotted(Minutes(d, k, n))
    {
      hide Minute, Spotted;
      if n > 0 {
        var before := Minutes(d, k, n - 1);
        MatchIsSpotted(d, k, n - 1);
        MinuteIsSpotted(DrawsAfter(d, n - 1), k + |before|, n);
        SpottedConcat(before, Minute(DrawsAfter(d, n - 1), k + |before|, n));
      }
    }
  }

  class MatchSimulator {
    const script: Screenplay
    var draws: nat
    var made: nat

    constructor (src: Sources, squads: Squads)
      requires src.Valid() && squads.Valid()
      ensures script.Valid() && draws == 0 && made == 0 && script == Screenplay(src, squads)
    {
      script, draws, made := Screenplay(src, squads), 0, 0;
    }

    method Float64() returns (x: real)
      modifies `draws
      ensures draws == old(draws) + 1 && x == script.src.units(old(draws))
    {
      x, draws := script.src.units(draws), draws + 1;
    }

    method Intn(n: nat) returns (k: nat)
      requires n > 0
      modifies `draws
      ensures draws == old(draws) + 1 && k == script.src.picks(old(draws)) % n < n
    {
      k, draws := script.src.picks(draws) % n, draws + 1;
    }

    method PickTeamAndPlayer() returns (team: string, player: string)
      requires script.squads.Valid()
      modifies `draws
      ensures draws == old(draws) + 2 && team == script.Team(old(draws)) && player == script.Player(old(draws))
    {
      var squads := script.squads;
      var toss := Float64();
      if toss < 0.5 {
        var k := Intn(|squads.homePlayers|);
        return squads.homeTeam, squads.homePlayers[k];
      }
      var k := Intn(|squads.awayPlayers|);
      return squads.awayTeam, squads.awayPlayers[k];
    }

    /** An event under a fresh ID, for the team and player picked at the d-th random number. */
    method NewEvent(minute: nat, eventType: string, team: string, player: string, x: real, y: real, detail: string, ghost d: nat)
      returns (e: MatchEvent)
      requires script.squads.Valid() && team == script.Team(d) && player == script.Player(d)
      modifies `made
      ensures made == old(made) + 1 && e == script.Event(old(made), minute, eventType, d, x, y, detail)
    {
      e := MatchEvent(script.src.ids(made), script.squads.matchID, minute, eventType, team, player, x, y, detail, script.src.clock(made));
      made := made + 1;
    }

    method GenerateAttack(minute: nat) returns (events: seq<MatchEvent>)
      requires script.squads.Valid()
      modifies this
      ensures events == script.Attack(old(draws), old(made), minute)
      ensures made == old(made) + |events| && draws == old(draws) + script.AttackDraws(old(draws))
    {
      hide Screenplay.Player, Screenplay.Event;
      events := [];
      var chance := Float64();
      if chance < 0.33 {
        ghost var d := draws;
        var team, player := PickTeamAndPlayer();
        var onTarget := "off_target";
        var aim := Float64();
        if aim < 0.4 {
          onTarget := "on_target";
        }
        var depth := Float64();
        var x := 75.0 + depth * 25.0;
        var width := Float64();
        var y := 20.0 + width * 60.0;
        if team == script.squads.awayTeam {
          x := 100.0 - x;
        }
        var shot := NewEvent(minute, "shot", team, player, x, y, onTarget, d);
        events := events + [shot];
        if onTarget == "on_target" {
          var luck := Float64();
          if luck < 0.25 {
            var goal := NewEvent(minute, "goal", team, player, x, y, "open_play", d);
            events := events + [goal];
          }
        }
      }
    }

    method GenerateChallenge(minute: nat) returns (events: seq<MatchEvent>)
      requires script.squads.Valid()
      modifies this
      ensures events == script.Challenge(old(draws), old(made), minute)
      ensures made == old(made) + |events| && draws == old(draws) + script.ChallengeDraws(old(draws))
    {
      hide Screenplay.Team, Screenplay.Player, Screenplay.Event;
      events := [];
      var chance := Float64();
      if chance < 0.28 {
        ghost var d := draws;
        var team, player := PickTeamAndPlayer();
        var x := Float64();
        var y := Float64();
        var foul := NewEvent(minute, "foul", team, player, x * 100.0, y * 100.0, "", d);
        events := events + [foul];
        var severity := Float64();
        if severity < 0.15 {
          x := Float64();
          y := Float64();
          var card := NewEvent(minute, "card", team, player, x * 100.0, y * 100.0, "yellow", d);
          events := events + [card];
        }
      }
    }

    method GenerateCorner(minute: nat) returns (events: seq<MatchEvent>)
      requires script.squads.Valid()
      modifies this
      ensures events == script.Corner(old(draws), old(made), minute)
      ensures made == old(made) + |events| && draws == old(draws) + script.CornerDraws(old(draws))
    {
      hide Screenplay.Team, Screenplay.Player, Screenplay.Event;
      events := [];
      var chance := Float64();
      if chance < 0.11 {
        ghost var d := draws;
        var team, player := PickTeamAndPlayer();
        var corner := NewEvent(minute, "corner", team, player, 100.0, 0.0, "", d);
        events := events + [corner];
      }
    }

    method GenerateMinuteEvents(minute: nat) returns (events: seq<MatchEvent>)
      requires script.squads.Valid()
      modifies this
      ensures events == script.Minute(old(draws), old(made), minute)
      ensures made == old(made) + |events| && draws == old(draws) + script.MinuteDraws(old(draws))
      ensures forall e :: e in events ==>
        && e.minute == minute
        && ((e.team == script.squads.homeTeam && e.player in script.squads.homePlayers)
            || (e.team == script.squads.awayTeam && e.player in script.squads.awayPlayers))
    {
      hide Screenplay.Attack, Screenplay.Challenge, Screenplay.Corner;
      hide Screenplay.AttackDraws, Screenplay.ChallengeDraws, Screenplay.CornerDraws;
      events := GenerateAttack(minute);
      var fouls := GenerateChallenge(minute);
      events := events + fouls;
      var corners := GenerateCorner(minute);
      events := events + corners;
      assert events == script.Minute(old(draws), old(made), minute);
      hide Screenplay.Minute;
      script.MinuteIsFielded(old(draws), old(made), minute);
    }

    // ----- the match

    /** Sends events one after the other until the context is cancelled. An event that cannot be
        delivered is passed over. */
    method SendAll(ctx: Context, api: EventAPI, events: seq<MatchEvent>, net: nat -> seq<Attempt>, from: nat)
      returns (ends: seq<Ending>, ghost copies: seq<nat>)
      requires api.Valid() && Reachable(net) && forall i :: 0 <= i < |events| ==> Complete(events[i])
      modifies ctx, api
      ensures api.Valid() && |copies| == |ends| <= |events| && (|ends| < |events| ==> ctx.Cancelled())
      ensures forall i :: 0 <= i < |ends| ==> Settled(events[i], net(from + i), ends[i], copies[i])
      ensures api.log == old(api.log) + Sent(events[..|ends|], copies)
    {
      hide Complete, Ends, Left, EventAPI.Valid, Repeat, Settled, Sent;
      NothingSent(net);
      ends, copies := [], [];
      for i := 0 to |events|
        invariant api.Valid() && |copies| == |ends| == i
        invariant api.log == old(api.log) + Sent(events[..i], copies)
        invariant forall k :: 0 <= k < i ==> Settled(events[k], net(from + k), ends[k], copies[k])
      {
        var end, pauses := SendWithRetry(ctx, api, events[i], net(from + i));
        ghost var added := Copies(events[i], net(from + i), end);
        SentSnoc(events[..i], copies, events[i], added);
        assert events[..i + 1] == events[..i] + [events[i]];
        ends := ends + [end];
        copies := copies + [added];
        if !end.result.Delivered? {
          var cancelled := ctx.Poll();
          if cancelled {
            return;
          }
        }
      }
      assert events[..|events|] == events;
    }

    method PlayMinute(minute: nat, ctx: Context, api: EventAPI, net: nat -> seq<Attempt>, from: nat)
      returns (tried: seq<MatchEvent>, ends: seq<Ending>, ghost copies: seq<nat>)
      requires script.Valid() && api.Valid() && Reachable(net)
      modifies this, ctx, api
      ensures var events := script.Minute(old(draws), old(made), minute);
        && tried <= events && (!ctx.Cancelled() ==> tried == events)
        && made == old(made) + |events| && draws == old(draws) + script.MinuteDraws(old(draws))
      ensures api.Valid() && AllSettled(tried, net, from, ends, copies) && |tried| == |copies|
      ensures api.log == old(api.log) + Sent(tried, copies)
    {
      hide Complete, Settled, EventAPI.Valid, Sent, Screenplay.Minute, Screenplay.MinuteDraws;
      script.MinuteIsPaired(draws, made, minute);
      var events := GenerateMinuteEvents(minute);
      ends, copies := SendAll(ctx, api, events, net, from);
      tried := events[..|ends|];
    }

    /** Ninety minutes, or until the context is cancelled. What is attempted is what the sources dictate,
        in that order, and each attempt ends as its fate decides; the topic grows by the copies. */
    method Run(ctx: Context, api: EventAPI, net: nat -> seq<Attempt>)
      returns (sent: seq<MatchEvent>, ends: seq<Ending>, ghost copies: seq<nat>)
      requires script.Valid() && api.Valid() && Reachable(net)
      modifies this, ctx, api
      ensures var match_ := script.Minutes(old(draws), old(made), 90); sent <= match_ && (!ctx.Cancelled() ==> sent == match_)
      ensures old(ctx.Cancelled()) ==> sent == []
      ensures api.Valid() && AllSettled(sent, net, 0, ends, copies) && |sent| == |copies|
      ensures api.log == old(api.log) + Sent(sent, copies)
    {
      hide EventAPI.Valid, Sent, AllSettled, Reachable;
      hide Screenplay.Minute, Screenplay.Minutes, Screenplay.MinuteDraws, Screenplay.DrawsAfter;
      sent, ends, copies := [], [], [];
      script.NothingPlayed(draws, made);
      NothingSent(net);
      for minute := 1 to MATCH_MINUTES + 1
        invariant sent == script.Minutes(old(draws), old(made), minute - 1)
        invariant if minute == 1 then sent == [] && ctx.polls == old(ctx.polls) else !old(ctx.Cancelled())
        invariant made == old(made) + |sent| && draws == script.DrawsAfter(old(draws), minute - 1)
        invariant api.Valid() && |sent| == |copies| && AllSettled(sent, net, 0, ends, copies)
        invariant api.log == old(api.log) + Sent(sent, copies)
      {
        script.MinutesGrow(old(draws), old(made), minute - 1, MATCH_MINUTES);
        var cancelled := ctx.Poll();
        if cancelled {
          return;
        }
        var tried, added;
        ghost var more;
        tried, added, more := PlayMinute(minute, ctx, api, net, |sent|);
        script.NextMinute(old(draws), old(made), minute);
        script.MinutesGrow(old(draws), old(made), minute, MATCH_MINUTES);
        SentConcat(sent, copies, tried, more);
        SettledConcat(sent, net, ends, copies, tried, added, more);
        sent, ends := sent + tried, ends + added;
        copies := copies + more;
        if minute == HALF_TIME_MINUTE {
          cancelled := ctx.Poll();
          if cancelled {
            return;
          }
        }
        cancelled := ctx.Poll();
        if cancelled {
          return;
        }
      }
    }
  }

  /** Every attempt of every event has its fate. */
  ghost predicate Reachable(net: nat -> seq<Attempt>) {
    forall k :: |net(k)| == MAX_SEND_ATTEMPTS && forall i :: 0 <= i < |net(k)| ==> net(k)[i].Valid()
  }

  /** The attempts of an event ended this way and left this many copies of it, at least one if a durable
      broker took it. */
  predicate Settled(event: MatchEvent, attempts: seq<Attempt>, end: Ending, copies: nat) {
    && Ends(event, attempts, end)
    && Left(event, attempts, end.calls) == Repeat(event, copies)
    && (end.result.Delivered? && attempts[end.calls - 1].broker.Durable() ==> copies > 0)
  }

  predicate AllSettled(events: seq<MatchEvent>, net: nat -> seq<Attempt>, from: nat, ends: seq<Ending>, copies: seq<nat>) {
    |events| == |ends| == |copies| && forall i :: 0 <= i < |events| ==> Settled(events[i], net(from + i), ends[i], copies[i])
  }

  lemma SettledConcat(g: seq<MatchEvent>, net: nat -> seq<Attempt>, ends: seq<Ending>, copies: seq<nat>,
                      h: seq<MatchEvent>, ends': seq<Ending>, copies': seq<nat>)
    requires AllSettled(g, net, 0, ends, copies) && AllSettled(h, net, |g|, ends', copies')
    ensures AllSettled(g + h, net, 0, ends + ends', copies + copies')
  {
    hide Settled;
  }

  lemma Copies(event: MatchEvent, attempts: seq<Attempt>, end: Ending) returns (copies: nat)
    requires Complete(event) && Ends(event, attempts, end)
    requires forall i :: 0 <= i < |attempts| ==> attempts[i].Valid()
    ensures Settled(event, attempts, end, copies)
    ensures end.calls <= |attempts| && Left(event, attempts, end.calls) == Repeat(event, copies)
  {
    hide Left, Complete, Repeat;
    copies := RetriesOnlyRepeat(event, attempts, end.calls);
  }

  /** Copies of each event in turn. */
  function Sent(events: seq<MatchEvent>, copies: seq<nat>): seq<Message>
    requires |events| == |copies|
  {
    if events == [] then []
    else Sent(events[..|events| - 1], copies[..|copies| - 1]) + Repeat(events[|events| - 1], copies[|copies| - 1])
  }

  lemma NothingSent(net: nat -> seq<Attempt>)
    ensures Sent([], []) == [] && AllSettled([], net, 0, [], [])
  {
  }

  lemma SentSnoc(events: seq<MatchEvent>, copies: seq<nat>, e: MatchEvent, n: nat)
    requires |events| == |copies|
    ensures Sent(events + [e], copies + [n]) == Sent(events, copies) + Repeat(e, n)
  {
    assert (events + [e])[..|events|] == events && (copies + [n])[..|copies|] == copies;
  }

  lemma {:induction false} SentConcat(g: seq<MatchEvent>, c: seq<nat>, h: seq<MatchEvent>, d: seq<nat>)
    requires |g| == |c| && |h| == |d|
    ensures Sent(g + h, c + d) == Sent(g, c) + Sent(h, d)
  {
    if h == [] {
      assert g + h == g && c + d == c;
    } else {
      var n := |h| - 1;
      assert Sent(h, d) == Sent(h[..n], d[..n]) + Repeat(h[n], d[n]);
      hide Sent, Repeat;
      SentConcat(g, c, h[..n], d[..n]);
      SentSnoc(g + h[..n], c + d[..n], h[n], d[n]);
      assert g + h == g + h[..n] + [h[n]] && c + d == c + d[..n] + [d[n]];
    }
  }
}
