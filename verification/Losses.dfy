/** What events lost on the way do to a record: exactly which losses leave it plausible. */
module Losses {
  import opened Common
  import opened Aggregate
  import opened Simulator

  /** The events that reached the topic, and those that did not. */
  function Arrived(g: seq<MatchEvent>, copies: seq<nat>): seq<MatchEvent>
    requires |g| == |copies|
  {
    if g == [] then []
    else Arrived(g[..|g| - 1], copies[..|g| - 1]) + if copies[|g| - 1] > 0 then [g[|g| - 1]] else []
  }

  function Dropped(g: seq<MatchEvent>, copies: seq<nat>): seq<MatchEvent>
    requires |g| == |copies|
  {
    if g == [] then []
    else Dropped(g[..|g| - 1], copies[..|g| - 1]) + if copies[|g| - 1] > 0 then [] else [g[|g| - 1]]
  }

  lemma {:induction false} AllArrived(g: seq<MatchEvent>, copies: seq<nat>)
    requires |g| == |copies| && forall i :: 0 <= i < |g| ==> copies[i] > 0
    ensures Arrived(g, copies) == g && Partnered(g, copies)
  {
    hide KindOf;
    if g != [] {
      AllArrived(g[..|g| - 1], copies[..|g| - 1]);
    }
  }

  lemma NothingIsWorthNothing(team: string, mine: bool)
    ensures Worth([], team, mine) == multiset{}
  {
  }

  /** What arrived and what was dropped are together worth the match. */
  lemma {:induction false} WorthSplits(g: seq<MatchEvent>, copies: seq<nat>, team: string, mine: bool)
    requires |g| == |copies|
    ensures Worth(Arrived(g, copies), team, mine) + Worth(Dropped(g, copies), team, mine) == Worth(g, team, mine)
  {
    hide Worth, Credit, CreditedHome;
    if g == [] {
      NothingIsWorthNothing(team, mine);
    } else {
      var k := |g| - 1;
      assert g == g[..k] + [g[k]];
      WorthSplits(g[..k], copies[..k], team, mine);
      WorthSnoc(g[..k], g[k], team, mine);
      WorthSnoc(Arrived(g[..k], copies[..k]), g[k], team, mine);
      WorthSnoc(Dropped(g[..k], copies[..k]), g[k], team, mine);
      if copies[k] > 0 {
        assert Arrived(g, copies) == Arrived(g[..k], copies[..k]) + [g[k]];
        assert Dropped(g, copies) == Dropped(g[..k], copies[..k]);
      } else {
        assert Arrived(g, copies) == Arrived(g[..k], copies[..k]);
        assert Dropped(g, copies) == Dropped(g[..k], copies[..k]) + [g[k]];
      }
    }
  }

  /** What a side lost, against what it can spare: on-target shots that led to no goal, fouls that drew
      no card. */
  predicate Affords(all: multiset<Stat>, lost: multiset<Stat>) {
    && lost[OnTarget] + all[Goals] <= all[OnTarget] + lost[Goals]
    && lost[Fouls] + all[Yellows] <= all[Fouls] + lost[Yellows]
  }

  /** The record of the events that arrived is plausible if and only if each side lost no more on-target
      shots beyond its lost goals than it had shots on target without a goal, and no more fouls beyond
      its lost cards than it had fouls without one. */
  lemma PlausibleIffLossesAreAfforded(matchID: string, g: seq<MatchEvent>, copies: seq<nat>)
    requires |g| == |copies| && Paired(g)
    ensures var s, team := Fold(matchID, Arrived(g, copies)), FirstTeam(Arrived(g, copies));
      && (Plausible(s.home) <==> Affords(Worth(g, team, true), Worth(Dropped(g, copies), team, true)))
      && (Plausible(s.away) <==> Affords(Worth(g, team, false), Worth(Dropped(g, copies), team, false)))
  {
    hide Fold, Worth, Arrived, Dropped;
    var a := Arrived(g, copies);
    PlausibleSides(matchID, a);
    forall mine ensures PlausibleWorth(Worth(a, FirstTeam(a), mine)) <==>
      Affords(Worth(g, FirstTeam(a), mine), Worth(Dropped(g, copies), FirstTeam(a), mine))
    {
      WorthSplits(g, copies, FirstTeam(a), mine);
      PairedIsCovered(g, FirstTeam(a), mine);
      ShotsCoverTargets(a, FirstTeam(a), mine);
    }
  }

  lemma ShotsCoverTargets(h: seq<MatchEvent>, team: string, mine: bool)
    ensures Worth(h, team, mine)[OnTarget] <= Worth(h, team, mine)[Shots]
  {
    hide Count, CountFor;
    OnTargetShotsAreShots(h, team);
    if team == "" {
      OnTargetInAll(h);
    }
  }

  lemma {:induction false} OnTargetInAll(h: seq<MatchEvent>)
    ensures Count(h)[OnTarget] <= Count(h)[Shots]
  {
    if h != [] {
      OnTargetInAll(h[1..]);
      CreditByKind(h[0]);
      hide Credit;
    }
  }

  // ----- a condition on single events

  /** No goal arrived without its shot and no card without its foul. */
  predicate Partnered(g: seq<MatchEvent>, copies: seq<nat>)
    requires |g| == |copies|
  {
    forall i :: 0 < i < |g| && copies[i] > 0 && (KindOf(g[i]).Goal? || KindOf(g[i]).Yellow?) ==> copies[i - 1] > 0
  }

  lemma {:induction false} ArrivedIsPaired(g: seq<MatchEvent>, copies: seq<nat>)
    requires |g| == |copies| && Paired(g) && Partnered(g, copies)
    ensures Paired(Arrived(g, copies))
    ensures g != [] && copies[|g| - 1] > 0 ==> Arrived(g, copies) != [] && Arrived(g, copies)[|Arrived(g, copies)| - 1] == g[|g| - 1]
  {
    hide KindOf;
    if g != [] {
      var k := |g| - 1;
      PairedPrefix(g, k);
      assert Partnered(g[..k], copies[..k]);
      ArrivedIsPaired(g[..k], copies[..k]);
      var a := Arrived(g[..k], copies[..k]);
      assert PairedAt(g, k);
      if copies[k] > 0 {
        forall i | 0 <= i < |a + [g[k]]| ensures PairedAt(a + [g[k]], i) {
          if i < |a| { assert PairedAt(a, i); }
        }
        assert Arrived(g, copies) == a + [g[k]];
      } else {
        assert Arrived(g, copies) == a;
      }
    }
  }

  /** So whatever else is lost, the record stays plausible at all times, if every goal that arrived came
      with its shot and every card with its foul. */
  lemma PartneredLossesAreHarmless(matchID: string, g: seq<MatchEvent>, copies: seq<nat>, n: nat)
    requires |g| == |copies| && Paired(g) && Partnered(g, copies) && n <= |Arrived(g, copies)|
    ensures var s := Fold(matchID, Arrived(g, copies)[..n]); Plausible(s.home) && Plausible(s.away)
  {
    ArrivedIsPaired(g, copies);
    SimulatedMatchIsPlausible(matchID, Arrived(g, copies), n);
  }
}
