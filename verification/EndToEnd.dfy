/** From the simulator's random numbers to the stored record: what retries, lost responses, repeated
    writes, redeliveries and restarts leave of each generated event. */
module EndToEnd {
  import opened Common
  import opened Aggregate
  import opened Protocol
  import opened Consumer
  import opened OffsetSafety
  import opened ClaimSafety
  import opened ExactlyOnce
  import opened PartialRecords
  import opened Delivery
  import opened Ingest
  import opened Sender
  import opened Simulator
  import opened Losses
  import opened Processor
  import opened ConsumeLoop

  // ----- any log

  lemma {:induction false} FirstCopy(log: seq<Message>, n: nat, id: string) returns (off: nat)
    requires n <= |log| && Seen(log, n, id)
    ensures off < n && First(log, off) && log[off].e.eventID == id
  {
    if Seen(log, n - 1, id) {
      off := FirstCopy(log, n - 1, id);
    } else {
      off := n - 1;
    }
  }

  lemma {:induction false} FirstIsCounted(log: seq<Message>, n: nat, crashes: Crashes, off: nat)
    requires off < n <= |log| && First(log, off) && !Lost(crashes, off)
    ensures log[off].e in History(log, n, crashes, log[off].e.matchID)
  {
    if off < n - 1 {
      FirstIsCounted(log, n - 1, crashes, off);
    }
  }

  lemma {:induction false} DistinctMeansOnce(h: seq<MatchEvent>, e: MatchEvent)
    requires DistinctIDs(h)
    ensures multiset(h)[e] == if e in h then 1 else 0
  {
    if h != [] {
      var p, x := h[..|h| - 1], h[|h| - 1];
      assert h == p + [x];
      DistinctMeansOnce(p, e);
    }
  }

  /** Only copies of this event carry its ID. */
  predicate Owns(log: seq<Message>, e: MatchEvent) {
    forall i :: 0 <= i < |log| && log[i].Good? && log[i].e.eventID == e.eventID ==> log[i].e == e
  }

  predicate Passed(log: seq<Message>, n: nat, e: MatchEvent)
    requires n <= |log|
  {
    Good(e) in log[..n]
  }

  lemma CountedIffPassed(log: seq<Message>, n: nat, crashes: Crashes, e: MatchEvent) returns (off: nat)
    requires n <= |log| && Owns(log, e)
    ensures Passed(log, n, e) ==> off < n && log[off] == Good(e) && First(log, off)
    ensures e in History(log, n, crashes, e.matchID) <==> Passed(log, n, e) && !Lost(crashes, off)
  {
    off := 0;
    if Passed(log, n, e) {
      var copy :| 0 <= copy < n && log[..n][copy] == Good(e);
      assert log[copy] == Good(e) && Seen(log, copy + 1, e.eventID);
      SeenIsMonotone(log, copy + 1, n, e.eventID);
      off := FirstCopy(log, n, e.eventID);
      if !Lost(crashes, off) { FirstIsCounted(log, n, crashes, off); }
    }
    if e in History(log, n, crashes, e.matchID) {
      var at := HistoryMembers(log, n, crashes, e.matchID, e);
      assert log[..n][at] == Good(e);
      if at < off { FirstsDiffer(log, at, off); } else if off < at { FirstsDiffer(log, off, at); }
    }
  }

  /** However often an event was retried, written, redelivered or met by a crash: once the processor has
      passed a copy its match's record counts it exactly once, unless a crash took it while its first
      copy was processed; and until then not at all. */
  lemma EventsCountExactlyOnce(now: nat, log: seq<Message>, turns: Turns, ttl: nat, e: MatchEvent) returns (off: nat)
    requires AllHaveIDs(log) && Feasible(now, log, turns, ttl) && AllSteady(now, log, turns, ttl) && Owns(log, e)
    requires ME !in Reached(now, log, turns, ttl).core.pc
    ensures var c := Reached(now, log, turns, ttl);
      c.progress.reach <= |log| && (Passed(log, c.progress.reach, e) ==> off < c.progress.reach && log[off] == Good(e) && First(log, off))
    ensures var c := Reached(now, log, turns, ttl);
      var h := History(log, c.progress.reach, c.crashes, e.matchID);
      && Current(c.core.mem, e.matchID) == Fold(e.matchID, h)
      && multiset(h)[e] == if Passed(log, c.progress.reach, e) && !Lost(c.crashes, off) then 1 else 0
  {
    hide History, Fold, Reached, Feasible, AllHaveIDs, AllSteady, DistinctIDs, Owns, Passed, First, Lost;
    var c := Reached(now, log, turns, ttl);
    RecordsFoldTheLog(now, log, turns, ttl, e.matchID);
    NothingCountedTwice(log, c.progress.reach, c.crashes, e.matchID);
    DistinctMeansOnce(History(log, c.progress.reach, c.crashes, e.matchID), e);
    off := CountedIffPassed(log, c.progress.reach, c.crashes, e);
  }

  // ----- the log a simulated match leaves

  lemma {:induction false} LocalHistory(log: seq<Message>, more: seq<Message>, n: nat, m: string)
    requires n <= |log|
    ensures History(log + more, n, NoCrash, m) == History(log, n, NoCrash, m)
    ensures forall id :: Seen(log + more, n, id) <==> Seen(log, n, id)
  {
    if n > 0 {
      LocalHistory(log, more, n - 1, m);
    }
  }

  /** The first copy of a new event counts, the others do not. */
  lemma {:induction false} HistoryOfRepeats(log: seq<Message>, e: MatchEvent, copies: nat)
    requires !Seen(log, |log|, e.eventID)
    ensures var all := log + Repeat(e, copies);
      && History(all, |all|, NoCrash, e.matchID) == History(log, |log|, NoCrash, e.matchID) + (if copies > 0 then [e] else [])
      && forall id :: Seen(all, |all|, id) <==> Seen(log, |log|, id) || (copies > 0 && id == e.eventID)
  {
    if copies == 0 {
      assert log + Repeat(e, 0) == log;
    } else {
      var before := log + Repeat(e, copies - 1);
      HistoryOfRepeats(log, e, copies - 1);
      assert log + Repeat(e, copies) == before + [Good(e)];
      LocalHistory(before, [Good(e)], |before|, e.matchID);
    }
  }

  /** The topic held nothing of this match, and none of these IDs. */
  ghost predicate Unrelated(base: seq<Message>, g: seq<MatchEvent>, m: string) {
    && History(base, |base|, NoCrash, m) == []
    && forall i :: 0 <= i < |g| ==> !Seen(base, |base|, g[i].eventID)
  }

  predicate OfMatch(g: seq<MatchEvent>, m: string) {
    DistinctIDs(g) && forall i :: 0 <= i < |g| ==> g[i].matchID == m
  }

  lemma {:induction false} HistoryOfSent(base: seq<Message>, g: seq<MatchEvent>, copies: seq<nat>, m: string)
    requires |g| == |copies| && OfMatch(g, m) && Unrelated(base, g, m)
    ensures var log := base + Sent(g, copies);
      && History(log, |log|, NoCrash, m) == Arrived(g, copies)
      && forall id :: Seen(log, |log|, id) ==> Seen(base, |base|, id) || exists i :: 0 <= i < |g| && g[i].eventID == id
  {
    hide History, Seen;
    if g == [] {
      assert base + Sent(g, copies) == base;
    } else {
      var k := |g| - 1;
      HistoryOfSent(base, g[..k], copies[..k], m);
      var log := base + Sent(g[..k], copies[..k]);
      HistoryOfRepeats(log, g[k], copies[k]);
      assert base + Sent(g, copies) == log + Repeat(g[k], copies[k]);
      forall id | Seen(log, |log|, id) ensures Seen(base, |base|, id) || exists i :: 0 <= i < |g| && g[i].eventID == id {
        if !Seen(base, |base|, id) {
          var i :| 0 <= i < k && g[..k][i].eventID == id;
          assert g[i].eventID == id;
        }
      }
    }
  }

  lemma {:induction false} HistoryGrows(log: seq<Message>, n: nat, n': nat, m: string)
    requires n <= n' <= |log|
    ensures History(log, n, NoCrash, m) <= History(log, n', NoCrash, m)
  {
    if n < n' {
      HistoryGrows(log, n, n' - 1, m);
    }
  }

  /** At each point of every run without a death inside a message, the record of a simulated match is the
      fold of a prefix of the events that arrived, in the order they were generated, and in the end of
      all of them. It is plausible on both sides throughout if no goal arrived without its shot and no
      card without its foul. */
  lemma SimulatedMatchIsServed(now: nat, base: seq<Message>, g: seq<MatchEvent>, copies: seq<nat>, turns: Turns, ttl: nat, m: string)
    returns (j: nat)
    requires |g| == |copies| && OfMatch(g, m) && Unrelated(base, g, m) && Paired(g)
    requires AllHaveIDs(base + Sent(g, copies)) && Feasible(now, base + Sent(g, copies), turns, ttl)
    requires AllSteady(now, base + Sent(g, copies), turns, ttl)
    requires var c := Reached(now, base + Sent(g, copies), turns, ttl); ME !in c.core.pc && c.crashes.NoCrash?
    ensures var log, c := base + Sent(g, copies), Reached(now, base + Sent(g, copies), turns, ttl);
      && j <= |Arrived(g, copies)| && Current(c.core.mem, m) == Fold(m, Arrived(g, copies)[..j])
      && (c.progress.furthest == |log| ==> j == |Arrived(g, copies)|)
      && (Partnered(g, copies) ==> Plausible(Current(c.core.mem, m).home) && Plausible(Current(c.core.mem, m).away))
  {
    hide History, Fold, Reached, Feasible, AllHaveIDs, AllSteady, Paired, Sent, OfMatch, Unrelated, Plausible, Arrived, Partnered;
    var log := base + Sent(g, copies);
    var n := Reached(now, log, turns, ttl).progress.furthest;
    RestartsAreTransparent(now, log, turns, ttl, m);
    HistoryOfSent(base, g, copies, m);
    HistoryGrows(log, n, |log|, m);
    var h := History(log, n, NoCrash, m);
    j := |h|;
    assert h == Arrived(g, copies)[..j];
    if Partnered(g, copies) {
      PartneredLossesAreHarmless(m, g, copies, j);
    }
  }

  /** In order and whole matters: with one shot lost on the way, a side has scored without a shot. */
  lemma LostShotLeavesImplausibleRecord(shot: MatchEvent, goal: MatchEvent)
    requires KindOf(shot) == Shot(true) && KindOf(goal) == Goal && shot.team == goal.team
    requires shot.eventID != goal.eventID && shot.matchID == goal.matchID
    ensures Paired([shot, goal]) && Arrived([shot, goal], [0, 1]) == [goal]
    ensures var s := Fold(goal.matchID, [goal]); !Plausible(s.home) || !Plausible(s.away)
  {
    var g := [shot, goal];
    hide Fold, KindOf, Aggregate.Count, CountFor, Apply;
    assert PairedAt(g, 0) && PairedAt(g, 1);
    var c: seq<nat> := [0, 1];
    assert g[..1] == [shot] && c[..1] == [0] && [shot][..0] == [];
    assert Arrived([shot], [0]) == [];
    assert Arrived(g, c) == Arrived(g[..1], c[..1]) + [goal];
    ClosedForm(goal.matchID, [goal], Goals);
    ClosedForm(goal.matchID, [goal], OnTarget);
    CountOne(goal, goal.team);
    CreditByKind(goal);
  }

  lemma {:induction false} SentHolds(g: seq<MatchEvent>, copies: seq<nat>, msg: Message) returns (k: nat)
    requires |g| == |copies| && msg in Sent(g, copies)
    ensures k < |g| && copies[k] > 0 && msg == Good(g[k])
  {
    var n := |g| - 1;
    if msg in Sent(g[..n], copies[..n]) {
      k := SentHolds(g[..n], copies[..n], msg);
    } else {
      k := n;
    }
  }

  lemma {:induction false} SentReaches(g: seq<MatchEvent>, copies: seq<nat>, i: nat)
    requires |g| == |copies| && i < |g| && copies[i] > 0
    ensures Good(g[i]) in Sent(g, copies)
  {
    var n := |g| - 1;
    if i == n {
      assert Repeat(g[n], copies[n])[0] == Good(g[n]);
    } else {
      SentReaches(g[..n], copies[..n], i);
    }
  }

  lemma SentOwns(g: seq<MatchEvent>, copies: seq<nat>, m: string, i: nat)
    requires |g| == |copies| && i < |g| && OfMatch(g, m)
    ensures Owns(Sent(g, copies), g[i])
  {
    var log := Sent(g, copies);
    forall k | 0 <= k < |log| && log[k].Good? && log[k].e.eventID == g[i].eventID ensures log[k].e == g[i] {
      var j := SentHolds(g, copies, log[k]);
    }
  }

  // ----- the whole pipeline

  /** Whatever part of a script is sent belongs to one match, under distinct IDs, and is paired. */
  lemma ScriptsAreOfOneMatch(script: Screenplay, sent: seq<MatchEvent>)
    requires script.Valid() && sent <= script.Minutes(0, 0, MATCH_MINUTES)
    ensures OfMatch(sent, script.squads.matchID) && Paired(sent) && |sent| <= MATCH_MINUTES * MAX_EVENTS_PER_MINUTE
  {
    hide Complete, Screenplay.Minutes;
    var all := script.Minutes(0, 0, MATCH_MINUTES);
    script.MinutesArePaired(0, 0, MATCH_MINUTES);
    PairedPrefix(all, |sent|);
    assert sent == all[..|sent|];
    assert forall i :: 0 <= i < |sent| ==> sent[i].eventID == script.src.ids(0 + i);
  }

  predicate Deathless(plan: seq<Episode>) {
    forall i :: 0 <= i < |plan| ==> !plan[i].Dying?
  }

  /** An acknowledged write was made, in every attempt. */
  ghost predicate Durable(net: nat -> seq<Attempt>)
    requires Reachable(net)
  {
    forall k, i :: 0 <= i < MAX_SEND_ATTEMPTS ==> net(k)[i].broker.Durable()
  }

  /** Simulator, event-api and processor one after the other, against any random stream, any fate of
      every attempt and any plan of the processor's life. If the reservation commands answer, no
      generated event is ever counted twice, deaths and failed writes included. If the record writes
      and reloads succeed and no death falls inside a message, the live record is the fold of a prefix
      of the events that arrived, plausible if their shots and fouls arrived too; once the log is read
      to its end, an event is counted exactly once if a copy of it arrived, as it did for every
      delivered one if the broker is durable, and not at all otherwise. */
  method Pipeline(src: Sources, squads: Squads, ctx: Context, net: nat -> seq<Attempt>,
                  setting: Option<int>, now: nat, plan: seq<Episode>, ghost grade: Grade)
    returns (p: EventProcessor, reader: Reader, sent: seq<MatchEvent>, ends: seq<Ending>, ghost copies: seq<nat>, ghost j: nat)
    requires src.Valid() && squads.Valid() && Reachable(net)
    requires forall i :: 0 <= i < |plan| ==> Sensible(plan[i]) && Bearable(grade, plan[i])
    modifies ctx
    ensures var match_ := Screenplay(src, squads).Minutes(0, 0, MATCH_MINUTES); sent <= match_ && (!ctx.Cancelled() ==> sent == match_)
    ensures p.Valid() && |sent| == |ends| == |copies| <= MATCH_MINUTES * MAX_EVENTS_PER_MINUTE
    ensures forall i :: 0 <= i < |sent| && ends[i].result.Delivered? && Durable(net) ==> copies[i] > 0
    ensures Durable(net) && (forall i :: 0 <= i < |ends| ==> ends[i].result.Delivered?) ==>
      Arrived(sent, copies) == sent && Partnered(sent, copies)
    ensures !grade.Any? ==> forall i :: 0 <= i < |sent| ==> multiset(Current(p.table.Mem, squads.matchID).events)[sent[i]] <= 1
    ensures grade.Full? && Deathless(plan) && reader.pos == |reader.log| ==> forall i :: 0 <= i < |sent| ==>
      multiset(Current(p.table.Mem, squads.matchID).events)[sent[i]] == if copies[i] > 0 then 1 else 0
    ensures grade.Full? && Deathless(plan) ==>
      && j <= |Arrived(sent, copies)| && (reader.pos == |reader.log| ==> j == |Arrived(sent, copies)|)
      && var s := Current(p.table.Mem, squads.matchID);
        && s == Fold(squads.matchID, Arrived(sent, copies)[..j])
        && (Partnered(sent, copies) ==> Plausible(s.home) && Plausible(s.away))
  {
    hide Fold, Plausible, EventProcessor.Valid, AllHaveIDs, Paired, OfMatch, EventAPI.Valid, Sensible, Bearable, Arrived, Partnered;
    hide Screenplay.Minutes, Current, Sent, History, DistinctIDs, Reached, Feasible, AllMeet, Steered, Reflected, Accountable, Wounds;
    var sim := new MatchSimulator(src, squads);
    var api := new EventAPI();
    sent, ends, copies := sim.Run(ctx, api, net);
    TopicHasIDs(api);
    ScriptsAreOfOneMatch(sim.script, sent);
    DeliveredArrived(sent, net, ends, copies);
    if forall i :: 0 <= i < |sent| ==> copies[i] > 0 {
      AllArrived(sent, copies);
    }
    ghost var story;
    p, reader, story := Serve(api.log, setting, now, plan, grade);
    assert [] + Sent(sent, copies) == Sent(sent, copies) == api.log;
    if !grade.Any? {
      forall i | 0 <= i < |sent| ensures multiset(Current(p.table.Mem, squads.matchID).events)[sent[i]] <= 1 {
        CountedOnceByCode(p, reader, story, squads.matchID, sent[i]);
      }
    }
    j := 0;
    if grade.Full? && Deathless(plan) {
      forall i | 0 <= i < |sent| {
        CountedByCode(p, reader, story, sent, copies, squads.matchID, i);
      }
      NothingBefore(sent, squads.matchID);
      j := ServedByCode(p, reader, story, sent, copies, squads.matchID);
    }
  }

  lemma DeliveredArrived(g: seq<MatchEvent>, net: nat -> seq<Attempt>, ends: seq<Ending>, copies: seq<nat>)
    requires Reachable(net) && AllSettled(g, net, 0, ends, copies)
    ensures forall i :: 0 <= i < |g| && ends[i].result.Delivered? && Durable(net) ==> copies[i] > 0
  {
    hide Left;
    forall i | 0 <= i < |g| && ends[i].result.Delivered? && Durable(net) ensures copies[i] > 0 {
      assert Settled(g[i], net(0 + i), ends[i], copies[i]);
      assert net(i)[ends[i].calls - 1].broker.Durable();
    }
  }

  lemma CountedOnceByCode(p: EventProcessor, reader: Reader, story: Turns, m: string, e: MatchEvent)
    requires Feasible(p.origin, reader.log, story, p.ttl) && Reflected(p, reader, story)
    ensures multiset(Current(p.table.Mem, m).events)[e] <= 1
  {
    hide Reached, Feasible, OfFirsts, DistinctIDs;
    if m in p.table.Mem {
      DistinctMeansOnce(p.table.Mem[m].events, e);
    }
  }

  lemma CountedByCode(p: EventProcessor, reader: Reader, story: Turns, g: seq<MatchEvent>, copies: seq<nat>, m: string, i: nat)
    requires p.Valid() && Tells(p, reader, story, Full) && AllHaveIDs(reader.log)
    requires Wounds(p.origin, reader.log, story, p.ttl) == NoCrash
    requires |g| == |copies| && i < |g| && OfMatch(g, m) && reader.log == Sent(g, copies)
    ensures reader.pos == |reader.log| ==> multiset(Current(p.table.Mem, m).events)[g[i]] == if copies[i] > 0 then 1 else 0
  {
    hide Fold, AllHaveIDs, Sent, Current, Reached, Feasible, AllSteady, History, Keyed;
    SentOwns(g, copies, m, i);
    PositionIsHandled(p.origin, reader.log, story, p.ttl);
    RunIsSound(p.origin, reader.log, story, p.ttl);
    var off := EventsCountExactlyOnce(p.origin, reader.log, story, p.ttl, g[i]);
    if reader.pos == |reader.log| {
      assert reader.log[..|reader.log|] == reader.log;
      if copies[i] > 0 {
        SentReaches(g, copies, i);
      } else if Good(g[i]) in reader.log {
        var k := SentHolds(g, copies, Good(g[i]));
      }
    }
  }

  lemma NothingBefore(g: seq<MatchEvent>, m: string)
    ensures Unrelated([], g, m)
  {
  }

  lemma ServedByCode(p: EventProcessor, reader: Reader, story: Turns, g: seq<MatchEvent>, copies: seq<nat>, m: string) returns (j: nat)
    requires p.Valid() && Tells(p, reader, story, Full) && AllHaveIDs(reader.log)
    requires Wounds(p.origin, reader.log, story, p.ttl) == NoCrash
    requires |g| == |copies| && OfMatch(g, m) && Unrelated([], g, m) && Paired(g) && reader.log == [] + Sent(g, copies)
    ensures j <= |Arrived(g, copies)| && Current(p.table.Mem, m) == Fold(m, Arrived(g, copies)[..j])
    ensures reader.pos == |reader.log| ==> j == |Arrived(g, copies)|
    ensures Partnered(g, copies) ==> Plausible(Current(p.table.Mem, m).home) && Plausible(Current(p.table.Mem, m).away)
  {
    hide Fold, Plausible, AllHaveIDs, AllSteady, Paired, OfMatch, Unrelated, Sent, Current, Reached, Feasible, Arrived, Partnered;
    PositionIsHandled(p.origin, reader.log, story, p.ttl);
    j := SimulatedMatchIsServed(p.origin, [], g, copies, story, p.ttl, m);
  }

  /** Nothing in the pipeline's assumptions excludes its being run. */
  lemma PipelineHasInputs()
    ensures EVEN_SOURCES.Valid() && Squads("m", "home", "away", ["a"], ["b"]).Valid()
    ensures Reachable((k: nat) => [PROMPT, PROMPT, PROMPT]) && Durable((k: nat) => [PROMPT, PROMPT, PROMPT])
  {
    SourcesExist();
  }

  /** An attempt on which everything works. */
  const PROMPT := Attempt(true, [0, 1, 2, 3, 4, 5, 6, 7, 8, 9, 10, 11, 12, 13, 14, 15], "now", Publication(1, true), true)
}
