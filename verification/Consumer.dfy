/** The consume loop: one reader over one partition log, committing offsets, losing commits,
    rewinding and crashing anywhere, on top of the protocol with a single worker. Every store
    command may fail, keys expire and a restart may reload any part of the records. */
module Consumer {
  import opened Common
  import opened Aggregate
  import opened Protocol

  /** A log entry either decodes to an event or does not. */
  datatype Message = Bad(payload: string, reason: string) | Good(e: MatchEvent)

  datatype Phase =
    | Ready
    | Handling(off: nat)     // inside handleMessage
    | Done(off: nat)         // handled, not yet passed to CommitMessages

  datatype Outcome = Aggregated | Duplicate | DeadLettered | Dropped

  /** Completed messages, the latest outermost. */
  datatype Ledger = Nothing | Entry(before: Ledger, off: nat, outcome: Outcome)

  /** The crashes that hit an event being processed: which offset, how far its worker had come, and
      whether its match was listed as active. */
  datatype Crashes = NoCrash | Hit(before: Crashes, off: nat, stage: Pc, listed: bool)

  datatype Offsets = Offsets(
    pos: nat,                // what FetchMessage returns next
    requested: nat,          // what CommitMessages was last told; flushed later
    committed: nat)          // what the broker resumes a new incarnation from

  datatype Progress = Progress(
    furthest: nat,           // every offset below was handled to the end
    reach: nat)              // every event below was claimed

  datatype Loop = Loop(
    core: State, phase: Phase, offsets: Offsets, progress: Progress, crashes: Crashes, ledger: Ledger)

  datatype Turn =
    | Fetch
    | Work(a: Action)
    | DeadLetter(published: bool)
    | Commit(accepted: bool)
    | Flush
    | Rewind
    | Restart(reloaded: set<string>)
    | Tick(to: nat)
    | Lapse(id: string)      // a reservation expires

  function Boot(now: nat): Loop {
    Loop(Init(now), Ready, Offsets(0, 0, 0), Progress(0, 0), NoCrash, Nothing)
  }

  const ME: nat := 0

  /** A step of the only worker inside processEvent. */
  predicate Mine(a: Action) {
    || (a.Bypass? && a.w == ME)
    || (a.SetNX? && a.w == ME)
    || (a.Get? && a.w == ME)
    || (a.Count? && a.w == ME)
    || (a.Mark? && a.w == ME)
    || (a.Save? && a.w == ME)
    || (a.Cache? && a.w == ME)
    || (a.List? && a.w == ME)
    || (a.Publish? && a.w == ME)
  }

  predicate Can(c: Loop, log: seq<Message>, t: Turn) {
    if t.Fetch? then c.phase.Ready? && c.offsets.pos < |log| && ME !in c.core.pc
    else if t.Work? then
      c.phase.Handling? && c.phase.off < |log| && log[c.phase.off].Good? && Mine(t.a) && Enabled(c.core, t.a)
    else if t.DeadLetter? then c.phase.Handling? && c.phase.off < |log| && log[c.phase.off].Bad?
    else if t.Commit? then c.phase.Done?
    else if t.Rewind? then c.phase.Ready?
    else if t.Restart? then Enabled(c.core, Crash(t.reloaded))
    else if t.Tick? then Enabled(c.core, Advance(t.to))
    else if t.Lapse? then Enabled(c.core, Expire(t.id))
    else true
  }

  function Max(a: nat, b: nat): nat {
    if a < b then b else a
  }

  function Finished(c: Loop, core: State, outcome: Outcome): Loop
    requires c.phase.Handling?
  {
    var off := c.phase.off;
    c.(core := core, phase := Done(off), ledger := Entry(c.ledger, off, outcome),
       progress := Progress(Max(c.progress.furthest, off + 1), Max(c.progress.reach, off + 1)))
  }

  function AfterFetch(c: Loop, log: seq<Message>): Loop
    requires Can(c, log, Fetch)
  {
    var off := c.offsets.pos;
    var core := if log[off].Good? then Move(c.core, ME, Received(log[off].e)) else c.core;
    c.(core := core, phase := Handling(off))
  }

  /** A worker that is gone has finished its message; one that has just been let through has claimed it. */
  function AfterWork(c: Loop, log: seq<Message>, a: Action, ttl: nat): Loop
    requires Can(c, log, Work(a))
  {
    var core := Next(c.core, a, ttl);
    if a.Publish? then Finished(c, core, Aggregated)
    else if ME !in core.pc then Finished(c, core, Duplicate)
    else if core.pc[ME].Granted? then c.(core := core, progress := c.progress.(reach := Max(c.progress.reach, c.phase.off + 1)))
    else c.(core := core)
  }

  function AfterCommit(c: Loop, accepted: bool): Loop
    requires c.phase.Done?
  {
    var next := c.phase.off + 1;
    c.(phase := Ready, offsets := c.offsets.(pos := next, requested := if accepted then next else c.offsets.requested))
  }

  /** The process dies wherever it is; the next incarnation reloads these matches and resumes at the
      committed offset. */
  function AfterRestart(c: Loop, reloaded: set<string>): Loop
    requires Enabled(c.core, Crash(reloaded))
  {
    var crashes := if c.phase.Handling? && ME in c.core.pc
                   then Hit(c.crashes, c.phase.off, c.core.pc[ME], c.core.pc[ME].e.matchID in c.core.store.active)
                   else c.crashes;
    c.(core := AfterCrash(c.core, reloaded), phase := Ready,
       offsets := Offsets(c.offsets.committed, c.offsets.committed, c.offsets.committed), crashes := crashes)
  }

  function AfterTick(c: Loop, to: nat): Loop {
    c.(core := c.core.(store := c.core.store.(now := to)))
  }

  function AfterLapse(c: Loop, id: string, ttl: nat): Loop
    requires Enabled(c.core, Expire(id))
  {
    c.(core := Next(c.core, Expire(id), ttl))
  }

  function After(c: Loop, log: seq<Message>, t: Turn, ttl: nat): Loop
    requires Can(c, log, t)
  {
    if t.Fetch? then AfterFetch(c, log)
    else if t.Work? then AfterWork(c, log, t.a, ttl)
    else if t.DeadLetter? then Finished(c, c.core, if t.published then DeadLettered else Dropped)
    else if t.Commit? then AfterCommit(c, t.accepted)
    else if t.Flush? then c.(offsets := c.offsets.(committed := c.offsets.requested))
    else if t.Rewind? then c.(offsets := c.offsets.(pos := c.offsets.committed))
    else if t.Tick? then AfterTick(c, t.to)
    else if t.Lapse? then AfterLapse(c, t.id, ttl)
    else AfterRestart(c, t.reloaded)
  }

  datatype Turns = NoTurns | Also(earlier: Turns, turn: Turn)

  predicate Feasible(now: nat, log: seq<Message>, turns: Turns, ttl: nat)
    decreases turns, 0
  {
    match turns
    case NoTurns => true
    case Also(earlier, t) => Feasible(now, log, earlier, ttl) && Can(Reached(now, log, earlier, ttl), log, t)
  }

  function Reached(now: nat, log: seq<Message>, turns: Turns, ttl: nat): Loop
    requires Feasible(now, log, turns, ttl)
    decreases turns, 1
  {
    match turns
    case NoTurns => Boot(now)
    case Also(earlier, t) => After(Reached(now, log, earlier, ttl), log, t, ttl)
  }

  // ----- better and worse runs

  /** Where any later incarnation may resume at the earliest. */
  function Floor(o: Offsets): nat {
    var lower := if o.requested < o.committed then o.requested else o.committed;
    if o.pos < lower then o.pos else lower
  }

  /** A message with this ID lies at or beyond an offset. */
  predicate Ahead(log: seq<Message>, from: nat, id: string) {
    exists i :: from <= i < |log| && log[i].Good? && log[i].e.eventID == id
  }

  /** The reservation commands answer, and only IDs that will not be read again expire. */
  predicate Gated(c: Loop, log: seq<Message>, t: Turn) {
    && (t.Work? ==> !t.a.Bypass? && (t.a.SetNX? ==> t.a.reply.Fine?) && (t.a.Get? ==> t.a.ok))
    && (t.Lapse? ==> !Ahead(log, Floor(c.offsets), t.id))
  }

  /** The record and SADD writes succeed as well, and a restart reloads all it can. Marks, `:latest`
      writes, publishes and commits may still fail. */
  predicate Steady(c: Loop, log: seq<Message>, t: Turn) {
    && Gated(c, log, t)
    && (t.Work? ==> (t.a.Save? ==> t.a.reply.Fine?) && (t.a.List? ==> t.a.reply.Fine?))
    && (t.Restart? ==> t.reloaded == c.core.store.active * c.core.store.stats.Keys)
  }

  predicate AllGated(now: nat, log: seq<Message>, turns: Turns, ttl: nat)
    requires Feasible(now, log, turns, ttl)
  {
    turns.Also? ==> AllGated(now, log, turns.earlier, ttl) && Gated(Reached(now, log, turns.earlier, ttl), log, turns.turn)
  }

  predicate AllSteady(now: nat, log: seq<Message>, turns: Turns, ttl: nat)
    requires Feasible(now, log, turns, ttl)
  {
    turns.Also? ==> AllSteady(now, log, turns.earlier, ttl) && Steady(Reached(now, log, turns.earlier, ttl), log, turns.turn)
  }

  // ----- what a log means

  /** An event with this ID is among the first n messages. */
  predicate Seen(log: seq<Message>, n: nat, id: string)
    requires n <= |log|
  {
    n > 0 && (Seen(log, n - 1, id) || (log[n - 1].Good? && log[n - 1].e.eventID == id))
  }

  /** The event at this offset is the first with its ID. */
  predicate First(log: seq<Message>, off: nat)
    requires off < |log|
  {
    log[off].Good? && !Seen(log, off, log[off].e.eventID)
  }

  /** A crash that takes a claimed event with it: before its record was saved, or before the match
      was listed for reloading. */
  predicate Fatal(stage: Pc, listed: bool) {
    stage.Granted? || stage.Applied? || stage.Marked? || ((stage.Saved? || stage.Cached?) && !listed)
  }

  predicate Lost(crashes: Crashes, off: nat) {
    crashes.Hit? && (Lost(crashes.before, off) || (crashes.off == off && Fatal(crashes.stage, crashes.listed)))
  }

  /** First occurrences among the first n messages, for one match, without those lost in crashes. */
  function History(log: seq<Message>, n: nat, crashes: Crashes, m: string): seq<MatchEvent>
    requires n <= |log|
  {
    if n == 0 then []
    else if First(log, n - 1) && log[n - 1].e.matchID == m && !Lost(crashes, n - 1)
    then History(log, n - 1, crashes, m) + [log[n - 1].e]
    else History(log, n - 1, crashes, m)
  }

  predicate AllHaveIDs(log: seq<Message>) {
    forall i :: 0 <= i < |log| && log[i].Good? ==> log[i].e.eventID != ""
  }
}
