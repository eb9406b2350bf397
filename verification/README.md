# MatchSense, verified

A Dafny model of how MatchSense counts: the match simulator generates events and posts them with
retries, event-api validates and publishes them to a log that may hold any of them several times, and
the event processor consumes that log with explicit commits, de-duplicates by event ID through
expiring reservations in Redis, folds each event into a mutable record per match, writes the record
out as a snapshot and reloads it after a restart.

`dafny verify dfyconfig.toml` checks everything.

## How it is built

| module | what it holds |
|---|---|
| `Common` | events, event IDs and their validation, Redis keys |
| `Aggregate` | the effect of one event, its fold over a history and an order-free closed form of the result |
| `LiveStats`, `Matches` | the mutable record with its Go slice, the struct copies taken of it, and the table of records |
| `Protocol` | the consumption protocol as a state machine: any number of workers, one store, clock, expiry, lost replies, crashes |
| `Accounting`, `Persistence`, `SnapshotOrder` | what every run of that machine keeps: claims, skips, the TTL window, stored snapshots and what restarts take |
| `Consumer` | the consume loop of one reader over one log: fetch, work, commit, flush, rewind, expiry, crash anywhere, every command failing at will |
| `OffsetSafety` | what that loop keeps in every run |
| `ClaimSafety`, `PartialRecords` | what it keeps while the reservation commands answer (`Gated` runs) |
| `ExactlyOnce` | what it keeps when record writes, SADD and reloads succeed as well (`Steady` runs) |
| `Delivery` | the guarantees that follow |
| `Redis` | the store as one flat keyspace, refining the typed store of the protocol |
| `Processor`, `ConsumeLoop` | the processor as imperative code over live objects; ghost fields carry the protocol run it performs |
| `Ingest`, `Sender`, `Simulator` | event-api, the retrying sender and the generator, as code |
| `Losses`, `EndToEnd` | what lost events do to a record, and the three services together |

The code is tied to the machines, not written beside them: `EventProcessor` keeps a run of `Protocol`
in ghost fields, its invariant says that the run ends in the state the live objects show, and
`ConsumeLoop` turns that run into one of `Consumer`. So the theorems about all runs of the machines
hold of the objects (`CodeKeepsAccounts`, `Serve`, `Pipeline`), whatever the store answers.

Failures are inputs. A write has a `Reply` that may report failure although it landed, a publish says
how many copies it left, an attempt says whether request and response arrive, and random numbers, fresh
IDs and timestamps come from arbitrary sources; the IDs of one match are taken to be distinct.

What is assumed is said by each statement. Nothing is assumed for the claim bound, the skip
justification, the window, the prefix and snapshot-order theorems and offset safety. That no event is
counted twice needs events with IDs, answering reservation commands, and that an ID expires only once
no copy of it will be read again (`Gated`). That each record counts all first occurrences, short of one
event a crash, needs successful `:stats` and `SADD` writes and reloads too (`Steady`); marks, `:latest`
writes, publishes and commits may fail. That a delivered event reached the topic needs a broker that
keeps what it acknowledges (`Publication.Durable`): `services/event-api/main.go:110-115` sets no
acknowledgement level, so the writer alone does not promise it.

A `char` stands for one byte of a Go string, coordinates are reals, and Go's 64-bit counters are
unbounded integers.

## Where comments and documentation say otherwise

The code decides; the model follows it.

- `services/event-processor/main.go:398-402` denies any idempotency; the gate at line 611 provides it.
- `docs/architecture.md:137-143` and `156-157` and `services/common/dedupe.go:27-31` promise that the
  redelivery after a crash is aggregated. Before the TTL it is skipped as in flight and committed, and
  the event is lost: `Delivery.SkippedRedeliveryCanBeLost`. Exactly which crashes lose an event is the
  predicate `Consumer.Fatal`, and `Delivery.RecordsFoldTheLog` shows that nothing else is lost. It is counted
  if and only if the reservation is gone when its redelivery starts:
  `Delivery.DeliveryIsCountedIffUnreserved`.
- `services/common/dedupe.go:27-28` says a failing consumer releases its reservation; nothing calls
  `ReleaseReservation`.
- `docs/architecture.md:206-208` puts a match on one partition by its key, but the writer balances
  round-robin (`services/event-api/main.go:113`). One partition is modelled.
- `docs/architecture.md:211-212` calls the counters commutative. They are exactly when the opening team
  keeps its counts: `Aggregate.ReorderingKeepsCounters`.
- Stored snapshots are not always prefixes of the apply order: one left behind by a restart is not
  (`Persistence.UnlistedRecordIsLost`).

## Model

| member | source | states |
|---|---|---|
| `Common.NewEventID` | services/common/event.go:40-50 | a generated ID is `evt-` and 32 hex digits of the 16 random bytes, and passes validation |
| `Common.GeneratedIDsAreInjective` | services/common/event.go:40-50 | distinct random bytes give distinct IDs: the encoding loses nothing |
| `Common.ValidateEventID` | services/common/event.go:55-68 | valid if and only if 1 to 128 long and free of space, tab, CR, LF, colon and both braces |
| `Common.KeysNeverCollide` | services/common/dedupe.go:73-75 | for arbitrary strings, validated or not, the dedupe, stats and latest key builders are injective, pairwise disjoint and never `matches:active` |
| `Aggregate.Fold` | services/event-processor/main.go:403-474 | the statistics of a history keep its match ID and exactly its events, in order, and show the last one and its minute |
| `Aggregate.TeamsLearned` | services/event-processor/main.go:407-413 | for every history the home team is the first team named and the away team the first later one that differs |
| `Aggregate.TeamsAreFirstNamed` | services/event-processor/main.go:407-413 | a side is unnamed exactly while no event of the history could name it, and otherwise carries the name of an event before which none could |
| `Aggregate.ClosedForm` | services/event-processor/main.go:415-466 | all 14 counters of every history without recursion: home is credited with the events of the first named team, away with all others |
| `Aggregate.CountersAreTallies` | services/event-processor/main.go:415-466 | each of the 14 counters of every history is the number of its events with exactly that type and detail string, for home those that carry the home team, for away all others |
| `Aggregate.EveryEventCountedOnce` | services/event-processor/main.go:417-466 | counted events, on-target shots aside, plus events no counter recognises make up the length of the history |
| `Aggregate.OnTargetShotsAreShots` | services/event-processor/main.go:424-435 | on-target shots never exceed shots, for one team and for all others together |
| `Aggregate.RecordInvariants` | services/event-processor/main.go:43-65 | every stored record satisfies onTarget <= shots on each side, and its counters and unrecognised events add up to its event list |
| `Aggregate.ReorderingKeepsCounters` | docs/architecture.md:211-215 | a permutation of a history keeps all 14 counters if and only if the team that opens it has the same counts as the team that opened the original |
| `Aggregate.CountersDoNotCommute` | docs/architecture.md:211-212 | the documented commutativity fails: two events of two teams, swapped, give other totals |
| `Aggregate.OpeningWithTheOtherTeamMirrors` | services/event-processor/main.go:407-415 | in a two-team history every permutation that opens with the other team swaps each home/away pair of counters exactly |
| `LiveStats.MatchStats.constructor` | services/event-processor/main.go:617-621 | a new record reads as the empty statistics of its match |
| `LiveStats.MatchStats.Decode` | services/event-processor/main.go:269-275 | a record decoded from the store reads as what was stored |
| `LiveStats.MatchStats.Append` | services/event-processor/main.go:470 | Go append on a shared backing array: the list grows by one element, in place or in a larger array, and no struct copy taken earlier changes |
| `LiveStats.MatchStats.ApplyEvent` | services/event-processor/main.go:403-474 | on any record: each of the 14 fields grows by one exactly for its type and detail strings on the side credited, teams, minute and last event as the source sets them; it equals the pure update and leaves every struct copy intact |
| `LiveStats.MatchStats.Copy` | services/event-processor/main.go:625 | the struct copy reads as the live record although it shares the backing array |
| `LiveStats.MatchStats.ApplyLater` | services/event-processor/main.go:625-635 | snapshot isolation: no later run of events, appended in place or regrown, changes what any copy shows, while the live record becomes the fold |
| `Matches.Table.Count` | services/event-processor/main.go:615-626 | the critical section finds or creates exactly one record, applies the event to it, leaves every other match alone and copies the result |
| `Matches.Table.Restore` | services/event-processor/main.go:269-275 | a reloaded record replaces that match and no other |
| `Redis.Rewrite` | services/event-processor/main.go:110-161 | one write or deletion in the flat keyspace changes one key of the typed view and nothing else, so the flat map refines separate stores |
| `Redis.StatsStore.ReserveEvent` | services/event-processor/main.go:124-153 | two commands with expiry possible between them: a free ID is claimed under `event:<id>:dedupe` if the command lands; a taken one is reported processed if and only if its key says so, in flight otherwise, a vanished key included; and when it is an error |
| `Redis.StatsStore.MarkProcessed` | services/event-processor/main.go:155-157 | `event:<id>:dedupe` says `processed` with a fresh deadline, or everything stays as it was |
| `Redis.StatsStore.ReleaseReservation` | services/event-processor/main.go:159-161 | the reservation is dropped and nothing else changes |
| `Redis.StatsStore.SetStats` | services/event-processor/main.go:110-112 | the record under `match:<id>:stats` or `match:<id>:latest` is replaced, without a deadline, everything else kept |
| `Redis.StatsStore.AddActiveMatch` | services/event-processor/main.go:114-116 | the match joins the set under `matches:active`, everything else kept |
| `Redis.StatsStore.ActiveMatches` | services/event-processor/main.go:255-259 | the active set as the typed view has it |
| `Redis.StatsStore.GetStats` | services/event-processor/main.go:263-273 | the stored record, or nothing when absent or unreadable |
| `Accounting.CountsAreBounded` | services/event-processor/main.go:124-157 | any workers, interleaving, errors, crashes and expiry: every grant of an ID was used once, is still usable or died in a crash, and the ID is counted at most 1 + expiries + fail-open errors times |
| `Accounting.SkipsAreJustified` | services/event-processor/main.go:501-508 | every skip ever logged came after a grant, and "already processed" after the event was counted |
| `Accounting.SkipMeansHandledElsewhere` | services/event-processor/main.go:137-152 | when a worker skips, vanished key included, another worker has applied the event, may still do so, or crashed before it |
| `Accounting.ClaimsHoldUntilExpiry` | services/event-processor/main.go:155-161 | a claim that was made and has not expired still reserves its ID after any crash, restart or failed mark |
| `Accounting.ClaimsAreSpaced` | services/event-processor/main.go:129-157 | successive claims of one ID lie at least a TTL apart, whether or not the mark succeeded |
| `Accounting.ClaimsPerWindow` | services/event-processor/main.go:292-299 | a window of length D holds at most D/TTL + 1 claims of one ID |
| `Persistence.StoredRecordsArePrefixes` | services/event-processor/main.go:615-655 | with workers writing outside the mutex in any order, memory is the fold of the apply order and each stored record not left behind by a restart the fold of a non-empty prefix of it |
| `Persistence.RestartKeepsPrefixIffReloaded` | services/event-processor/main.go:254-277 | across a restart a stored record stays such a prefix if and only if it was reloaded |
| `Persistence.UnlistedRecordIsLost` | services/event-processor/main.go:643-654 | a crash between the record write and SADD leaves a stored record that the restarted process does not build on |
| `Persistence.OlderSnapshotCanWin` | services/event-processor/main.go:625-646 | the writes leave the mutex, so with two workers the older snapshot can overwrite the newer one |
| `SnapshotOrder.SaveShortensIffOlder` | services/event-processor/main.go:625-646 | exactly when, for any number of workers: an effective save shortens a record saved or reloaded by this incarnation if and only if the snapshot stored there was counted later than the one saved now |
| `SnapshotOrder.OneWorkerNeverShortens` | services/event-processor/main.go:356-388 | with one worker, as the process runs it, that never happens, whatever fails |
| `SnapshotOrder.RestartTakesTheUnsavedTail` | services/event-processor/main.go:254-282 | whichever writes failed before, a restart keeps of a match exactly what its last effective save held if it is reloaded, else nothing: it takes the tail applied after that save |
| `SnapshotOrder.CopiesArePrefixes` | services/event-processor/main.go:647-650 | every run, any workers, whatever fails: `match:<id>:latest` is the fold of what its last effective write held and, unless a restart left it behind, of a non-empty prefix of the apply order |
| `SnapshotOrder.RestartLeavesCopyBehindIff` | services/event-processor/main.go:254-282 | exactly when: a restart leaves that copy behind unless the match is reloaded with at least the events of the copy |
| `OffsetSafety.CommittedOffsetsWereHandled` | services/event-processor/main.go:360-387 | every run, whatever fails: each offset below the committed one was folded into an aggregate or skipped, as the trace records, dead-lettered or dropped after its retries, as its kind demands |
| `OffsetSafety.PositionIsHandled` | services/event-processor/main.go:360-387 | every run, whatever fails: what is read next, requested or committed is never beyond what was handled |
| `ClaimSafety.RunIsFair` | services/event-processor/main.go:485-512 | while the reservation commands answer and only IDs that will not be read again expire, the claimed event is the first with its ID and everything below was claimed before |
| `ExactlyOnce.RunKeeps` | services/event-processor/main.go:360-387 | if record writes, SADD and reloads succeed as well, memory, stored records and active set each reflect the first occurrences claimed so far without those a crash took |
| `Delivery.RecordsFoldTheLog` | services/event-processor/main.go:597-655 | crashes anywhere, expiry of IDs not read again, failing marks and commits: between messages each record is the fold of the first occurrences claimed so far minus exactly the events a fatal crash took, and the stored copy equals it |
| `Delivery.RestartsAreTransparent` | services/event-processor/main.go:254-282 | with restarts between messages, rewinds and failed commits leave no trace: each record is the fold of the first occurrences up to the furthest handled offset |
| `Delivery.RecordsFoldSubsequences` | services/event-processor/main.go:615-655 | with record writes, SADD and reloads failing too, and crashes anywhere, each record, live or stored, is the fold of some first occurrences in log order and counts no ID twice |
| `Delivery.LiveRecordsNeedNoWrites` | services/event-processor/main.go:514-531 | until the first restart failed record writes do not show: each live record is the fold of all first occurrences |
| `Delivery.LoopIsProtocol` | services/event-processor/main.go:360-387 | every run of the consume loop is a run of the protocol with one worker, so what holds of all protocol runs holds of it |
| `Delivery.StoredRecordsNeverShrink` | services/event-processor/main.go:643 | no turn of any run, whatever fails, makes a stored record shorter unless the last restart left it behind |
| `Delivery.SkippedRedeliveryCanBeLost` | docs/architecture.md:137-143 | against the documentation: a crash between claim and apply, a redelivery skipped as in flight and its commit lose an event for good, with nothing else failing |
| `Delivery.DeliveryIsCountedIffUnreserved` | docs/architecture.md:153-157 | a delivery worked to its end is counted, once, if and only if its ID is not reserved when it starts |
| `Delivery.UnexpiredClaimsAreSkipped` | docs/architecture.md:137-143 | so a redelivery after a crash is skipped as long as the reservation has not expired |
| `Delivery.NothingCountedTwice` | services/event-processor/main.go:597-633 | no event ID occurs twice in what a record reflects |
| `Delivery.NothingCountedInTwoMatches` | docs/architecture.md:167-169 | an ID reused across matches is counted in one of them only |
| `Delivery.CrashesOnlyRemove` | services/event-processor/main.go:611-655 | what crashes leave is a subsequence of the crash-free history, shorter by exactly the lost events |
| `Delivery.AtMostOneLossPerCrash` | services/event-processor/main.go:611-655 | each crash loses at most one event |
| `Processor.EventProcessor.constructor` | services/event-processor/main.go:302-337 | a boot against whatever any earlier run left in the store is the crash step of the protocol; memory holds exactly the listed matches whose record exists and reads |
| `Processor.DedupeTTL` | services/event-processor/main.go:292-299 | a positive setting is the window in milliseconds, anything else leaves six hours |
| `Processor.EventProcessor.ReserveForProcessing` | services/event-processor/main.go:485-512 | an event is let through if and only if it has no ID, its ID is free, or a command failed; a skip is logged under the reason whose counter it raises, processed exactly if the key says so; the reservation afterwards and every other counter |
| `Processor.CodeSkipsWithCause` | services/event-processor/main.go:501-508 | of the live objects: an event just skipped had been let through before, and was counted if the skip raised the counter of processed duplicates |
| `Processor.EventProcessor.CountLive` | services/event-processor/main.go:615-626 | memory changes by this event alone and the copy is the new record |
| `Processor.EventProcessor.Remember` | services/event-processor/main.go:520-531 | marking is one protocol step, skipped without an ID: it writes `processed` with the full window if it lands; a failure is only counted |
| `Processor.EventProcessor.Persist` | services/event-processor/main.go:635-671 | three writes and the publish in this order, none stopping the next: each key family that the write landed in holds the snapshot or lists the match, and every failure is counted |
| `Processor.EventProcessor.Admit` | services/event-processor/main.go:613-676 | behind the gate: the event is applied once, the reservation marked, stats, latest and active set written as far as each command lands, the snapshot published, each counter exact |
| `Processor.EventProcessor.ProcessEvent` | services/event-processor/main.go:597-676 | one event takes exactly its script of protocol steps; if it counts, memory, stats, latest and active set change by this match alone and by the new record, each as its command lands; if not, memory, topic and records stay and the duplicate counter named by the skip logged rises |
| `Processor.EventProcessor.Die` | services/event-processor/main.go:597-671 | a death anywhere inside processEvent leaves exactly the steps taken so far: where the worker stands and which of memory, stats, latest and active set are written by then |
| `Processor.EventProcessor.RouteToDLQ` | services/event-processor/main.go:549-580 | at most three calls, stopping at the first success, sleeping 0, 100 or 300 ms in all; each call that may have been written left one record with topic, partition, offset, payload, reason, time and its attempt number; counters exact |
| `Processor.AttemptsAreCalls` | services/event-processor/main.go:552-568 | records of one message carry all of it and rising attempt numbers of calls that may have been written, an acknowledged one the last, with the number of calls made |
| `Processor.EventProcessor.HandleMessage` | services/event-processor/main.go:585-595 | every message ends in one of four outcomes; conservation of the metrics is kept: handled = unparseable + processed + duplicates and unparseable = published + dropped |
| `Processor.EventProcessor.LoadActiveMatches` | services/event-processor/main.go:254-282 | memory is rebuilt from exactly the listed matches whose record exists and can be read, each with its record, whatever happens to the others |
| `Processor.EventProcessor.Restart` | services/event-processor/main.go:302-309 | a restart, from wherever the process died, is the crash step of the protocol; every listed match whose record reads keeps it, whatever happens to the others |
| `Processor.CodeKeepsAccounts` | services/event-processor/main.go:485-655 | the claim bound, justified skips, the TTL spacing and the prefix property hold of the live objects after any use of the code |
| `ConsumeLoop.Deliver` | services/event-processor/main.go:366-386 | fetch, handle, commit, whatever answers: offsets and protocol steps exact, and a run of the consume-loop machine explains it |
| `ConsumeLoop.Consume` | services/event-processor/main.go:356-387 | the loop, whatever answers: a read error pauses 1 s at first or after an arrival, else twice as long as the one before up to 30 s; each arrival is handled once, and the whole is a run of the machine |
| `ConsumeLoop.NextMessageCompletes` | services/event-processor/main.go:360-387 | from every point between messages of every run, whatever answers come, the next message is completed and passed, an undecodable one without touching store or memory |
| `ConsumeLoop.IsSteered` | services/event-processor/main.go:366-386 | the reader never stands or commits beyond what was handled, and below its committed offset all was handled as its kind demands |
| `ConsumeLoop.IsReflected` | services/event-processor/main.go:615-655 | while the reservation commands answer each live record is the fold of some first occurrences, in order, no ID twice |
| `ConsumeLoop.IsAccountable` | services/event-processor/main.go:254-282 | if record writes and reloads succeed each live record is the fold of all first occurrences claimed, minus at most one event a death |
| `ConsumeLoop.Serve` | services/event-processor/main.go:284-392 | the service as code, from its first boot through any plan of messages, failures, rebalances, time, expiry, restarts and deaths inside a message: the three guarantees above, each under its own condition on the plan |
| `Ingest.EventAPI.EventsHandler` | services/event-api/main.go:136-228 | 405, 400, 202 and 500 exactly when, an ID refused if over 128 long or holding one of the seven characters; what is accepted reaches the topic unchanged but for a generated ID and the timestamp; each counter exact |
| `Ingest.TopicHasIDs` | services/event-api/main.go:159-172 | every event in the topic carries an ID |
| `Sender.Send` | services/match-simulator/main.go:154-182 | success if and only if answered, acceptable and acknowledged; final if and only if answered and unacceptable; everything else, a 5xx included, may be tried again; the topic gains the copies kept, stamped |
| `Sender.SendWithRetry` | services/match-simulator/main.go:189-213 | at most three attempts, another one only while no answer decides, the last one decides; an acceptable event is never rejected, and fewer than three attempts without delivery mean rejection or cancellation; pauses are 200 and 400 ms; the topic holds exactly what the attempts left |
| `Sender.RetriesOnlyRepeat` | services/match-simulator/main.go:184-188 | whatever is lost, retries of a complete event leave copies of that very event, none exactly if no attempt that arrived left any, so at least one when a durable broker acknowledged the last |
| `Sender.RetriesAreRecognisable` | docs/architecture.md:107-112 | retries share one ID if and only if the client supplied it or only one attempt reached the topic |
| `Simulator.Screenplay.MinuteIsPaired` | services/match-simulator/main.go:88-142 | a minute has at most five complete events under fresh IDs; each goal directly follows an on-target shot, each yellow card a foul, of its team |
| `Simulator.Screenplay.MinutesArePaired` | services/match-simulator/main.go:217-247 | so does the match, with at most five events a minute, 450 in all |
| `Simulator.Screenplay.MatchIsSpotted` | services/match-simulator/main.go:99-138 | over the whole match every event lies on the pitch, shots and goals in the attacking third of their side |
| `Simulator.Screenplay.MinuteIsDictated` | services/match-simulator/main.go:88-142 | exactly what a minute brings and in which order: shot, aim, goal, foul, card and corner fall below .33, .4, .25, .28, .15 and .11, each at its own place in the stream of random numbers, which depends on how many the parts before used up |
| `Simulator.Screenplay.MatchIsFielded` | services/match-simulator/main.go:217-247 | over the whole match events come in order of their minutes, 1 to n, and each player belongs to the squad of the team |
| `Simulator.MatchSimulator.GenerateMinuteEvents` | services/match-simulator/main.go:88-142 | draws the same numbers in the same order and yields exactly the events they dictate, all of this minute, each player of the squad of its team |
| `Simulator.MatchSimulator.SendAll` | services/match-simulator/main.go:224-235 | every event is tried in order until cancellation and ends as its attempts decide; an undeliverable one is passed over |
| `Simulator.MatchSimulator.Run` | services/match-simulator/main.go:217-250 | what is sent is a prefix of the dictated 90 minutes, all of it unless cancelled, nothing if cancelled before, and the topic grows by the copies in that order |
| `Simulator.SimulatedMatchIsPlausible` | services/match-simulator/main.go:110-131 | after every prefix of a match delivered whole and in order goals <= on target <= shots and yellow cards <= fouls on each side |
| `EndToEnd.HistoryOfSent` | services/match-simulator/main.go:217-247 | the log a simulated match leaves, any number of copies each, has as its history the events that arrived, in order |
| `EndToEnd.EventsCountExactlyOnce` | services/match-simulator/main.go:184-188 | over every log and run with crashes anywhere: once a copy of an event was claimed its record counts it exactly once, unless a crash took it at its first copy, and before that not at all |
| `EndToEnd.SimulatedMatchIsServed` | services/match-simulator/main.go:217-247 | the record is at all times the fold of a prefix of the generated events that arrived and in the end of all of them; plausible throughout if goals came with their shots and cards with their fouls |
| `EndToEnd.LostShotLeavesImplausibleRecord` | services/match-simulator/main.go:224-231 | one undelivered shot suffices for a side that scores without shooting |
| `Losses.PlausibleIffLossesAreAfforded` | services/match-simulator/main.go:224-231 | exactly when: the record of what arrived is plausible if and only if each side lost no more on-target shots beyond its lost goals than it had without a goal, and no more fouls beyond its lost cards than it had without one |
| `Losses.PartneredLossesAreHarmless` | services/match-simulator/main.go:110-131 | whatever else is lost, the record stays plausible after every prefix if every goal that arrived came with its shot and every card with its foul |
| `EndToEnd.Pipeline` | services/match-simulator/main.go:184-213 | simulator, event-api and processor as code, any random stream, lost responses, failures, deaths and restarts: never twice while reservations answer; with healthy writes and no death inside a message exactly once if a copy arrived, else never; the record is the fold of what arrived |

## Left out

- Several partitions and several processor replicas: workers share one process and its memory.
- Processor.EventProcessor.Die: a death during the dead-letter calls of an undecodable message is a death before the first of them.
- EndToEnd.Pipeline: the simulator finishes before the processor starts, and no other client posts; `EndToEnd.EventsCountExactlyOnce` covers arbitrary logs.
- Delivery.RecordsFoldTheLog: events without an ID, which the processor counts on every delivery, are excluded; event-api publishes none (`Ingest.TopicHasIDs`). `Protocol` and `Processor` model their path.
- Ingest.EventAPI.EventsHandler: the branch for an event that cannot be encoded is absent, since decoded events always encode; likewise after the critical section of the processor.
- Simulator.MatchSimulator.Run: delays are places where cancellation may strike; their length, and the settings that choose it, are not modelled.
- Processor.EventProcessor.constructor: the store was left by runs with the same TTL; one that changes from one incarnation to the next is not modelled.
- Commands that a Redis or Kafka client library retries on its own, beyond repeated copies of a publish.
- JSON bytes: decoding yields an event or fails, saving and loading a record is the identity.
- `updated_at`, tracing, logging, metric registration, HTTP and signal set-up.
- The services query-api and ml-predictor, ml training, deployment and dashboards.
