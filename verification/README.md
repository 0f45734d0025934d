# CraftRelay: a verified model of durable delivery

CraftRelay accepts events into a local SQLite journal and delivers them to Kafka. This project
models the parts of it in which order, durability and integrity are decided, and proves what they
promise over whole runs.

**Durable delivery.** The journal is a set of tables changed by seven operations (accept, update
lifecycle, create delivery row, record attempt, confirm, block, retry). `Journal` gives each as a
function on tables with an explicit store behaviour (healthy, reads fail, writes fail);
`LocalJournal` is the object whose methods, written branch by branch and column by column, are
proved to compute exactly those functions. `DeliveryRuns` puts the journal, the in-memory ordering
gate, the delivery service and the broker into one transition system. A step is one journal call
together with the gate updates that follow it, so other users of the journal may act between any
two calls and the process may stop after any of them. `DeliveryService` is the object whose
`attempt_delivery` is proved to be a run of that system, and whose outcomes say what became of the
row. `DeliveryOrder`, `GateTheorems`, `AttemptTheorems`, `JournalTheorems`, `HistoryTheorems`,
`ReloadTheorems`, `ServiceTheorems` and `RetryTheorems` hold the theorems, both what never happens
and what does; `OrderingLimits`, `JournalLimits` and `RetryLimits` show by concrete runs where a
property or a hypothesis cannot be had.

**Group commit.** `GroupCommit` cuts an event list greedily under a record and a byte limit, writes
each batch whole or not at all, and proves the cut optimal. `Segments` adds rollover to a new file
with one global sequence. `Pipeline` is the producer, the bounded channel and the writer as a
two-thread transition system, run over the tables of either candidate.

**Java client.** `EnvelopeInputs` and `Barriers` model the canonical length-prefixed bytes over real
UTF-16 texts and their UTF-8 encoding, the metadata check, and the comparison of barrier vectors.
`Tracker` is the lifecycle snapshot tracker.

SHA-256 is a parameter of every definition that uses it: each theorem holds for every function from
byte strings to 32-byte digests, so none of them rests on its strength. The texts it is applied to
are concrete, and their injectivity is proved separately. Clocks, broker answers, storage faults and
the thread schedule are inputs.

## What the proofs found

- The gate is keyed by the raw stream key while sequences are allocated per composed key. Ordering
  holds when raw and composed keys name the same streams and delivery rows are created in stream
  order; on names without NULs the first asks only that a raw key names one stream
  (`RawKeyNamesStream`). `KeysAreNeeded` and `RowOrderIsNeeded` are runs in which ordering fails
  without that or without the row order.
- A retry that starts from BLOCKED keeps `blocked_reason`, and the loader then rejects the row
  (`RetryFromBlockedDamages`, `RetryOfBlockedHappens`). Rows verify after a run exactly when no
  operation of it succeeded with arguments like these (`ReloadExactlyWhen`); no step of the service
  does (`ServiceSpoilsNothing`).
- The journal itself lets a BLOCKED row be confirmed, which `validate_transition` forbids
  (`JournalTransitions`, `ConfirmOfBlockedHappens`); runs in which only the service confirms never do
  it (`StatusChangesAreLegal`).
- `update_lifecycle` may overwrite a REPLICATED lifecycle (`OverwriteHidesReplica`); the lifecycle
  table shows every replica exactly when a run never did so (`TablesAgree`).
- A duplicate of a REPLICATED event is answered with the status DELIVERY_BLOCKED; every other status
  is told as it is stored, and no lifecycle is ever RETRYING (`DuplicateStatusExactlyWhen`,
  `NoLifecycleIsRetrying`).
- At most 32 failed sends of an event are ever settled, in every run (`RetryBudget`). Failed sends
  themselves have no bound: each one whose record, retry or block is lost, for instance to a stop
  before it is persisted, allows one more (`FailuresAreUnbounded`).
- A failed send whose record, retry or block is lost leaves its key stuck until a restart or recovery
  (`StuckExactlyWhen`); that is the only way the gate departs from the journal at an idle point
  (`GateIsExact`).
- Dots inside installation ids make topics collide (`TopicsCollide`).
- A rollover limit of 0 never makes progress (`Progress`, `ZeroLimitSpins`), stream sequences restart in
  every segment (`SequencesRepeatExactlyWhen`), and event ids are unique within a segment only
  (`RolloverForgetsIds`).
- NULs inside texts break the delivery text (`DeliveryTextNeedsNulFree`), and unpaired surrogates
  collide with question marks in the Java encodings (`SurrogateCollides`).
- `docs/canonicalization.md` describes a framing with field ids and presence markers; the code of `EnvelopeInput` writes plain length-prefixed fields, and the model follows the code.

## Model

| member | source | states |
|---|---|---|
| `DeliveryOrder.SendsAreOrdered` | crates/craftrelay-kafka-delivery/src/service.rs:87-348 | In every admissible run (any broker answers, store failures, other journal users acting between any two calls, restarts with or without recovery) the sends of a stream start at 1 and repeat or climb by one, and at each send every earlier event of the stream was persisted REPLICATED |
| `DeliveryOrder.RawKeyNamesStream` | crates/craftrelay-kafka-delivery/src/service.rs:103-114 | On names without NULs the key hypothesis asks only that the raw key names one stream |
| `DeliveryOrder.StaircaseMeans` | crates/craftrelay-kafka-delivery/src/service.rs:87-348 | The staircase shape spelled out: sends of a stream never decrease and N+1 follows an earlier send of N |
| `DeliveryOrder.RunsAreSound` | crates/craftrelay-kafka-delivery/src/service.rs:87-348 | The invariant behind it: tables, gate, the candidate in hand and the sends agree at every point of a run |
| `DeliveryOrder.StepSound` | crates/craftrelay-kafka-delivery/src/service.rs:87-372 | Every single step of the service, a restart, a recovery and every admissible journal operation keeps that invariant |
| `DeliveryOrder.FirstUndoneExists` | crates/craftrelay-kafka-delivery/src/gate.rs:41-76 | In sound tables every raw key has a first unreplicated sequence: below it all REPLICATED, from it on none |
| `DeliveryOrder.RecoveredGateAgrees` | crates/craftrelay-kafka-delivery/src/gate.rs:124-148 | A gate recovered from a complete scan, in any row order, allows exactly the first unreplicated sequence and names it to all others |
| `DeliveryOrder.SoundGateIsConservative` | crates/craftrelay-kafka-delivery/src/gate.rs:41-76 | A sound gate never allows anything beyond the first unreplicated sequence |
| `ServiceTheorems.RecoveryInRuns` | crates/craftrelay-kafka-delivery/src/service.rs:53-77 | At any idle point of any admissible run with well-formed arguments recovery succeeds; with room for all rows the gate agrees with the journal exactly, and a cut scan can only make it allow an earlier, already replicated sequence |
| `GateTheorems.GateIsExact` | crates/craftrelay-kafka-delivery/src/gate.rs:41-148 | The exact law over runs: in every admissible run, at every idle point with no restart since the start or since a complete recovery, check allows exactly the first unreplicated sequence of a key, unless a failed send of the key was lost, in which case it allows none; every other sequence is told that one |
| `GateTheorems.StuckExactlyWhen` | crates/craftrelay-kafka-delivery/src/service.rs:265-346 | At every idle point of every run an entry is in flight exactly when the record, retry or block of a failed send of its key was lost since the last restart or recovery |
| `GateTheorems.SyncedAgrees` | crates/craftrelay-kafka-delivery/src/service.rs:87-348 | The invariant behind the law: at every point in step with the journal the gate awaits the first unreplicated sequence of every key |
| `AttemptTheorems.CalmGateIsExact` | crates/craftrelay-kafka-delivery/src/gate.rs:41-148 | When persistence succeeds the law holds without exception |
| `AttemptTheorems.CalmNeverStuck` | crates/craftrelay-kafka-delivery/src/service.rs:265-346 | When persistence succeeds no key gets stuck |
| `AttemptTheorems.AttemptCatchesUp` | crates/craftrelay-kafka-delivery/src/service.rs:124-146 | After a restart without recovery an attempt of the awaited event, REPLICATED already, moves the gate to the next one |
| `OrderingLimits.RowOrderIsNeeded` | crates/craftrelay-kafka-delivery/src/gate.rs:138-143 | For every hash a run with a row for the second event only, a recovery and an attempt sends sequence 2 first: in-order row creation cannot be dropped |
| `OrderingLimits.RowOrderRunFitsKeys` | crates/craftrelay-kafka-delivery/src/service.rs:103-114 | That run does satisfy the key hypothesis |
| `OrderingLimits.KeysAreNeeded` | crates/craftrelay-kafka-delivery/src/service.rs:103-114 | For every hash two streams that share a raw key let sequence 2 of one be sent first: that a raw key names one stream cannot be dropped |
| `OrderingLimits.KeyRunCreatesInOrder` | crates/craftrelay-kafka-delivery/src/gate.rs:138-143 | That run does create its rows in stream order |
| `Gate.RecoveredEntry` | crates/craftrelay-kafka-delivery/src/gate.rs:124-148 | A recovered entry holds the highest replicated and the lowest unreplicated sequence of its key, whatever the scan order |
| `Gate.OrderingGate.CheckSequence` | crates/craftrelay-kafka-delivery/src/gate.rs:41-76 | The early-return method equals the decision function |
| `Gate.OrderingGate.MarkInFlightSequence` | crates/craftrelay-kafka-delivery/src/gate.rs:78-89 | New gate state: in flight set, blocking cleared, other keys untouched |
| `Gate.OrderingGate.MarkBlockingSequence` | crates/craftrelay-kafka-delivery/src/gate.rs:91-104 | New gate state: blocking set, in flight cleared only for this sequence |
| `Gate.OrderingGate.MarkCompletedSequence` | crates/craftrelay-kafka-delivery/src/gate.rs:106-122 | New gate state: completed set, marks of this sequence cleared |
| `Gate.OrderingGate.RecoverFromScan` | crates/craftrelay-kafka-delivery/src/gate.rs:124-148 | The loop folds the scan into a fresh gate |
| `ServiceObject.DeliveryService.AttemptDelivery` | crates/craftrelay-kafka-delivery/src/service.rs:87-348 | The object ends in the world the transition system reaches by the attempt; Delivered means REPLICATED at those coordinates, a retry RETRYING at that time, stopped BLOCKED for that reason, failed or held an unmoved row; it is held exactly when the gate holds the loaded event |
| `ServiceObject.MovedIsReported` | crates/craftrelay-kafka-delivery/src/service.rs:87-348 | A row the attempt moved is reported as what it became: Delivered iff REPLICATED, retry iff RETRYING, stopped iff BLOCKED |
| `ServiceObject.AttemptIsRun` | crates/craftrelay-kafka-delivery/src/service.rs:87-348 | An attempt is a run of five steps, so the theorems about runs apply to the object |
| `ServiceObject.AttemptSplits` | crates/craftrelay-kafka-delivery/src/service.rs:87-348 | An attempt ends after loading, after persisting a refusal, or after sending and settling; no other step changes anything |
| `ServiceObject.DeliveryService.RecoverGate` | crates/craftrelay-kafka-delivery/src/service.rs:53-77 | Rebuilds the gate from at most 10000 verified rows; a failed scan leaves it unchanged |
| `ServiceObject.DeliveryService.PersistBlockBeforeSend` | crates/craftrelay-kafka-delivery/src/service.rs:350-372 | Persists the block, then marks the gate, and reports the reason only when it was persisted |
| `ServiceObject.DeliveryService.SendAndSettle` | crates/craftrelay-kafka-delivery/src/service.rs:204-264 | Reads the payload, records the send and acts on the answer as the step functions say; the outcome is what became of the row |
| `ServiceObject.DeliveryService.HandleSuccess` | crates/craftrelay-kafka-delivery/src/service.rs:237-263 | Reports Delivered exactly when the confirmation was persisted now or before with the same coordinates, and the row is then REPLICATED at them |
| `ServiceObject.DeliveryService.HandleFailure` | crates/craftrelay-kafka-delivery/src/service.rs:265-346 | Records the attempt first, then retries or blocks; reports the persisted retry time or reason, and a failure only for an unmoved row; marks the gate when settled |
| `AttemptTheorems.AttemptDelivers` | crates/craftrelay-kafka-delivery/src/service.rs:87-264 | At any point of any run an attempt of a sendable event that the broker takes, with a healthy store, leaves it REPLICATED at the broker's coordinates |
| `AttemptTheorems.AttemptSettles` | crates/craftrelay-kafka-delivery/src/service.rs:265-346 | One that fails leaves it RETRYING at failure time + min(1000 * 2^(n-1), 300000) for BrokerUnavailable, Timeout and QueueFull below 32 attempts, and BLOCKED with its reason otherwise |
| `AttemptTheorems.SendableIsSent` | crates/craftrelay-kafka-delivery/src/service.rs:87-236 | A verified PENDING or RETRYING row on the profile's route whose sequence the gate allows is sent, once, with its stored payload |
| `AttemptTheorems.SendsAreGenuine` | crates/craftrelay-kafka-delivery/src/service.rs:204-235 | In every run every send is that of a stored event, on its own stream and topic, with its verified stored payload |
| `AttemptTheorems.SuccessIsPersistedExactlyWhen` | crates/craftrelay-kafka-delivery/src/service.rs:237-263 | In every run a broker's success is persisted if and only if the store is healthy, the topic is the routed one and nobody updated the verified row since it was loaded; the row then shows the coordinates |
| `AttemptTheorems.FailureIsRecordedExactlyWhen` | crates/craftrelay-kafka-delivery/src/service.rs:265-295 | In every run a failure is recorded if and only if the store is healthy and the row verifies |
| `AttemptTheorems.FailureIsSettledExactlyWhen` | crates/craftrelay-kafka-delivery/src/service.rs:296-346 | In every run a recorded failure is settled if and only if the store is healthy and the row has not moved, and the row then waits or is BLOCKED as error and count say |
| `AttemptTheorems.RefusalIsPersistedExactlyWhen` | crates/craftrelay-kafka-delivery/src/service.rs:350-372 | A refused event is BLOCKED with the reason if and only if the store is healthy and the row has not moved |
| `AttemptTheorems.RefusedExactlyWhen` | crates/craftrelay-kafka-delivery/src/service.rs:147-203 | An event is refused if and only if its route, fingerprint, profile or topic differs from the stored one or the profile is unsafe |
| `AttemptTheorems.CalmSuccessReplicates` | crates/craftrelay-kafka-delivery/src/service.rs:237-263 | In calm runs a success on the routed topic always leaves the event REPLICATED |
| `ServiceTheorems.StatusChangesAreLegal` | crates/craftrelay-kafka-delivery/src/replicated.rs:11-41 | In every run in which only the service confirms, each status change is one validate_transition permits, even when others block or retry between its calls |
| `ServiceTheorems.RunReloadsExactlyWhen` | crates/craftrelay-journal/src/lib.rs:1843-2005 | After any run of the service, wherever the process stopped, every delivery row verifies if and only if no step succeeded with arguments the loader rejects |
| `ServiceTheorems.ServiceSpoilsNothing` | crates/craftrelay-kafka-delivery/src/service.rs:87-372 | In any run no step of the service itself leaves a row that fails to verify, unless the broker answers with negative coordinates |
| `ServiceTheorems.RunsReload` | crates/craftrelay-journal/src/lib.rs:1843-2005 | So every row verifies in every run with sane broker answers and well-formed arguments from other users, confirmations of BLOCKED rows included |
| `RetryTheorems.RetryBudget` | crates/craftrelay-kafka-delivery/src/service.rs:265-346 | In every run, with no hypothesis on store, broker, other users or restarts: at most 32 failed sends of an event are settled, it fails at most 32 times plus once for each failure whose persistence was lost, and after 32 settled ones its row is never open to the service again |
| `RetryTheorems.FailuresAreAccounted` | crates/craftrelay-kafka-delivery/src/service.rs:265-346 | In every run each failed send is settled, lost, or the one being settled |
| `RetryTheorems.RunsAreBudgeted` | crates/craftrelay-kafka-delivery/src/service.rs:265-346 | The invariant behind the budget: an open row, and the candidate in hand, has settled at most 31 failures and counts them all |
| `RetryTheorems.BudgetEndsBlocked` | crates/craftrelay-kafka-delivery/src/service.rs:296-346 | Unless other users confirm or retry it, an event with 32 settled failures is BLOCKED from then on |
| `RetryTheorems.AttemptsAreLogged` | crates/craftrelay-journal/src/lib.rs:969-1046 | After any run attempt_count is the number of attempts recorded by anyone, and the log is exactly the newest 16 of them |
| `RetryTheorems.AttemptsAreAccounted` | crates/craftrelay-kafka-delivery/src/service.rs:265-295 | In every service run the count is the failed sends, less those whose record was refused, plus the attempts of others |
| `RetryTheorems.AtMost32Failures` | crates/craftrelay-kafka-delivery/src/service.rs:265-346 | When persistence succeeds an event fails at most 32 sends, the 32nd leaves it BLOCKED, attempt_count counts them all and the log holds the newest 16, numbered consecutively |
| `RetryTheorems.CalmRunsLoseNothing` | crates/craftrelay-kafka-delivery/src/service.rs:265-346 | With a healthy store, no other writer of delivery rows and no stop while settling, no failure is lost |
| `RetryLimits.FailuresAreUnbounded` | crates/craftrelay-kafka-delivery/src/service.rs:287-346 | For every m a run of m recorded failures, each followed by a stop before it is settled, has m failed sends: the bound of 32 fails from m = 33 on |
| `ServiceTheorems.RunIsJournalRun` | crates/craftrelay-kafka-delivery/src/service.rs:87-372 | The tables of a service run are those of a journal run, so every journal theorem holds of them |
| `ServiceTheorems.RunTablesConsistent` | crates/craftrelay-kafka-delivery/src/service.rs:87-348 | Service runs keep the journal invariant |
| `Delivery.BackoffSchedule` | crates/craftrelay-kafka-delivery/src/retry.rs:11-22 | The delay of attempt n is min(1000 * 2^(n-1), 300000), without saturation, it never shrinks, and the cap is reached exactly from the tenth on |
| `Delivery.ExhaustedIsUnreachable` | crates/craftrelay-kafka-delivery/src/retry.rs:11-26 | should_retry never lets an exhausted schedule through |
| `Delivery.ResolveRouting` | crates/craftrelay-kafka-delivery/src/routing.rs:27-66 | Resolves exactly version 1 with all fields filled; gives topic, composed stream key and the hash of the routing text |
| `Delivery.SameTopicExactlyWhen` | crates/craftrelay-kafka-delivery/src/routing.rs:40-43 | Two routes share a topic exactly when their dotted names agree; without dots in the installation ids, exactly when installations and namespaces agree |
| `Delivery.TopicsCollide` | crates/craftrelay-kafka-delivery/src/routing.rs:40-43 | With a dot in the id two installations share a topic |
| `Delivery.RoutingTextDeterminesRoute` | crates/craftrelay-kafka-delivery/src/routing.rs:44-62 | On NUL-free fields two routing texts are equal exactly when stream, event type and routing version are |
| `JournalTheorems.AcceptanceOrder` | crates/craftrelay-journal/src/lib.rs:547-779 | After any run journal sequences are 1..n, each composed stream holds exactly 1..head, and both orders agree within a stream |
| `JournalTheorems.EnvelopesOnlyGrow` | crates/craftrelay-journal/src/lib.rs:547-779 | Envelopes are never changed or removed |
| `HistoryTheorems.RequestStays` | crates/craftrelay-journal/src/lib.rs:666-779 | From acceptance on, at every later point, the stored envelope carries every field of the request, both versions, length, reference and reception time included, and the payload reads back |
| `HistoryTheorems.AcceptedExactlyWhen` | crates/craftrelay-journal/src/lib.rs:547-640 | At any point of any run a request is accepted, a duplicate, a fingerprint conflict or a sequence conflict exactly as the accepted events decide |
| `HistoryTheorems.WriteLogShowsHistory` | crates/craftrelay-journal/src/lib.rs:1772-1794 | The write log of an event is exactly the newest 16 of its answered requests, each with its outcome |
| `JournalTheorems.AcceptedStays` | crates/craftrelay-journal/src/lib.rs:547-779 | What an acceptance answered is stored at every later point of the run |
| `JournalTheorems.RetryIsIdempotent` | crates/craftrelay-journal/src/lib.rs:580-640 | A retry at any later point returns the original sequences and checksum, the stored lifecycle revision, and the stored status unless it is REPLICATED, which is told as BLOCKED; another fingerprint is refused |
| `JournalTheorems.DuplicateStatusExactlyWhen` | crates/craftrelay-journal/src/lib.rs:590-594 | In any run the status a duplicate is told is the stored one if and only if the event is not REPLICATED, and the revision is always the stored one |
| `JournalTheorems.NoLifecycleIsRetrying` | crates/craftrelay-journal/src/lib.rs:813-866 | In no run is a lifecycle RETRYING |
| `JournalLimits.ReplicaIsToldBlocked` | crates/craftrelay-journal/src/lib.rs:590-594 | A run after which a duplicate of a REPLICATED event is told BLOCKED |
| `JournalTheorems.AcceptedOnce` | crates/craftrelay-journal/src/lib.rs:1443-1465 | An event id is accepted at most once in any run |
| `JournalTheorems.OperationSequencesRise` | crates/craftrelay-journal/src/lib.rs:1467-1499 | Accepted operation sequences strictly increase per producer |
| `JournalRuns.RunsAreConsistent` | crates/craftrelay-journal/src/lib.rs:547-1302 | Order, heads, keys, checksums, producer order and bounded logs hold after any run of all seven operations |
| `JournalRuns.StreamOrder` | crates/craftrelay-journal/src/lib.rs:1511-1533 | Journal order and stream order agree within a stream |
| `JournalRuns.StreamDense` | crates/craftrelay-journal/src/lib.rs:1511-1533 | Every number up to the head is held by an envelope of the stream |
| `HistoryTheorems.RunSucceedsExactlyWhen` | crates/craftrelay-journal/src/lib.rs:813-1302 | At any point of any run create, record, confirm, block, retry and update_lifecycle succeed if and only if the store is healthy and the row or lifecycle is as the caller expects it: verified, not REPLICATED, at that revision, on that route |
| `HistoryTheorems.SucceedsExactlyWhen` | crates/craftrelay-journal/src/lib.rs:813-1302 | The same of any intact tables |
| `HistoryTheorems.AlreadyConfirmedExactlyWhen` | crates/craftrelay-journal/src/lib.rs:1070-1093 | A confirmation is answered as already made if and only if row and lifecycle are REPLICATED at those coordinates |
| `HistoryTheorems.RowShowsHistory` | crates/craftrelay-journal/src/lib.rs:902-1302 | After any run a row exists if and only if one was created, and shows its creation, its last successful write and the last error recorded since |
| `HistoryTheorems.LifecycleShowsHistory` | crates/craftrelay-journal/src/lib.rs:813-866 | After any run a lifecycle has the status its last successful update gave it |
| `JournalTheorems.RefusalChangesNothing` | crates/craftrelay-journal/src/lib.rs:1048-1302 | Every result but Updated leaves all tables unchanged |
| `JournalTheorems.RevisionCountsUpdates` | crates/craftrelay-journal/src/lib.rs:1048-1302 | delivery_revision is one plus the successful confirms, blocks and retries of the run |
| `JournalTheorems.OneUpdatePerRevision` | crates/craftrelay-journal/src/lib.rs:1048-1302 | Per event and expected revision at most one confirm, block or retry succeeds, and later ones name higher revisions |
| `JournalTheorems.RevisionNeverFalls` | crates/craftrelay-journal/src/lib.rs:1048-1302 | The delivery revision never falls |
| `JournalTheorems.LifecycleRevisionCountsUpdates` | crates/craftrelay-journal/src/lib.rs:813-866 | The lifecycle revision is one plus the successful confirms, blocks and lifecycle updates |
| `JournalTheorems.ReplicatedIsTerminal` | crates/craftrelay-kafka-delivery/src/replicated.rs:11-41 | Once REPLICATED, status, topic, partition, offset, fingerprint, profile and confirmation time never change in any later run |
| `JournalTheorems.JournalTransitions` | crates/craftrelay-kafka-delivery/src/replicated.rs:11-41 | A status change by the journal is permitted by validate_transition if and only if it is not a confirmation of a BLOCKED row |
| `JournalTheorems.BlockedIsConfirmed` | crates/craftrelay-journal/src/lib.rs:1048-1165 | A healthy confirmation of a verified BLOCKED row with the same route succeeds, which validate_transition forbids |
| `JournalLimits.ConfirmOfBlockedHappens` | crates/craftrelay-journal/src/lib.rs:1048-1165 | A run in which a BLOCKED row becomes REPLICATED |
| `JournalTheorems.TablesAgree` | crates/craftrelay-journal/src/lib.rs:1048-1245 | In every run a REPLICATED lifecycle implies a confirmed REPLICATED row; the converse holds after a run if and only if no operation of it was a healthy lifecycle update of a REPLICATED event at its current revision |
| `JournalTheorems.OverwriteSucceedsExactlyWhen` | crates/craftrelay-journal/src/lib.rs:813-866 | A lifecycle update of a REPLICATED event succeeds if and only if the store is healthy and it names the current revision |
| `JournalTheorems.OverwriteHidesReplica` | crates/craftrelay-journal/src/lib.rs:827-834 | Such an update hides the replica in the lifecycle table |
| `JournalLimits.OverwriteHappens` | crates/craftrelay-journal/src/lib.rs:827-834 | A run after which a REPLICATED row is hidden |
| `JournalTheorems.ReloadCreate` | crates/craftrelay-journal/src/lib.rs:902-967 | The loader accepts a created row if and only if topic and profile are non-empty and the version is positive |
| `JournalTheorems.ReloadRecord` | crates/craftrelay-journal/src/lib.rs:969-1046 | The loader accepts the row after every recorded attempt |
| `JournalTheorems.ReloadConfirm` | crates/craftrelay-journal/src/lib.rs:1048-1165 | The loader accepts a confirmed row if and only if partition and offset are non-negative and the routing fields are filled |
| `JournalTheorems.ReloadBlock` | crates/craftrelay-journal/src/lib.rs:1170-1245 | The loader accepts a blocked row if and only if the reason is non-empty |
| `JournalTheorems.ReloadRetry` | crates/craftrelay-journal/src/lib.rs:1247-1302 | The loader accepts a row after a retry if and only if the retry did not start from BLOCKED |
| `JournalTheorems.RetryFromBlockedDamages` | crates/craftrelay-journal/src/lib.rs:1247-1302 | A healthy retry of a verified BLOCKED row succeeds and leaves a row the loader rejects |
| `JournalLimits.RetryOfBlockedHappens` | crates/craftrelay-journal/src/lib.rs:1270-1274 | A run in which that happens |
| `ReloadTheorems.ReloadExactlyWhen` | crates/craftrelay-journal/src/lib.rs:902-1302 | After any run all rows verify if and only if no operation of it succeeded with arguments the loader rejects; a damaged row is never written again |
| `JournalTheorems.SealVerifies` | crates/craftrelay-journal/src/lib.rs:1843-2005 | A row stored with the checksum of its in-memory record loads if and only if it meets the status rules |
| `JournalObject.LocalJournal.AcceptEvent` | crates/craftrelay-journal/src/lib.rs:547-779 | The object method with its early returns equals the table function, refusals included |
| `JournalObject.LocalJournal.AllocateJournalSequence` | crates/craftrelay-journal/src/lib.rs:1501-1509 | The loop finds the maximal journal sequence plus one |
| `JournalObject.LocalJournal.RecordWriteAttempt` | crates/craftrelay-journal/src/lib.rs:1772-1794 | Appends to the write log and keeps the newest 16 |
| `JournalObject.LocalJournal.UpdateLifecycleStatus` | crates/craftrelay-journal/src/lib.rs:813-866 | Compare-and-set of the lifecycle against the table function |
| `JournalObject.LocalJournal.CreateDeliveryPending` | crates/craftrelay-journal/src/lib.rs:902-967 | The inserted columns give the row whose checksum was computed |
| `JournalObject.LocalJournal.RecordDeliveryAttempt` | crates/craftrelay-journal/src/lib.rs:969-1046 | The column-wise update gives the row whose checksum was computed; the log keeps the newest 16 |
| `JournalObject.LocalJournal.ConfirmReplicatedDelivery` | crates/craftrelay-journal/src/lib.rs:1048-1165 | All branches and the column-wise update of both tables equal the table function |
| `JournalObject.LocalJournal.BlockDelivery` | crates/craftrelay-journal/src/lib.rs:1170-1245 | All branches and the column-wise update of both tables equal the table function |
| `JournalObject.LocalJournal.UpdateDeliveryRetry` | crates/craftrelay-journal/src/lib.rs:1247-1302 | All branches and the column-wise update, which keeps blocked_reason, equal the table function |
| `JournalObject.LocalJournal.ScanDeliveryGateStates` | crates/craftrelay-journal/src/lib.rs:1371-1401 | The accumulating loop returns the rows in journal order up to the limit, or nothing when one fails to verify |
| `Records.DeliveryTextDeterminesRow` | crates/craftrelay-journal/src/lib.rs:1796-1831 | On NUL-free texts two delivery texts are equal exactly when event and row are, apart from updated_at_ms, the checksum and present-but-empty options |
| `Records.DeliveryTextNeedsNulFree` | crates/craftrelay-journal/src/lib.rs:1796-1831 | With a NUL inside a field two different rows share one text |
| `Records.EnvelopeBytesDetermineEnvelope` | crates/craftrelay-journal/src/lib.rs:1541-1595 | On NUL-free texts two envelopes hash the same bytes exactly when they differ in checksum and reception time only |
| `Records.ComposedKeyInjective` | crates/craftrelay-journal/src/lib.rs:653-657 | The composed stream key determines its four parts |
| `NulText.ChecksumHex` | crates/craftrelay-journal/src/lib.rs:1833-1841 | The push loop gives the 64 NUL-free lower-case digits |
| `GroupCommit.NextBatchEnd` | crates/craftrelay-journal-bench/src/candidate.rs:334-354 | The loop ends at the largest legal batch: one event, or several within both limits |
| `GroupCommit.BatchSize` | crates/craftrelay-journal-bench/src/candidate.rs:334-354 | The batch is legal and non-empty, and no longer one is legal |
| `GroupCommit.GreedyCut` | crates/craftrelay-journal-bench/src/candidate.rs:393-397 | The batches are legal and their concatenation is the event list |
| `GroupCommit.GreedyIsOptimal` | crates/craftrelay-journal-bench/src/candidate.rs:334-354 | No legal contiguous cut of the list has fewer batches |
| `GroupCommit.GreedyStaysAhead` | crates/craftrelay-journal-bench/src/candidate.rs:334-354 | From any point of the list on, the greedy cut needs no more batches than a legal cut of the whole |
| `GroupCommit.CommitsExactlyWhen` | crates/craftrelay-journal-bench/src/candidate.rs:252-331 | A transaction commits if and only if its event ids are new and distinct and no write fails |
| `GroupCommit.WriteAllKeeps` | crates/craftrelay-journal-bench/src/candidate.rs:216-331 | A committed transaction keeps journal and stream sequences gapless, ids unique and the tables and heads in agreement |
| `GroupCommit.ListAccounts` | crates/craftrelay-journal-bench/src/candidate.rs:385-437 | Results and metrics account for every event, failed batches included, in as many transactions as the greedy cut has batches |
| `GroupCommit.ListStores` | crates/craftrelay-journal-bench/src/candidate.rs:385-437 | The rows grow by exactly the events with a receipt, in order, and the receipts are theirs |
| `GroupCommit.ListIsAtomic` | crates/craftrelay-journal-bench/src/candidate.rs:385-437 | The results fall into one all-or-nothing part per batch of the greedy cut; the metrics count the committed and failed parts and name the largest committed one |
| `GroupCommit.ListWritesExactlyWhen` | crates/craftrelay-journal-bench/src/candidate.rs:385-437 | An event gets a receipt if and only if its batch of the greedy cut has distinct ids, new to the rows kept before it, and meets no fault |
| `GroupCommit.FreshListIsWritten` | crates/craftrelay-journal-bench/src/candidate.rs:385-437 | With fresh distinct ids and no faults every event is written |
| `GroupCommit.MonolithicCandidate.WriteTransaction` | crates/craftrelay-journal-bench/src/candidate.rs:398-412 | With the sequence read as MAX + 1 for every event, the transaction commits all events or rolls all back |
| `GroupCommit.MonolithicCandidate.WriteBatch` | crates/craftrelay-journal-bench/src/candidate.rs:385-437 | Equals the list specification; every event accounted for; no legal cut has fewer transactions |
| `Segments.IterateKeepsTiling` | crates/craftrelay-journal-bench/src/candidate.rs:556-627 | For any limit an iteration keeps the tiling: segment ranges cover 1..global_journal_seq and all segments but the last are exactly full |
| `Segments.TilingMeans` | crates/craftrelay-journal-bench/src/candidate.rs:482-533 | The files read in order hold the journal sequences 1..global_journal_seq |
| `Segments.Progress` | crates/craftrelay-journal-bench/src/candidate.rs:555-566 | An iteration takes an event if and only if the rollover limit is not 0 |
| `Segments.ZeroLimitSpins` | crates/craftrelay-journal-bench/src/candidate.rs:558-566 | With a limit of 0 any number of iterations takes no event and opens one segment each |
| `Segments.SegmentsAccount` | crates/craftrelay-journal-bench/src/candidate.rs:543-629 | Results and metrics account for every event, the files grow by exactly the events with a receipt, and the global sequence by as many |
| `Segments.SegmentsWriteExactlyWhen` | crates/craftrelay-journal-bench/src/candidate.rs:543-629 | An event gets a receipt exactly as a reference model that knows only the ids and the count of the active segment decides |
| `Segments.FreshSegmentsAreWritten` | crates/craftrelay-journal-bench/src/candidate.rs:543-629 | With distinct ids new to the active segment and no faults every event is written |
| `Segments.SequencesRepeatExactlyWhen` | crates/craftrelay-journal-bench/src/candidate.rs:576-577 | A stream sequence occurs in two segments if and only if its stream has rows in two segments |
| `Segments.RolloverForgetsIds` | crates/craftrelay-journal-bench/src/candidate.rs:520-533 | After a rollover an event with any id, stored before or not, is written |
| `Segments.SegmentedCandidate.constructor` | crates/craftrelay-journal-bench/src/candidate.rs:506-518 | Opens with one empty segment, which tiles nothing |
| `Segments.SegmentedCandidate.RollSegment` | crates/craftrelay-journal-bench/src/candidate.rs:520-533 | New state with one more empty segment |
| `Segments.SegmentedCandidate.NeedsRollover` | crates/craftrelay-journal-bench/src/candidate.rs:535-541 | True exactly when a limit is set and reached |
| `Segments.SegmentedCandidate.RemainingInSegment` | crates/craftrelay-journal-bench/src/candidate.rs:561-564 | The room left; the subtraction never underflows |
| `Segments.SegmentedCandidate.WriteTransaction` | crates/craftrelay-journal-bench/src/candidate.rs:569-620 | Commits all events of the batch and updates the segment, or changes nothing |
| `Segments.SegmentedCandidate.WriteBatch` | crates/craftrelay-journal-bench/src/candidate.rs:543-629 | Terminates for a limit of at least 1, keeps the tiling and accounts for every event |
| `Pipeline.Conservation` | crates/craftrelay-journal-bench/src/ingress.rs:111-171 | Under every interleaving, when the writer has finished: submitted = accepted + rejected, accepted = written + failed, and the store holds the written events numbered in acceptance order |
| `Pipeline.StoreConservation` | crates/craftrelay-journal-bench/src/ingress.rs:111-171 | The same over whole schedules with either candidate and its own tables as the store, which end sound and hold exactly the written events in acceptance order |
| `Pipeline.OfferExactlyWhen` | crates/craftrelay-journal-bench/src/ingress.rs:126-128 | At any moment of any schedule an event is rejected if and only if the channel holds capacity unreceived events, or without a buffer nobody waits, and otherwise accepted |
| `Pipeline.RejectedExactlyWhenFull` | crates/craftrelay-journal-bench/src/ingress.rs:111-171 | Along every schedule exactly the events offered to a full channel are rejected |
| `Pipeline.RoomForAll` | crates/craftrelay-journal-bench/src/ingress.rs:111-171 | A channel with room for all events rejects none |
| `Pipeline.EverythingIsWritten` | crates/craftrelay-journal-bench/src/ingress.rs:111-171 | With room for all, distinct ids and no storage fault either candidate ends with every generated event, in order, and no error |
| `Pipeline.DrivenIsReached` | crates/craftrelay-journal-bench/src/ingress.rs:111-171 | Every schedule with a candidate is a schedule of the pipeline whose store is the candidate's tables |
| `Pipeline.DrivenNoDeadlock` | crates/craftrelay-journal-bench/src/ingress.rs:111-171 | With a candidate as the runner some move is possible until the writer has finished |
| `Pipeline.EveryScheduleKeeps` | crates/craftrelay-journal-bench/src/ingress.rs:111-171 | At every moment no event is lost, duplicated or reordered, queue and batch are bounded and the batch is empty whenever the writer waits |
| `Pipeline.SchedulesEnd` | crates/craftrelay-journal-bench/src/ingress.rs:111-171 | Every schedule has at most 5 * total + 2 steps |
| `Pipeline.NoDeadlock` | crates/craftrelay-journal-bench/src/ingress.rs:111-171 | Until the writer has finished some step is possible |
| `Pipeline.MonolithicRuns` | crates/craftrelay-journal-bench/src/candidate.rs:681-692 | The monolithic write_batch is a runner the pipeline may rely on |
| `Pipeline.SegmentedRuns` | crates/craftrelay-journal-bench/src/candidate.rs:681-692 | The segmented write_batch is one too |
| `Pipeline.CollectErrors` | crates/craftrelay-journal-bench/src/ingress.rs:184-195 | The loop keeps the first 64 errors |
| `Pipeline.BoundedAdds` | crates/craftrelay-journal-bench/src/ingress.rs:184-195 | Cutting after every batch keeps the same errors as cutting once |
| `Pipeline.MergeMetrics` | crates/craftrelay-journal-bench/src/ingress.rs:173-182 | Adds the counters and keeps the larger maximum |
| `GroupCommit.MergeAccounts` | crates/craftrelay-journal-bench/src/ingress.rs:173-182 | Merged metrics account for two lists written one after the other |
| `EnvelopeInputs.CanonicalBytes` | java/craftrelay-client-core/src/main/java/io/craftrelay/client/EnvelopeInput.java:67-103 | The buffer ends as the framed fields in order, metadata loop included |
| `EnvelopeInputs.EncodingRoundTrip` | java/craftrelay-client-core/src/main/java/io/craftrelay/client/EnvelopeInput.java:67-103 | A decoder recovers every field from the bytes, up to unpaired surrogates |
| `EnvelopeInputs.EqualBytesExactlyWhen` | java/craftrelay-client-core/src/main/java/io/craftrelay/client/EnvelopeInput.java:54-103 | Two inputs have equal bytes if and only if their fields are equal and their metadata lists are permutations of each other, texts compared up to unpaired surrogates |
| `EnvelopeInputs.WellFormedInputs` | java/craftrelay-client-core/src/main/java/io/craftrelay/client/EnvelopeInput.java:54-103 | On well-formed texts the decoder returns the record and the equivalence holds on the fields themselves |
| `EnvelopeInputs.ConstructedIsValid` | java/craftrelay-client-core/src/main/java/io/craftrelay/client/EnvelopeInput.java:27-55 | Sorting the metadata keeps the record valid |
| `EnvelopeInputs.ValidateAndSort` | java/craftrelay-client-core/src/main/java/io/craftrelay/client/CanonicalMetadata.java:19-46 | Accepts exactly the lists within 32 entries, 8192 bytes and without a repeated key, returns them sorted, and names the bound the others break |
| `EnvelopeInputs.CanonicalOrder` | java/craftrelay-client-core/src/main/java/io/craftrelay/client/CanonicalMetadata.java:11-14 | The result is the ordered permutation, and equal for two lists exactly when they are permutations |
| `JavaText.Utf8RoundTrip` | java/craftrelay-client-core/src/main/java/io/craftrelay/client/EnvelopeInput.java:96-98 | Decoding the UTF-8 bytes of any UTF-16 text gives the text with unpaired surrogates replaced |
| `JavaText.Utf8Injective` | java/craftrelay-client-core/src/main/java/io/craftrelay/client/EnvelopeInput.java:96-98 | Two texts have equal bytes exactly when they differ in unpaired surrogates only |
| `JavaText.WellFormedIsKept` | java/craftrelay-client-core/src/main/java/io/craftrelay/client/EnvelopeInput.java:96-98 | Replacement leaves exactly the well-formed texts alone |
| `JavaText.SurrogateCollides` | java/craftrelay-client-core/src/main/java/io/craftrelay/client/EnvelopeInput.java:96-98 | An unpaired surrogate and a question mark have the same bytes |
| `Framing.ItemsRoundTrip` | java/craftrelay-client-core/src/main/java/io/craftrelay/client/EnvelopeInput.java:96-103 | Framed integers and blocks read back in their kinds are those written, and what follows is left untouched |
| `Framing.DataOutput.PutBytes` | java/craftrelay-client-core/src/main/java/io/craftrelay/client/EnvelopeInput.java:100-103 | Appends the length and the bytes as one block |
| `Framing.DataOutput.PutText` | java/craftrelay-client-core/src/main/java/io/craftrelay/client/EnvelopeInput.java:96-98 | Appends the UTF-8 bytes as one block |
| `Barriers.Compare` | java/craftrelay-client-core/src/main/java/io/craftrelay/client/BarrierVectorComparison.java:10-29 | The map loops return the component-wise comparison of the two partition vectors |
| `Barriers.Offsets` | java/craftrelay-client-core/src/main/java/io/craftrelay/client/BarrierVectorComparison.java:31-37 | The map holds every partition once under its key and nothing else |
| `Barriers.KeyInjective` | java/craftrelay-client-core/src/main/java/io/craftrelay/client/BarrierVectorComparison.java:34-34 | The key determines topic and partition, for topics with NULs too |
| `Barriers.Reflexive` | java/craftrelay-client-core/src/main/java/io/craftrelay/client/BarrierVectorComparison.java:10-29 | A barrier equals itself |
| `Barriers.Antisymmetric` | java/craftrelay-client-core/src/main/java/io/craftrelay/client/BarrierVectorComparison.java:10-29 | Barriers that reach each other are EQUAL, and EQUAL ones hold the same offsets |
| `Barriers.Transitive` | java/craftrelay-client-core/src/main/java/io/craftrelay/client/BarrierVectorComparison.java:10-29 | EQUAL and ADVANCED compose, ADVANCED if either step is |
| `Barriers.ChainsNeverRegress` | java/craftrelay-client-core/src/main/java/io/craftrelay/client/BarrierVectorComparison.java:10-29 | In a chain of accepted barriers no later one is behind an earlier one, and it is ADVANCED exactly when some step between them was |
| `Barriers.SortPartitions` | java/craftrelay-client-core/src/main/java/io/craftrelay/client/ProjectionBarrier.java:37-54 | Rejects exactly the counts outside 1..1024 and the lists with a repeated partition; the adjacent check suffices because of the sort |
| `Barriers.VectorIsCanonical` | java/craftrelay-client-core/src/main/java/io/craftrelay/client/ProjectionBarrier.java:37-40 | The stored vector depends on the partitions only, not on their order |
| `Barriers.CanonicalBytes` | java/craftrelay-client-core/src/main/java/io/craftrelay/client/ProjectionBarrier.java:63-86 | The buffer ends as the framed fields in order |
| `Barriers.BarrierRoundTrip` | java/craftrelay-client-core/src/main/java/io/craftrelay/client/ProjectionBarrier.java:63-95 | A decoder recovers every covered field from the bytes |
| `Barriers.EqualBarrierBytesExactlyWhen` | java/craftrelay-client-core/src/main/java/io/craftrelay/client/ProjectionBarrier.java:63-95 | Equal bytes exactly when all fields but capture time and barrier checksum are equal, topics and ids up to unpaired surrogates |
| `Tracker.LifecycleSnapshotTracker.Apply` | java/craftrelay-client-core/src/main/java/io/craftrelay/client/LifecycleSnapshotTracker.java:9-23 | New state and decision; a conflict leaves the state unchanged |
| `Tracker.HoldsFirstNewest` | java/craftrelay-client-core/src/main/java/io/craftrelay/client/LifecycleSnapshotTracker.java:9-23 | After any arrivals the tracker holds the first one of the highest revision |
| `Tracker.AnswersExactlyWhen` | java/craftrelay-client-core/src/main/java/io/craftrelay/client/LifecycleSnapshotTracker.java:9-23 | Every answer from the arrivals alone: applied iff newer than all before, stale iff overtaken, else duplicate or conflict by the checksum of the first arrival of that revision |
| `Tracker.Converges` | java/craftrelay-client-core/src/main/java/io/craftrelay/client/LifecycleSnapshotTracker.java:9-23 | Every order of the same agreeing snapshots, with any repetitions, ends at the same revision and checksum |
| `Tracker.RevisionNeverDecreases` | java/craftrelay-client-core/src/main/java/io/craftrelay/client/LifecycleSnapshotTracker.java:9-23 | The revision never decreases along a run |
| `Tracker.NoConflictExactlyWhen` | java/craftrelay-client-core/src/main/java/io/craftrelay/client/LifecycleSnapshotTracker.java:18-22 | No arrival order can raise a conflict if and only if the snapshots have one checksum per revision |

## Left out

- SHA-256, HMAC and token MAC validation: library work; the hash is a parameter.
- SQLite pragmas, schema creation and migration, file sizes, storage metrics: I/O without logic. A transaction is an atomic update of the tables that either happens or fails as a whole; a commit whose outcome is unknown to the caller is not modelled.
- Row decoding: column types, blob lengths and unknown status strings that only tampering with the file could produce are not modelled; a stored row that fails its checksum is.
- Detail texts of errors: results carry the kind of failure, not its message. `block_delivery` reasons and the error code of an attempt are kept, because checksums cover them.
- Integer widths: revisions, sequences and counters are unbounded integers; the backoff's saturating arithmetic and the fixed-width encodings are modelled explicitly.
- `scan_pending_deliveries`, `scan_retrying_deliveries`, `get_status_by_journal_seq` and `verify_payload`: queries that would only add easy members.
- Headers of a send request: constants of the route and the profile.
- Kafka production profile validation: an unsafe profile is one input of the service, its rule list is not modelled.
- `repair.rs`, `barrier_capture.rs`, manifest validation and drift detection: not part of this model.
- DeliveryOrder.SendsAreOrdered: only the service confirms deliveries in the runs considered; other users may do anything else the hypotheses allow.
- RetryTheorems.AtMost32Failures: the bound of 32 itself is for runs in which persistence succeeds; `RetryTheorems.RetryBudget` gives the bound for every run and `RetryLimits.FailuresAreUnbounded` the runs beyond 32.
- Segments.SegmentedCandidate.WriteBatch: requires a rollover limit other than 0, for which the code does not terminate.
- Stream heads of the bench: a read error there is taken for an empty head by the code; the model reads heads without faults.
- ProjectionConsistencyToken, ACL and policy resolution, admission, bridge, Paper API records, observability, benchmark reports and command line: plumbing, or the same technique as the envelope encoding.
- `docs` and `MASTER_PLAN.md` describe a projector, a query service, an ACK outbox and retention that have no code here.
