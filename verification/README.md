# Verified model of the dead-letter recovery engine

This Dafny project models a tool that recovers messages from dead-letter queues (DLQs): it groups
failed messages, builds a recovery plan, validates it, replays the planned messages in batches
through a pool of workers, can stop early, can be run again and can be rolled back. The project
proves what that engine promises, for every schedule of its workers, every pattern of broker and
store failures, and whole sequences of runs. `dafny verify dfyconfig.toml` checks everything.

## How it is built

* **The worker pool** (`Pool`) is a state machine: a feeder on an unbuffered channel, one program
  counter per worker, the broker's queues, the local audit and snapshot tables, and a history of
  what left the DLQ and what reached the destination. An action of a trace fixes everything the
  code does not control: who runs next, whether the limiter grants a token, which holder of the ID
  an inspection reads, whether a publish or an ack is confirmed and whether it took effect anyway,
  and what others do meanwhile: producing, consuming, declaring and deleting queues. `PoolProgress`
  (exactly-once hand-out, no deadlock, termination), `PoolSafety` (nothing is lost), `PoolLedger`
  (what the store says), `PoolReversal` (what can be taken back), `PoolReports` (what is reported is
  what was done) and `PoolStories` (each result is the story of its index) are laws of traces.
* **A run** (`Runs`, `RunLaws`) is a function of the schedules of its batches, and **a history**
  (`Histories`) is a sequence of runs and rollbacks of any plans. `Admission` says which obstacle
  stops a run and which messages it skips, `RunReports` what its counters, its breaker and its audit
  trail tell. `Execution.Executor` is
  the imperative shell: its methods run the loops of the original, pick schedules freely, and are
  proved equal to those functions.
* **RabbitMQ's delete by ID** (`RandomDelete`) is a channel object with ready and unacknowledged
  deliveries; the scan-hold-requeue loop is proved to remove the first match and keep the order.
  `Mapper` holds message identity and headers, `Identity` what they depend on, `SafetyGate` the
  single-message replay.
* **JSON documents** (`Json`, `Patch`, `Diff`, `Redact`) share one datatype. A `Document` object has
  a root that is edited in place at a cursor; each edit is proved equal to a recursive function,
  and the laws are about those functions.
* **Triage, Jev, Analyzer, Planner** classify, memoise, group and select; `Verdicts` and `PlanLaws`
  spell out, message by message, what the verdicts, groups and plans are. `Semver` and `SemverText`
  order and read version tags, with section 11 of Semantic Versioning 2.0.0 written down
  independently of the code.

Where the code and its comments or documentation differ, the model follows the code: the snapshot
is taken after the ack; a failed limiter wait and a message dropped on resume leave no audit entry;
a tie between classes goes to any of them; failed Jev calls do not use up the budget, and an
exhausted budget also hides the cache; restoring twice publishes twice; a group ID can name several
groups; a run after a trip does not need the resume flag.

Some promises hold only under a condition, and the condition is proved exact. A batch that publishes
loses no ID, as long as nobody deletes its destination, if and only if that destination exists
(`PoolSafety.LosslessIffProbed`); once others may delete it after the probe, no batch that publishes
is safe (`PoolSafety.LosslessDespiteDeletionIff`), although the original's comments promise it. No
payload is lost if and only if equal planned IDs in the DLQ have equal payloads
(`PoolSafety.PayloadsSafeIffIdsFixThem`), and a finished batch can always be taken back by a rollback if
and only if they have equal payload, content type and application headers
(`Histories.RollbackRestoresIffIdsFixContents`). The content hash tells messages with one payload and
clean headers apart exactly by their application headers (`Identity.ContentDecidesIdentity`), but not
messages with different payloads, because nothing separates the payload from the headers
(`Identity.PayloadPosesAsHeader`).
FirstSeen is the earliest timestamp of a group if and only if no zero time hides it
(`Analyzer.FirstSeenIsEarliestIff`). Version order agrees with section 11 if
and only if every identifier that looks like a number fits an integer and no identifier is a hyphen
followed by such a number (`Semver.AgreesIffPlain`; `Semver.SignedIdentifiersMisrank` names a pair it gets wrong).

## Model

| member | source | states |
|---|---|---|
| Pool.RunInv | internal/recovery/executor.go:224-257 | In every reachable state of a batch each index that was handed out is either recorded or held by exactly one worker, and the tally, once taken, is the tally of the results |
| PoolProgress.EachIndexExactlyOnce | internal/recovery/executor.go:235-257 | When the pool has finished, every index was received once and its result written once, on every schedule |
| PoolProgress.FinishedPoolAccounts | internal/recovery/executor.go:259-271 | Replayed plus publish failures is the batch size, and ack failures are among the publish failures |
| PoolProgress.NoDeadlock | internal/recovery/executor.go:235-257 | Before the tally some worker or the feeder can always take a step of its own |
| PoolProgress.StepDecreases | internal/recovery/executor.go:241-310 | Every step of the pool uses up a finite budget that other traffic cannot refill |
| PoolProgress.EveryScheduleIsBounded | internal/recovery/executor.go:224-312 | No schedule takes more pool steps than the initial measure, whatever else happens on the broker |
| PoolSafety.NoLossOfId | internal/recovery/executor.go:276-312 | On every trace, with errors that took effect and with other traffic, the copies of an ID taken off the DLQ never exceed the copies delivered to the destination, as long as the destination exists and nobody deletes it |
| PoolSafety.KeptConfirmsArrive | internal/recovery/executor.go:104-117 | A destination that exists, or is empty, and is not deleted during the batch gets every publish that is confirmed |
| PoolSafety.NoLossOfPayload | internal/recovery/executor.go:276-312 | The same payload by payload, when IDs of the batch determine payloads in the DLQ and confirmed publishes arrive |
| PoolSafety.LosslessIffProbed | internal/recovery/executor.go:104-117 | For a batch with a planned message present, no schedule that leaves the destination undeleted loses an ID if and only if the destination exists or is empty, or nothing is ever published because the retry count is negative |
| PoolSafety.LosslessDespiteDeletionIff | internal/recovery/executor.go:104-117 | When others may delete the destination after the probe, no schedule loses an ID if and only if the batch never publishes: the probe does not protect against that |
| PoolSafety.DeletedDestinationLoses | internal/recovery/executor.go:276-302 | With the destination there at the probe and deleted before a publish, a schedule acks a message nobody received |
| PoolSafety.MissingDestinationLoses | internal/recovery/executor.go:104-117 | Without the destination there is a schedule that acks a message nobody received |
| PoolSafety.PayloadsSafeIffIdsFixThem | internal/recovery/executor.go:276-302 | With a probed destination that nobody deletes and other traffic off the DLQ, no schedule loses a payload if and only if DLQ messages that share a planned ID have equal payloads, or nothing is ever published |
| PoolSafety.MixedPayloadsLose | internal/recovery/executor.go:276-302 | With two payloads under one ID some schedule publishes one and removes the other |
| PoolSafety.LogsAreTheQueues | internal/recovery/executor.go:285-302 | Without other traffic the DLQ lost exactly what was removed, the destination gained exactly what was delivered, in order, and no other queue changed |
| PoolLedger.EntriesMatchReplays | internal/recovery/executor.go:304-311 | A batch adds at most one success entry per replay of an ID, and exactly one when store writes succeed |
| PoolLedger.SnapshotsReplaceRemovals | internal/recovery/executor.go:304-331 | When equal planned IDs in the DLQ mean equal contents and other traffic stays off the DLQ, DLQ copies plus snapshots are the same before and after a batch for every ID, payload, content type and set of application headers |
| PoolLedger.ReplayedLeftTheDlq | internal/recovery/executor.go:296-311 | On every trace each position reported as replayed has taken a copy of its ID off the DLQ; at the tally the numbers are equal when an ack that errors removes nothing |
| PoolReports.TallyCounts | internal/recovery/executor.go:259-271 | The tally is the numbers of results that are replays, ack failures, and failures of either kind |
| PoolReports.BatchReports | internal/recovery/executor.go:224-312 | What a finished batch reports is what it did: replays are covered by copies that left the DLQ, one for one when no ack that errors removes one, and each replay, ack failure and audited publish failure has one entry of its kind when writes succeed |
| PoolReports.EntriesOnlyGrow | internal/recovery/executor.go:353-374 | A batch only appends, and only recovery entries about its own IDs under its plan and queues |
| PoolReports.SnapshotsWereDelivered | internal/recovery/executor.go:317-331 | Every snapshot a batch takes is of a delivery it made, with its ID, payload, content type and headers |
| PoolReports.WorkersAreBounded | internal/recovery/executor.go:229-245 | No more messages are worked on at once than the batch has or its concurrency allows |
| PoolReports.AllWorkersCanBeBusy | internal/recovery/executor.go:229-257 | Some schedule has that many workers busy at once |
| PoolStories.ResultsTellTheStory | internal/recovery/executor.go:276-312 | On every schedule the result of an index is what happened to it: replayed when a publish was confirmed and the ack answered, with its snapshot; an ack failure when the ack errored; a publish failure when the limiter refused, the message was gone, or all attempts failed, one more than the retries; never published again once confirmed |
| PoolReversal.Finishes | internal/recovery/executor.go:235-257 | Whatever has happened in a batch, it can run to its tally with nothing more removed and every pending snapshot taken |
| PoolReversal.ReversibleIffIdsFixContents | internal/recovery/executor.go:276-331 | With a probed destination other than the DLQ and working store writes, every clean schedule that runs to its tally keeps DLQ copies plus snapshots of every ID and content if and only if DLQ messages that share a planned ID have equal payload, content type and application headers, or nothing is ever published |
| PoolReversal.MixedContentsUnbalance | internal/recovery/executor.go:276-308 | With two contents under one ID a schedule runs to its tally and leaves some key in DLQ and snapshots together not as often as before |
| Execution.Executor.RunBatch | internal/recovery/executor.go:224-272 | Under an arbitrary scheduler the batch ends, and its final world and tally are those of a trace of the state machine, so that PoolReports.BatchReports and PoolStories.ResultsTellTheStory hold of what it reports |
| Execution.Executor.TallyResults | internal/recovery/executor.go:259-271 | The loop computes the tally of the specification, which counts outcomes by PoolReports.TallyCounts |
| Validator.Contains | internal/recovery/validator.go:212-219 | Membership of a check |
| Validator.CheckOne | internal/recovery/validator.go:138-173 | One planned ID is skipped for exactly the reason that applies first, and the check fails only when duplicate evidence has to be asked for |
| Validator.CheckAll | internal/recovery/validator.go:134-176 | The skip list is the per-ID decisions in order, duplicates are counted among them, and validated plus skipped counts duplicates twice |
| Validator.Validate | internal/recovery/validator.go:84-178 | Rejects exactly on the errors of the code, in their order, and otherwise reports counts that add up, and warns of a destination that is missing or has a backlog at or over the threshold |
| Validator.SkipsAreThoseSkipped | internal/recovery/validator.go:137-174 | An ID is in the skip list if and only if it is planned and has a reason to be skipped, repeated IDs included |
| Validator.SkippedPlusAttempted | internal/recovery/executor.go:146-158 | Skipped positions and attempted positions make up the plan |
| Execution.Executor.SelectAttempts | internal/recovery/executor.go:146-158 | The attempt list is the planned IDs that pass validation, in plan order |
| Execution.Executor.FilterCompleted | internal/recovery/executor.go:337-351 | Compacting the array in place drops exactly the IDs whose query is answered and finds a prior replay, and keeps the others in order in its front part |
| RunLaws.StillOpenWhenAnswered | internal/recovery/executor.go:341-349 | When every query is answered, what is kept is the subsequence of IDs without a prior replay |
| RunLaws.StillOpenUnanswered | internal/recovery/executor.go:341-349 | When no query is answered, every ID is kept |
| Execution.Executor.Admit | internal/recovery/executor.go:96-145 | Which obstacle stops a run before any message is touched, confirmation first, and that only a missing destination is recorded |
| Execution.Executor.Open | internal/recovery/executor.go:151-185 | Resume filtering, then the entries for validation skips and exclusions, in that order |
| Execution.Executor.DrainBatches | internal/recovery/executor.go:187-210 | The loop over batches is the loop of the specification on some schedules, and it stops tripped or empty |
| Execution.Executor.Execute | internal/recovery/executor.go:96-215 | A run without confirmation is refused and leaves queues and store alone; a run gets done exactly when it passes the gate and the validation and otherwise stops at its first obstacle; a returned result accounts for every selected message |
| Admission.RunsIffAdmitted | internal/recovery/executor.go:96-215 | A run reaches its batches if and only if it is confirmed, has declared checks, a destination that is empty or present, a good rate and a validation that can be made; otherwise the first obstacle stops it, and it leaves at most one refusal, about a missing destination |
| Admission.SkippedExactly | internal/recovery/validator.go:137-174 | A planned ID is skipped exactly when it is not among the scanned messages, when the last of them with the ID does not parse and that is checked, or when it was replayed before and that is checked; the first reason is given, and all other IDs are attempted |
| Admission.EvidenceMeans | internal/dedupe/dedupe.go:33-52 | There is evidence for an ID if and only if some confirmed, successful entry records a replay or recovery of it |
| Admission.ResumeExactly | internal/recovery/executor.go:165-169 | Without the resume flag all IDs that pass validation are attempted; with it, and with every query answered, exactly those without a prior replay, in order |
| Admission.ScanIsDeepEnough | internal/recovery/validator.go:191-197 | The scan sees the whole queue, or its first 10000 messages, or twice as many as are planned if that is more |
| RunLaws.RunAccounting | internal/recovery/executor.go:160-214 | Selected = replayed + failed + skipped + remaining, tripped or not, resumed or not, with repeated IDs |
| RunLaws.BreakerBound | internal/recovery/executor.go:187-210 | Processed positions followed by Remaining are the attempt list; failures stay under the threshold of all batches but the last plus the last batch, and under the threshold of everything when not tripped |
| RunReports.CountersAreDeeds | internal/recovery/executor.go:187-214 | Replayed, failed and new DLQ entries are the processed positions that ended as replayed, as anything else, and as ack failures; replays are covered by copies that left the DLQ, and with working writes the trail gains as many success and ack failure entries |
| RunReports.TripsExactly | internal/recovery/executor.go:187-210 | The processed positions fall into batches of the size asked for; none but the last is over the failure threshold, and the last is if and only if the run reports that it tripped |
| RunReports.BatchesServeThePlan | internal/recovery/executor.go:187-199 | A batch works for its plan's DLQ and destination under its identity, with the retries asked for and the concurrency asked for or else the plan's |
| RunReports.RunMoves | internal/recovery/executor.go:276-312 | Without other traffic a run takes what it removed off the DLQ, adds what it delivered, in order, to the destination, and touches no other queue |
| RunReports.RunTrail | internal/recovery/executor.go:174-213 | With working writes a run adds one skip entry per message that validation skips, then one per exclusion with its reason, then what its batches write about the IDs they attempt, then one entry that says whether it tripped |
| RunLaws.RunLosesNoId | internal/recovery/executor.go:96-215 | No run takes more copies of an ID off the DLQ than it delivered, as long as nobody deletes the destination after the probe |
| RunLaws.RunLosesNoPayload | internal/recovery/executor.go:96-215 | The same payload by payload, when planned IDs determine payloads |
| RunLaws.ReplayedMeansMoved | internal/recovery/executor.go:187-214 | What a run reports as replayed of an ID is at most what left the DLQ and, with the destination undeleted, at most what reached it |
| RunLaws.RunEntries | internal/recovery/executor.go:174-213 | A run adds success entries for an ID only through its replays, one each when store writes succeed |
| RunLaws.ReplaysAtMostPlanned | internal/recovery/executor.go:142-210 | A run replays an ID at most as often as its plan lists it and, with the duplicate check, not at all if there is evidence already |
| RunLaws.RunReplaysAtMostOnce | internal/recovery/executor.go:142-210 | With distinct IDs and the duplicate check, a run replays an ID at most once, and not at all if there is evidence already |
| RunLaws.ResumeDropsNothing | internal/recovery/executor.go:165-169 | With the duplicate check in the plan, the resume flag does not change the attempt list, whichever queries are answered |
| Histories.SuccessesAtMostListed | internal/recovery/executor.go:96-215 | Over any sequence of runs with the duplicate check and of rollbacks, from an empty store, an ID gets at most as many success entries as one plan lists it, and with working writes it is replayed just as often |
| Histories.AtMostOneSuccess | internal/recovery/executor.go:96-215 | With distinct IDs besides, no ID gets two success entries, and with working writes none is replayed twice, not even one that was put back |
| Histories.UndoAddsNoReplay | internal/recovery/rollback.go:46-85 | A rollback, refused, previewed or confirmed, adds no duplicate evidence and no snapshot, and no queue appears or vanishes |
| Histories.UnconfirmedIsHarmless | internal/recovery/executor.go:97-99 | A history of runs and rollbacks without confirmation leaves queues and store as they were |
| Histories.RollbackReports | internal/recovery/rollback.go:46-85 | With working writes a confirmed rollback leaves one entry per snapshot, in order, successful exactly for the confirmed publishes, and one that closes it; restored and failed count them, and the DLQ only grows at its end, by at least the restored |
| Histories.HistoryReversible | internal/recovery/executor.go:304-331 | After any runs of one plan whose IDs fix contents in the DLQ, DLQ and snapshots together hold, key by key, what the DLQ held |
| Histories.RollbackRestoresTheDlq | internal/recovery/rollback.go:46-109 | When equal planned IDs in the DLQ mean equal payload, content type and application headers, other traffic stays off the DLQ and an ack reported as failed removed nothing: after any runs of one plan, a confirmed rollback whose publishes succeed gives the DLQ its original multiset of IDs with these contents, each restored message bound for the plan's destination |
| Histories.RollbackRestoresIffIdsFixContents | internal/recovery/rollback.go:46-109 | From an empty store, with a probed destination other than the DLQ and working writes: every finished clean batch followed by a rollback whose publishes are all confirmed gives the DLQ its multiset of IDs, payloads, content types and application headers back if and only if DLQ messages that share a planned ID agree on these, or nothing is ever published |
| Histories.RestoreAllKeys | internal/recovery/rollback.go:72-81 | Restoring snapshots adds to the DLQ exactly their keys |
| Histories.RestoredReadsBack | internal/recovery/rollback.go:92-109 | A restored message reads back with the snapshot's ID, payload, content type, timestamp and every application header, and is bound for the destination it was replayed to |
| Histories.HistoryQueues | internal/recovery/executor.go:224-312 | No run and no rollback creates or deletes a queue: it appears or vanishes only when somebody else declares or deletes it |
| Execution.Executor.Rollback | internal/recovery/rollback.go:46-85 | Exactly when it has nothing to do, fails at the probe, previews (and whether the preview reports the DLQ missing), refuses or restores, and what each leaves behind; it reports confirmed publishes as restored and the rest as failed |
| Execution.Executor.RestoreLoop | internal/recovery/rollback.go:72-81 | The loop publishes each snapshot to its source queue in order, going on after failures |
| Audit.Store.AppendEntry | internal/audit/store.go:250-276 | An append adds one entry at the end or, when the write fails, nothing |
| Audit.Store.Save | internal/audit/store.go:176-199 | The same for snapshots |
| Audit.Store.Snapshots | internal/audit/store.go:204-239 | Exactly the plan's snapshots, oldest first |
| Audit.Store.Replayed | internal/audit/store.go:308-315 | Exactly the confirmed successful replays of an ID, the latest first |
| Audit.EvidenceIsCount | internal/dedupe/dedupe.go:33-52 | There is evidence for an ID exactly when some entry is a confirmed successful replay of it |
| RandomDelete.Ack | internal/broker/rabbitmq/write.go:78-126 | On success the first message with the ID is gone and all others are in order; on any other end the queue is unchanged, except that an ack reported as failed may have been taken; which channel operation fails first decides the answer, for every pattern of failures |
| RandomDelete.Scan | internal/broker/rabbitmq/write.go:97-116 | What is held is the part of the queue before the target, none of it matching |
| RandomDelete.RequeueAll | internal/broker/rabbitmq/write.go:142-149 | Nacking in reverse puts the held messages back in front in their order, wherever the channel breaks |
| RandomDelete.RemoveFirstAt | internal/broker/rabbitmq/write.go:78-126 | Removing the first match removes the position that matches with no match before it |
| RandomDelete.RemovalIsAPoolAck | internal/recovery/executor.go:296-302 | A successful delete by ID is an ack step the worker pool allows |
| SafetyGate.Execute | internal/safety/safety.go:141-214 | No answer loses a copy of any ID; which operation fails decides the answer, unresolved only for a held message without a destination; what is sent is a message the queue held under the ID, patched as asked, to the override or its own destination; each answer fixes the queues, up to errors that took effect, and the one entry recorded |
| SafetyGate.PublishAndAck | internal/safety/safety.go:168-213 | The DLQ copy goes only after a confirmed publish, success is recorded only for a message that moved |
| SafetyGate.PublishThenAckKeepsCopies | internal/safety/safety.go:168-188 | Publishing a copy and then removing one keeps the number of copies of every ID over both queues |
| SafetyGate.ChosenMeans | internal/safety/safety.go:145-176 | What is sent has the ID asked for, the replacement payload if there is one and otherwise that of a message held under the ID, the content type and application headers of that message, and goes to the destination asked for, or else to its own |
| SafetyGate.StrandedMeans | internal/safety/safety.go:218-226 | No destination can be found exactly when none is asked for and a held message has none |
| SafetyGate.RecordedMeans | internal/safety/safety.go:160-204 | An inspected request leaves one entry, if the store takes it, about that message, queue and destination, whose result says whether it was refused, failed at the publish, failed at the ack or succeeded |
| Mapper.NormalizeHeaders | internal/broker/rabbitmq/mapper.go:98-104 | The loop over the table gives each header its text |
| Mapper.PublishHeaders | internal/broker/rabbitmq/write.go:131-140 | A published table reads back as the headers without the broker's death headers |
| Mapper.MessageIdFromParts | internal/broker/rabbitmq/mapper.go:65-91 | The hashing loop over collected and sorted keys computes the ID, whatever the order of the map |
| Mapper.StableIdentity | internal/broker/rabbitmq/mapper.go:65-96 | The ID depends only on the message-id property, the payload and the headers that are not death headers |
| Mapper.StrippingKeepsIdentity | internal/broker/rabbitmq/write.go:131-140 | Dropping the death headers on publish does not change the ID |
| Mapper.PublishThenRead | internal/broker/rabbitmq/mapper.go:20-48 | A published message reads back with its ID, payload, content type, timestamp and destination header |
| Identity.BrokerHeadersDoNotCount | internal/broker/rabbitmq/mapper.go:65-96 | Readings that differ only in the broker's dead-letter headers have one ID |
| Identity.IdPrecedence | internal/broker/rabbitmq/mapper.go:65-90 | The message-id property decides, then the x-message-id header, then the content hash |
| Identity.ContentDecidesIdentity | internal/broker/rabbitmq/mapper.go:65-91 | With a hash that does not collide, messages of one payload without given IDs and with headers free of separators share an ID if and only if their application headers are equal |
| Identity.PayloadPosesAsHeader | internal/broker/rabbitmq/mapper.go:72-90 | For any hash an empty payload with header k=v and the payload that spells this header out have the same ID |
| Identity.PublishedHeaders | internal/broker/rabbitmq/write.go:131-140 | Exactly the headers that do not begin with the broker's two prefixes are published, as text |
| Identity.IdentifiersComeFromHeaders | internal/broker/rabbitmq/mapper.go:163-177 | Event and idempotency identifiers are the first of their header names that is not empty |
| Patch.Document.ApplySet | internal/patch/patch.go:60-117 | The in-place walk fails exactly when some existing location on the path blocks it; on failure the document is as it was, although objects may be created on the way |
| Patch.ApplySet | internal/patch/patch.go:31-55 | A new payload is returned exactly when the payload is an object and every operation succeeds, and it is the result of all of them in order; each error means that some operation is the first to fail, and why |
| Patch.SetThenGet | internal/patch/patch.go:66-117 | After a successful assignment the path reads back the value |
| Patch.SetRefusedIff | internal/patch/patch.go:60-117 | An assignment is refused if and only if some existing prefix of the path reads a value that is no container, or an array in which the next segment is no index in range or, before the last, names something other than an object |
| Patch.IndexesAndKeys | internal/patch/patch.go:98-140 | The decimal text of an index reads and assigns that element of an array, and is a plain key on an object |
| Patch.SegmentsOfArrays | internal/patch/patch.go:119-137 | On an array a segment names an element exactly when it is digits only, below the length and within an int |
| Patch.SetAllFailsIff | internal/patch/patch.go:40-48 | A list of operations fails if and only if some operation is the first to have an empty path, a value that does not decode or a refused assignment |
| Patch.SetAllReadsBack | internal/patch/patch.go:40-48 | What an operation assigned reads back right after it, and after all of them if the later ones go to unrelated paths |
| Patch.SetFrame | internal/patch/patch.go:66-117 | Every location that parts from the path reads as before, array elements compared by index value |
| Patch.SetInEmptyObject | internal/patch/patch.go:88-100 | Once an object has been created for a segment no later segment can fail |
| Patch.SetKeepsUnrelated | internal/patch/patch.go:60-117 | Every key path unrelated to the assigned one reads as before |
| Patch.SetAllKeepsUnrelated | internal/patch/patch.go:40-48 | The same for a list of operations |
| Diff.Lines.DiffValue | internal/patch/diff.go:33-56 | The recursive walk appends exactly the edits of the specification, below the given path |
| Diff.Lines.SortedUnion | internal/patch/diff.go:60-74 | The keys of both objects, each once, in order |
| Diff.RoundTrip | internal/patch/diff.go:33-56 | Applying the edits to the old document yields the new one |
| Diff.NoEditsIffEqual | internal/patch/diff.go:33-56 | There are no edits if and only if the documents are equal |
| Diff.EditsAreTheChanges | internal/patch/diff.go:33-56 | The edits are exactly these: at a path through objects in both documents, a removal where the old value is gone or differs, an addition where the new one is new or differs, and nothing below a change |
| Diff.EditsInOrder | internal/patch/diff.go:33-56 | Edits come in the order of their paths, and a removal before the addition at the same path |
| Diff.EditsReadDifferently | internal/patch/diff.go:33-56 | Every edited location really reads differently in the two documents |
| Diff.PatchFootprint | internal/patch/patch.go:40-48 | Every path in the diff of a payload and its patched form is a prefix or an extension of some operation's path |
| Redact.Apply | internal/message/redact.go:27-44 | A payload that does not parse, or no fields, leaves the text alone; otherwise the text written, if it reads back, has the mask at every configured path that is left, has lost only what lay below one, and reads as before at unrelated paths |
| Redact.RedactInPlace | internal/message/redact.go:46-64 | The recursive walk masks in place what the specification masks |
| Redact.ConfiguredAreMasked | internal/search/filter.go:64-77 | Looking up a configured path afterwards finds the mask or nothing |
| Redact.OthersAreUntouched | internal/message/redact.go:46-64 | Paths unrelated to every configured one read as before |
| Redact.RedactAllMasks | internal/message/redact.go:27-64 | Exactly the locations below a configured path go; a configured one that is left reads the mask, any other keeps its value or stays an object, and unrelated ones read as before |
| Redact.MasksDetermine | internal/message/redact.go:27-64 | No other document reads that way: what is kept, what goes and what is masked determine the result |
| Redact.RedactedTextReads | internal/message/redact.go:27-44 | The same on the text that is written, if it reads back |
| Redact.RedactionsCommute | internal/message/redact.go:46-64 | Two redactions commute, also when one path extends the other |
| Redact.RedactionIsIdempotent | internal/message/redact.go:27-44 | Redacting twice is redacting once |
| Redact.OrderIsIrrelevant | internal/message/redact.go:27-44 | Only the set of configured paths matters |
| Redact.ApplyIsIdempotent | internal/message/redact.go:27-44 | On payload texts redacting twice is redacting once, when the one document that is written reads back |
| Redact.ApplyIsUnordered | internal/message/redact.go:27-44 | On payload texts only the set of fields matters, whatever the codec |
| Triage.Match | internal/policy/rules.go:13-23 | The loop returns the first rule that applies, if any does |
| Verdicts.ClassifyExactly | internal/recovery/classifier.go:69-132 | DO_NOT_REPLAY exactly for a marked duplicate or a duplicate word, REPLAYABLE exactly for passing failures alone with fewer than six retries, REQUIRES_FIX exactly for lasting ones alone, and the confidence of each |
| Verdicts.RulesApplyAsTheySay | internal/policy/rules.go:26-80 | A rule applies exactly when the text or number its condition names satisfies it, the retries stay within its bound and an idempotency key is there if it wants one |
| Verdicts.PolicyExactly | internal/recovery/classifier.go:145-174 | The first rule that applies decides by its action, except for a marked duplicate |
| Jev.Assessor.Classify | internal/recovery/jev.go:71-142 | Verdict, memo and counters after a message are those of the precedence chain, with the budget looked at before the cache |
| Jev.Assessor.Ask | internal/recovery/jev.go:104-120 | Cache before call; a failed call is neither counted nor stored, and a cached nil is asked for again |
| Jev.MemoAgrees | internal/recovery/jev.go:96-120 | With a steady client and no cap every message of a list classifies the same with and without the cache, and the calls made equal the cache's size |
| Jev.BudgetHolds | internal/recovery/jev.go:96-117 | With a positive cap the counted calls never exceed it |
| Jev.SteadyVerdicts | internal/recovery/jev.go:71-142 | With a steady client and no cap the verdict of a message in a list depends on that message alone |
| Jev.JevVerdictsAreUsable | internal/jev/mapper.go:39-83 | For every list and every sequence of replies, a verdict taken from Jev meets the threshold, is within 0 and 1, comes from one usable reply, and is DO_NOT_REPLAY when that reply's duplicate probability reaches the override |
| Verdicts.ResponsesReadExactly | internal/jev/mapper.go:39-83 | A response is malformed without a classification, unusable with an unknown choice, and otherwise usable exactly when its confidence, given or the largest probability, reaches the threshold; a likely duplicate is kept back whatever the choice |
| Verdicts.AskedExactly | internal/recovery/jev.go:71-103 | Jev is asked exactly when no mark, no policy match, no missing client, no only-investigate rule and no spent budget stands in the way; otherwise the first obstacle is named and the memo stays |
| Verdicts.RepliesDecide | internal/recovery/jev.go:104-142 | A usable response decides the verdict, and anything else leaves that of the rules |
| Verdicts.AskingChangesTheMemo | internal/recovery/jev.go:104-120 | A hit is counted, a reply is counted and kept under its key, an error is neither |
| Jev.FindMaxProb | internal/jev/mapper.go:85-93 | The loop finds the largest probability, or zero |
| Jev.Cache.Put | internal/jev/cache.go:41-51 | One key is set, the others and the hits stay |
| Planner.Select | internal/recovery/planner.go:138-168 | The loop selects and excludes as the specification does, message by message, through the memo, with the classifier's reason on each exclusion |
| Planner.BuildPlan | internal/recovery/planner.go:124-208 | Exactly which inputs get each error, and that all others get a plan, in which selected and excluded IDs together are the considered IDs, the destination is given or the only one, no marked duplicate is selected by default, and limits are those asked for, or else 25 and 1 |
| Planner.SelectionPartitions | internal/recovery/planner.go:143-168 | Selected and excluded partition the considered messages for any verdicts |
| Planner.MarkedDuplicatesStayOut | internal/recovery/planner.go:143-168 | By default no message marked as a duplicate is selected, for every policy and every sequence of Jev replies |
| Planner.SelectionByRules | internal/recovery/planner.go:149-168 | Without Jev the selection is a filter by rules and policy |
| Planner.SettledKeepTheirVerdict | internal/recovery/jev.go:71-98 | For every list and every sequence of Jev replies, a marked duplicate, a policy match and, in only-investigate mode, a rule verdict other than INVESTIGATE keep the verdict of rules and policy |
| Planner.SettledSelection | internal/recovery/planner.go:143-168 | Among those messages a plan selects exactly what it would select without Jev |
| Planner.SteadySelection | internal/recovery/planner.go:143-168 | With a steady client and no cap, cached or not, selection is a filter: whether a message is selected depends on no other |
| Planner.LikelyDuplicatesStayOut | internal/recovery/jev.go:120-142 | Then no message is selected that Jev, when asked, takes for a duplicate or marks DO_NOT_REPLAY |
| PlanLaws.ConsideredAre | internal/recovery/planner.go:143-148 | Considered are the messages whose signature has the group ID asked for, or all of them |
| PlanLaws.SelectedAre | internal/recovery/planner.go:149-168 | On request all considered messages are selected, by default those with any verdict but DO_NOT_REPLAY, in order |
| PlanLaws.LeftOutAre | internal/recovery/planner.go:149-168 | The others are excluded, in order, each with the reason of its own verdict |
| Analyzer.Analyze | internal/recovery/analyzer.go:84-176 | One group per key with its IDs, counts, breakdown, share, majority, label, first and last timestamps and payload shape, ordered by descending count and then signature |
| Analyzer.GroupAll | internal/recovery/analyzer.go:101-145 | The map loop accumulates, per key, what the messages with that key contribute |
| Analyzer.Majority | internal/recovery/analyzer.go:181-193 | A class that no other outvotes, with the mean confidence of its messages |
| Analyzer.AccIsTheSubsequence | internal/recovery/analyzer.go:101-145 | A group's IDs are the input subsequence with its key |
| Analyzer.BreakdownSumsToCount | internal/recovery/analyzer.go:120-131 | A group's breakdown sums to its count, and Jev decided at most that many |
| Analyzer.FirstSeenIsEarliestIff | internal/recovery/analyzer.go:135-137 | FirstSeen is the earliest timestamp of the group if and only if that is not the zero time, or the group's last message has it |
| Analyzer.LastSeenIsLatestIff | internal/recovery/analyzer.go:138-140 | LastSeen is the latest timestamp of the group if and only if some message is not before the zero time |
| PlanLaws.SameGroupIff | internal/recovery/analyzer.go:101-112 | Messages share a group if and only if signature, destination and event type are equal and the retry counts lie on the same side of 0, 2 and 5 |
| PlanLaws.GroupReports | internal/recovery/analyzer.go:101-170 | A group shows its messages in order, how many got which verdict, and how many verdicts came from Jev |
| PlanLaws.GroupRecommends | internal/recovery/analyzer.go:181-193 | It recommends a verdict that no other outnumbers, with the mean confidence of the messages that got it |
| PlanLaws.GroupsInOrder | internal/recovery/analyzer.go:147-175 | Groups come largest first and then by signature, and their shares add up to one hundred |
| PlanLaws.GroupSeen | internal/recovery/analyzer.go:135-143 | The timestamps a group shows are earliest and latest under the exact conditions, and its shape is that of its first message that has one |
| PlanLaws.ShapeTells | internal/recovery/analyzer.go:221-235 | The shape of a JSON object splits back into its keys, in order; other payloads are called empty or raw |
| Analyzer.GroupsPartitionTheInput | internal/recovery/analyzer.go:84-176 | The groups' IDs together are the input's, and counts sum to the total |
| Analyzer.PlanConsidersTheGroups | internal/recovery/planner.go:143-148 | A plan for a group ID considers the messages of all groups with that ID |
| Analyzer.PlanAgreesWithGroups | internal/recovery/planner.go:143-168 | Without Jev, a plan for a group ID selects exactly the messages of those groups that are not DO_NOT_REPLAY, and excludes exactly the others |
| Semver.Compare | internal/selfupdate/version.go:52-63 | The sign is the precedence of section 11 of Semantic Versioning 2.0.0 on plain identifiers |
| Semver.CmpPrerelease | internal/selfupdate/version.go:76-92 | The loop finds the first identifiers that differ, then compares the counts |
| Semver.OrderReflexive | internal/selfupdate/version.go:52-107 | Every version equals itself in the order |
| Semver.OrderAntisymmetric | internal/selfupdate/version.go:52-107 | Swapping two versions flips the sign |
| Semver.OrderTransitive | internal/selfupdate/version.go:52-107 | The order is transitive on all versions, well-formed or not |
| Semver.AgreesWithSection11 | internal/selfupdate/version.go:52-107 | On plain identifiers the order is the precedence of section 11 |
| Semver.AgreesIffPlain | internal/selfupdate/version.go:94-107 | A version with section 9 identifiers is ranked correctly against every plain one if and only if its own identifiers are plain |
| Semver.SignedIdentifiersMisrank | internal/selfupdate/version.go:94-107 | 1.0.0--5 and 1.0.0--6 are ordered against section 11 |
| SemverText.ParseSemver | internal/selfupdate/version.go:20-48 | The parsing loop computes the specification and accepts only numbers that fit |
| SemverText.ReadsBack | internal/selfupdate/version.go:20-48 | A written version reads back, with or without a leading v and with any build metadata, which leaves no trace |
| SemverText.SpaceIsIgnored | internal/selfupdate/version.go:20-24 | Surrounding white space does not change what a tag reads as |
| SemverText.AcceptsExactly | internal/selfupdate/version.go:20-48 | A tag is accepted if and only if its core is three runs of digits that fit an int; these are the three numbers, and no identifier holds a dot or a plus |

## Left out

- Network, storage and command-line code: AMQP, HTTP, Redis and SQLite clients, configuration, rendering and the self-update download are plumbing around libraries.
- Overlapping deletes: in the pool an ack is one atomic step that removes any one message with the ID, or reports an error with or without having removed one. `RandomDelete.Ack` shows that a delete alone on its queue is such a step; the order of messages while several scans overlap is not claimed.
- Broker behaviour is fixed as follows: a nack with requeue puts the message at the head, a failed channel operation breaks the channel, closing it returns what is unsettled to the head in order.
- Validation scans the first messages of the queue up to the scan limit; how a broker pages through them is not modelled.
- Time and rates: a limiter wait is a step that may be refused; parsing of rate limits is one fault flag; the timestamps of audit entries and durations are not modelled, and the clock that stamps snapshots is a parameter.
- Store failures: which writes succeed and which resume queries are answered are arbitrary functions of ordinals, a failing duplicate check is one fault flag, and a missing store is one whose writes all fail.
- Text of reasons: what operators type, the time of a prior replay in a skip's detail and plan identifiers are not modelled or are parameters; the wording of group labels is a parameter.
- Parameters: SHA-256, case folding, quoting and number rendering, canonical case, signature normalisation, group hashing, JSON validity and top-level keys, the JSON codec and the Jev client's state text are functions about which only what a lemma states is assumed.
- JSON numbers and texts are compared as values; floats elsewhere are reals, so rounding is not modelled.
- Documents are trees of values with a cursor: aliasing of sub-documents does not occur in decoded JSON and is not modelled.
- Patch.ApplySet: a payload that decodes to JSON null is excluded, because the original then writes to a nil map.
- Execution.Executor.Execute: asks for a batch size of at least one, which every built plan has.
- Histories.RollbackRestoresTheDlq: asks that store writes succeed, that an ack reported as failed removed nothing, that the destination is another queue, that nobody else uses, declares or deletes the DLQ meanwhile, and that DLQ messages sharing a planned ID have equal payload, content type and application headers; the last is necessary by Histories.RollbackRestoresIffIdsFixContents.
- Histories.RollbackRestoresIffIdsFixContents: is about one batch from an empty store, and asks that the DLQ's name is not empty, as no publish to an empty name is ever confirmed.
- RunLaws.RunLosesNoId: asks that nobody deletes the destination during the run; without that it fails, by PoolSafety.DeletedDestinationLoses.
- RunLaws.RunLosesNoPayload: asks the same, and that equal planned IDs mean equal payloads.
- SafetyGate.Execute: nobody else acts between its steps; deletion of the destination after its probe is modelled for batches only.
- Jev.MemoAgrees: asks that cache keys of the listed messages do not collide.
- Paging of peeked messages and the rendering of typed header values differ per broker path and are not modelled; identity is stated for equal header texts.
- Word lists of the rule-based classifier are constants; no claim is made about which words belong there.
