# The durable Runtime Worker, modelled and proved

This project models the crash-safe journal of the OpenLinker Runtime Worker, the asyncio protocol built
on it, and four smaller parts around them: policy recovery, lock order, draining and the HTTP attachment
fence; and two text formats, the registration in an environment file and the parser of server-sent
events. `dafny verify dfyconfig.toml` checks everything.

## The parts

* **Acknowledgements and ranges** (`Acks.dfy`, `Ranges.dfy`). A prefix and a sorted list stand for the
  set of acknowledged sequences. The record is a class whose method has the loop of the code; the algebra
  of it (canonical form, order and repetition of acknowledgements are irrelevant) is proved on the
  function the method computes. Ranges of pending Events are maximal runs, and replaying them gives back
  exactly the pending Events (`PendingRoundTrip`).
* **The journal** (`Journal.dfy`, `JournalMeaning.dfy`). One entry per attempt: record, Events, Result.
  Every store operation is a function on an entry, and what it does is said again field by field,
  reopening is another, and `Sound` is the form that operations keep. Two operations do not always keep
  it, and for them the exact condition is proved (`AdvanceReopensIff`, `StoreResultReopensIff`).
* **The stores** (`Disk.dfy`, `MemoryStore.dfy`, `FileStore.dfy`, `Reopening.dfy`, `StoreRuns.dfy`,
  `StoreHistories.dfy`, `StoreSessions.dfy`). The in-memory store is a class of four dictionaries whose
  methods equal the journal functions. The file store is a class over a disk of atomic writes and
  removals; a write that fails may or may not have taken effect. The disk keeps a ghost trace of every
  state it went through, so "stopping anywhere" means any state of the trace. `Open` is the recovery,
  loop by loop, and its contract has both directions: a directory opens exactly when its files encode a
  journal that can be repaired, apart from failing writes. `Sessions` is the theorem over any number of
  processes: each opens the directory and runs operations until it stops, a stop inside `Open` and
  failing writes included; the directory is never corrupt, every state of the disk reopens as the journal
  before or after one stage of a single history, and the operations that were reported to succeed are
  stages of it, all of them and in order. `RunOnBoth` is the refinement over a whole run: the in-memory
  store and the file store give the same answers and the same journal, unless a write fails.
* **The worker** (`Worker.dfy`, `WorkerInvariant.dfy` and the `Worker*.dfy` files after them). The
  worker's tasks interleave at every await, so a step is the code of one task between two awaits, as a
  function on a state: one slot per attempt (record, handler task, `_active`, `_terminal_attempts`,
  `_spool_permissions`, the attempt lock, and every suspended task with the snapshot it holds), and what
  all tasks share. `WorkerRuns.dfy` puts slots together into whole runs with store faults, the drain
  fence and restarts; `WorkerTheorems.dfy` says what the worker promises over all runs,
  `WorkerGrants.dfy` that what is sent is exactly what the decisions of Core in the run have allowed, and
  `WorkerRevoking.dfy` that a revocation takes hold with its first step. `WorkerFields.dfy` describes
  every step a second time, one field of the slot at a time; `WorkerDelivery.dfy` and `WorkerPaths.dfy` show
  that every way of an attempt can be gone to its end: from an offer to the last acknowledgement for
  whatever a handler emits, and from any reachable state for a flush, a replay, a resume, a revocation, a
  cancellation and a rejection. `WorkerOperations.dfy`, `WorkerCuts.dfy` and
  `WorkerStore.dfy` tie the worker to its store: every step is a sequence of store operations under the
  conditions that the runs of the store assume, every fault is the effect of a first part of it, and
  every first part is such a fault. `WorkerProcess.dfy` puts both ends together: a process that takes the
  worker's steps on a real directory, with any write failing, leaves it as a run of the worker ends. A
  history beside the state, which no step reads apart from the premises below, says what was ever
  durable, sent, acknowledged or started.
* **Payloads** (`Payloads.dfy`, `WorkerPayloads.dfy`, `WorkerWire.dfy`). The records of the worker hold
  payloads as their files do. In memory the worker has the object that a handler handed over, of which it
  copied the top level only. A second machine runs the worker beside handlers that change their nested
  lists and objects between any two steps, and says what every send reads.
* **Policy recovery, locks, draining, attachment** (`PolicyRecovery.dfy`, `Locks.dfy`, `Draining.dfy`,
  `Attachment.dfy`). Any number of concurrent operations or tasks, any interleaving. The attachment fence
  is proved against a log of requests, answers and verdicts that knows neither id nor generation.
  `WorkerDrain.dfy` runs the drain task beside the worker of `WorkerRuns.dfy`: what drain counts are its
  records and handlers.
* **Texts** (`Texts.dfy`, `JsonStrings.dfy`, `EnvFile.dfy`, `EnvReading.dfy`, `EnvWriting.dfy`,
  `Sse.dfy`). Texts are sequences of code points, surrogates included. Readers and writers are methods
  with the loops of the code, proved equal to recursive functions about which the round trips are proved,
  and what a reader makes of text that no writer of ours has made.

## Premises about the environment

* An attempt id stands for one identity: Core never offers the same attempt id under another lease or for
  another session. An offer that arrives is for the current session, as the worker checks.
* Core never confirms, and never lets continue, an attempt for which the worker created its record again
  after Core had acknowledged the Result (`late` in the history). `SecondStartIff` shows that
  confirmations and continue decisions start a handler again only there, and `SecondStartExample` is a
  run that gets there.
* Event ids that the worker generates are new, and ids derived from an attempt and its lease are
  injective.
* Writing a record file is atomic; a reported failure says nothing about its effect.

Apart from this, Core may answer anything that the validators accept, at any time. The model also lets
flushes, revocations, cancellations and resume requests start at any time and in any number, and lets
every suspended task fail or be cancelled at any time, which the worker's own loops do less often.

## Findings

* `store_result` of the file store has no state check, and a repeated call may omit the two generated
  fields or contradict them, because the stored values take the place of the given ones. Both stores
  agree exactly under `StoreResultAgreesIff`, and differ in `RepeatedResultExample`; the directory can be
  reopened after every prefix of the operation exactly under `ResultAdmissible`, and cannot in
  `EarlyResultExample`. The worker stays inside both conditions (`RunStored`).
* `advance_assignment` reaches `finished` without a Result by its table (`BareFinishExample`, and
  `AdvanceReopensIff` for all inputs); the worker never asks for it (`RunStored`).
* A payload keeps sharing its nested lists and objects with the handler, while the file has it as it was
  when it was written. A handler that goes on changing them makes the worker send one Event, under one
  id, with different payloads, in one process or over a restart (`GrowingListExample`). All sends of an
  Event agree, whatever handlers do, exactly when its payload has no nested list or object
  (`EventPayloadIsStableIff`); those of the Result exactly when the handler failed, or returned nothing,
  an empty object or a scalar (`ResultIsStableIff`). The nested values of the input are shared too: an
  offer that is made again can be refused as a conflict exactly when the input has some
  (`InputIsStableIff`), which changes nothing for an attempt whose handler has started
  (`OfferOfStartedIsIdle`). Id, sequence, kind and the choice of the one Result are never affected
  (`WireIdentityIsStable`).
* A leader of the policy recovery that is cancelled leaves its followers with the old Ready
  (`CancelledLeaderExample`); they get it exactly when every rediscovery since their call was led by an
  operation that was cancelled (`FollowerIsStaleIff`).
* `drain` does not look at the spool again after a second request to Core or after the caller's hook, so
  records can be left when it returns (`SecondRequestLeavesRecords`, `HookLeavesRecords`); without
  either, nothing is left (`DirectStopLeavesNothing`). Over the worker, what is left can only be the
  records of refused offers, without a spool (`DrainedWorkerIsDone`), and there can be some
  (`RefusedOfferIsLeft`).
* A registration value survives the environment file exactly when no high surrogate stands directly
  before a low one in it (`SaveThenLoadIff`); JSON decoding merges such a pair into one character
  (`SplitPairExample`, `SplitPairIsNotKept`).

## Model

| member | source | states |
|---|---|---|
| `Acks.AckRecord.Apply` | src/openlinker/runtime/store.py:1110-1121 | the in-place update with its compaction loop, which terminates, equals the function `Applied` on the window |
| `Acks.AppliedAddsOne` | src/openlinker/runtime/store.py:1103-1121 | one acknowledgement adds exactly its own sequence to the set the record stands for, and the list stays sorted with every element above prefix + 1 |
| `Acks.WindowIsCanonical` | src/openlinker/runtime/store.py:1110-1121 | a set of acknowledged sequences has only one well-formed record |
| `Acks.AckOrderIsIrrelevant` | src/openlinker/runtime/store.py:444-452 | any order and any repetition of the same acknowledgements ends in the identical record |
| `Acks.AppliedAllStaysWithin` | src/openlinker/runtime/store.py:444-452 | acknowledging only existing sequences never takes the record beyond the last one |
| `Acks.CompleteIff` | src/openlinker/runtime/store.py:1103-1107 | everything up to the last sequence is acknowledged exactly when the record reads (last, empty list) |
| `Ranges.EventRanges` | src/openlinker/runtime/worker.py:2480-2493 | the loop gives the ascending, disjoint, maximal runs that cover exactly the sequences of the Events |
| `Ranges.RunsUnique` | src/openlinker/runtime/worker.py:2480-2493 | a set has only one list of maximal runs |
| `Ranges.EventsInRanges` | src/openlinker/runtime/store.py:428-442 | accepts exactly ascending disjoint ranges of stored sequences, and returns their Events in order |
| `Ranges.PendingRoundTrip` | src/openlinker/runtime/worker.py:2480-2493 | the ranges computed from the pending Events of any sound record are their maximal runs, and looking these ranges up again gives exactly the pending Events in order |
| `Ranges.PendingSequences` | src/openlinker/runtime/store.py:419-426 | the pending Events carry exactly the unacknowledged stored sequences, each once, ascending |
| `Ranges.SelectsUnique` | src/openlinker/runtime/store.py:428-442 | a list of sequences selects only one list of Events |
| `Ranges.CompleteReplays` | src/openlinker/runtime/store.py:428-442 | over a complete spool ascending disjoint ranges can be replayed exactly when they end by the last sequence |
| `Ranges.RangesStayReplayable` | src/openlinker/runtime/store.py:899-911 | ascending disjoint ranges inside 1..last can be replayed until the attempt is terminal, and again from what reopening makes of the record, a record left by a stop inside an operation included |
| `Journal.AppendedSound` | src/openlinker/runtime/store.py:397-417 | appending an Event keeps the form of an entry |
| `Journal.EventAckedSound` | src/openlinker/runtime/store.py:444-452 | acknowledging keeps the form and adds exactly the acknowledged sequence |
| `Journal.ResultStoredSound` | src/openlinker/runtime/store.py:681-722 | storing an admissible Result keeps the form |
| `Journal.AdvanceReopensIff` | src/openlinker/runtime/store.py:337-349 | an advance leaves records that reopen exactly when it does not take an attempt to finished without a Result |
| `Journal.StoreResultReopensIff` | src/openlinker/runtime/store.py:681-722 | storing a Result can be stopped after either write and reopened exactly when it is admissible |
| `Journal.EarlyResultExample` | src/openlinker/runtime/store.py:681-722 | a Result for an attempt that was only received: the stop after the first write cannot be reopened, and the in-memory store refuses |
| `Journal.BareFinishExample` | src/openlinker/runtime/store.py:42-52 | the table takes a started attempt to finished, and that record cannot be reopened |
| `Journal.RepeatedResultExample` | src/openlinker/runtime/store.py:454-485 | the same payload stored twice: the file store repeats the Result, the in-memory store reports a conflict |
| `Journal.StoreResultAgreesIff` | src/openlinker/runtime/store.py:454-485 | the two stores answer store_result alike exactly for a started or finished attempt and a repeat that carries the stored payload or another body |
| `Journal.RepairedSound` | src/openlinker/runtime/store.py:883-925 | records in form reopen as they are, apart from terminal spools |
| `Journal.EventAheadRepairs` | src/openlinker/runtime/store.py:899-911 | an Event file without its record update reopens as the finished append |
| `Journal.ResultAheadRepairs` | src/openlinker/runtime/store.py:912-923 | a Result file without its record update reopens as the finished store |
| `Journal.ResultInadmissibleFails` | src/openlinker/runtime/store.py:912-923 | outside the condition the same stop cannot be reopened |
| `Journal.RepairedIdempotent` | src/openlinker/runtime/store.py:883-925 | reopening is a fixed point, and stopping between its two record writes changes nothing |
| `JournalMeaning.MovesGoOn` | src/openlinker/runtime/store.py:42-52 | no move of the table goes back, a state is terminal exactly if none leaves it, and every other state can be revoked |
| `JournalMeaning.AdvancedMeans` | src/openlinker/runtime/store.py:337-349 | an advance succeeds exactly along one of the listed moves or to the same state, and changes the state alone |
| `JournalMeaning.CreatedMeans` | src/openlinker/runtime/store.py:320-335 | a first offer makes a received record with nothing, a repeat finds it, and another offer of the attempt is a conflict; other attempts are left alone |
| `JournalMeaning.DeletedMeans` | src/openlinker/runtime/store.py:382-395 | a record can be deleted exactly when it is terminal without Events and Result |
| `JournalMeaning.AppendedMeans` | src/openlinker/runtime/store.py:397-417 | exactly a started attempt takes an Event, under the next sequence with the id, kind and payload given |
| `JournalMeaning.EventAckedMeans` | src/openlinker/runtime/store.py:444-452 | an acknowledgement must name a stored Event by sequence and id, and adds that sequence and nothing else |
| `JournalMeaning.PendingMeans` | src/openlinker/runtime/store.py:419-426 | pending are exactly the stored Events whose sequence was not acknowledged |
| `JournalMeaning.FirstResultMeans` | src/openlinker/runtime/store.py:681-722 | a first Result has the id and final sequence given or a new id and the last sequence; the in-memory store asks for a started or finished attempt |
| `JournalMeaning.RepeatedResultMeans` | src/openlinker/runtime/store.py:681-692 | a repeated Result changes nothing; the in-memory store asks for the stored payload, the file store for the same body |
| `JournalMeaning.ResultAckedMeans` | src/openlinker/runtime/store.py:724-739 | the acknowledgement must name the stored Result, takes it away and makes the record result_acked |
| `JournalMeaning.RemovalMeans` | src/openlinker/runtime/store.py:741-772 | clearing drops the Events of an acknowledged or revoked attempt, discarding drops Events and Result of any terminal one |
| `JournalMeaning.RepairedMeans` | src/openlinker/runtime/store.py:883-925 | exactly which records reopen, and as what: terminal ones without spool, others if Events and Result are at most one write ahead, with that write made |
| `Disks.RepresentsUnique` | src/openlinker/runtime/store.py:851-873 | the files determine the journal |
| `Disks.ReopensAs` | src/openlinker/runtime/store.py:851-925 | a disk whose journal repairs to a sound one reopens as it |
| `Disks.TotalUpdated` | src/openlinker/runtime/store.py:795-821 | replacing one file changes the total size by the difference of the two sizes |
| `Disks.Disk.AtomicWrite` | src/openlinker/runtime/store.py:815-821 | a write leaves the old or the new file, and reported success means the new one |
| `Disks.Disk.Remove` | src/openlinker/runtime/store.py:1007-1013 | a removal that fails may have taken effect |
| `MemoryStores.MemoryStore.CreateAssignment` | src/openlinker/runtime/store.py:320-335 | creates, repeats, or refuses as the journal function does; the dictionaries stand for the new journal and nothing else changes |
| `MemoryStores.MemoryStore.AdvanceAssignment` | src/openlinker/runtime/store.py:337-349 | the table decides, and an equal state succeeds without change; the dictionaries stand for the new journal and nothing else changes |
| `MemoryStores.MemoryStore.DeleteAssignment` | src/openlinker/runtime/store.py:382-395 | deletes exactly a terminal assignment without spool; the dictionaries stand for the new journal and nothing else changes |
| `MemoryStores.MemoryStore.AppendEvent` | src/openlinker/runtime/store.py:397-417 | appends the next Event of a started attempt; the dictionaries stand for the new journal and nothing else changes |
| `MemoryStores.MemoryStore.PendingEvents` | src/openlinker/runtime/store.py:419-426 | the unacknowledged Events in sequence order; the dictionaries stand for the new journal and nothing else changes |
| `MemoryStores.MemoryStore.ReplayEvents` | src/openlinker/runtime/store.py:428-442 | the Events of valid ranges in order; the dictionaries stand for the new journal and nothing else changes |
| `MemoryStores.MemoryStore.AckEvent` | src/openlinker/runtime/store.py:444-452 | acknowledges exactly a stored Event with its id; the dictionaries stand for the new journal and nothing else changes |
| `MemoryStores.MemoryStore.StoreResult` | src/openlinker/runtime/store.py:454-485 | stores the first Result of a started attempt, repeats an equal one; the dictionaries stand for the new journal and nothing else changes |
| `MemoryStores.MemoryStore.AckResult` | src/openlinker/runtime/store.py:492-501 | needs the stored result id, and ends in result_acked; the dictionaries stand for the new journal and nothing else changes |
| `MemoryStores.MemoryStore.ClearTerminalEvents` | src/openlinker/runtime/store.py:503-508 | drops the Events of an acknowledged or revoked attempt; the dictionaries stand for the new journal and nothing else changes |
| `MemoryStores.MemoryStore.DiscardTerminalSpool` | src/openlinker/runtime/store.py:510-520 | drops Events and Result of a terminal attempt; the dictionaries stand for the new journal and nothing else changes |
| `FileStores.FileStore.CreateAssignment` | src/openlinker/runtime/store.py:599-607 | has the journal effect of the in-memory operation, or refuses without touching the disk, or poisons the store; every disk state on the way reopens as before or after; a closed or poisoned store never touches the disk |
| `FileStores.FileStore.AdvanceAssignment` | src/openlinker/runtime/store.py:609-617 | has the journal effect of the in-memory operation, or refuses without touching the disk, or poisons the store; every disk state on the way reopens as before or after; a closed or poisoned store never touches the disk |
| `FileStores.FileStore.DeleteAssignment` | src/openlinker/runtime/store.py:619-637 | has the journal effect of the in-memory operation, or refuses without touching the disk, or poisons the store; every disk state on the way reopens as before or after; a closed or poisoned store never touches the disk |
| `FileStores.FileStore.AppendEvent` | src/openlinker/runtime/store.py:639-670 | has the journal effect of the in-memory operation, or refuses without touching the disk, or poisons the store; every disk state on the way reopens as before or after; a closed or poisoned store never touches the disk |
| `FileStores.FileStore.AckEvent` | src/openlinker/runtime/store.py:672-679 | has the journal effect of the in-memory operation, or refuses without touching the disk, or poisons the store; every disk state on the way reopens as before or after; a closed or poisoned store never touches the disk |
| `FileStores.FileStore.StoreResult` | src/openlinker/runtime/store.py:681-722 | has the journal effect of the in-memory operation but for its weaker checks, or refuses without touching the disk, or poisons the store; every disk state on the way reopens as before or after (for an admissible Result); a closed or poisoned store never touches the disk |
| `FileStores.FileStore.AckResult` | src/openlinker/runtime/store.py:724-739 | has the journal effect of the in-memory operation, or refuses without touching the disk, or poisons the store; every disk state on the way reopens as before or after; a closed or poisoned store never touches the disk |
| `FileStores.FileStore.ClearTerminalEvents` | src/openlinker/runtime/store.py:741-752 | has the journal effect of the in-memory operation, or refuses without touching the disk, or poisons the store; every disk state on the way reopens as before or after; a closed or poisoned store never touches the disk |
| `FileStores.FileStore.DiscardTerminalSpool` | src/openlinker/runtime/store.py:754-772 | has the journal effect of the in-memory operation, or refuses without touching the disk, or poisons the store; every disk state on the way reopens as before or after; a closed or poisoned store never touches the disk |
| `FileStores.FileStore.WriteRecord` | src/openlinker/runtime/store.py:795-821 | the accounting equals the sizes of the files while not poisoned, and both limits hold in every state |
| `FileStores.FileStore.RemoveRecord` | src/openlinker/runtime/store.py:1007-1013 | removal keeps the accounting exact unless it fails |
| `FileStores.FileStore.EnsureCapacity` | src/openlinker/runtime/store.py:994-1005 | accepts exactly what keeps both limits and leaves the reserve of free space, where the probe answers |
| `Reopening.RepairAttempt` | src/openlinker/runtime/store.py:883-925 | repairs one attempt as the function `Repaired`, with every disk state on the way repairing to the same journal |
| `Reopening.Open` | src/openlinker/runtime/store.py:534-581 | a directory opens exactly when its files encode a repairable journal, apart from failing writes; every state on the way reopens to the same journal and keeps the limits |
| `StoreRuns.EffectSound` | src/openlinker/runtime/store.py:599-785 | the operations the worker issues keep the form of the journal |
| `StoreHistories.Run` | src/openlinker/runtime/store.py:599-785 | over any run of operations with any failures every disk state reopens as the journal before or after one of them; what is left is the effect of the first n, those reported to succeed are stages of the history, in order; a store still usable has carried out and answered all of them, it is usable unless a write failed or was refused, and the limits hold |
| `StoreHistories.RunOnBoth` | src/openlinker/runtime/store.py:301-785 | from equal views a whole run without an operation on which the stores differ gives equal answers and journals, those the run should have, unless a write fails |
| `StoreSessions.OpenedIsSound` | src/openlinker/runtime/store.py:851-925 | whatever a disk that reopens as a sound journal opens to is sound and is that journal repaired |
| `StoreSessions.EmptyDirectoryReopens` | src/openlinker/runtime/store.py:534-581 | an empty directory reopens as the empty journal |
| `StoreSessions.Sessions` | src/openlinker/runtime/store.py:534-785 | from a directory that reopens as a sound journal, over any number of processes with stops anywhere: never corrupt; every disk state reopens as the journal before or after a stage of one history; the operations reported to succeed are exactly its completed stages, in order, and every later journal goes on from them; a process usable to its end has carried out every operation on what it found, and each is unless a write or removal failed or was refused |
| `StoreRuns.EffectsAgreeIff` | src/openlinker/runtime/store.py:454-485 | the stores have the same effect exactly under the condition of `StoresAgree` |
| `StoreRuns.PerformOnBoth` | src/openlinker/runtime/store.py:301-785 | from equal views, for every operation on which the stores agree, the file store and the in-memory store give equal views and replies, unless a write fails |
| `WorkerEffects.ReplaySendsTheRanges` | src/openlinker/runtime/worker.py:1505-1541 | the replay consists of exactly the stored Events of the ranges, in order, the first sent at once and each other after the acknowledgement of the one before |
| `WorkerEffects.AcknowledgedResultIsGone` | src/openlinker/runtime/worker.py:1514-1519 | with the acknowledgement of the Result record, Events, Result, permission and lock are gone and the attempt is not active |
| `WorkerEffects.EmitAppends` | src/openlinker/runtime/worker.py:1024-1031 | an emitted Event of a running handler finds a started record and takes the next sequence, which no durable Event ever had, or finds the record removed |
| `WorkerEffects.StoreFinishes` | src/openlinker/runtime/worker.py:1012-1022 | the Result of a handler that was not cancelled is the first of its attempt, has the last sequence as its final one, and finishes the record |
| `WorkerHandling.StaleTicketIsHarmless` | src/openlinker/runtime/worker.py:1552-1656 | a snapshot from before the start never starts an attempt that an earlier process or this one has started |
| `WorkerRuns.RunKeeps` | src/openlinker/runtime/worker.py:834-1857 | the invariant holds after every run, with faults, fence and restarts |
| `WorkerRuns.RunOnward` | src/openlinker/runtime/worker.py:834-1857 | over every run the history only grows, and stops growing once a Result exists or a revocation is final |
| `WorkerTheorems.HandlerStartsAtMostOnce` | src/openlinker/runtime/worker.py:834-982 | over every run, restarts included, a handler is created and called at most once, and only after a confirmation or a continue decision |
| `WorkerTheorems.SecondStartIff` | src/openlinker/runtime/worker.py:858-876 | a confirmation, and a continue decision, start a handler again exactly for a record that is ack_sent again and not terminal, and that is one created after the Result was acknowledged |
| `WorkerTheorems.SecondStartExample` | src/openlinker/runtime/worker.py:834-876 | a run from an empty directory that ends there |
| `WorkerTheorems.DeliveryIsComplete` | src/openlinker/runtime/worker.py:1476-1519 | when the Result is acknowledged on the flush path every Event 1..final was acknowledged, prefix, last and final sequence agree, the list is empty, and no later Event exists in any further run |
| `WorkerTheorems.WireIdentityIsStable` | src/openlinker/runtime/worker.py:1476-1541 | every send of an Event is of the one record with its id, sequence and kind, every send of the Result of the one Result, and only one Result is ever durable, restarts included; what the payload reads is stated in `WorkerWire` |
| `Payloads.FlatIff` | src/openlinker/runtime/store.py:1130-1133 | an object whose top level was copied reads the same for ever exactly when it has no nested list or object |
| `Payloads.OutOfReachIff` | src/openlinker/runtime/worker.py:2434-2477 | the Result payload has no nested value exactly for a failure, nothing, an empty object or a scalar |
| `Payloads.ResultReads` | src/openlinker/runtime/worker.py:2434-2477 | what the Result of every kind of ending reads as when it is stored: the error of a failure, or the output, which is wrapped unless it is an object, beside the common fields |
| `WorkerWire.SendsCarryTheFiles` | src/openlinker/runtime/worker.py:1487-1505 | over every run, with handlers changing their objects at any time, a send of an Event or Result without nested values carries what its file has |
| `WorkerWire.EventPayloadIsStableIff` | src/openlinker/runtime/store.py:639-670 | all sends of an Event agree under every behaviour of the handlers exactly when its payload has no nested list or object |
| `WorkerWire.ResultIsStableIff` | src/openlinker/runtime/store.py:681-722 | all sends of the Result agree under every behaviour of the handlers exactly when its output is out of their reach |
| `WorkerWire.GrowingListExample` | src/openlinker/runtime/worker.py:1487-1496 | a list that grows between two Events: Event 1 is sent with both elements, and by the next process with one |
| `WorkerWire.InputIsStableIff` | src/openlinker/runtime/store.py:320-330 | an offer made again finds its input under every behaviour of the handlers exactly when the input has no nested list or object |
| `WorkerWire.OfferOfStartedIsIdle` | src/openlinker/runtime/worker.py:834-894 | an offer leaves a started or finished attempt alone, whatever the comparison of its input says |
| `WorkerTheorems.StoppedIsTruthful` | src/openlinker/runtime/worker.py:1289-1368 | after "stopped" was sent no handler of the attempt runs or starts in that process |
| `WorkerTheorems.RevocationIsFinal` | src/openlinker/runtime/worker.py:1825-1857 | after a final revocation nothing of the attempt is sent and its handler never starts, in that process or a later one |
| `WorkerTheorems.FenceHolds` | src/openlinker/runtime/worker.py:852-857 | from the fence to the next restart no record becomes ack_sent that was not already |
| `WorkerTheorems.NothingIsSentUnasked` | src/openlinker/runtime/worker.py:1482-1486 | from a restart on nothing of an attempt is sent before Core offers, confirms or continues it or allows its upload |
| `WorkerGrants.PermissionIsTheLastGrant` | src/openlinker/runtime/worker.py:1623-1664 | the permission of an attempt is what the last grant or withdrawal among the moves of the process has left, computed from confirmations, decisions and Results alone |
| `WorkerGrants.UploadDecides` | src/openlinker/runtime/worker.py:1657-1662 | after a decision that allows Events, Results, both or neither, the next flush sends exactly what it names |
| `WorkerGrants.FlushSendsExactly` | src/openlinker/runtime/worker.py:1482-1507 | over every run a flush sends, as it begins, the first pending Event exactly if the last grant names Events and one is pending, and the Result exactly if it names the Result, one is stored and nothing is pending |
| `WorkerGrants.FlushContinues` | src/openlinker/runtime/worker.py:1487-1507 | after each acknowledgement the next Event of the list is sent, and after the last one the Result exactly if it was allowed as the flush began, is stored and nothing is pending |
| `WorkerGrants.EverySendIsGranted` | src/openlinker/runtime/worker.py:1482-1541 | over every run each send, by whichever step, is covered by a grant of the process: an Event by one for Events or as part of a replay for a granted Result, the Result by one for it |
| `WorkerRevoking.RevokingCancels` | src/openlinker/runtime/worker.py:1825-1833 | the first step of every revocation or cancellation cancels a handler that is not over |
| `WorkerRevoking.RevocationTakesHold` | src/openlinker/runtime/worker.py:1825-1857 | from that step on, over every run of the process, the handler is over or cancelled, is not called if it was not yet, and no Result of the attempt becomes durable; so too when Core reports the Result as acknowledged while the handler is active |
| `WorkerFields.StepFields` | src/openlinker/runtime/worker.py:834-982 | a handler is created exactly for a confirmed record of an attempt neither active nor terminal; what every step makes of handler, activity, claim and terminal mark |
| `WorkerFields.StepTasks` | src/openlinker/runtime/worker.py:1289-1857 | what every step makes of the tasks of the attempt, its lock and its messages: the next wait of the one task it is of, and nothing else |
| `WorkerFields.StepMarks` | src/openlinker/runtime/worker.py:834-1857 | what every step notes of acknowledgements, confirmations, stops and revocations |
| `WorkerDelivery.DeliveryCanFinish` | src/openlinker/runtime/worker.py:1476-1519 | from any reachable state a finished record with both uploads allowed and no message on the way can be delivered: one flush sends the pending Events in order, then the Result, and ends with all of them acknowledged and the record gone |
| `WorkerDelivery.EverythingIsDelivered` | src/openlinker/runtime/worker.py:834-1519 | whatever a handler emits and returns, there is a run from an empty directory in which exactly those Events are sent, in order under the sequences 1 to n, then that Result, all is acknowledged and nothing is left |
| `WorkerPaths.ReplayCanFinish` | src/openlinker/runtime/worker.py:1505-1541 | when Core misses stored Events, the replay sends exactly those again in the order of the ranges and the same Result after them, and the record goes once they are acknowledged |
| `WorkerPaths.ResumeCanDeliver` | src/openlinker/runtime/worker.py:1543-1667 | a finished record of an earlier process is delivered after a decision that allows both uploads |
| `WorkerPaths.AcknowledgedCanClear` | src/openlinker/runtime/worker.py:1669-1692 | a stored Result that Core turns out to have is cleared with its record, and nothing is sent |
| `WorkerPaths.RevocationCanFinish` | src/openlinker/runtime/worker.py:1825-1857 | a revocation can be carried through from any state with the lock free: the handler is cancelled, and record, permission and activity are gone |
| `WorkerPaths.CancellationCanFinish` | src/openlinker/runtime/worker.py:1289-1368 | every durable attempt can be cancelled to the end: "stopped" is sent once the handler is over, and the record goes |
| `WorkerPaths.RejectionCanFinish` | src/openlinker/runtime/worker.py:834-928 | an offer without room is turned down and its record goes |
| `WorkerOperations.StepPerforms` | src/openlinker/runtime/worker.py:834-1857 | every step does to its record what a sequence of store operations does, each issued as the store expects and none refused; cut short, it does what a first part of them does |
| `WorkerCuts.StepCuts` | src/openlinker/runtime/store.py:599-772 | wherever those operations can stop, a cut-short step has that record |
| `WorkerStore.PerformsLifts` | src/openlinker/runtime/store.py:320-785 | operations on the record of an attempt are operations on the journal, with fresh Event ids on every directory that holds it and alike in both stores |
| `WorkerStore.MoveStored` | src/openlinker/runtime/worker.py:834-1857 | every move of the worker does to the journal what its operations, a first part of them, nothing, or a reopening does, and the slots go on mirroring the journal |
| `WorkerStore.RunStored` | src/openlinker/runtime/worker.py:834-1857 | so does every run, with faults, fence and restarts: there is a journal before and after each move |
| `WorkerStore.EveryStopIsAFault` | src/openlinker/runtime/store.py:599-772 | every place at which a failing operation can stop a step is a fault that the runs contain |
| `WorkerProcess.StepOnDisk` | src/openlinker/runtime/store.py:599-772 | performing the operations of a step on the file store, with any write failing, ends as the step or a fault of it ends |
| `WorkerProcess.Process` | src/openlinker/runtime/worker.py:834-1857 | a process that opens the directory and takes the acts of a run leaves the disk as a run of the worker ends, the acts or the first of them and a fault, with a history of every disk state, and ready for the next process with the restarted worker |
| `WorkerStore.RestartIsReopening` | src/openlinker/runtime/store.py:851-925 | a restart of the worker is a reopening of its store |
| `PolicyRecovery.RunKeeps` | src/openlinker/runtime/worker.py:1968-2045 | the invariant of the recovery holds after every run of any number of operations |
| `PolicyRecovery.OneRediscoveryPerRevision` | src/openlinker/runtime/worker.py:1991-2031 | rediscoveries started equal the revision with one for each earlier revision, at most one runs, and every operation is called at most twice |
| `PolicyRecovery.OperationsEndAsTraced` | src/openlinker/runtime/worker.py:1968-1989 | over every run an operation that was answered was called exactly once more than it met the signal, at most twice; every operation ends as its last step says, with the terminal error unless no Ready was there |
| `PolicyRecovery.OperationsKeepTheirRevision` | src/openlinker/runtime/worker.py:1968-1999 | over every run an operation goes by the revision at which it came in, when it is called, waits or leads a rediscovery |
| `PolicyRecovery.RecoveryGoesOn` | src/openlinker/runtime/worker.py:1991-2031 | after a recovery that gave a Ready leader and followers are called once more, and a direct caller is given the Ready of the latest completed rediscovery |
| `PolicyRecovery.FailureIsTerminal` | src/openlinker/runtime/worker.py:2023-2046 | a broken rediscovery and a second signal leave a terminal error that their operation raises |
| `PolicyRecovery.FollowerIsStaleIff` | src/openlinker/runtime/worker.py:2000-2022 | a follower goes on with a Ready no newer than the revision of its call exactly when every rediscovery from that revision on was led by a cancelled operation |
| `PolicyRecovery.TerminalErrorIsFinal` | src/openlinker/runtime/worker.py:1968-2045 | the terminal error never changes once set; nothing is called and nothing rediscovered after it; operations that enter raise it |
| `PolicyRecovery.CancelledLeaderExample` | src/openlinker/runtime/worker.py:2021-2022 | a cancelled leader leaves a follower with the old Ready |
| `Locks.LocksAreOrdered` | src/openlinker/runtime/worker.py:1968-2122 | a task waits only for locks above all it holds: policy, then claim and switch, then attempts |
| `Locks.NoDeadlock` | src/openlinker/runtime/worker.py:1968-2122 | from every reachable state all locks can be taken in turn and given back, without a task that gives up |
| `Locks.Unwinds` | src/openlinker/runtime/worker.py:1968-2122 | a task cancelled anywhere, also while it waits, gives back all its locks on its own and touches no others |
| `Locks.StepKeeps` | src/openlinker/runtime/worker.py:795-812 | every lock has one owner, and an open claim is on the current transport |
| `Locks.ClaimKeepsItsTransport` | src/openlinker/runtime/worker.py:795-812 | the transport of a claim stays the current one until the claim returns, whatever others do |
| `Locks.LastSwitchCounts` | src/openlinker/runtime/worker.py:1716-1794 | after every run the transport is the one that the last switch installed |
| `Locks.TasksDoWhatTheyAsked` | src/openlinker/runtime/worker.py:1991-2122 | over every run a task is under the claim lock only for what it asked it for, claim, drain request or switch, and only a recovery goes on under the policy lock |
| `Draining.DrainedMeansEmpty` | src/openlinker/runtime/worker.py:438-462 | when drain returns the fence is up, spool and handlers were seen empty after it, the last answer of Core had nothing in flight, and drain owns the only stop |
| `Draining.FailedDrainStops` | src/openlinker/runtime/worker.py:425-436 | a drain that failed has asked for the stop behind the fence, and owns it unless another owner came first |
| `Draining.FirstToAskOwns` | src/openlinker/runtime/worker.py:438-462 | the owner of the stop is whoever asked first; the drain task asks exactly where spool and handlers were seen empty with nothing in flight, after a second answer without runs in flight, after the hook, or as it fails |
| `Draining.LastAnswerCounts` | src/openlinker/runtime/worker.py:447-462 | over every run the drain task goes by the last answer of Core, and counts what the other tasks have left |
| `Draining.AsksAgainIff` | src/openlinker/runtime/worker.py:447-462 | Core is asked once at the beginning, and again exactly when the spool is seen empty while its last answer had runs in flight |
| `Draining.AnotherStopEndsDrain` | src/openlinker/runtime/worker.py:458-472 | once another has asked for the stop, the next thing the drain task does is to fail |
| `Draining.DrainReturns` | src/openlinker/runtime/worker.py:438-462 | with records and handlers gone, nothing in flight and no other stop, drain returns by its own steps from wherever it is |
| `Draining.DirectStopLeavesNothing` | src/openlinker/runtime/worker.py:449-461 | without a hook and a second request nothing was left when drain stopped the worker |
| `Draining.SecondRequestLeavesRecords` | src/openlinker/runtime/worker.py:451-456 | after a second request any number of records can be left |
| `Draining.HookLeavesRecords` | src/openlinker/runtime/worker.py:457-458 | so it is after the hook |
| `WorkerDrain.DrainedWorkerIsDone` | src/openlinker/runtime/worker.py:438-462 | drain beside any run of the worker: when it returns, there was a moment behind the fence without record or active handler, and from then on nothing was sent, started, emitted or stored, and every record is that of a refused offer; a direct stop leaves none |
| `WorkerDrain.SeenOnTheWay` | src/openlinker/runtime/worker.py:449-450 | that moment is a state of the run |
| `WorkerDrain.RefusedOfferIsLeft` | src/openlinker/runtime/worker.py:451-461 | a run in which an offer arrives between the two requests and its record is left when drain returns |
| `Draining.StepKeeps` | src/openlinker/runtime/worker.py:558-564 | the first request to stop owns the stop, and the fence never comes down |
| `Attachment.CurrentIs` | src/openlinker/runtime/transport.py:362-425 | the attachment is the one that the last accepted create or close left: the one Core named, or none |
| `Attachment.ClosedMeansDenied` | src/openlinker/runtime/transport.py:591-599 | after an accepted close, and before the next accepted create, a call of the session is not sent |
| `Attachment.AcceptedIsCurrent` | src/openlinker/runtime/transport.py:633-638 | a call of the session sent before an accepted create or close is never accepted after it |
| `Attachment.FencedIff` | src/openlinker/runtime/transport.py:633-638 | the comparison of id and generation decides exactly as the log of requests, answers and verdicts says |
| `Attachment.IdAloneIsNotEnough` | src/openlinker/runtime/transport.py:633-638 | the id alone would not, because Core may use an id again |
| `Attachment.HTTPTransport.BeginCall` | src/openlinker/runtime/transport.py:591-599 | a call is sent under the current attachment, and every call of the session needs one |
| `Attachment.HTTPTransport.FinishCall` | src/openlinker/runtime/transport.py:633-638 | the verdict is the one due by the log; a holder of the transition lock is never fenced off, and a heartbeat that names the current attachment is accepted |
| `Attachment.CallFinished` | src/openlinker/runtime/transport.py:362-425 | no create or close is accepted while another call holds the transition lock |
| `Attachment.HTTPTransport.Interleave` | src/openlinker/runtime/transport.py:362-425 | for any interleaving every move comes to what the log before it says: refused, sent, or answered with the verdict due, and the transport keeps the attachment of the last accepted create or close |
| `Texts.SplitContent` | src/openlinker/registration.py:345-367 | lines written with line feeds are read back as those lines |
| `JsonStrings.BodyDecodes` | src/openlinker/registration.py:391-398 | decoding an encoded text gives the text with adjacent surrogate pairs merged, for every text |
| `JsonStrings.RoundTripIff` | src/openlinker/registration.py:361-366 | a text survives exactly when it has no such pair |
| `JsonStrings.SplitPairExample` | src/openlinker/registration.py:391-398 | the two surrogates of U+1F600 come back as that one character |
| `JsonStrings.EscapeReads` | src/openlinker/registration.py:391-398 | in a string that others have written, a backslash and a letter are read by the table of section 7 of RFC 8259, and with any other letter the string is none |
| `JsonStrings.DigitsRead` | src/openlinker/registration.py:391-398 | four hexadecimal digits in either case stand for the number they spell |
| `JsonStrings.EncodedExample` | src/openlinker/registration.py:361-366 | what is written for a letter, a control character, a quote, and characters beyond ASCII and beyond the first plane |
| `EnvFile.SplitPairIsNotKept` | src/openlinker/registration.py:65-109 | a registration whose id is those two surrogates loads as another one |
| `EnvFile.ReadEnv` | src/openlinker/registration.py:332-342 | the loop computes the value of the last line of every key |
| `EnvFile.WriteEnv` | src/openlinker/registration.py:345-367 | the loops keep unmanaged lines, replace managed ones and add missing ones |
| `EnvFile.EnvRegistrationStore.SaveAgentRegistration` | src/openlinker/registration.py:86-109 | a save writes exactly the managed lines of the registration over the file as it is |
| `EnvFile.EnvRegistrationStore.LoadAgentRegistration` | src/openlinker/registration.py:65-84 | a load reads the nine managed keys, and nothing without id and token |
| `EnvFile.ReaderAndWriterAgree` | src/openlinker/registration.py:334-357 | reader and writer take the same key from every line they both use |
| `EnvFile.LineReads` | src/openlinker/registration.py:361-366 | a managed line is read back as its key and value |
| `EnvReading.AssignmentReads` | src/openlinker/registration.py:332-342 | any line of a name, an equals sign and a value reads as that name and value, with white space and a leading export around them |
| `EnvReading.OthersAreSkipped` | src/openlinker/registration.py:332-342 | empty lines, comments and lines without an equals sign read as nothing, exported or not |
| `EnvReading.PlainReads` | src/openlinker/registration.py:391-401 | a value without quotes around it reads as it stands |
| `EnvReading.ApostrophesReads` | src/openlinker/registration.py:399-400 | between apostrophes the text is taken as it stands |
| `EnvReading.QuotesRead` | src/openlinker/registration.py:391-398 | between quotes, characters that need no escape are taken as they stand |
| `EnvReading.NoJsonStands` | src/openlinker/registration.py:391-401 | quotes around what is no JSON string stay |
| `EnvReading.BrokenBody` | src/openlinker/registration.py:391-398 | a control character between quotes is one reason for that |
| `EnvReading.LastLineCounts` | src/openlinker/registration.py:332-342 | the last line of a name gives its value, and a name without a line has none |
| `EnvReading.LoadsWhatItReads` | src/openlinker/registration.py:65-84 | loading any file gives the registration of those values, and nothing exactly when it has neither id nor token |
| `EnvReading.HandWrittenExample` | src/openlinker/registration.py:65-84 | a file with one plain token line loads as the registration with that token |
| `EnvFile.SaveThenLoadIff` | src/openlinker/registration.py:65-109 | over any existing file a load after a save gives the saved registration, exactly when it has an id or a token and no field has an adjacent surrogate pair |
| `EnvFile.UnmanagedLinesSurvive` | src/openlinker/registration.py:354-367 | every unmanaged line survives unchanged and in order |
| `EnvWriting.SavedLinesStandInPlace` | src/openlinker/registration.py:345-367 | a save keeps every line in its place, drops those of managed keys without a value, adds the missing ones at the end in the order of the keys, and every managed line is the one of the registration |
| `EnvWriting.FieldsUnderTheirNames` | src/openlinker/registration.py:65-109 | after a save each of the nine names is read as the field it stands for |
| `EnvFile.UnmanagedKeysReadTheSame` | src/openlinker/registration.py:332-367 | every unmanaged key reads the same as before, or is missing as before |
| `EnvFile.SaveTwice` | src/openlinker/registration.py:86-109 | saving the same registration again changes nothing |
| `Sse.ReadSse` | src/openlinker/client/__init__.py:589-624 | the loop equals the recursive parse |
| `Sse.FieldsAreTaken` | src/openlinker/client/__init__.py:610-620 | a field line is read the same with and without the space behind its colon, and as an empty value without a colon: what it does to event, id and data |
| `Sse.DataAreLines` | src/openlinker/client/__init__.py:589-603 | the data of an event are its data lines joined by line feeds |
| `Sse.PrintedParses` | src/openlinker/client/__init__.py:589-624 | what any printed events are read as, an unfinished last one and those without data included |
| `Sse.RoundTripIff` | src/openlinker/client/__init__.py:589-624 | printed events come back as sent exactly when each has data and a name and no line ends in a carriage return |
| `Sse.IgnoredIsTransparent` | src/openlinker/client/__init__.py:610-620 | comments and unknown fields make no difference wherever they stand |
| `Sse.BlankLineDivides` | src/openlinker/client/__init__.py:593-609 | parsing distributes over a blank line, and the id does not outlive an event |

## Left out

- Encryption of records, checksums, key handling, derivation of message ids: a record write is atomic and authenticated, and derived ids are injective.
- File permissions, symbolic links, the process lock, clean-up of temporary files and the identity file: operating-system calls without state of their own here; the session epoch is a number that a restart increases.
- FileStores.FileStore.AppendEvent: the view holds the payload as it was handed over, which is what the file has; that memory shares nested values with the handler is modelled in `WorkerPayloads`, not in the store's own view.
- FileStores.FileStore.StoreResult: the same, for the output of a Result.
- FileStores.FileStore.CreateAssignment: the same, for the input; a record that is written again is written with the input as it reads by then, which `WorkerPayloads` allows at any time.
- WorkerWire.ResultIsStableIff: the moment between the return of a handler and the writing of its Result is not restricted, so the objects may change in between by any amount.
- Reopening.Open: a repair that cannot be written, for lack of space or otherwise, makes opening fail without a statement about the files; directories are read in any order instead of sorted.
- FileStores.FileStore.AckResult: after a failing write the memory of a poisoned store may be ahead of its disk, and nothing is stated about it.
- Deadlines, metadata, tokens and time stamps of records, and `accepts_new_runs`: they decide only when the worker asks or refuses, which the model leaves open.
- Lease renewal, heartbeats, back-off and time-outs: they can end a task, begin a revocation or a flush at any time, which the model allows anyway.
- The worker is modelled on values, as a state machine over its steps, because its methods interleave at every await; aliasing between tasks is expressed by the snapshots that suspended tasks hold.
- A store operation that fails inside a step is described by the journal it leaves after the repair on reopening; memory after it does not matter, because the store stays poisoned until the process ends.
- PolicyRecovery.FollowerIsStaleIff: the Ready of heartbeats and of transport recovery, which also overwrite the field, is not distinguished from the one they renew.
- Locks.NoDeadlock: the fairness of the locks is not modelled; the statement is that a way to idleness exists from every state, not that every schedule takes it.
- Draining.DrainedMeansEmpty: time-outs are one step, `Fail`, that can come at any time.
- WorkerDrain.DrainedWorkerIsDone: speaks of one process, because a restart ends the drain task with it.
- Transport discovery, WebSocket framing, TLS and request retries: an environment that answers or fails.
- The file mode, the directory and the atomic replacement of the environment file, and the decoding of its bytes: a text is what the reader is handed, after newline translation.
- JSON values that are not strings, in the environment file: a value that starts and ends with a quote can only be a string literal.
- UTF-8 encoding of event data: data stays a text.
- REST client methods, A2A clients, webhook helpers and validators of fields: thin wrappers, or settled by one branch.
