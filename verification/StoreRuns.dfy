/** The operations of the stores: their effects, what the worker guarantees of them, and how one of them ends. */
module StoreRuns {
  import opened Prelude
  import opened Acks
  import opened Journal
  import opened Disks
  import opened MemoryStores
  import opened FileStores

  datatype Operation =
    | Create(identity: Identity, input: Fields)
    | Advance(message: MessageId, to: State)
    | Delete(message: MessageId)
    | Append(attempt: AttemptId, kind: string, payload: Fields, freshId: EventId)
    | AckEvent(attempt: AttemptId, event: EventId, n: nat)
    | StoreResult(attempt: AttemptId, body: Fields, freshId: nat)
    | AckResult(attempt: AttemptId, result: ResultId)
    | Clear(attempt: AttemptId)
    | Discard(attempt: AttemptId)

  /** The states the worker advances to. */
  predicate WorkerTarget(s: State) {
    s in {AckSent, Confirmed, Started, RejectSent, Rejected, Revoked}
  }

  /** The effect an operation should have on the journal. */
  function Effect(j: Journal, op: Operation): Outcome<Journal, StoreError> {
    match op
    case Create(identity, input) => Created(j, identity, input)
    case Advance(message, to) => AdvancedIn(j, message, to)
    case Delete(message) => DeletedIn(j, message)
    case Append(a, kind, payload, freshId) => AppendedIn(j, a, freshId, kind, payload)
    case AckEvent(a, event, n) => EventAckedIn(j, a, event, n)
    case StoreResult(a, body, freshId) => StoredFileIn(j, a, Payload(body, None, None), freshId)
    case AckResult(a, result) => ResultAckedIn(j, a, result)
    case Clear(a) => ClearedIn(j, a)
    case Discard(a) => DiscardedIn(j, a)
  }

  /** Generated Event ids are new. */
  predicate Fresh(op: Operation, files: Files) {
    op.Append? ==> EventPath(op.attempt, op.freshId) !in files
  }

  /**
   * What the worker guarantees about the operations it issues: no advance to a state that
   * only a Result can bring about, and a first Result only for a started attempt.
   */
  predicate Issued(op: Operation, j: Journal) {
    && (op.Advance? ==> WorkerTarget(op.to))
    && (op.StoreResult? && op.attempt in j && j[op.attempt].result == None ==> j[op.attempt].rec.state == Started)
  }

  /** The same, said of the journal. */
  predicate NewId(op: Operation, j: Journal) {
    op.Append? && op.attempt in j ==> forall n :: n in j[op.attempt].events ==> j[op.attempt].events[n].id != op.freshId
  }

  lemma FreshIff(op: Operation, files: Files, j: Journal)
    requires Represents(files, j)
    ensures Fresh(op, files) <==> NewId(op, j)
  {
    if op.Append? {
      var p := EventPath(op.attempt, op.freshId);
      assert p in files ==> Owned(p, files[p].content, j);
      assert op.attempt in j ==> Stored(files, op.attempt, j[op.attempt]);
    }
  }

  /** Would the worker issue the operation now? */
  predicate Takes(j: Journal, op: Operation) {
    Issued(op, j) && NewId(op, j)
  }

  /** Issued operations keep the form of the journal. */
  lemma EffectSound(j: Journal, op: Operation, files: Files)
    requires SoundJournal(j) && Represents(files, j) && Issued(op, j) && Fresh(op, files) && Effect(j, op).Ok?
    ensures SoundJournal(Effect(j, op).value)
  {
    hide Sound, Represents, Meaning;
    match op
    case Create(identity, input) => CreatedSound(j, identity, input);
    case Advance(message, to) => AdvanceInSound(j, message, to);
    case Delete(message) =>
    case Append(a, kind, payload, freshId) => AppendedInSound(files, j, a, freshId, kind, payload);
    case AckEvent(a, event, n) => EventAckedSound(j[a], event, n);
    case StoreResult(a, body, freshId) => ResultStoredSound(j[a], Payload(body, None, None), freshId);
    case AckResult(a, result) => ResultAckedSound(j[a], result);
    case Clear(a) => DroppedSound(j[a]);
    case Discard(a) => DroppedSound(j[a]);
  }

  /** How one operation ends, in terms of its journal effect. */
  ghost predicate Ended(
    wasReady: bool, isReady: bool, failed: bool, before: Journal, spec: Outcome<Journal, StoreError>,
    after: Journal, steps: seq<Files>)
  {
    && (isReady ==> wasReady)
    && (!wasReady || spec.Err? ==> steps == [])
    && (wasReady && spec.Err? ==> isReady && failed && after == before)
    && (wasReady && spec.Ok? ==> (isReady <==> !failed) && (isReady ==> after == spec.value))
  }

  /** What a caller gets back. */
  datatype Reply =
    | Failed
    | Done
    | Record(rec: Assignment)
    | Emitted(event: Event)
    | Finishing(result: Result)
    | Withheld      // the operation was not issued
    | Unsure        // nor is one issued once the store is poisoned

  predicate Succeeds(r: Reply) {
    !r.Failed? && !r.Withheld? && !r.Unsure?
  }

  /** The reply of an operation that took effect between these two journals. */
  ghost predicate ReplyFits(reply: Reply, before: Journal, after: Journal, op: Operation) {
    match op
    case Create(identity, _) => identity.attempt in after && reply == Record(after[identity.attempt].rec)
    case Advance(message, _) => message.attempt in after && reply == Record(after[message.attempt].rec)
    case Append(a, kind, payload, freshId) =>
      a in before && reply == Emitted(NextEvent(before[a], freshId, kind, payload))
    case StoreResult(a, _, _) => a in after && after[a].result.Some? && reply == Finishing(after[a].result.value)
    case _ => reply == Done
  }

  /** Perform one operation on the file store. */
  method Perform(store: FileStore, op: Operation) returns (reply: Reply)
    requires store.Valid() && Fresh(op, store.disk.files)
    modifies store, store.base, store.disk
    ensures store.Valid() && old(store.disk.trace) <= store.disk.trace
    ensures old(store.disk.failed) ==> store.disk.failed
    ensures Ended(old(store.Ready()), store.Ready(), reply == Failed, old(store.View()), Effect(old(store.View()), op),
                  store.View(), store.Since(|old(store.disk.trace)|))
    ensures reply != Failed && store.Ready() ==> ReplyFits(reply, old(store.View()), store.View(), op)
    ensures !reply.Withheld? && !reply.Unsure? && (old(store.Ready()) ==> store.Ready() || store.disk.failed)
    ensures var before, spec := old(store.View()), Effect(old(store.View()), op);
            old(store.Ready()) && SoundJournal(before) && Issued(op, before) && spec.Ok? ==>
              SoundJournal(spec.value) && StepsReopen(store.Since(|old(store.disk.trace)|), before, spec.value)
  {
    hide Represents, MemoryStore.Valid, WithinLimits, StepsWithin, Sound, SoundJournal, Numbered, StepsReopen,
      Created, AdvancedIn, DeletedIn, AppendedIn, EventAckedIn, StoredFileIn, ResultAckedIn, ClearedIn, DiscardedIn;
    ghost var before, ready, start := store.View(), store.Ready(), |store.disk.trace|;
    if ready && SoundJournal(before) && Issued(op, before) && Effect(before, op).Ok? {
      EffectSound(before, op, store.disk.files);
    }
    match op {
      case Create(identity, input) =>
        var r := store.CreateAssignment(identity, input);
        reply := if r.Ok? then Record(r.value) else Failed;
      case Advance(message, to) =>
        var r := store.AdvanceAssignment(message, to);
        reply := if r.Ok? then Record(r.value) else Failed;
      case Delete(message) =>
        var r := store.DeleteAssignment(message);
        reply := if r.Ok? then Done else Failed;
      case Append(a, kind, payload, freshId) =>
        var r := store.AppendEvent(a, kind, payload, freshId);
        reply := if r.Ok? then Emitted(r.value) else Failed;
      case AckEvent(a, event, n) =>
        var r := store.AckEvent(a, event, n);
        reply := if r.Ok? then Done else Failed;
      case StoreResult(a, body, freshId) =>
        var r := store.StoreResult(a, Payload(body, None, None), freshId);
        reply := if r.Ok? then Finishing(r.value) else Failed;
      case AckResult(a, result) =>
        var r := store.AckResult(a, result);
        reply := if r.Ok? then Done else Failed;
      case Clear(a) =>
        var r := store.ClearTerminalEvents(a);
        reply := if r.Ok? then Done else Failed;
      case Discard(a) =>
        var r := store.DiscardTerminalSpool(a);
        reply := if r.Ok? then Done else Failed;
    }
  }

  // ---------------------------------------------------------------- refinement

  /** The effect on the in-memory store. */
  function MemoryEffect(j: Journal, op: Operation): Outcome<Journal, StoreError> {
    if op.StoreResult? then StoredMemoryIn(j, op.attempt, Payload(op.body, None, None), op.freshId)
    else Effect(j, op)
  }

  /** Perform one operation on the in-memory store. */
  method PerformInMemory(store: MemoryStore, op: Operation) returns (reply: Reply)
    requires store.Valid() && !store.closed
    modifies store
    ensures store.Valid() && !store.closed
    ensures reply == Failed <==> MemoryEffect(old(store.View()), op).Err?
    ensures store.View() == if reply == Failed then old(store.View()) else MemoryEffect(old(store.View()), op).value
    ensures reply != Failed ==> ReplyFits(reply, old(store.View()), store.View(), op)
  {
    hide MemoryStore.Valid, Advanced, Appended, EventAcked, EventsCleared, Discarded;
    match op {
      case Create(identity, input) =>
        var r := store.CreateAssignment(identity, input);
        reply := if r.Ok? then Record(r.value) else Failed;
      case Advance(message, to) =>
        var r := store.AdvanceAssignment(message, to);
        reply := if r.Ok? then Record(r.value) else Failed;
      case Delete(message) =>
        var r := store.DeleteAssignment(message);
        reply := if r.Ok? then Done else Failed;
      case Append(a, kind, payload, freshId) =>
        var r := store.AppendEvent(a, kind, payload, freshId);
        reply := if r.Ok? then Emitted(r.value) else Failed;
      case AckEvent(a, event, n) =>
        var r := store.AckEvent(a, event, n);
        reply := if r.Ok? then Done else Failed;
      case StoreResult(a, body, freshId) =>
        var r := store.StoreResult(a, Payload(body, None, None), freshId);
        reply := if r.Ok? then Finishing(r.value) else Failed;
      case AckResult(a, result) =>
        var r := store.AckResult(a, result);
        reply := if r.Ok? then Done else Failed;
      case Clear(a) =>
        var r := store.ClearTerminalEvents(a);
        reply := if r.Ok? then Done else Failed;
      case Discard(a) =>
        var r := store.DiscardTerminalSpool(a);
        reply := if r.Ok? then Done else Failed;
    }
  }

  /** The one operation on which the stores can differ: a first Result too early, or a repeated one. */
  predicate StoresAgree(j: Journal, op: Operation) {
    op.StoreResult? && op.attempt in j ==>
      var e := j[op.attempt];
      if e.result.Some? then e.result.value.payload.body != op.body else e.rec.state in {Started, Finished}
  }

  /** They give the same answer and the same journal exactly under this condition. */
  lemma EffectsAgreeIff(j: Journal, op: Operation)
    requires SoundJournal(j)
    ensures StoresAgree(j, op)
       <==> (MemoryEffect(j, op).Ok? <==> Effect(j, op).Ok?)
            && (Effect(j, op).Ok? ==> MemoryEffect(j, op) == Effect(j, op))
  {
  }

  /** From equal views the same operation gives equal views and replies, unless a write fails. */
  method PerformOnBoth(file: FileStore, memory: MemoryStore, op: Operation) returns (f: Reply, m: Reply)
    requires memory != file.base
    requires file.Valid() && file.Ready() && SoundJournal(file.View())
    requires memory.Valid() && !memory.closed && memory.View() == file.View()
    requires Fresh(op, file.disk.files) && StoresAgree(file.View(), op)
    modifies file, file.base, file.disk, memory
    ensures file.Valid() && memory.Valid() && !memory.closed && (file.Ready() || file.disk.failed)
    ensures file.Ready() ==> f == m && memory.View() == file.View()
    ensures file.Ready() ==>
              var before, spec := old(file.View()), Effect(old(file.View()), op);
              && (f == Failed <==> spec.Err?) && file.View() == (if spec.Ok? then spec.value else before)
              && (spec.Ok? ==> Succeeds(f) && ReplyFits(f, before, file.View(), op))
    ensures file.Ready() && Issued(op, old(file.View())) ==> SoundJournal(file.View())
  {
    hide Represents, MemoryStore.Valid, WithinLimits, StepsWithin, Sound, SoundJournal, Numbered, StepsReopen,
      Effect, MemoryEffect, StoresAgree, Issued;
    ghost var j := file.View();
    EffectsAgreeIff(j, op);
    f := Perform(file, op);
    m := PerformInMemory(memory, op);
  }
}
