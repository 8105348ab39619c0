/**
 * The worker as a transition system. One step is the code of one task between two awaits.
 * The worker's dictionaries are all keyed by attempt, so its state is one slot per attempt
 * plus what all tasks share. Core answers anything the validators accept.
 *
 * A task snapshot may be taken, a flush, revocation or cancellation may begin, and a task
 * may fail or be cancelled at any time; this only adds behaviour to the worker's own loops.
 */
module Worker {
  import opened Prelude
  import opened Journal
  import opened Ranges

  type TaskId = nat

  /** A handler task: created, running user code, waiting to store its Result, or over. */
  datatype Phase = Spawned | Running | Storing | Done

  datatype Handler = Handler(phase: Phase, cancelled: bool)

  /** What a flush may upload. */
  datatype Permit = Permit(events: bool, result: bool)

  /** The claim loop's business with this attempt. */
  datatype Claim = NoClaim | AwaitConfirm | AwaitReject

  /** A suspended task, with what it holds across the await. */
  datatype Task =
    | Ticket(state: State)
    | FlushWaiting
    | SendingEvent(event: Event, rest: seq<Event>, resultAllowed: bool)
    | SendingResult(result: Result, repaired: bool)
    | Replaying(event: Event, rest: seq<Event>, result: Result)
    | Revoking
    | Clearing(acked: bool)
    | CancelLocking(had: bool)
    | CancelWaiting(had: bool)

  /**
   * What has happened to the attempt, in this process and before; no step reads it, except
   * that the premises about Core are stated with `offered`, `late` and `resultAcked`.
   */
  datatype Past = Past(
    offered: Option<Identity>,   // the one identity of the attempt
    late: bool,                  // its record was created after Core acknowledged its Result
    confirmed: bool,             // Core confirmed it or let it continue
    startedIn: Option<nat>,      // the process in which its record first became started
    spawns: nat, begins: nat,    // handler tasks created, handler calls begun
    ever: map<nat, Event>,       // every Event that was ever durable
    result: Option<Result>,      // the first Result that was ever durable
    acked: set<nat>,             // sequences Core acknowledged with a matching id
    resultAcked: bool,           // Core acknowledged a Result
    finalised: bool,             // a revocation was carried through
    sentEvents: seq<Event>, sentResults: seq<Result>,
    stopped: bool)               // a "stopped" cancellation was sent in this process

  datatype Slot = Slot(
    entry: Option<Entry>, handler: Option<Handler>, active: bool, terminal: bool,
    permit: Option<Permit>, lock: Option<TaskId>, claim: Claim, tasks: map<TaskId, Task>, past: Past)

  datatype Shared = Shared(epoch: nat, poisoned: bool, draining: bool)

  const EMPTY_PAST := Past(None, false, false, None, 0, 0, map[], None, {}, false, false, [], [], false)

  const EMPTY_SLOT := Slot(None, None, false, false, None, None, NoClaim, map[], EMPTY_PAST)

  // ---------------------------------------------------------------- small changes of a slot

  /** The history notes what becomes durable. */
  function Noted(p: Past, before: Option<Entry>, after: Option<Entry>, epoch: nat): Past {
    if after == None then p
    else
      var e := after.value;
      var n := e.rec.last;
      p.(startedIn := if e.rec.state == Started && (before == None || before.value.rec.state != Started)
                      then Some(epoch) else p.startedIn,
         ever := if n in e.events && n !in p.ever then p.ever[n := e.events[n]] else p.ever,
         result := if p.result == None then e.result else p.result)
  }

  function Commit(sh: Shared, x: Slot, after: Option<Entry>): Slot {
    x.(entry := after, past := Noted(x.past, x.entry, after, sh.epoch))
  }

  function Cancelled(x: Slot): Slot {
    if x.active && x.handler.Some? then x.(handler := Some(x.handler.value.(cancelled := true))) else x
  }

  /** A task ends, by itself or by an exception; the attempt lock is released with it. */
  function Release(x: Slot, id: TaskId): Slot {
    x.(tasks := x.tasks - {id}, lock := if x.lock == Some(id) then None else x.lock)
  }

  function BeginRevoke(x: Slot, id: TaskId): Slot {
    Cancelled(x).(terminal := true, tasks := x.tasks[id := Revoking])
  }

  function SendEvent(x: Slot, e: Event): Slot {
    x.(past := x.past.(sentEvents := x.past.sentEvents + [e]))
  }

  function SendResult(x: Slot, r: Result): Slot {
    x.(past := x.past.(sentResults := x.past.sentResults + [r]))
  }

  // ---------------------------------------------------------------- claiming and starting

  /** create_assignment for this attempt. */
  function CreatedEntry(x: Slot, identity: Identity, input: Fields): Outcome<Entry, StoreError> {
    if x.entry == None then Ok(Entry(NewAssignment(identity, input), map[], None))
    else if x.entry.value.rec.identity == identity && x.entry.value.rec.input == input then Ok(x.entry.value)
    else Err(Corrupt)
  }

  function CreatedSlot(sh: Shared, x: Slot, identity: Identity, e: Entry): Slot {
    var late := x.past.late || (x.entry == None && x.past.resultAcked);
    Commit(sh, x, Some(e)).(past := Noted(x.past, x.entry, Some(e), sh.epoch).(offered := Some(identity), late := late))
  }

  /** advance_assignment, where the attempt has a record and the table allows it. */
  function AdvancedEntry(x: Slot, to: State): Outcome<Entry, StoreError> {
    if x.entry == None then Err(NotFound) else Advanced(x.entry.value, to)
  }

  /** _start_confirmed_attempt: no await inside, so it is part of the step that calls it. */
  function Start(sh: Shared, x: Slot): Slot {
    if x.active || x.terminal || AdvancedEntry(x, Started).Err? then x
    else
      var y := Commit(sh, x, Some(AdvancedEntry(x, Started).value));
      y.(active := true, handler := Some(Handler(Spawned, false)), past := y.past.(spawns := y.past.spawns + 1))
  }

  function Permitted(x: Slot): Slot {
    x.(permit := Some(Permit(true, true)))
  }

  function Vouched(x: Slot): Slot {
    Permitted(x).(past := x.past.(confirmed := true))
  }

  /** The claim returned an offer for this attempt. */
  function OfferStep(sh: Shared, x: Slot, identity: Identity, input: Fields, roomy: bool): Slot {
    var created := CreatedEntry(x, identity, input);
    if x.terminal || created.Err? then x
    else
      var y := CreatedSlot(sh, x, identity, created.value);
      var e := created.value;
      match e.rec.state
      case Received =>
        if roomy then Commit(sh, y, Some(Advanced(e, AckSent).value)).(claim := AwaitConfirm)
        else Commit(sh, y, Some(Advanced(e, RejectSent).value)).(claim := AwaitReject)
      case AckSent => y.(claim := AwaitConfirm)
      case Confirmed => Start(sh, Permitted(y))
      case _ => y
  }

  /** The acknowledgement of the assignment was confirmed. */
  function ConfirmStep(sh: Shared, x: Slot): Slot {
    var y := x.(claim := NoClaim);
    if x.terminal || AdvancedEntry(y, Confirmed).Err? then y
    else Start(sh, Vouched(Commit(sh, y, Some(AdvancedEntry(y, Confirmed).value))))
  }

  /** The rejection was accepted: the record becomes rejected and is deleted. */
  function RejectStep(sh: Shared, x: Slot): Slot {
    var y := x.(claim := NoClaim);
    if x.terminal || AdvancedEntry(y, Rejected).Err? then y
    else
      var e := AdvancedEntry(y, Rejected).value;
      Commit(sh, Commit(sh, y, Some(e)), if Deletable(e) then None else Some(e))
  }

  // ---------------------------------------------------------------- resuming

  /** A continue decision, acted on with the snapshot taken before the request. */
  function ContinueStep(sh: Shared, x: Slot, id: TaskId, state: State, reconnect: bool): Slot {
    var y := Release(x, id);
    match state
    case Started => if reconnect && y.active then Permitted(y) else y
    case Finished => if reconnect && y.active then Permitted(y) else y
    case AckSent =>
      if AdvancedEntry(y, Confirmed).Err? then y
      else Start(sh, Vouched(Commit(sh, y, Some(AdvancedEntry(y, Confirmed).value))))
    case Confirmed => Start(sh, Vouched(y))
    case _ => y
  }

  function AckedTicket(x: Slot, id: TaskId, state: State): Slot {
    Cancelled(x).(tasks := x.tasks[id := Clearing(state == ResultAcked)], past := x.past.(resultAcked := true))
  }

  /** The acknowledged Result leaves the journal, with its Events and its record. */
  function Deleted(sh: Shared, x: Slot, e: Entry): Slot {
    var y := Commit(sh, x, Some(e));
    if EventsCleared(e).Err? then y
    else
      var cleared := EventsCleared(e).value;
      var z := Commit(sh, y, Some(cleared));
      if Deletable(cleared) then Commit(sh, z, None).(active := false, permit := None) else z
  }

  /** _clear_from_resume, once it holds the attempt lock. */
  function ClearStep(sh: Shared, x: Slot, id: TaskId, acked: bool): Slot {
    var y := Release(x, id);
    if x.entry == None then y
    else
      var e := x.entry.value;
      if e.result.Some? then Deleted(sh, y, ResultAckedBy(e, e.result.value.id).value)
      else if acked then Deleted(sh, y, e)
      else y
  }

  // ---------------------------------------------------------------- flushing the spool

  /** The second half of a flush: send the Result when no Event is pending. */
  function ResultPhase(x: Slot, id: TaskId, allowed: bool): Slot {
    if x.entry == None || !allowed || PendingSeqs(x.entry.value) != {} || x.entry.value.result == None then
      Release(x, id)
    else
      var r := x.entry.value.result.value;
      SendResult(x, r).(lock := Some(id), tasks := x.tasks[id := SendingResult(r, false)])
  }

  function SendNext(x: Slot, id: TaskId, events: seq<Event>, allowed: bool): Slot {
    if events == [] then ResultPhase(x, id, allowed)
    else
      var sending := SendingEvent(events[0], events[1..], allowed);
      SendEvent(x, events[0]).(lock := Some(id), tasks := x.tasks[id := sending])
  }

  /** A flush gets the attempt lock. */
  function FlushStep(x: Slot, id: TaskId): Slot {
    if x.permit == None || x.entry == None then Release(x, id)
    else
      var events := if x.permit.value.events then Pending(x.entry.value) else [];
      SendNext(x, id, events, x.permit.value.result)
  }

  function AckedEntry(x: Slot, e: Event): Outcome<Entry, StoreError> {
    if x.entry == None then Err(NotFound) else EventAcked(x.entry.value, e.id, e.seq_)
  }

  function NoteAck(x: Slot, e: Event): Slot {
    x.(past := x.past.(acked := x.past.acked + {e.seq_}))
  }

  function EventAckStep(sh: Shared, x: Slot, id: TaskId, e: Event, rest: seq<Event>, allowed: bool): Slot {
    var y := NoteAck(x, e);
    if AckedEntry(y, e).Err? then Release(y, id)
    else SendNext(Commit(sh, y, Some(AckedEntry(y, e).value)), id, rest, allowed)
  }

  function ReplayNext(x: Slot, id: TaskId, events: seq<Event>, r: Result): Slot {
    if events == [] then SendResult(x, r).(tasks := x.tasks[id := SendingResult(r, true)])
    else SendEvent(x, events[0]).(tasks := x.tasks[id := Replaying(events[0], events[1..], r)])
  }

  function ReplayAckStep(sh: Shared, x: Slot, id: TaskId, e: Event, rest: seq<Event>, r: Result): Slot {
    var y := NoteAck(x, e);
    if AckedEntry(y, e).Err? then Release(y, id)
    else ReplayNext(Commit(sh, y, Some(AckedEntry(y, e).value)), id, rest, r)
  }

  function ResultAckStep(sh: Shared, x: Slot, id: TaskId, r: Result): Slot {
    var y := Release(x.(past := x.past.(resultAcked := true)), id);
    if y.entry == None || ResultAckedBy(y.entry.value, r.id).Err? then y
    else Deleted(sh, y, ResultAckedBy(y.entry.value, r.id).value)
  }

  // ---------------------------------------------------------------- revoking and cancelling

  /** The revocation of a record that is not terminal yet; the table always allows it. */
  function RevokedEntry(e: Entry): Entry {
    if Terminal(e.rec.state) then e else Advanced(e, Revoked).value
  }

  /** _finalize_revoked_attempt, once it holds the attempt lock. */
  function FinaliseStep(sh: Shared, x: Slot, id: TaskId): Slot {
    var y := Release(x, id).(permit := None, active := false,
                             past := x.past.(finalised := x.past.finalised || x.past.offered.Some?));
    if y.entry == None then y
    else
      var e := Discarded(RevokedEntry(y.entry.value)).value;
      Commit(sh, y, if Deletable(e) then None else Some(e))
  }

  // ---------------------------------------------------------------- the handler task

  function EmitStep(sh: Shared, x: Slot, freshId: EventId, kind: string, payload: Fields): Slot {
    if x.entry == None || Appended(x.entry.value, freshId, kind, payload).Err? then x
    else Commit(sh, x, Some(Appended(x.entry.value, freshId, kind, payload).value))
  }

  function WithPhase(x: Slot, phase: Phase): Slot
    requires x.handler.Some?
  {
    x.(handler := Some(x.handler.value.(phase := phase)))
  }

  function StoreStep(sh: Shared, x: Slot, body: Fields, freshId: nat): Slot
    requires x.handler.Some?
  {
    var y := WithPhase(x, Done);
    var p := Payload(body, None, None);
    if x.handler.value.cancelled || x.entry == None || ResultStoredFile(x.entry.value, p, freshId).Err? then y
    else Permitted(Commit(sh, y, Some(ResultStoredFile(x.entry.value, p, freshId).value)))
  }

  // ---------------------------------------------------------------- the steps

  datatype Step =
    | Offer(identity: Identity, input: Fields, roomy: bool)
    | Confirm
    | RejectAccepted
    | ClaimLost
    | ClaimRevoked(id: TaskId)
    | Ask(id: TaskId)
    | Continue(id: TaskId, reconnect: bool)
    | Upload(id: TaskId, permit: Permit)
    | TicketRevoked(id: TaskId)
    | TicketAcked(id: TaskId)
    | Clear(id: TaskId)
    | FlushSpawn(id: TaskId)
    | FlushLock(id: TaskId)
    | EventAck(id: TaskId)
    | ResultAck(id: TaskId)
    | Missing(id: TaskId, ranges: seq<Range>, events: seq<Event>)
    | ReplayAck(id: TaskId)
    | Abort(id: TaskId)
    | AbortTerminal(id: TaskId)
    | RevokeSpawn(id: TaskId)
    | Finalise(id: TaskId)
    | CancelStart(id: TaskId)
    | CancelLock(id: TaskId)
    | CancelStopped(id: TaskId)
    | Begin
    | Emit(freshId: EventId, kind: string, payload: Fields)
    | Return
    | StoreResult(body: Fields, freshNumber: nat)
    | Die

  /** The task is between two awaits while it holds the attempt lock. */
  predicate HoldsLock(t: Task) {
    t.SendingEvent? || t.SendingResult? || t.Replaying?
  }

  /** Steps that read or write the store; a poisoned store makes them raise before any effect. */
  predicate NeedsStore(step: Step) {
    match step
    case Offer(_, _, _) => true
    case Confirm => true
    case RejectAccepted => true
    case Ask(_) => true
    case Continue(_, _) => true
    case Clear(_) => true
    case FlushLock(_) => true
    case EventAck(_) => true
    case ResultAck(_) => true
    case Missing(_, _, _) => true
    case ReplayAck(_) => true
    case Finalise(_) => true
    case CancelStart(_) => true
    case Emit(_, _, _) => true
    case StoreResult(_, _) => true
    case _ => false
  }

  ghost predicate Enabled(sh: Shared, x: Slot, step: Step) {
    && (NeedsStore(step) ==> !sh.poisoned)
    && match step
       // The offer is for this session. Premise: an attempt id stands for one identity.
       case Offer(identity, _, roomy) =>
         && x.claim == NoClaim && identity.epoch == sh.epoch
         && (x.past.offered.Some? ==> x.past.offered.value == identity)
         && (roomy ==> !sh.draining)
       // Premise: Core never confirms an offer it makes after acknowledging the Result.
       case Confirm => x.claim == AwaitConfirm && !x.past.late
       case RejectAccepted => x.claim == AwaitReject
       case ClaimLost => x.claim != NoClaim
       case ClaimRevoked(id) => x.claim != NoClaim && id !in x.tasks
       case Ask(id) => id !in x.tasks && x.entry.Some?
       // The same premise for a continue decision.
       case Continue(id, _) => id in x.tasks && x.tasks[id].Ticket? && !x.past.late
       case Upload(id, _) => id in x.tasks && x.tasks[id].Ticket?
       case TicketRevoked(id) => id in x.tasks && x.tasks[id].Ticket?
       case TicketAcked(id) => id in x.tasks && x.tasks[id].Ticket?
       case Clear(id) => id in x.tasks && x.tasks[id].Clearing? && x.lock == None
       case FlushSpawn(id) => id !in x.tasks
       case FlushLock(id) => id in x.tasks && x.tasks[id].FlushWaiting? && x.lock == None
       case EventAck(id) => id in x.tasks && x.tasks[id].SendingEvent?
       case ResultAck(id) => id in x.tasks && x.tasks[id].SendingResult?
       case Missing(id, ranges, events) =>
         && id in x.tasks && x.tasks[id].SendingResult? && !x.tasks[id].repaired
         && x.entry.Some? && Replayable(ranges) && ranges != []
         && Selects(x.entry.value.events, Expanded(ranges), events)
       case ReplayAck(id) => id in x.tasks && x.tasks[id].Replaying?
       case Abort(id) => id in x.tasks
       case AbortTerminal(id) => id in x.tasks && HoldsLock(x.tasks[id])
       case RevokeSpawn(id) => id !in x.tasks
       case Finalise(id) => id in x.tasks && x.tasks[id].Revoking? && x.lock == None
       case CancelStart(id) => id !in x.tasks && x.entry.Some?
       case CancelLock(id) => id in x.tasks && x.tasks[id].CancelLocking? && x.lock == None
       case CancelStopped(id) =>
         && id in x.tasks && x.tasks[id].CancelWaiting?
         && (x.tasks[id].had ==> x.handler.Some? && x.handler.value.phase == Done)
       case Begin => x.handler.Some? && x.handler.value == Handler(Spawned, false)
       // Generated Event ids are fresh.
       case Emit(freshId, _, _) =>
         && x.handler.Some? && x.handler.value.phase == Running
         && (x.entry.Some? ==> forall n :: n in x.entry.value.events ==> x.entry.value.events[n].id != freshId)
       case Return => x.handler.Some? && x.handler.value.phase == Running
       case StoreResult(_, _) => x.handler.Some? && x.handler.value.phase == Storing && x.lock == None
       case Die => x.handler.Some?
  }

  function Apply(sh: Shared, x: Slot, step: Step): Slot
    requires Enabled(sh, x, step)
  {
    match step
    case Offer(identity, input, roomy) => OfferStep(sh, x, identity, input, roomy)
    case Confirm => ConfirmStep(sh, x)
    case RejectAccepted => RejectStep(sh, x)
    case ClaimLost => x.(claim := NoClaim)
    case ClaimRevoked(id) => BeginRevoke(x, id).(claim := NoClaim)
    case Ask(id) => x.(tasks := x.tasks[id := Ticket(x.entry.value.rec.state)])
    case Continue(id, reconnect) => ContinueStep(sh, x, id, x.tasks[id].state, reconnect)
    case Upload(id, permit) => Release(x, id).(permit := Some(permit))
    case TicketRevoked(id) => BeginRevoke(x, id)
    case TicketAcked(id) => AckedTicket(x, id, x.tasks[id].state)
    case Clear(id) => ClearStep(sh, x, id, x.tasks[id].acked)
    case FlushSpawn(id) => x.(tasks := x.tasks[id := FlushWaiting])
    case FlushLock(id) => FlushStep(x, id)
    case EventAck(id) => EventAckStep(sh, x, id, x.tasks[id].event, x.tasks[id].rest, x.tasks[id].resultAllowed)
    case ResultAck(id) => ResultAckStep(sh, x, id, x.tasks[id].result)
    case Missing(id, _, events) => ReplayNext(x, id, events, x.tasks[id].result)
    case ReplayAck(id) => ReplayAckStep(sh, x, id, x.tasks[id].event, x.tasks[id].rest, x.tasks[id].result)
    case Abort(id) => Release(x, id)
    case AbortTerminal(id) => BeginRevoke(Release(x, id), id)
    case RevokeSpawn(id) => BeginRevoke(x, id)
    case Finalise(id) => FinaliseStep(sh, x, id)
    case CancelStart(id) => Cancelled(x).(terminal := true, tasks := x.tasks[id := CancelLocking(x.active)])
    case CancelLock(id) => x.(permit := None, tasks := x.tasks[id := CancelWaiting(x.tasks[id].had)])
    case CancelStopped(id) => x.(tasks := x.tasks[id := Revoking], past := x.past.(stopped := true))
    case Begin => WithPhase(x, Running).(past := x.past.(begins := x.past.begins + 1))
    case Emit(freshId, kind, payload) => EmitStep(sh, x, freshId, kind, payload)
    case Return => WithPhase(x, if x.handler.value.cancelled then Done else Storing)
    case StoreResult(body, freshNumber) => StoreStep(sh, x, body, freshNumber)
    case Die => WithPhase(x, Done)
  }

  /**
   * The journal of a step cut short by a failing store operation, with what is noted of it:
   * the effect of some of its store operations, up to the repair that reopening makes. The
   * worker's memory no longer matters, because the store stays poisoned.
   */
  ghost predicate CutShort(sh: Shared, x: Slot, step: Step, y: Slot)
    requires Enabled(sh, x, step)
  {
    match step
    case Offer(identity, input, roomy) =>
      !x.terminal && CreatedEntry(x, identity, input).Ok? &&
      (|| y == CreatedSlot(sh, x, identity, CreatedEntry(x, identity, input).value)
       || y == JournalOnly(x, OfferStep(sh, x, identity, input, roomy)))
    case Confirm => !x.terminal && (y == ConfirmedOnly(sh, x) || y == JournalOnly(x, ConfirmStep(sh, x)))
    case RejectAccepted =>
      !x.terminal && AdvancedEntry(x, Rejected).Ok? &&
      (|| y == Commit(sh, x, Some(AdvancedEntry(x, Rejected).value))
       || y == JournalOnly(x, RejectStep(sh, x)))
    case Continue(id, reconnect) =>
      var state := x.tasks[id].state;
      || (state == AckSent && y == ConfirmedOnly(sh, x))
      || y == JournalOnly(x, ContinueStep(sh, x, id, state, reconnect))
    case Clear(id) =>
      x.entry.Some? && (x.entry.value.result.Some? || x.tasks[id].acked) && DeletionCut(sh, x, y)
    case ResultAck(id) =>
      && x.entry.Some? && x.entry.value.result == Some(x.tasks[id].result)
      && DeletionCut(sh, x.(past := x.past.(resultAcked := true)), y)
    case EventAck(id) => y == AckOnly(sh, x, x.tasks[id].event)
    case ReplayAck(id) => y == AckOnly(sh, x, x.tasks[id].event)
    case Finalise(id) =>
      x.entry.Some? &&
      var e := RevokedEntry(x.entry.value);
      || y == Commit(sh, x, Some(e)) || y == Commit(sh, x, Some(Discarded(e).value)) || y == Commit(sh, x, None)
    case Emit(freshId, kind, payload) => y == EmitStep(sh, x, freshId, kind, payload)
    case StoreResult(body, freshNumber) => y == JournalOnly(x, StoreStep(sh, x, body, freshNumber))
    case _ => false
  }

  /** The durable effect of a step without its effect on the worker's memory. */
  function JournalOnly(x: Slot, y: Slot): Slot {
    x.(entry := y.entry, past := y.past.(spawns := x.past.spawns))
  }

  function ConfirmedOnly(sh: Shared, x: Slot): Slot {
    if AdvancedEntry(x, Confirmed).Err? then x
    else
      var y := Commit(sh, x, Some(AdvancedEntry(x, Confirmed).value));
      y.(past := y.past.(confirmed := true))
  }

  function AckOnly(sh: Shared, x: Slot, e: Event): Slot {
    if AckedEntry(x, e).Err? then x else Commit(sh, NoteAck(x, e), Some(AckedEntry(x, e).value))
  }

  /** ack_result, clear_terminal_events and delete_assignment, cut short. */
  ghost predicate DeletionCut(sh: Shared, x: Slot, y: Slot)
    requires x.entry.Some?
  {
    var e := x.entry.value;
    if e.result.Some? then
      var f := ResultAckedBy(e, e.result.value.id).value;
      || y == Commit(sh, x, Some(f)) || y == Commit(sh, x, Some(EventsCleared(f).value)) || y == Commit(sh, x, None)
    else
      EventsCleared(e).Ok? && (y == Commit(sh, x, Some(EventsCleared(e).value)) || y == Commit(sh, x, None))
  }

  /** The process dies and the directory is opened again: only the repaired journal remains. */
  function Reborn(x: Slot): Slot {
    EMPTY_SLOT.(entry := if x.entry.Some? && Repaired(x.entry.value).Ok?
                         then Some(Repaired(x.entry.value).value) else None,
                past := x.past.(stopped := false))
  }
}
