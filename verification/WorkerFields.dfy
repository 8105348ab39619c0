/**
 * What every step does, one field of the slot at a time and apart from the code of the step:
 * when a handler is created and what becomes of it, who waits for what, and what was sent.
 * The permission is described in `WorkerGrants`, the record in `WorkerOperations`.
 */
module WorkerFields {
  import opened Prelude
  import opened Journal
  import opened Worker
  import opened WorkerInvariant
  import opened WorkerHistory
  import opened WorkerGrants
  import opened WorkerRevoking

  /** The offer is for the record that is there. */
  predicate Repeats(x: Slot, identity: Identity, input: Fields) {
    x.entry.Some? && x.entry.value.rec.identity == identity && x.entry.value.rec.input == input
  }

  /** The state in which an offer finds the record, if it may go on with it. */
  function OfferedState(x: Slot, identity: Identity, input: Fields): Option<State> {
    if x.terminal then None
    else if x.entry == None then Some(Received)
    else if Repeats(x, identity, input) then Some(x.entry.value.rec.state)
    else None
  }

  predicate HasTicket(x: Slot, id: TaskId) {
    id in x.tasks && x.tasks[id].Ticket?
  }

  /** A handler is created: for a confirmed record, or one that this step confirms. */
  predicate Creates(x: Slot, step: Step) {
    !x.active && !x.terminal &&
    match step
    case Offer(identity, input, _) => OfferedState(x, identity, input) == Some(Confirmed)
    case Confirm => StateIn(x, {AckSent, Confirmed})
    case Continue(id, _) =>
      && HasTicket(x, id)
      && (|| (x.tasks[id].state == AckSent && StateIn(x, {AckSent, Confirmed}))
          || (x.tasks[id].state == Confirmed && StateIn(x, {Confirmed, Started})))
    case _ => false
  }

  function HandlerAfter(x: Slot, step: Step): Option<Handler> {
    if Creates(x, step) then Some(Handler(Spawned, false))
    else if x.handler == None then None
    else
      var h := x.handler.value;
      match step
      case Begin => Some(h.(phase := Running))
      case Return => Some(h.(phase := if h.cancelled then Done else Storing))
      case StoreResult(_, _) => Some(h.(phase := Done))
      case Die => Some(h.(phase := Done))
      case _ => if x.active && (Revokes(step) || step.TicketAcked?) then Some(h.(cancelled := true)) else Some(h)
  }

  /** The attempt is known as active from the creation of its handler to the end of its record. */
  function ActiveAfter(x: Slot, step: Step): bool {
    if Creates(x, step) then true
    else if step.Finalise? || ((step.ResultAck? || step.Clear?) && ChangeBy(x, step) == Taken) then false
    else x.active
  }

  /** What the claim loop waits for. */
  function ClaimAfter(x: Slot, step: Step): Claim {
    match step
    case Offer(identity, input, roomy) =>
      (match OfferedState(x, identity, input)
       case Some(Received) => if roomy then AwaitConfirm else AwaitReject
       case Some(AckSent) => AwaitConfirm
       case _ => x.claim)
    case Confirm => NoClaim
    case RejectAccepted => NoClaim
    case ClaimLost => NoClaim
    case ClaimRevoked(_) => NoClaim
    case _ => x.claim
  }

  predicate HandlerFieldsFit(x: Slot, y: Slot, step: Step) {
    && y.handler == HandlerAfter(x, step) && y.active == ActiveAfter(x, step) && y.claim == ClaimAfter(x, step)
    && y.terminal == (x.terminal || Revokes(step))
    && y.past.spawns == x.past.spawns + (if Creates(x, step) then 1 else 0)
    && y.past.begins == x.past.begins + (if step.Begin? then 1 else 0)
  }

  lemma NotedCounts()
    ensures forall p, before, after, epoch ::
              var q := Noted(p, before, after, epoch);
              q.spawns == p.spawns && q.begins == p.begins && q.stopped == p.stopped && q.finalised == p.finalised
              && q.resultAcked == p.resultAcked && q.acked == p.acked && q.confirmed == p.confirmed
  {
  }

  lemma QuietFields(sh: Shared, x: Slot, step: Step)
    requires Enabled(sh, x, step) && Quiet(step)
    ensures HandlerFieldsFit(x, Apply(sh, x, step), step)
  {
    hide ChangeBy;
  }

  lemma OfferFields(sh: Shared, x: Slot, step: Step)
    requires Enabled(sh, x, step) && step.Offer?
    ensures HandlerFieldsFit(x, OfferStep(sh, x, step.identity, step.input, step.roomy), step)
  {
    NotedCounts();
    hide Noted, ChangeBy;
  }

  /** The start that a confirmation or a decision leads to, from the slot `y` it has left. */
  lemma ConfirmFields(sh: Shared, y: Slot)
    ensures AdvancedEntry(y, Confirmed).Ok? <==> StateIn(y, {AckSent, Confirmed})
    ensures AdvancedEntry(y, Confirmed).Ok? ==>
              var e := AdvancedEntry(y, Confirmed).value;
              StartFits(Commit(sh, y, Some(e)), Start(sh, Vouched(Commit(sh, y, Some(e)))), !y.active && !y.terminal)
    ensures StartFits(y, Start(sh, Vouched(y)), !y.active && !y.terminal && StateIn(y, {Confirmed, Started}))
  {
    NotedCounts();
    hide Noted;
  }

  /** A start, if there is one, and nothing else of the handler. */
  predicate StartFits(x: Slot, y: Slot, start: bool) {
    && y.handler == (if start then Some(Handler(Spawned, false)) else x.handler) && y.active == (start || x.active)
    && y.claim == x.claim && y.terminal == x.terminal
    && y.past.spawns == x.past.spawns + (if start then 1 else 0) && y.past.begins == x.past.begins
  }

  lemma ClaimFields(sh: Shared, x: Slot, step: Step)
    requires Enabled(sh, x, step) && Claims(step)
    ensures HandlerFieldsFit(x, Apply(sh, x, step), step)
  {
    match step
    case Offer(_, _, _) =>
      OfferFields(sh, x, step);
      hide OfferStep, HandlerFieldsFit;
    case Confirm =>
      ConfirmFields(sh, x.(claim := NoClaim));
      NotedCounts();
      hide Start, Noted, Advanced, ChangeBy;
    case Continue(id, reconnect) =>
      ContinueFields(sh, x, id, reconnect);
      hide ContinueStep, HandlerFieldsFit;
    case RejectAccepted =>
      NotedCounts();
      hide Noted, Advanced, Deletable, ChangeBy;
  }

  lemma ContinueFields(sh: Shared, x: Slot, id: TaskId, reconnect: bool)
    requires HasTicket(x, id)
    ensures HandlerFieldsFit(x, ContinueStep(sh, x, id, x.tasks[id].state, reconnect), Continue(id, reconnect))
  {
    ConfirmFields(sh, Release(x, id));
    NotedCounts();
    hide Start, Noted, Advanced, ChangeBy;
  }

  lemma DeletedFields(sh: Shared, x: Slot, e: Entry)
    ensures var y := Deleted(sh, x, e);
            && y.handler == x.handler && y.claim == x.claim && y.terminal == x.terminal
            && y.past.spawns == x.past.spawns && y.past.begins == x.past.begins
            && y.active == (x.active && !(EventsCleared(e).Ok? && e.result == None))
  {
    NotedCounts();
    hide Noted;
  }

  predicate Untouched(x: Slot, y: Slot) {
    && y.handler == x.handler && y.active == x.active && y.claim == x.claim && y.terminal == x.terminal
    && y.past.spawns == x.past.spawns && y.past.begins == x.past.begins
  }

  lemma SendsTouchNothing(x: Slot, id: TaskId, events: seq<Event>, allowed: bool)
    ensures Untouched(x, SendNext(x, id, events, allowed))
  {
    hide PendingSeqs;
  }

  lemma EventAckTouchesNothing(sh: Shared, x: Slot, id: TaskId, e: Event, rest: seq<Event>, allowed: bool)
    ensures Untouched(x, EventAckStep(sh, x, id, e, rest, allowed))
  {
    NotedCounts();
    hide SendNext, EventAcked, Noted;
    if AckedEntry(x, e).Ok? {
      SendsTouchNothing(Commit(sh, NoteAck(x, e), Some(AckedEntry(x, e).value)), id, rest, allowed);
    }
  }

  lemma ReplayAckTouchesNothing(sh: Shared, x: Slot, id: TaskId, e: Event, rest: seq<Event>, r: Result)
    ensures Untouched(x, ReplayAckStep(sh, x, id, e, rest, r))
  {
    NotedCounts();
    hide EventAcked, Noted;
  }

  lemma FlushTouchesNothing(sh: Shared, x: Slot, step: Step)
    requires Enabled(sh, x, step) && Flushes(step) && !step.ResultAck?
    ensures Untouched(x, Apply(sh, x, step))
  {
    match step
    case FlushLock(id) =>
      if x.entry.Some? && x.permit.Some? {
        var p := x.permit.value;
        SendsTouchNothing(x, id, if p.events then Pending(x.entry.value) else [], p.result);
      }
      hide SendNext, Pending;
    case EventAck(id) =>
      var t := x.tasks[id];
      EventAckTouchesNothing(sh, x, id, t.event, t.rest, t.resultAllowed);
      hide EventAckStep;
    case ReplayAck(id) =>
      var t := x.tasks[id];
      ReplayAckTouchesNothing(sh, x, id, t.event, t.rest, t.result);
      hide ReplayAckStep;
    case Missing(_, _, _) =>
  }

  lemma FlushFields(sh: Shared, x: Slot, step: Step)
    requires Inv(sh, x) && Enabled(sh, x, step) && Flushes(step)
    ensures HandlerFieldsFit(x, Apply(sh, x, step), step)
  {
    if step.ResultAck? {
      assert ResultLive(x, x.tasks[step.id].result);
      hide Inv;
      ResultAckFields(sh, x, step.id);
    } else {
      hide Inv;
      FlushTouchesNothing(sh, x, step);
      UntouchedFits(x, Apply(sh, x, step), step);
      hide Apply, HandlerFieldsFit, Untouched;
    }
  }

  lemma UntouchedFits(x: Slot, y: Slot, step: Step)
    requires Flushes(step) && !step.ResultAck? && Untouched(x, y)
    ensures HandlerFieldsFit(x, y, step)
  {
    hide ChangeBy;
  }

  lemma ResultAckFields(sh: Shared, x: Slot, id: TaskId)
    requires Enabled(sh, x, ResultAck(id)) && ResultLive(x, x.tasks[id].result)
    ensures HandlerFieldsFit(x, ResultAckStep(sh, x, id, x.tasks[id].result), ResultAck(id))
  {
    var e := ResultAckedBy(x.entry.value, x.tasks[id].result.id).value;
    DeletedFields(sh, Release(x.(past := x.past.(resultAcked := true)), id), e);
    hide Deleted, PendingSeqs, Noted;
  }

  lemma ClearFields(sh: Shared, x: Slot, id: TaskId)
    requires Enabled(sh, x, Clear(id))
    ensures HandlerFieldsFit(x, ClearStep(sh, x, id, x.tasks[id].acked), Clear(id))
  {
    if x.entry.Some? {
      var e := x.entry.value;
      DeletedFields(sh, Release(x, id), if e.result.Some? then ResultAckedBy(e, e.result.value.id).value else e);
    }
    hide Deleted, Noted;
  }

  lemma RestFields(sh: Shared, x: Slot, step: Step)
    requires Enabled(sh, x, step) && !Quiet(step) && !Claims(step) && !Flushes(step)
    ensures HandlerFieldsFit(x, Apply(sh, x, step), step)
  {
    NotedCounts();
    match step
    case Clear(id) =>
      ClearFields(sh, x, id);
      hide ClearStep, ChangeBy;
    case Finalise(_) => hide Noted, Discarded, RevokedEntry, Deletable, ChangeBy;
    case Emit(_, _, _) => hide Noted, Appended, ChangeBy;
    case StoreResult(_, _) => hide Noted, ResultStoredFile, ChangeBy;
    case Begin => hide ChangeBy;
  }

  /**
   * A handler is created exactly for a record that is confirmed, or that the step confirms, of an
   * attempt that is neither active nor terminal; and handler, activity, claim and terminal mark
   * change in no other way than said here.
   */
  lemma StepFields(sh: Shared, x: Slot, step: Step)
    requires Inv(sh, x) && Enabled(sh, x, step)
    ensures HandlerFieldsFit(x, Apply(sh, x, step), step)
  {
    hide HandlerFieldsFit;
    if Quiet(step) {
      QuietFields(sh, x, step);
    } else if Claims(step) {
      ClaimFields(sh, x, step);
    } else if Flushes(step) {
      FlushFields(sh, x, step);
    } else {
      RestFields(sh, x, step);
    }
    hide Apply, Enabled, Inv;
  }

  // ---------------------------------------------------------------- tasks, the lock and the wire

  /** A flush with these Events still to send: the next of them, or the Result once nothing is pending. */
  function FlushGoesTo(e: Entry, events: seq<Event>, allowed: bool): Option<Task> {
    if events != [] then Some(SendingEvent(events[0], events[1..], allowed))
    else if allowed && Pending(e) == [] && e.result.Some? then Some(SendingResult(e.result.value, false))
    else None
  }

  /** A replay goes on to its next Event, and in the end back to the Result. */
  function ReplayGoesTo(events: seq<Event>, r: Result): Option<Task> {
    Some(if events != [] then Replaying(events[0], events[1..], r) else SendingResult(r, true))
  }

  /** What the task of the step waits for after it; nothing if it is over. */
  function TaskAfter(x: Slot, step: Step): Option<Task>
    requires Subject(step) in x.tasks || !Continues(step)
  {
    match step
    case Ask(_) => if x.entry.Some? then Some(Ticket(x.entry.value.rec.state)) else None
    case ClaimRevoked(_) => Some(Revoking)
    case TicketRevoked(_) => Some(Revoking)
    case AbortTerminal(_) => Some(Revoking)
    case RevokeSpawn(_) => Some(Revoking)
    case CancelStopped(_) => Some(Revoking)
    case TicketAcked(id) => if x.tasks[id].Ticket? then Some(Clearing(x.tasks[id].state == ResultAcked)) else None
    case FlushSpawn(_) => Some(FlushWaiting)
    case FlushLock(_) =>
      if x.permit == None || x.entry == None then None
      else
        var events := if x.permit.value.events then Pending(x.entry.value) else [];
        FlushGoesTo(x.entry.value, events, x.permit.value.result)
    case EventAck(id) =>
      var t := x.tasks[id];
      if !t.SendingEvent? || AckedEntry(x, t.event).Err? then None
      else FlushGoesTo(AckedEntry(x, t.event).value, t.rest, t.resultAllowed)
    case Missing(id, _, events) => if x.tasks[id].SendingResult? then ReplayGoesTo(events, x.tasks[id].result) else None
    case ReplayAck(id) =>
      var t := x.tasks[id];
      if !t.Replaying? || AckedEntry(x, t.event).Err? then None else ReplayGoesTo(t.rest, t.result)
    case CancelStart(_) => Some(CancelLocking(x.active))
    case CancelLock(id) => if x.tasks[id].CancelLocking? then Some(CancelWaiting(x.tasks[id].had)) else None
    case _ => None
  }

  /** The steps of a task that is there already. */
  predicate Continues(step: Step) {
    step.TicketAcked? || step.EventAck? || step.Missing? || step.ReplayAck? || step.CancelLock?
  }

  /** The steps of a task at all; the others are of the claim loop and of the handler. */
  predicate OfTask(step: Step) {
    match step
    case Offer(_, _, _) => false
    case Confirm => false
    case RejectAccepted => false
    case ClaimLost => false
    case Begin => false
    case Emit(_, _, _) => false
    case Return => false
    case StoreResult(_, _) => false
    case Die => false
    case _ => true
  }

  function TasksAfter(x: Slot, step: Step): map<TaskId, Task>
    requires Subject(step) in x.tasks || !Continues(step)
  {
    if !OfTask(step) then x.tasks
    else if TaskAfter(x, step).Some? then x.tasks[Subject(step) := TaskAfter(x, step).value]
    else x.tasks - {Subject(step)}
  }

  /** The attempt lock is held exactly over the messages of a flush, by the task that sends them. */
  function LockAfter(x: Slot, step: Step): Option<TaskId>
    requires Subject(step) in x.tasks || !Continues(step)
  {
    if !OfTask(step) then x.lock
    else if TaskAfter(x, step).Some? && HoldsLock(TaskAfter(x, step).value) then Some(Subject(step))
    else if x.lock == Some(Subject(step)) then None
    else x.lock
  }

  function EventsOut(x: Slot, step: Step): seq<Event>
    requires Subject(step) in x.tasks || !Continues(step)
  {
    if !Sends(step) then []
    else
      match TaskAfter(x, step)
      case Some(SendingEvent(e, _, _)) => [e]
      case Some(Replaying(e, _, _)) => [e]
      case _ => []
  }

  function ResultsOut(x: Slot, step: Step): seq<Result>
    requires Subject(step) in x.tasks || !Continues(step)
  {
    if !Sends(step) then []
    else match TaskAfter(x, step) case Some(SendingResult(r, _)) => [r] case _ => []
  }

  predicate TaskFieldsFit(x: Slot, y: Slot, step: Step)
    requires Subject(step) in x.tasks || !Continues(step)
  {
    && y.tasks == TasksAfter(x, step) && y.lock == LockAfter(x, step)
    && y.past.sentEvents == x.past.sentEvents + EventsOut(x, step)
    && y.past.sentResults == x.past.sentResults + ResultsOut(x, step)
  }

  lemma SubjectThere(sh: Shared, x: Slot, step: Step)
    requires Enabled(sh, x, step)
    ensures Subject(step) in x.tasks || !Continues(step)
  {
  }

  lemma RevokeTasks(sh: Shared, x: Slot, step: Step)
    requires Enabled(sh, x, step) && Revokes(step) && LockFits(x)
    ensures TaskFieldsFit(x, Apply(sh, x, step), step)
  {
    hide Pending, AckedEntry;
  }

  lemma QuietTasks(sh: Shared, x: Slot, step: Step)
    requires Enabled(sh, x, step) && Quiet(step) && !Revokes(step) && LockFits(x)
    requires Subject(step) in x.tasks || !Continues(step)
    ensures TaskFieldsFit(x, Apply(sh, x, step), step)
  {
    hide Pending, AckedEntry;
  }

  /** A task goes on to the next one, holding the lock, with a message; or it ends. */
  predicate TaskMoves(x: Slot, y: Slot, id: TaskId, t: Option<Task>) {
    && y.tasks == (if t.Some? then x.tasks[id := t.value] else x.tasks - {id})
    && y.lock == (if t.Some? then Some(id) else if x.lock == Some(id) then None else x.lock)
    && y.past.sentEvents == x.past.sentEvents + EventIn(t) && y.past.sentResults == x.past.sentResults + ResultIn(t)
  }

  function EventIn(t: Option<Task>): seq<Event> {
    match t
    case Some(SendingEvent(e, _, _)) => [e]
    case Some(Replaying(e, _, _)) => [e]
    case _ => []
  }

  function ResultIn(t: Option<Task>): seq<Result> {
    match t case Some(SendingResult(r, _)) => [r] case _ => []
  }

  lemma SendMoves(x: Slot, id: TaskId, events: seq<Event>, allowed: bool)
    requires x.entry.Some?
    ensures TaskMoves(x, SendNext(x, id, events, allowed), id, FlushGoesTo(x.entry.value, events, allowed))
  {
    if events == [] {
      ResultMoves(x, id, allowed);
      hide ResultPhase;
    }
  }

  lemma ResultMoves(x: Slot, id: TaskId, allowed: bool)
    requires x.entry.Some?
    ensures TaskMoves(x, ResultPhase(x, id, allowed), id, FlushGoesTo(x.entry.value, [], allowed))
  {
    PendingIff(x.entry.value);
    hide Pending, PendingSeqs;
  }

  lemma EndMoves(x: Slot, id: TaskId)
    ensures TaskMoves(x, Release(x, id), id, None)
  {
  }

  lemma ReplayMoves(x: Slot, id: TaskId, events: seq<Event>, r: Result)
    requires x.lock == Some(id)
    ensures TaskMoves(x, ReplayNext(x, id, events, r), id, ReplayGoesTo(events, r))
  {
  }

  /** The same with a record in between that the task has written. */
  lemma MovesAfter(x: Slot, y: Slot, z: Slot, id: TaskId, t: Option<Task>)
    requires TaskMoves(y, z, id, t) && y.tasks == x.tasks && y.lock == x.lock && SentSame(x, y)
    ensures TaskMoves(x, z, id, t)
  {
  }

  lemma FlushMoves(sh: Shared, x: Slot, step: Step)
    requires Enabled(sh, x, step) && Sends(step) && TasksHold(x)
    requires Subject(step) in x.tasks || !Continues(step)
    ensures TaskMoves(x, Apply(sh, x, step), Subject(step), TaskAfter(x, step))
  {
    EndMoves(x, Subject(step));
    match step
    case FlushLock(id) =>
      if x.entry.Some? && x.permit.Some? {
        var p := x.permit.value;
        SendMoves(x, id, if p.events then Pending(x.entry.value) else [], p.result);
      }
      hide SendNext, Pending, FlushGoesTo, TaskMoves, Release;
    case EventAck(id) =>
      var t := x.tasks[id];
      EventAckMoves(sh, x, id, t.event, t.rest, t.resultAllowed);
      hide EventAckStep, FlushGoesTo, TaskMoves;
    case ReplayAck(id) =>
      var t := x.tasks[id];
      ReplayAckMoves(sh, x, id, t.event, t.rest, t.result);
      hide ReplayAckStep, TaskMoves;
    case Missing(id, _, events) =>
      ReplayMoves(x, id, events, x.tasks[id].result);
      hide ReplayNext, TaskMoves;
  }

  lemma EventAckMoves(sh: Shared, x: Slot, id: TaskId, e: Event, rest: seq<Event>, allowed: bool)
    ensures TaskMoves(x, EventAckStep(sh, x, id, e, rest, allowed), id,
                      if AckedEntry(x, e).Err? then None else FlushGoesTo(AckedEntry(x, e).value, rest, allowed))
  {
    NotedSame();
    hide EventAcked, Noted, SendNext, FlushGoesTo;
    EndMoves(NoteAck(x, e), id);
    if AckedEntry(x, e).Ok? {
      var y := Commit(sh, NoteAck(x, e), Some(AckedEntry(x, e).value));
      SendMoves(y, id, rest, allowed);
      MovesAfter(x, y, SendNext(y, id, rest, allowed), id, FlushGoesTo(y.entry.value, rest, allowed));
    } else {
      MovesAfter(x, NoteAck(x, e), Release(NoteAck(x, e), id), id, None);
    }
    hide TaskMoves;
  }

  lemma ReplayAckMoves(sh: Shared, x: Slot, id: TaskId, e: Event, rest: seq<Event>, r: Result)
    requires x.lock == Some(id)
    ensures TaskMoves(x, ReplayAckStep(sh, x, id, e, rest, r), id,
                      if AckedEntry(x, e).Err? then None else ReplayGoesTo(rest, r))
  {
    NotedSame();
    hide EventAcked, Noted, ReplayNext, ReplayGoesTo;
    EndMoves(NoteAck(x, e), id);
    if AckedEntry(x, e).Ok? {
      var y := Commit(sh, NoteAck(x, e), Some(AckedEntry(x, e).value));
      ReplayMoves(y, id, rest, r);
      MovesAfter(x, y, ReplayNext(y, id, rest, r), id, ReplayGoesTo(rest, r));
    } else {
      MovesAfter(x, NoteAck(x, e), Release(NoteAck(x, e), id), id, None);
    }
    hide TaskMoves;
  }

  /** A step that goes on sending, in the form of the other steps. */
  lemma MovesFit(x: Slot, y: Slot, step: Step)
    requires Sends(step) && (Subject(step) in x.tasks || !Continues(step))
    requires TaskMoves(x, y, Subject(step), TaskAfter(x, step))
    ensures TaskFieldsFit(x, y, step)
  {
    hide Pending, AckedEntry;
  }

  lemma ResultAckTasks(sh: Shared, x: Slot, id: TaskId, r: Result)
    ensures TaskFieldsFit(x, ResultAckStep(sh, x, id, r), ResultAck(id))
  {
    var y := Release(x.(past := x.past.(resultAcked := true)), id);
    if y.entry.Some? && ResultAckedBy(y.entry.value, r.id).Ok? {
      DeletedIdle(sh, y, ResultAckedBy(y.entry.value, r.id).value);
    }
    hide Deleted, ResultAckedBy;
  }

  lemma FlushTasks(sh: Shared, x: Slot, step: Step)
    requires Enabled(sh, x, step) && Flushes(step) && TasksHold(x)
    requires Subject(step) in x.tasks || !Continues(step)
    ensures TaskFieldsFit(x, Apply(sh, x, step), step)
  {
    if step.ResultAck? {
      ResultAckTasks(sh, x, step.id, x.tasks[step.id].result);
      hide ResultAckStep, TaskFieldsFit;
    } else {
      FlushMoves(sh, x, step);
      MovesFit(x, Apply(sh, x, step), step);
      hide Apply, TaskFieldsFit, TaskMoves;
    }
  }

  /** Whoever sends holds the lock. */
  predicate TasksHold(x: Slot) {
    LockFits(x) && forall id :: id in x.tasks && HoldsLock(x.tasks[id]) ==> x.lock == Some(id)
  }

  lemma ClaimTasks(sh: Shared, x: Slot, step: Step)
    requires Enabled(sh, x, step) && Claims(step)
    ensures TaskFieldsFit(x, Apply(sh, x, step), step)
  {
    ClaimIdle(sh, x, step);
    IdleFits(x, Apply(sh, x, step), step);
    hide Apply, TaskFieldsFit, Idle, Release;
  }

  /** Steps that send nothing, and end the task they are of. */
  lemma IdleFits(x: Slot, y: Slot, step: Step)
    requires Claims(step) || step.Emit? || step.StoreResult? || step.Clear? || step.ResultAck? || step.Finalise?
    requires Idle(if OfTask(step) then Release(x, Subject(step)) else x, y)
    ensures TaskFieldsFit(x, y, step)
  {
    hide Pending, AckedEntry, FlushGoesTo;
  }

  lemma OtherTasks(sh: Shared, x: Slot, step: Step)
    requires Enabled(sh, x, step) && !Quiet(step) && !Flushes(step) && !Claims(step)
    ensures TaskFieldsFit(x, Apply(sh, x, step), step)
  {
    if step.Begin? {
      BeginTasks(sh, x);
    } else {
      RestIdle(sh, x, step);
      IdleFits(x, Apply(sh, x, step), step);
    }
    hide Apply, TaskFieldsFit, Idle, Release;
  }

  lemma BeginTasks(sh: Shared, x: Slot)
    requires Enabled(sh, x, Begin)
    ensures TaskFieldsFit(x, Apply(sh, x, Begin), Begin)
  {
    hide Pending, AckedEntry, FlushGoesTo;
  }

  /**
   * The tasks of an attempt, its lock and its messages: a step changes the one task it is of, and
   * in no other way than said here; the lock is held while a task waits for the answer to a
   * message, and the message is the one that the task waits for.
   */
  lemma StepTasks(sh: Shared, x: Slot, step: Step)
    requires Inv(sh, x) && Enabled(sh, x, step)
    ensures Subject(step) in x.tasks || !Continues(step)
    ensures TaskFieldsFit(x, Apply(sh, x, step), step)
  {
    SubjectThere(sh, x, step);
    HoldersHold(sh, x);
    hide TaskFieldsFit, Inv;
    if Revokes(step) {
      RevokeTasks(sh, x, step);
    } else if Quiet(step) {
      QuietTasks(sh, x, step);
    } else if Flushes(step) {
      FlushTasks(sh, x, step);
    } else if Claims(step) {
      ClaimTasks(sh, x, step);
    } else {
      OtherTasks(sh, x, step);
    }
    hide Apply, Enabled;
  }

  lemma HoldersHold(sh: Shared, x: Slot)
    requires Inv(sh, x)
    ensures TasksHold(x)
  {
    forall id | id in x.tasks && HoldsLock(x.tasks[id]) ensures x.lock == Some(id) {
      assert TaskFits(x, sh.epoch, id, x.tasks[id]);
    }
    hide PastFits, EntryFits, HandlerFits, Live;
  }

  // ---------------------------------------------------------------- the marks of the history

  /** The step goes on with the record as confirmed by Core. */
  predicate Vouches(x: Slot, step: Step) {
    match step
    case Confirm => !x.terminal && StateIn(x, {AckSent, Confirmed})
    case Continue(id, _) =>
      && HasTicket(x, id)
      && (x.tasks[id].state == Confirmed || (x.tasks[id].state == AckSent && StateIn(x, {AckSent, Confirmed})))
    case _ => false
  }

  /** The sequences that Core acknowledges in the step. */
  function AckedBy(x: Slot, step: Step): set<nat> {
    if (step.EventAck? || step.ReplayAck?) && step.id in x.tasks then
      match x.tasks[step.id]
      case SendingEvent(e, _, _) => {e.seq_}
      case Replaying(e, _, _) => {e.seq_}
      case _ => {}
    else {}
  }

  predicate MarksFit(x: Slot, y: Slot, step: Step) {
    && y.past.stopped == (x.past.stopped || step.CancelStopped?)
    && y.past.finalised == (x.past.finalised || (step.Finalise? && x.past.offered.Some?))
    && y.past.resultAcked == (x.past.resultAcked || step.TicketAcked? || step.ResultAck?)
    && y.past.acked == x.past.acked + AckedBy(x, step)
    && y.past.confirmed == (x.past.confirmed || Vouches(x, step))
  }

  lemma RevokeMarks(sh: Shared, x: Slot, step: Step)
    requires Enabled(sh, x, step) && Revokes(step)
    ensures MarksFit(x, Apply(sh, x, step), step)
  {
  }

  lemma QuietMarks(sh: Shared, x: Slot, step: Step)
    requires Enabled(sh, x, step) && Quiet(step) && !Revokes(step)
    ensures MarksFit(x, Apply(sh, x, step), step)
  {
  }

  predicate SameMarks(x: Slot, y: Slot) {
    && y.past.stopped == x.past.stopped && y.past.finalised == x.past.finalised
    && y.past.resultAcked == x.past.resultAcked && y.past.acked == x.past.acked
    && y.past.confirmed == x.past.confirmed
  }

  lemma StartMarks(sh: Shared, x: Slot)
    ensures SameMarks(x, Start(sh, x))
  {
    NotedCounts();
    hide Noted, Advanced;
  }

  lemma SendMarks(x: Slot, id: TaskId, events: seq<Event>, allowed: bool)
    ensures SameMarks(x, SendNext(x, id, events, allowed))
  {
    hide PendingSeqs;
  }

  lemma DeletedMarks(sh: Shared, x: Slot, e: Entry)
    ensures SameMarks(x, Deleted(sh, x, e))
  {
    NotedCounts();
    hide Noted, EventsCleared;
  }

  lemma FlushLockMarks(x: Slot, id: TaskId)
    ensures SameMarks(x, FlushStep(x, id))
  {
    if x.entry.Some? && x.permit.Some? {
      var p := x.permit.value;
      SendMarks(x, id, if p.events then Pending(x.entry.value) else [], p.result);
    }
    hide SendNext, Pending;
  }

  lemma EventAckMarks(sh: Shared, x: Slot, id: TaskId, e: Event, rest: seq<Event>, allowed: bool)
    ensures SameMarks(NoteAck(x, e), EventAckStep(sh, x, id, e, rest, allowed))
  {
    NotedCounts();
    hide SendNext, Noted, EventAcked;
    if AckedEntry(x, e).Ok? {
      SendMarks(Commit(sh, NoteAck(x, e), Some(AckedEntry(x, e).value)), id, rest, allowed);
    }
  }

  lemma ReplayAckMarks(sh: Shared, x: Slot, id: TaskId, e: Event, rest: seq<Event>, r: Result)
    ensures SameMarks(NoteAck(x, e), ReplayAckStep(sh, x, id, e, rest, r))
  {
    NotedCounts();
    hide Noted, EventAcked;
  }

  lemma ResultAckMarks(sh: Shared, x: Slot, id: TaskId, r: Result)
    ensures SameMarks(x.(past := x.past.(resultAcked := true)), ResultAckStep(sh, x, id, r))
  {
    var y := Release(x.(past := x.past.(resultAcked := true)), id);
    if y.entry.Some? && ResultAckedBy(y.entry.value, r.id).Ok? {
      DeletedMarks(sh, y, ResultAckedBy(y.entry.value, r.id).value);
    }
    hide Deleted, ResultAckedBy;
  }

  lemma FlushMarks(sh: Shared, x: Slot, step: Step)
    requires Enabled(sh, x, step) && Flushes(step)
    ensures MarksFit(x, Apply(sh, x, step), step)
  {
    match step
    case FlushLock(id) =>
      FlushLockMarks(x, id);
      hide FlushStep;
    case EventAck(id) =>
      var t := x.tasks[id];
      EventAckMarks(sh, x, id, t.event, t.rest, t.resultAllowed);
      hide EventAckStep;
    case ReplayAck(id) =>
      var t := x.tasks[id];
      ReplayAckMarks(sh, x, id, t.event, t.rest, t.result);
      hide ReplayAckStep;
    case ResultAck(id) =>
      ResultAckMarks(sh, x, id, x.tasks[id].result);
      hide ResultAckStep;
    case Missing(id, _, events) =>
      ReplayMarks(x, id, events, x.tasks[id].result);
      hide ReplayNext;
  }

  lemma ReplayMarks(x: Slot, id: TaskId, events: seq<Event>, r: Result)
    ensures SameMarks(x, ReplayNext(x, id, events, r))
  {
    MessageMarks(x, r);
    hide SendEvent, SendResult;
  }

  lemma MessageMarks(x: Slot, r: Result)
    ensures forall e :: SameMarks(x, SendEvent(x, e))
    ensures SameMarks(x, SendResult(x, r))
  {
  }

  lemma OfferMarks(sh: Shared, x: Slot, identity: Identity, input: Fields, roomy: bool)
    ensures SameMarks(x, OfferStep(sh, x, identity, input, roomy))
  {
    NotedCounts();
    hide Start, Noted, Advanced, CreatedEntry;
    if !x.terminal && CreatedEntry(x, identity, input).Ok? {
      StartMarks(sh, Permitted(CreatedSlot(sh, x, identity, CreatedEntry(x, identity, input).value)));
    }
  }

  lemma ClearMarks(sh: Shared, x: Slot, id: TaskId, acked: bool)
    ensures SameMarks(x, ClearStep(sh, x, id, acked))
  {
    hide Deleted;
    if x.entry.Some? {
      var e := x.entry.value;
      DeletedMarks(sh, Release(x, id), if e.result.Some? then ResultAckedBy(e, e.result.value.id).value else e);
    }
  }

  lemma RejectMarks(sh: Shared, x: Slot)
    ensures SameMarks(x, RejectStep(sh, x))
  {
    NotedCounts();
    hide Noted, Advanced, Deletable;
  }

  lemma FinaliseMarks(sh: Shared, x: Slot, id: TaskId)
    ensures var p := x.past;
            SameMarks(x.(past := p.(finalised := p.finalised || p.offered.Some?)), FinaliseStep(sh, x, id))
  {
    NotedCounts();
    hide Noted, Discarded, RevokedEntry, Deletable;
  }

  lemma HandlerMarks(sh: Shared, x: Slot, freshId: EventId, kind: string, payload: Fields, freshNumber: nat)
    requires x.handler.Some?
    ensures SameMarks(x, EmitStep(sh, x, freshId, kind, payload))
    ensures SameMarks(x, StoreStep(sh, x, payload, freshNumber))
  {
    NotedCounts();
    hide Noted, Appended, ResultStoredFile;
  }

  lemma OtherMarks(sh: Shared, x: Slot, step: Step)
    requires Enabled(sh, x, step) && !Quiet(step) && !Flushes(step)
    ensures MarksFit(x, Apply(sh, x, step), step)
  {
    match step
    case Offer(identity, input, roomy) =>
      OfferMarks(sh, x, identity, input, roomy);
      UnmarkedFits(x, Apply(sh, x, step), step);
      hide OfferStep, MarksFit, SameMarks;
    case RejectAccepted =>
      RejectMarks(sh, x);
      UnmarkedFits(x, Apply(sh, x, step), step);
      hide RejectStep, MarksFit, SameMarks;
    case Clear(id) =>
      ClearMarks(sh, x, id, x.tasks[id].acked);
      UnmarkedFits(x, Apply(sh, x, step), step);
      hide ClearStep, MarksFit, SameMarks;
    case Emit(freshId, kind, payload) =>
      HandlerMarks(sh, x, freshId, kind, payload, 0);
      UnmarkedFits(x, Apply(sh, x, step), step);
      hide EmitStep, MarksFit, SameMarks;
    case StoreResult(body, freshNumber) =>
      HandlerMarks(sh, x, 0, "", body, freshNumber);
      UnmarkedFits(x, Apply(sh, x, step), step);
      hide StoreStep, MarksFit, SameMarks;
    case Confirm =>
      ConfirmMarks(sh, x);
      hide ConfirmStep, MarksFit;
    case Continue(id, reconnect) =>
      ContinueMarks(sh, x, id, reconnect);
      hide ContinueStep, MarksFit;
    case Finalise(id) =>
      FinaliseMarks(sh, x, id);
      hide FinaliseStep;
    case Begin =>
  }

  lemma ConfirmMarks(sh: Shared, x: Slot)
    ensures MarksFit(x, ConfirmStep(sh, x), Confirm)
  {
    VouchedMarks(sh, x.(claim := NoClaim));
    hide Start, Commit, Advanced;
  }

  /** Steps of no mark. */
  lemma UnmarkedFits(x: Slot, y: Slot, step: Step)
    requires step.Offer? || step.RejectAccepted? || step.Clear? || step.Emit? || step.StoreResult?
    requires SameMarks(x, y)
    ensures MarksFit(x, y, step)
  {
  }

  lemma ContinueMarks(sh: Shared, x: Slot, id: TaskId, reconnect: bool)
    requires HasTicket(x, id)
    ensures MarksFit(x, ContinueStep(sh, x, id, x.tasks[id].state, reconnect), Continue(id, reconnect))
  {
    VouchedMarks(sh, Release(x, id));
    hide Start, Commit, Advanced;
  }

  lemma VouchedMarks(sh: Shared, x: Slot)
    ensures AdvancedEntry(x, Confirmed).Ok? <==> StateIn(x, {AckSent, Confirmed})
    ensures AdvancedEntry(x, Confirmed).Ok? ==>
              SameMarks(Vouched(x), Start(sh, Vouched(Commit(sh, x, Some(AdvancedEntry(x, Confirmed).value)))))
    ensures SameMarks(Vouched(x), Start(sh, Vouched(x)))
  {
    if AdvancedEntry(x, Confirmed).Ok? {
      StartMarks(sh, Vouched(Commit(sh, x, Some(AdvancedEntry(x, Confirmed).value))));
    }
    StartMarks(sh, Vouched(x));
    NotedCounts();
    hide Start, Noted;
  }

  /** What the history notes of a step, apart from what was durable, sent or started. */
  lemma StepMarks(sh: Shared, x: Slot, step: Step)
    requires Enabled(sh, x, step)
    ensures MarksFit(x, Apply(sh, x, step), step)
  {
    hide MarksFit;
    if Revokes(step) {
      RevokeMarks(sh, x, step);
    } else if Quiet(step) {
      QuietMarks(sh, x, step);
    } else if Flushes(step) {
      FlushMarks(sh, x, step);
    } else {
      OtherMarks(sh, x, step);
    }
    hide Apply, Enabled;
  }
}
