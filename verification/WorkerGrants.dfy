/**
 * What Core allows, and what is sent under it. The permission of an attempt is computed here
 * from the moves of a run alone: from the decisions, confirmations and Results in it.
 */
module WorkerGrants {
  import opened Prelude
  import opened Acks
  import opened Journal
  import opened Worker
  import opened WorkerInvariant
  import opened WorkerHistory
  import opened WorkerRuns
  import opened WorkerRevoking

  /** Both kinds of upload, as for an attempt that executes. */
  const ALL: Permit := Permit(true, true)

  /** What becomes of the permission: it is left, granted anew, or taken away. */
  datatype Change = Left | Granted(permit: Permit) | Taken

  predicate StateIn(x: Slot, states: set<State>) {
    x.entry.Some? && x.entry.value.rec.state in states
  }

  /** What a decision to continue grants, for the snapshot it answers. */
  function Continued(x: Slot, snapshot: State, reconnect: bool): Change {
    match snapshot
    case AckSent => if StateIn(x, {AckSent, Confirmed}) then Granted(ALL) else Left
    case Confirmed => Granted(ALL)
    case Started => if reconnect && x.active then Granted(ALL) else Left
    case Finished => if reconnect && x.active then Granted(ALL) else Left
    case _ => Left
  }

  /** What a step grants or takes. */
  function ChangeBy(x: Slot, step: Step): Change {
    match step
    case Upload(_, permit) => Granted(permit)
    case Confirm => if !x.terminal && StateIn(x, {AckSent, Confirmed}) then Granted(ALL) else Left
    case Offer(identity, input, _) =>
      if !x.terminal && StateIn(x, {Confirmed})
         && x.entry.value.rec.identity == identity && x.entry.value.rec.input == input then Granted(ALL) else Left
    case Continue(id, reconnect) =>
      if id in x.tasks && x.tasks[id].Ticket? then Continued(x, x.tasks[id].state, reconnect) else Left
    case StoreResult(_, _) =>
      if x.entry.Some? && x.handler.Some? && !x.handler.value.cancelled then Granted(ALL) else Left
    case ResultAck(_) => if x.entry.Some? then Taken else Left
    case Clear(id) =>
      if x.entry.Some? && (x.entry.value.result.Some?
                           || (x.entry.value.rec.state in {ResultAcked, Revoked}
                               && id in x.tasks && x.tasks[id].Clearing? && x.tasks[id].acked)) then Taken
      else Left
    case Finalise(_) => Taken
    case CancelLock(_) => Taken
    case _ => Left
  }

  function Changed(permit: Option<Permit>, change: Change): Option<Permit> {
    match change
    case Left => permit
    case Granted(p) => Some(p)
    case Taken => None
  }

  lemma StepChanges(sh: Shared, x: Slot, step: Step)
    requires Inv(sh, x) && Enabled(sh, x, step)
    ensures Apply(sh, x, step).permit == Changed(x.permit, ChangeBy(x, step))
  {
    if Claims(step) {
      ClaimChanges(sh, x, step);
    } else if Flushes(step) {
      FlushChanges(sh, x, step);
    } else if step.StoreResult? {
      StoreChanges(sh, x, step);
    } else {
      hide Inv;
      OtherChanges(sh, x, step);
    }
    hide Apply, Enabled, ChangeBy;
  }

  lemma OtherChanges(sh: Shared, x: Slot, step: Step)
    requires Enabled(sh, x, step) && !Claims(step) && !Flushes(step) && !step.StoreResult?
    ensures Apply(sh, x, step).permit == Changed(x.permit, ChangeBy(x, step))
  {
    hide Noted, Appended;
  }

  lemma StartLeaves(sh: Shared, x: Slot)
    ensures Start(sh, x).permit == x.permit
  {
    hide Noted, Advanced;
  }

  lemma ClaimChanges(sh: Shared, x: Slot, step: Step)
    requires Enabled(sh, x, step) && Claims(step)
    ensures Apply(sh, x, step).permit == Changed(x.permit, ChangeBy(x, step))
  {
    forall z ensures Start(sh, z).permit == z.permit {
      StartLeaves(sh, z);
    }
    hide Noted, Start;
  }

  lemma FlushChanges(sh: Shared, x: Slot, step: Step)
    requires Inv(sh, x) && Enabled(sh, x, step) && Flushes(step)
    ensures Apply(sh, x, step).permit == Changed(x.permit, ChangeBy(x, step))
  {
    if step.ResultAck? {
      assert ResultLive(x, x.tasks[step.id].result);
      hide Inv, Noted, PendingSeqs;
    } else {
      SendsLeave(sh, x, step);
    }
  }

  lemma SendsLeave(sh: Shared, x: Slot, step: Step)
    requires Enabled(sh, x, step) && Flushes(step) && !step.ResultAck?
    ensures Apply(sh, x, step).permit == x.permit
  {
    hide Noted, Pending, PendingSeqs, EventAcked;
  }

  lemma StoreChanges(sh: Shared, x: Slot, step: Step)
    requires Inv(sh, x) && Enabled(sh, x, step) && step.StoreResult?
    ensures Apply(sh, x, step).permit == Changed(x.permit, ChangeBy(x, step))
  {
    if x.entry.Some? {
      assert HandlerLive(x) && EntryFits(x.entry.value, x.past);
    }
    hide Inv, Noted, Meaning, PendingSeqs;
  }

  // ---------------------------------------------------------------- over runs

  /** What a move of any attempt grants this one or takes from it; a new process starts with nothing. */
  function MoveChange(w: World, m: Move, a: AttemptId): Change {
    match m
    case Act(b, step) => if b == a then ChangeBy(SlotOf(w, a), step) else Left
    case Restart => Taken
    case _ => Left
  }

  /** The permission that the moves leave. */
  function Allowance(w: World, moves: seq<Move>, a: AttemptId, permit: Option<Permit>): Option<Permit>
    requires Run(w, moves)
    decreases |moves|
  {
    if moves == [] then permit
    else Allowance(Next(w, moves[0]), moves[1..], a, Changed(permit, MoveChange(w, moves[0], a)))
  }

  lemma FaultLeaves(sh: Shared, x: Slot, step: Step, y: Slot)
    requires Enabled(sh, x, step) && CutShort(sh, x, step, y)
    ensures y.permit == x.permit
  {
    hide Noted, OfferStep, ConfirmStep, RejectStep, ContinueStep, Appended, ResultStoredFile, EventAcked;
  }

  lemma MoveChanges(w: World, m: Move, a: AttemptId)
    requires WorldInv(w) && Allowed(w, m)
    ensures SlotOf(Next(w, m), a).permit == Changed(SlotOf(w, a).permit, MoveChange(w, m, a))
  {
    var x := SlotOf(w, a);
    assert Inv(w.sh, x);
    hide Inv, Apply, Enabled, CutShort, ChangeBy, Repaired;
    match m
    case Act(b, step) => if b == a { StepChanges(w.sh, x, step); }
    case Fault(b, step, left) => if b == a && left != x { FaultLeaves(w.sh, x, step, left); }
    case _ =>
  }

  /** The permission of an attempt is what the last grant or withdrawal of the process has left. */
  lemma {:induction false} PermissionIsTheLastGrant(w: World, moves: seq<Move>, a: AttemptId)
    requires WorldInv(w) && Run(w, moves)
    ensures SlotOf(After(w, moves), a).permit == Allowance(w, moves, a, SlotOf(w, a).permit)
    decreases |moves|
  {
    hide WorldInv, Next, Allowed, MoveChange, Changed;
    if moves != [] {
      MoveChanges(w, moves[0], a);
      NextKeeps(w, moves[0]);
      PermissionIsTheLastGrant(Next(w, moves[0]), moves[1..], a);
    }
  }

  /** The Events and the Result that a flush sends when it begins, under this permission. */
  function DueEvents(e: Entry, p: Permit): seq<Event> {
    if p.events && Pending(e) != [] then [Pending(e)[0]] else []
  }

  function DueResults(e: Entry, p: Permit): seq<Result> {
    if p.result && Pending(e) == [] && e.result.Some? then [e.result.value] else []
  }

  /**
   * A flush sends, as it begins, exactly what Core has allowed by then: the first pending Event
   * if Events are allowed, and the Result if it is allowed and stored and nothing is pending.
   */
  lemma FlushSendsExactly(epoch: nat, moves: seq<Move>, a: AttemptId, id: TaskId)
    requires Run(Fresh(epoch), moves)
    requires Enabled(After(Fresh(epoch), moves).sh, SlotOf(After(Fresh(epoch), moves), a), FlushLock(id))
    ensures var w := After(Fresh(epoch), moves);
            var x, y := SlotOf(w, a), Apply(w.sh, SlotOf(w, a), FlushLock(id));
            var allowed := Allowance(Fresh(epoch), moves, a, None);
            var sends := x.entry.Some? && allowed.Some?;
            && y.past.sentEvents
               == x.past.sentEvents + (if sends then DueEvents(x.entry.value, allowed.value) else [])
            && y.past.sentResults
               == x.past.sentResults + (if sends then DueResults(x.entry.value, allowed.value) else [])
  {
    FreshInv(epoch);
    PermissionIsTheLastGrant(Fresh(epoch), moves, a);
    var w := After(Fresh(epoch), moves);
    hide Run, After, Allowance, WorldInv, Enabled, DueEvents, DueResults;
    FlushBegins(w.sh, SlotOf(w, a), id);
    hide Apply;
  }

  lemma FlushBegins(sh: Shared, x: Slot, id: TaskId)
    requires Enabled(sh, x, FlushLock(id))
    ensures var y := Apply(sh, x, FlushLock(id));
            var sends := x.entry.Some? && x.permit.Some?;
            && y.past.sentEvents
               == x.past.sentEvents + (if sends then DueEvents(x.entry.value, x.permit.value) else [])
            && y.past.sentResults
               == x.past.sentResults + (if sends then DueResults(x.entry.value, x.permit.value) else [])
  {
    FlushIs(x, id);
    hide DueEvents, DueResults, FlushStep;
  }

  lemma FlushIs(x: Slot, id: TaskId)
    ensures var y := FlushStep(x, id);
            var sends := x.entry.Some? && x.permit.Some?;
            && y.past.sentEvents
               == x.past.sentEvents + (if sends then DueEvents(x.entry.value, x.permit.value) else [])
            && y.past.sentResults
               == x.past.sentResults + (if sends then DueResults(x.entry.value, x.permit.value) else [])
  {
    if x.entry.Some? {
      PendingIff(x.entry.value);
    }
    hide Pending, PendingSeqs;
  }

  lemma PendingIff(e: Entry)
    ensures Pending(e) == [] <==> PendingSeqs(e) == {}
  {
    var order := Sorted(PendingSeqs(e));
    assert order == [] <==> PendingSeqs(e) == {} by {
      if order == [] {
        assert forall n :: n !in PendingSeqs(e);
      } else {
        assert order[0] in PendingSeqs(e);
      }
    }
    hide Sorted, PendingSeqs, Pick;
  }

  /** After a decision that grants `p`, the next flush sends exactly what `p` names. */
  lemma UploadDecides(sh: Shared, x: Slot, ticket: TaskId, p: Permit, id: TaskId)
    requires !sh.poisoned && Enabled(sh, x, Upload(ticket, p)) && id != ticket && id in x.tasks
    requires x.tasks[id].FlushWaiting? && x.lock == None && x.entry.Some?
    ensures var y := Apply(sh, x, Upload(ticket, p));
            && Enabled(sh, y, FlushLock(id))
            && var z := Apply(sh, y, FlushLock(id));
               && z.past.sentEvents == x.past.sentEvents + DueEvents(x.entry.value, p)
               && z.past.sentResults == x.past.sentResults + DueResults(x.entry.value, p)
  {
    FlushBegins(sh, Apply(sh, x, Upload(ticket, p)), id);
    hide DueEvents, DueResults, FlushStep;
  }

  // ---------------------------------------------------------------- the rest of a flush

  /** Some grant of this process allowed it. */
  ghost predicate Covers(grants: set<Permit>, events: bool, result: bool) {
    exists p :: p in grants && (events ==> p.events) && (result ==> p.result)
  }

  /** Whatever is still to be sent was allowed by one of the grants. */
  ghost predicate TaskCovered(t: Task, grants: set<Permit>) {
    match t
    case SendingEvent(_, _, allowed) => Covers(grants, true, allowed)
    case SendingResult(_, _) => Covers(grants, false, true)
    case Replaying(_, _, _) => Covers(grants, false, true)
    case _ => true
  }

  ghost predicate SlotCovered(x: Slot, grants: set<Permit>) {
    && (x.permit.Some? ==> x.permit.value in grants)
    && (forall id :: id in x.tasks ==> TaskCovered(x.tasks[id], grants))
  }

  /** What was sent between the two was allowed: an Event as such, or as part of a replay for a Result. */
  ghost predicate SendsCovered(x: Slot, y: Slot, grants: set<Permit>) {
    && (y.past.sentEvents != x.past.sentEvents ==> Covers(grants, true, false) || Covers(grants, false, true))
    && (y.past.sentResults != x.past.sentResults ==> Covers(grants, false, true))
  }

  function With(grants: set<Permit>, change: Change): set<Permit> {
    if change.Granted? then grants + {change.permit} else grants
  }

  /** Tasks that were there before, and at most one more. */
  lemma TasksCovered(x: Slot, y: Slot, grants: set<Permit>, more: set<Permit>, id: TaskId)
    requires SlotCovered(x, grants) && grants <= more
    requires forall k :: k in y.tasks && k != id ==> k in x.tasks && y.tasks[k] == x.tasks[k]
    requires id in y.tasks ==> TaskCovered(y.tasks[id], more)
    requires y.permit.Some? ==> y.permit.value in more
    ensures SlotCovered(y, more)
  {
    forall k | k in y.tasks ensures TaskCovered(y.tasks[k], more) {
      if k != id {
        assert TaskCovered(x.tasks[k], grants);
      }
    }
  }

  /** The task that a step is about; any other number will do for the rest. */
  function Subject(step: Step): TaskId {
    match step
    case ClaimRevoked(id) => id
    case Ask(id) => id
    case Continue(id, _) => id
    case Upload(id, _) => id
    case TicketRevoked(id) => id
    case TicketAcked(id) => id
    case Clear(id) => id
    case FlushSpawn(id) => id
    case FlushLock(id) => id
    case EventAck(id) => id
    case ResultAck(id) => id
    case Missing(id, _, _) => id
    case ReplayAck(id) => id
    case Abort(id) => id
    case AbortTerminal(id) => id
    case RevokeSpawn(id) => id
    case Finalise(id) => id
    case CancelStart(id) => id
    case CancelLock(id) => id
    case CancelStopped(id) => id
    case _ => 0
  }

  /** All tasks but the subject stay as they are. */
  predicate OthersSame(x: Slot, y: Slot, id: TaskId) {
    forall k :: k in y.tasks && k != id ==> k in x.tasks && y.tasks[k] == x.tasks[k]
  }

  /** The steps that go on sending. */
  predicate Sends(step: Step) {
    step.FlushLock? || step.EventAck? || step.Missing? || step.ReplayAck?
  }

  predicate SentSame(x: Slot, y: Slot) {
    y.past.sentEvents == x.past.sentEvents && y.past.sentResults == x.past.sentResults
  }

  /** Nothing was sent, and all tasks and the lock are as they were. */
  predicate Idle(x: Slot, y: Slot) {
    y.tasks == x.tasks && y.lock == x.lock && SentSame(x, y)
  }

  lemma StartIdle(sh: Shared, x: Slot)
    ensures Idle(x, Start(sh, x))
  {
  }

  lemma NotedSame()
    ensures forall p, before, after, epoch ::
              var q := Noted(p, before, after, epoch);
              q.sentEvents == p.sentEvents && q.sentResults == p.sentResults
  {
  }

  predicate OneTask(x: Slot, y: Slot, step: Step) {
    && OthersSame(x, y, Subject(step))
    && (!Sends(step) && Subject(step) in y.tasks ==>
          || !HoldsLock(y.tasks[Subject(step)])
          || (Subject(step) in x.tasks && y.tasks[Subject(step)] == x.tasks[Subject(step)]))
    && (!Sends(step) ==> SentSame(x, y))
  }

  lemma RevokeTask(sh: Shared, x: Slot, step: Step)
    requires Enabled(sh, x, step) && Revokes(step)
    ensures OneTask(x, Apply(sh, x, step), step)
  {
  }

  lemma QuietTask(sh: Shared, x: Slot, step: Step)
    requires Enabled(sh, x, step) && Quiet(step) && !Revokes(step)
    ensures OneTask(x, Apply(sh, x, step), step)
  {
  }

  lemma OfferIdle(sh: Shared, x: Slot, identity: Identity, input: Fields, roomy: bool)
    ensures Idle(x, OfferStep(sh, x, identity, input, roomy))
  {
    if !x.terminal && CreatedEntry(x, identity, input).Ok? {
      StartIdle(sh, Permitted(CreatedSlot(sh, x, identity, CreatedEntry(x, identity, input).value)));
    }
    NotedSame();
    hide Start, Noted, Advanced, CreatedEntry;
  }

  /** Confirmed, or continued: from the slot that was left by then. */
  lemma VouchedIdle(sh: Shared, x: Slot)
    ensures AdvancedEntry(x, Confirmed).Ok? ==>
              Idle(x, Start(sh, Vouched(Commit(sh, x, Some(AdvancedEntry(x, Confirmed).value)))))
    ensures Idle(x, Start(sh, Vouched(x)))
  {
    if AdvancedEntry(x, Confirmed).Ok? {
      StartIdle(sh, Vouched(Commit(sh, x, Some(AdvancedEntry(x, Confirmed).value))));
    }
    StartIdle(sh, Vouched(x));
    NotedSame();
    hide Start, Noted, Advanced;
  }

  lemma ConfirmIdle(sh: Shared, x: Slot)
    ensures Idle(x, ConfirmStep(sh, x))
  {
    VouchedIdle(sh, x.(claim := NoClaim));
    hide Start, Commit, Advanced;
  }

  lemma ContinueIdle(sh: Shared, x: Slot, id: TaskId, state: State, reconnect: bool)
    ensures Idle(Release(x, id), ContinueStep(sh, x, id, state, reconnect))
  {
    VouchedIdle(sh, Release(x, id));
    hide Start, Commit, Advanced, Release;
  }

  lemma RejectIdle(sh: Shared, x: Slot)
    ensures Idle(x, RejectStep(sh, x))
  {
    NotedSame();
    hide Noted, Advanced, Deletable;
  }

  /** Of the claims, only the decision to continue ends a task. */
  lemma ClaimIdle(sh: Shared, x: Slot, step: Step)
    requires Enabled(sh, x, step) && Claims(step)
    ensures Idle(if step.Continue? then Release(x, step.id) else x, Apply(sh, x, step))
  {
    match step
    case Offer(identity, input, roomy) => OfferIdle(sh, x, identity, input, roomy);
    case Confirm => ConfirmIdle(sh, x);
    case Continue(id, reconnect) => ContinueIdle(sh, x, id, x.tasks[id].state, reconnect);
    case RejectAccepted => RejectIdle(sh, x);
    hide OfferStep, ConfirmStep, ContinueStep, RejectStep, Idle, Release;
  }

  lemma ClaimTask(sh: Shared, x: Slot, step: Step)
    requires Enabled(sh, x, step) && Claims(step)
    ensures OneTask(x, Apply(sh, x, step), step)
  {
    ClaimIdle(sh, x, step);
    hide Apply, Enabled;
  }

  lemma DeletedIdle(sh: Shared, x: Slot, e: Entry)
    ensures Idle(x, Deleted(sh, x, e))
  {
    NotedSame();
    hide Noted, EventsCleared;
  }

  lemma SendTask(sh: Shared, x: Slot, step: Step)
    requires Enabled(sh, x, step) && Flushes(step)
    ensures OneTask(x, Apply(sh, x, step), step)
  {
    NotedSame();
    forall z, e ensures Idle(z, Deleted(sh, z, e)) {
      DeletedIdle(sh, z, e);
    }
    forall z, id, events, allowed ensures OthersSame(z, SendNext(z, id, events, allowed), id) {
      NextTask(z, id, events, allowed);
    }
    hide Noted, Pending, PendingSeqs, EventAcked, ResultAckedBy, Deleted, SendNext;
  }

  lemma NextTask(x: Slot, id: TaskId, events: seq<Event>, allowed: bool)
    ensures OthersSame(x, SendNext(x, id, events, allowed), id)
  {
    hide PendingSeqs;
  }

  lemma RestTask(sh: Shared, x: Slot, step: Step)
    requires Enabled(sh, x, step) && !Quiet(step) && !Claims(step) && !Flushes(step)
    ensures OneTask(x, Apply(sh, x, step), step)
  {
    if !step.Begin? {
      RestIdle(sh, x, step);
      hide Apply, Enabled;
    }
  }

  lemma EmitIdle(sh: Shared, x: Slot, freshId: EventId, kind: string, payload: Fields)
    ensures Idle(x, EmitStep(sh, x, freshId, kind, payload))
  {
    NotedSame();
    hide Noted, Appended;
  }

  lemma StoreIdle(sh: Shared, x: Slot, body: Fields, freshNumber: nat)
    requires x.handler.Some?
    ensures Idle(x, StoreStep(sh, x, body, freshNumber))
  {
    NotedSame();
    hide Noted, ResultStoredFile;
  }

  /** The end of a record ends the task that brings it about; the handler's steps leave all tasks alone. */
  lemma RestIdle(sh: Shared, x: Slot, step: Step)
    requires Enabled(sh, x, step) && (step.Clear? || step.Finalise? || step.Emit? || step.StoreResult?)
    ensures Idle(if step.Clear? || step.Finalise? then Release(x, step.id) else x, Apply(sh, x, step))
  {
    match step
    case Clear(id) =>
      ClearIdle(sh, x, id, x.tasks[id].acked);
      hide ClearStep, Idle, Release;
    case Finalise(id) =>
      FinaliseIdle(sh, x, id);
      hide FinaliseStep, Idle, Release;
    case Emit(freshId, kind, payload) =>
      EmitIdle(sh, x, freshId, kind, payload);
      hide EmitStep, Idle;
    case StoreResult(body, freshNumber) =>
      StoreIdle(sh, x, body, freshNumber);
      hide StoreStep, Idle;
  }

  lemma FinaliseIdle(sh: Shared, x: Slot, id: TaskId)
    ensures Idle(Release(x, id), FinaliseStep(sh, x, id))
  {
    NotedSame();
    hide Noted, Discarded, RevokedEntry, Deletable;
  }

  lemma ClearIdle(sh: Shared, x: Slot, id: TaskId, acked: bool)
    ensures Idle(Release(x, id), ClearStep(sh, x, id, acked))
  {
    if x.entry.Some? {
      var e := x.entry.value;
      DeletedIdle(sh, Release(x, id), if e.result.Some? then ResultAckedBy(e, e.result.value.id).value else e);
    }
    hide Deleted;
  }

  lemma StepTask(sh: Shared, x: Slot, step: Step)
    requires Enabled(sh, x, step)
    ensures OneTask(x, Apply(sh, x, step), step)
  {
    hide OneTask;
    if Revokes(step) {
      RevokeTask(sh, x, step);
    } else if Quiet(step) {
      QuietTask(sh, x, step);
    } else if Claims(step) {
      ClaimTask(sh, x, step);
    } else if Flushes(step) {
      SendTask(sh, x, step);
    } else {
      RestTask(sh, x, step);
    }
    hide Apply, Enabled;
  }

  // ---------------------------------------------------------------- every send is covered

  lemma SendCovered(sh: Shared, x: Slot, step: Step, grants: set<Permit>)
    requires Enabled(sh, x, step) && Sends(step) && SlotCovered(x, grants)
    ensures var y := Apply(sh, x, step);
            && SendsCovered(x, y, grants)
            && (Subject(step) in y.tasks ==> TaskCovered(y.tasks[Subject(step)], grants))
  {
    NotedSame();
    match step
    case FlushLock(id) =>
      if x.permit.Some? {
        assert Covers(grants, x.permit.value.events, x.permit.value.result);
      }
      hide Pending, PendingSeqs, Covers;
      FlushCovered(x, id, grants);
    case EventAck(id) =>
      assert TaskCovered(x.tasks[id], grants);
      EventAckCovered(sh, x, id, grants);
    case Missing(id, _, events) =>
      assert TaskCovered(x.tasks[id], grants);
    case ReplayAck(id) =>
      assert TaskCovered(x.tasks[id], grants);
      hide Noted, EventAcked;
  }

  lemma NextCovered(x: Slot, id: TaskId, events: seq<Event>, allowed: bool, grants: set<Permit>)
    requires events != [] ==> Covers(grants, true, allowed)
    requires allowed ==> Covers(grants, false, true)
    ensures var y := SendNext(x, id, events, allowed);
            SendsCovered(x, y, grants) && (id in y.tasks ==> TaskCovered(y.tasks[id], grants))
  {
    assert Covers(grants, true, allowed) ==> Covers(grants, true, false);
    hide PendingSeqs, Covers;
  }

  lemma FlushCovered(x: Slot, id: TaskId, grants: set<Permit>)
    requires x.permit.Some? ==> x.permit.value in grants
    ensures var y := FlushStep(x, id);
            SendsCovered(x, y, grants) && (id in y.tasks ==> TaskCovered(y.tasks[id], grants))
  {
    if x.permit.Some? && x.entry.Some? {
      var p := x.permit.value;
      assert p.events ==> Covers(grants, true, p.result);
      assert p.result ==> Covers(grants, false, true);
      NextCovered(x, id, if p.events then Pending(x.entry.value) else [], p.result, grants);
    }
    hide SendNext, Pending, Covers;
  }

  lemma EventAckCovered(sh: Shared, x: Slot, id: TaskId, grants: set<Permit>)
    requires id in x.tasks && x.tasks[id].SendingEvent? && TaskCovered(x.tasks[id], grants)
    ensures var t := x.tasks[id];
            var y := EventAckStep(sh, x, id, t.event, t.rest, t.resultAllowed);
            SendsCovered(x, y, grants) && (id in y.tasks ==> TaskCovered(y.tasks[id], grants))
  {
    var t := x.tasks[id];
    NotedSame();
    hide Noted, SendNext;
    if AckedEntry(x, t.event).Ok? {
      assert t.resultAllowed ==> Covers(grants, false, true);
      var y := Commit(sh, NoteAck(x, t.event), Some(AckedEntry(x, t.event).value));
      NextCovered(y, id, t.rest, t.resultAllowed, grants);
    }
    hide AckedEntry, Covers;
  }

  lemma StepCovered(sh: Shared, x: Slot, step: Step, grants: set<Permit>)
    requires Inv(sh, x) && Enabled(sh, x, step) && SlotCovered(x, grants)
    ensures var y := Apply(sh, x, step);
            SlotCovered(y, With(grants, ChangeBy(x, step))) && SendsCovered(x, y, grants)
  {
    var y, id := Apply(sh, x, step), Subject(step);
    var more := With(grants, ChangeBy(x, step));
    StepChanges(sh, x, step);
    StepTask(sh, x, step);
    hide Apply, Enabled, ChangeBy, Inv;
    if Sends(step) {
      SendCovered(sh, x, step, grants);
    }
    if id in y.tasks {
      StillCovered(x, y, step, grants, more);
    }
    TasksCovered(x, y, grants, more, id);
  }

  lemma StillCovered(x: Slot, y: Slot, step: Step, grants: set<Permit>, more: set<Permit>)
    requires OneTask(x, y, step) && SlotCovered(x, grants) && grants <= more && Subject(step) in y.tasks
    requires Sends(step) ==> TaskCovered(y.tasks[Subject(step)], grants)
    ensures TaskCovered(y.tasks[Subject(step)], more)
  {
    var t := y.tasks[Subject(step)];
    if Subject(step) in x.tasks {
      assert TaskCovered(x.tasks[Subject(step)], grants);
    }
    assert forall events, result :: Covers(grants, events, result) ==> Covers(more, events, result);
  }

  // ---------------------------------------------------------------- and over runs

  /** All grants of the present process, in a run that began with these. */
  function GrantsSoFar(w: World, moves: seq<Move>, a: AttemptId, grants: set<Permit>): set<Permit>
    requires Run(w, moves)
    decreases |moves|
  {
    if moves == [] then grants
    else GrantsSoFar(Next(w, moves[0]), moves[1..], a, GrantsAfter(w, moves[0], a, grants))
  }

  function GrantsAfter(w: World, m: Move, a: AttemptId, grants: set<Permit>): set<Permit> {
    if m == Restart then {} else With(grants, MoveChange(w, m, a))
  }

  lemma FaultCovered(sh: Shared, x: Slot, step: Step, y: Slot, grants: set<Permit>)
    requires Enabled(sh, x, step) && CutShort(sh, x, step, y) && SlotCovered(x, grants)
    ensures SlotCovered(y, grants)
  {
    FaultLeaves(sh, x, step, y);
    FaultTasks(sh, x, step, y);
    hide CutShort, Enabled;
  }

  lemma FaultTasks(sh: Shared, x: Slot, step: Step, y: Slot)
    requires Enabled(sh, x, step) && CutShort(sh, x, step, y)
    ensures y.tasks == x.tasks
  {
    hide Noted, OfferStep, ConfirmStep, RejectStep, ContinueStep, Appended, ResultStoredFile, EventAcked;
  }

  lemma MoveCovered(w: World, m: Move, a: AttemptId, grants: set<Permit>)
    requires WorldInv(w) && Allowed(w, m) && SlotCovered(SlotOf(w, a), grants)
    ensures SlotCovered(SlotOf(Next(w, m), a), GrantsAfter(w, m, a, grants))
    ensures m.Act? && m.attempt == a ==> SendsCovered(SlotOf(w, a), SlotOf(Next(w, m), a), grants)
  {
    var x := SlotOf(w, a);
    assert Inv(w.sh, x);
    hide Inv, Apply, Enabled, CutShort, ChangeBy, Repaired, TaskCovered;
    match m
    case Act(b, step) => if b == a { StepCovered(w.sh, x, step, grants); }
    case Fault(b, step, left) => if b == a && left != x { FaultCovered(w.sh, x, step, left, grants); }
    case _ =>
  }

  lemma {:induction false} RunCovered(w: World, moves: seq<Move>, a: AttemptId, grants: set<Permit>)
    requires WorldInv(w) && Run(w, moves) && SlotCovered(SlotOf(w, a), grants)
    ensures SlotCovered(SlotOf(After(w, moves), a), GrantsSoFar(w, moves, a, grants))
    decreases |moves|
  {
    hide WorldInv, Next, Allowed, SlotCovered, GrantsAfter;
    if moves != [] {
      MoveCovered(w, moves[0], a, grants);
      NextKeeps(w, moves[0]);
      RunCovered(Next(w, moves[0]), moves[1..], a, GrantsAfter(w, moves[0], a, grants));
    }
  }

  /**
   * Every send was allowed by a grant of this process, whichever step makes it: an Event by one
   * that names Events, or as part of a replay that Core asked for when the Result was sent, and
   * the Result by one that names it.
   */
  lemma EverySendIsGranted(epoch: nat, moves: seq<Move>, a: AttemptId, step: Step)
    requires Run(Fresh(epoch), moves) && Allowed(After(Fresh(epoch), moves), Act(a, step))
    ensures var w := After(Fresh(epoch), moves);
            SendsCovered(SlotOf(w, a), SlotOf(Next(w, Act(a, step)), a), GrantsSoFar(Fresh(epoch), moves, a, {}))
  {
    FreshInv(epoch);
    assert SlotCovered(SlotOf(Fresh(epoch), a), {});
    RunCovered(Fresh(epoch), moves, a, {});
    RunKeeps(Fresh(epoch), moves);
    hide Run, After, WorldInv, SlotCovered, GrantsSoFar, Allowed, Next, SendsCovered;
    MoveCovered(After(Fresh(epoch), moves), Act(a, step), a, GrantsSoFar(Fresh(epoch), moves, a, {}));
  }

  /**
   * Between its messages a flush goes on as it began: once an Event was acknowledged the next of
   * its list is sent, and after the last one the Result if that was allowed, stored, and nothing
   * is pending by then.
   */
  lemma FlushContinues(sh: Shared, x: Slot, id: TaskId)
    requires Enabled(sh, x, EventAck(id)) && AckedEntry(x, x.tasks[id].event).Ok?
    ensures var t, e := x.tasks[id], AckedEntry(x, x.tasks[id].event).value;
            var y := Apply(sh, x, EventAck(id));
            var result := if t.rest == [] then DueResults(e, Permit(false, t.resultAllowed)) else [];
            && y.entry == Some(e)
            && y.past.sentEvents == x.past.sentEvents + (if t.rest == [] then [] else [t.rest[0]])
            && y.past.sentResults == x.past.sentResults + result
            && (t.rest != [] ==> y.tasks[id] == SendingEvent(t.rest[0], t.rest[1..], t.resultAllowed))
  {
    var t, y := x.tasks[id], NoteAck(x, x.tasks[id].event);
    var z := Commit(sh, y, Some(AckedEntry(x, t.event).value));
    SendContinues(z, id, t.rest, t.resultAllowed);
    NotedSame();
    assert SentSame(x, z);
    hide Noted, AckedEntry, SendNext, DueResults;
  }

  lemma SendContinues(x: Slot, id: TaskId, events: seq<Event>, allowed: bool)
    requires x.entry.Some?
    ensures var y := SendNext(x, id, events, allowed);
            var result := if events == [] then DueResults(x.entry.value, Permit(false, allowed)) else [];
            && y.entry == x.entry
            && y.past.sentEvents == x.past.sentEvents + (if events == [] then [] else [events[0]])
            && y.past.sentResults == x.past.sentResults + result
            && (events != [] ==> id in y.tasks && y.tasks[id] == SendingEvent(events[0], events[1..], allowed))
  {
    PendingIff(x.entry.value);
    hide Pending, PendingSeqs;
  }
}
