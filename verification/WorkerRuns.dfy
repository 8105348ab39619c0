/** Whole runs of the worker: any interleaving over any attempts, store faults, crashes and restarts. */
module WorkerRuns {
  import opened Prelude
  import opened Journal
  import opened Worker
  import opened WorkerInvariant
  import opened WorkerTasks
  import opened WorkerSteps
  import opened WorkerFlushing
  import opened WorkerEnding
  import opened WorkerHandling
  import opened WorkerHistory

  // ---------------------------------------------------------------- every step keeps the invariant

  lemma StepKeeps(sh: Shared, x: Slot, step: Step)
    requires Inv(sh, x) && Enabled(sh, x, step)
    ensures Inv(sh, Apply(sh, x, step))
  {
    hide Inv, OfferStep, ConfirmStep, RejectStep, ContinueStep, ClearStep, FlushStep, EventAckStep, ResultAckStep,
      ReplayNext, ReplayAckStep, FinaliseStep, EmitStep, StoreStep;
    match step
    case Offer(identity, input, roomy) => OfferKeeps(sh, x, identity, input, roomy);
    case Confirm => ConfirmStepKeeps(sh, x);
    case RejectAccepted => RejectStepKeeps(sh, x);
    case ClaimLost => ClaimChangeKeeps(sh, x, NoClaim);
    case ClaimRevoked(id) =>
      BeginRevokeKeeps(sh, x, id);
      ClaimChangeKeeps(sh, BeginRevoke(x, id), NoClaim);
    case Ask(id) => AskKeeps(sh, x, id);
    case Continue(id, reconnect) => ContinueKeeps(sh, x, id, reconnect);
    case Upload(id, permit) =>
      ReleaseKeeps(sh, x, id);
      PermitKeeps(sh, Release(x, id), Some(permit));
    case TicketRevoked(id) => BeginRevokeKeeps(sh, x, id);
    case TicketAcked(id) => TicketAckedKeeps(sh, x, id);
    case Clear(id) => ClearStepKeeps(sh, x, id);
    case FlushSpawn(id) => WaitingKeeps(sh, x, id, FlushWaiting);
    case FlushLock(id) => FlushStepKeeps(sh, x, id);
    case EventAck(id) => EventAckStepKeeps(sh, x, id);
    case ResultAck(id) => ResultAckStepKeeps(sh, x, id);
    case Missing(id, ranges, events) => MissingKeeps(sh, x, id, ranges, events);
    case ReplayAck(id) => ReplayAckKeeps(sh, x, id);
    case Abort(id) => ReleaseKeeps(sh, x, id);
    case AbortTerminal(id) =>
      ReleaseKeeps(sh, x, id);
      BeginRevokeKeeps(sh, Release(x, id), id);
    case RevokeSpawn(id) => BeginRevokeKeeps(sh, x, id);
    case Finalise(id) => FinaliseKeeps(sh, x, id);
    case CancelStart(id) => CancelStartKeeps(sh, x, id);
    case CancelLock(id) => CancelLockKeeps(sh, x, id);
    case CancelStopped(id) => CancelStoppedKeeps(sh, x, id);
    case Begin => BeginKeeps(sh, x);
    case Emit(freshId, kind, payload) => EmitKeeps(sh, x, freshId, kind, payload);
    case Return => PhaseKeeps(sh, x, if x.handler.value.cancelled then Done else Storing);
    case StoreResult(body, freshNumber) => StoreKeeps(sh, x, body, freshNumber);
    case Die => PhaseKeeps(sh, x, Done);
  }

  /** So does a step that a failing store operation cuts short. */
  lemma CutShortKeeps(sh: Shared, x: Slot, step: Step, y: Slot)
    requires Inv(sh, x) && Enabled(sh, x, step) && CutShort(sh, x, step, y)
    ensures Always(y, sh.epoch)
  {
    hide Inv, Always, OfferStep, ConfirmStep, RejectStep, ContinueStep, EmitStep, StoreStep;
    match step
    case Offer(identity, input, roomy) => OfferKeeps(sh, x, identity, input, roomy);
    case Confirm => ConfirmStepKeeps(sh, x);
    case RejectAccepted => RejectStepKeeps(sh, x);
    case Continue(id, reconnect) => ContinueKeeps(sh, x, id, reconnect);
    case Clear(id) => ClearStepKeeps(sh, x, id);
    case EventAck(id) => EventAckStepKeeps(sh, x, id);
    case ResultAck(id) => ResultAckStepKeeps(sh, x, id);
    case ReplayAck(id) => ReplayAckKeeps(sh, x, id);
    case Finalise(id) => FinaliseKeeps(sh, x, id);
    case Emit(freshId, kind, payload) =>
      EmitKeeps(sh, x, freshId, kind, payload);
      InvGivesAlways(sh, y);
    case StoreResult(body, freshNumber) => StoreKeeps(sh, x, body, freshNumber);
    case _ =>
  }

  // ---------------------------------------------------------------- runs

  datatype World = World(sh: Shared, slots: map<AttemptId, Slot>)

  /** A step of one attempt's tasks, one cut short by the store, the drain fence, or a restart. */
  datatype Move =
    | Act(attempt: AttemptId, step: Step)
    | Fault(attempt: AttemptId, step: Step, left: Slot)
    | Fence
    | Restart

  function SlotOf(w: World, a: AttemptId): Slot {
    if a in w.slots then w.slots[a] else EMPTY_SLOT
  }

  ghost predicate Allowed(w: World, m: Move) {
    match m
    case Act(a, step) =>
      Enabled(w.sh, SlotOf(w, a), step) && (step.Offer? ==> step.identity.attempt == a)
    case Fault(a, step, left) =>
      && Enabled(w.sh, SlotOf(w, a), step) && NeedsStore(step) && (step.Offer? ==> step.identity.attempt == a)
      && (left == SlotOf(w, a) || CutShort(w.sh, SlotOf(w, a), step, left))
    case _ => true
  }

  function Next(w: World, m: Move): World
    requires Allowed(w, m)
  {
    match m
    case Act(a, step) => w.(slots := w.slots[a := Apply(w.sh, SlotOf(w, a), step)])
    case Fault(a, _, left) => World(w.sh.(poisoned := true), w.slots[a := left])
    case Fence => w.(sh := w.sh.(draining := true))
    case Restart => World(Shared(w.sh.epoch + 1, false, false), map a | a in w.slots :: Reborn(w.slots[a]))
  }

  ghost predicate Run(w: World, moves: seq<Move>)
    decreases |moves|
  {
    moves == [] || (Allowed(w, moves[0]) && Run(Next(w, moves[0]), moves[1..]))
  }

  function After(w: World, moves: seq<Move>): World
    requires Run(w, moves)
    decreases |moves|
  {
    if moves == [] then w else After(Next(w, moves[0]), moves[1..])
  }

  /** A worker whose directory is empty. */
  function Fresh(epoch: nat): World {
    World(Shared(epoch, false, false), map[])
  }

  ghost predicate WorldInv(w: World) {
    forall a :: Inv(w.sh, SlotOf(w, a))
  }

  lemma FreshInv(epoch: nat)
    ensures WorldInv(Fresh(epoch))
  {
  }

  /** Neither the fence nor a fault matters to the slots they do not touch. */
  lemma SharedKeeps(sh: Shared, x: Slot)
    requires Inv(sh, x)
    ensures Inv(sh.(poisoned := true), x) && Inv(sh.(draining := true), x)
  {
  }

  lemma AlwaysGivesInv(sh: Shared, x: Slot)
    requires Always(x, sh.epoch)
    ensures Inv(sh.(poisoned := true), x)
  {
  }

  lemma NextKeeps(w: World, m: Move)
    requires WorldInv(w) && Allowed(w, m)
    ensures WorldInv(Next(w, m))
  {
    var v := Next(w, m);
    forall a ensures Inv(v.sh, SlotOf(v, a)) {
      var x := SlotOf(w, a);
      hide Inv, Always, Live, Apply, Enabled, CutShort;
      assert Inv(w.sh, x);
      match m
      case Act(b, step) =>
        StepKeeps(w.sh, SlotOf(w, b), step);
      case Fault(b, step, left) =>
        if b == a {
          if left == x {
            SharedKeeps(w.sh, x);
          } else {
            CutShortKeeps(w.sh, x, step, left);
            AlwaysGivesInv(w.sh, left);
          }
        } else {
          SharedKeeps(w.sh, x);
        }
      case Fence => SharedKeeps(w.sh, x);
      case Restart =>
        InvGivesAlways(w.sh, x);
        RebornKeeps(w.sh, x, v.sh);
        EmptyInv(v.sh);
    }
  }

  /** The invariant holds after every run. */
  lemma {:induction false} RunKeeps(w: World, moves: seq<Move>)
    requires WorldInv(w) && Run(w, moves)
    ensures WorldInv(After(w, moves))
    decreases |moves|
  {
    hide WorldInv, Next;
    if moves != [] {
      NextKeeps(w, moves[0]);
      RunKeeps(Next(w, moves[0]), moves[1..]);
    }
  }

  /** Every state reached from an empty directory. */
  lemma Reached(epoch: nat, moves: seq<Move>, a: AttemptId)
    requires Run(Fresh(epoch), moves)
    ensures WorldInv(After(Fresh(epoch), moves))
    ensures Inv(After(Fresh(epoch), moves).sh, SlotOf(After(Fresh(epoch), moves), a))
  {
    FreshInv(epoch);
    RunKeeps(Fresh(epoch), moves);
    hide Inv;
  }

  predicate HasRestart(moves: seq<Move>) {
    Restart in moves
  }

  lemma NextOnward(w: World, m: Move, a: AttemptId)
    requires WorldInv(w) && Allowed(w, m)
    ensures Grows(SlotOf(w, a).past, SlotOf(Next(w, m), a).past)
    ensures m != Restart ==> StaysStopped(SlotOf(w, a).past, SlotOf(Next(w, m), a).past)
  {
    var x := SlotOf(w, a);
    QuietOnward(x, x);
    hide Inv, Apply, Enabled, CutShort;
    assert Inv(w.sh, x);
    match m
    case Act(b, step) =>
      if b == a { StepOnward(w.sh, x, step); }
    case Fault(b, step, left) =>
      if b == a && left != x { CutShortOnward(w.sh, x, step, left); }
    case Fence =>
    case Restart =>
  }

  /** What an attempt's history says stays true over every further run, restarts included. */
  lemma {:induction false} RunOnward(w: World, moves: seq<Move>, a: AttemptId)
    requires WorldInv(w) && Run(w, moves)
    ensures Grows(SlotOf(w, a).past, SlotOf(After(w, moves), a).past)
    ensures !HasRestart(moves) ==> StaysStopped(SlotOf(w, a).past, SlotOf(After(w, moves), a).past)
    decreases |moves|
  {
    hide WorldInv, Next;
    if moves == [] {
      assert Grows(SlotOf(w, a).past, SlotOf(w, a).past);
    } else {
      var v := Next(w, moves[0]);
      NextKeeps(w, moves[0]);
      NextOnward(w, moves[0], a);
      RunOnward(v, moves[1..], a);
      GrowsTransitive(SlotOf(w, a).past, SlotOf(v, a).past, SlotOf(After(w, moves), a).past);
    }
  }
}
