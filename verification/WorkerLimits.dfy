/** What a step cannot do after the drain fence, and before Core has granted anything. */
module WorkerLimits {
  import opened Prelude
  import opened Acks
  import opened Journal
  import opened Worker
  import opened WorkerHistory

  // ---------------------------------------------------------------- the drain fence

  predicate Acknowledging(x: Slot) {
    x.entry.Some? && x.entry.value.rec.state == AckSent
  }

  lemma SendingFence(sh: Shared, x: Slot, step: Step)
    requires Enabled(sh, x, step) && !Acknowledging(x) && (Quiet(step) || Flushes(step))
    ensures !Acknowledging(Apply(sh, x, step))
  {
    hide Noted, Pending, PendingSeqs, Applied;
  }

  lemma StepFence(sh: Shared, x: Slot, step: Step)
    requires Enabled(sh, x, step) && sh.draining && !Acknowledging(x)
    ensures !Acknowledging(Apply(sh, x, step))
  {
    if Quiet(step) || Flushes(step) {
      SendingFence(sh, x, step);
    } else if Claims(step) {
      ClaimFence(sh, x, step);
    } else {
      hide Noted, Applied, EventsCleared, ResultStoredFile, OfferStep, ConfirmStep, RejectStep, ContinueStep;
    }
  }

  lemma ClaimFence(sh: Shared, x: Slot, step: Step)
    requires Enabled(sh, x, step) && sh.draining && !Acknowledging(x)
    requires Claims(step)
    ensures !Acknowledging(Apply(sh, x, step))
  {
    hide Noted;
  }

  lemma DeletionFence(sh: Shared, x: Slot, y: Slot)
    requires x.entry.Some? && !Acknowledging(x) && DeletionCut(sh, x, y)
    ensures !Acknowledging(y)
  {
  }

  lemma ClaimCutFence(sh: Shared, x: Slot, step: Step, y: Slot)
    requires Enabled(sh, x, step) && sh.draining && !Acknowledging(x) && CutShort(sh, x, step, y)
    requires Claims(step)
    ensures !Acknowledging(y)
  {
    StepFence(sh, x, step);
    hide Noted, Start, OfferStep, ConfirmStep, RejectStep, ContinueStep, Release;
  }

  lemma CutShortFence(sh: Shared, x: Slot, step: Step, y: Slot)
    requires Enabled(sh, x, step) && sh.draining && !Acknowledging(x) && CutShort(sh, x, step, y)
    ensures !Acknowledging(y)
  {
    if Claims(step) {
      ClaimCutFence(sh, x, step, y);
    } else if step.Clear? || step.ResultAck? {
      DeletionFence(sh, if step.Clear? then x else x.(past := x.past.(resultAcked := true)), y);
    } else {
      StepFence(sh, x, step);
      hide Noted, Applied, EmitStep, StoreStep;
    }
  }

  // ---------------------------------------------------------------- before any grant

  /** Nothing has been granted in this process: no permission, no handler, no upload on its way. */
  ghost predicate Silent(x: Slot) {
    x.permit == None && x.handler == None && forall id :: id in x.tasks ==> !HoldsLock(x.tasks[id])
  }

  /** The steps in which Core offers, confirms or continues the attempt, or allows an upload. */
  predicate Grants(step: Step) {
    step.Offer? || step.Confirm? || step.Continue? || step.Upload?
  }

  /** Nothing is granted and nothing was sent between the two. */
  ghost predicate Hushed(x: Slot, y: Slot) {
    Silent(y) && y.past.sentEvents == x.past.sentEvents && y.past.sentResults == x.past.sentResults
  }

  lemma CommitSilent(sh: Shared, x: Slot, after: Option<Entry>)
    requires Silent(x)
    ensures Hushed(x, Commit(sh, x, after))
  {
  }

  /** Ending a task, or starting or exchanging one that waits for nothing on the wire. */
  lemma TaskSilent(x: Slot, id: TaskId, t: Task)
    requires Silent(x) && !HoldsLock(t)
    ensures Hushed(x, Release(x, id)) && Hushed(x, x.(tasks := x.tasks[id := t]))
  {
  }

  lemma QuietSilent(sh: Shared, x: Slot, step: Step)
    requires Silent(x) && Enabled(sh, x, step) && (Quiet(step) || Flushes(step)) && !Grants(step)
    ensures Hushed(x, Apply(sh, x, step))
  {
    if step.Abort? || step.AbortTerminal? || step.FlushLock? { TaskSilent(x, step.id, FlushWaiting); }
    hide SendNext, ReplayNext, EventAckStep, ReplayAckStep, ResultAckStep;
  }

  lemma DeletedSilent(sh: Shared, x: Slot, e: Entry)
    requires Silent(x)
    ensures Hushed(x, Deleted(sh, x, e))
  {
    var y := Commit(sh, x, Some(e));
    CommitSilent(sh, x, Some(e));
    hide Commit, Deletable;
    if EventsCleared(e).Ok? {
      var z := Commit(sh, y, Some(EventsCleared(e).value));
      CommitSilent(sh, y, Some(EventsCleared(e).value));
      CommitSilent(sh, z, None);
    }
  }

  lemma RejectSilent(sh: Shared, x: Slot)
    requires Silent(x)
    ensures Hushed(x, RejectStep(sh, x))
  {
  }

  lemma ClearSilent(sh: Shared, x: Slot, id: TaskId, acked: bool)
    requires Silent(x)
    ensures Hushed(x, ClearStep(sh, x, id, acked))
  {
    TaskSilent(x, id, FlushWaiting);
    if x.entry.Some? {
      var e := x.entry.value;
      DeletedSilent(sh, Release(x, id), e);
      if e.result.Some? { DeletedSilent(sh, Release(x, id), ResultAckedBy(e, e.result.value.id).value); }
    }
    hide Deleted, Hushed;
  }

  lemma FinaliseSilent(sh: Shared, x: Slot, id: TaskId)
    requires Silent(x)
    ensures Hushed(x, FinaliseStep(sh, x, id))
  {
  }

  lemma StepSilent(sh: Shared, x: Slot, step: Step)
    requires Silent(x) && Enabled(sh, x, step) && !Grants(step)
    ensures Hushed(x, Apply(sh, x, step))
  {
    if Quiet(step) || Flushes(step) {
      QuietSilent(sh, x, step);
    } else {
      hide Hushed, RejectStep, ClearStep, FinaliseStep;
      match step
      case RejectAccepted => RejectSilent(sh, x);
      case Clear(id) => ClearSilent(sh, x, id, x.tasks[id].acked);
      case Finalise(id) => FinaliseSilent(sh, x, id);
    }
  }

  /** Nothing is sent in a step that claims, resumes, emits or stores. */
  predicate SameSends(x: Slot, y: Slot) {
    y.past.sentEvents == x.past.sentEvents && y.past.sentResults == x.past.sentResults
  }

  lemma StartSends(sh: Shared, x: Slot)
    ensures SameSends(x, Start(sh, x))
  {
  }

  lemma OfferSends(sh: Shared, x: Slot, identity: Identity, input: Fields, roomy: bool)
    ensures SameSends(x, OfferStep(sh, x, identity, input, roomy))
  {
    if !x.terminal && CreatedEntry(x, identity, input).Ok? {
      StartSends(sh, Permitted(CreatedSlot(sh, x, identity, CreatedEntry(x, identity, input).value)));
    }
    hide Start, Advanced, CreatedEntry;
  }

  lemma ConfirmSends(sh: Shared, x: Slot, id: TaskId, state: State, reconnect: bool)
    ensures SameSends(x, ConfirmStep(sh, x)) && SameSends(x, ContinueStep(sh, x, id, state, reconnect))
  {
    var y, z := x.(claim := NoClaim), Release(x, id);
    if AdvancedEntry(x, Confirmed).Ok? {
      var e := AdvancedEntry(x, Confirmed).value;
      StartSends(sh, Vouched(Commit(sh, y, Some(e))));
      StartSends(sh, Vouched(Commit(sh, z, Some(e))));
    }
    StartSends(sh, Vouched(z));
    hide Start, Advanced;
  }

  lemma DeletionCutSilent(sh: Shared, x: Slot, y: Slot)
    requires Silent(x) && x.entry.Some? && DeletionCut(sh, x, y)
    ensures Hushed(x, y)
  {
    forall after ensures Hushed(x, Commit(sh, x, after)) {
      CommitSilent(sh, x, after);
    }
    hide Commit, Hushed, EventsCleared, ResultAckedBy;
  }

  lemma RevokeCutSilent(sh: Shared, x: Slot, y: Slot)
    requires Silent(x) && x.entry.Some?
    requires var e := RevokedEntry(x.entry.value);
             y in {Commit(sh, x, Some(e)), Commit(sh, x, Some(Discarded(e).value)), Commit(sh, x, None)}
    ensures Hushed(x, y)
  {
    forall after ensures Hushed(x, Commit(sh, x, after)) {
      CommitSilent(sh, x, after);
    }
    hide Commit, Hushed;
  }

  /** A step cut short changes nothing but the record and its history. */
  lemma CutShortSilent(sh: Shared, x: Slot, step: Step, y: Slot)
    requires Silent(x) && Enabled(sh, x, step) && CutShort(sh, x, step, y)
    ensures Hushed(x, y)
  {
    if step.Clear? {
      DeletionCutSilent(sh, x, y);
    } else if step.Finalise? {
      RevokeCutSilent(sh, x, y);
    } else if Claims(step) {
      ClaimCutSilent(sh, x, step, y);
    } else {
      hide OfferStep, ConfirmStep, RejectStep, ContinueStep;
    }
  }

  lemma ClaimCutSilent(sh: Shared, x: Slot, step: Step, y: Slot)
    requires Silent(x) && Enabled(sh, x, step) && CutShort(sh, x, step, y) && Claims(step)
    ensures Hushed(x, y)
  {
    hide OfferStep, ConfirmStep, ContinueStep, Advanced, Deletable;
    match step
    case Offer(identity, input, roomy) => OfferSends(sh, x, identity, input, roomy);
    case Confirm => ConfirmSends(sh, x, 0, Received, false);
    case RejectAccepted =>
    case Continue(id, reconnect) => ConfirmSends(sh, x, id, x.tasks[id].state, reconnect);
  }

  lemma RestartSilent(x: Slot)
    ensures Silent(Reborn(x)) && Reborn(x).past.sentEvents == x.past.sentEvents
    ensures Reborn(x).past.sentResults == x.past.sentResults
  {
  }
}
