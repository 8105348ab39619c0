/** What no step of the worker can undo. */
module WorkerHistory {
  import opened Prelude
  import opened Acks
  import opened Journal
  import opened Worker
  import opened WorkerInvariant

  // ---------------------------------------------------------------- what the history can become

  /** The history only grows, and stops growing where an end was reached. */
  ghost predicate Grows(p: Past, q: Past) {
    && (p.offered.Some? ==> q.offered == p.offered)
    && p.spawns <= q.spawns && p.begins <= q.begins && p.acked <= q.acked
    && (forall n :: n in p.ever ==> n in q.ever && q.ever[n] == p.ever[n])
    && (p.result.Some? ==> q.result == p.result && q.ever == p.ever)
    && p.sentEvents <= q.sentEvents && p.sentResults <= q.sentResults
    && (p.finalised ==>
          && q.finalised && q.spawns == p.spawns && q.begins == p.begins
          && q.sentEvents == p.sentEvents && q.sentResults == p.sentResults)
  }

  lemma GrowsTransitive(p: Past, q: Past, r: Past)
    requires Grows(p, q) && Grows(q, r)
    ensures Grows(p, r)
  {
  }

  /** After "stopped" was sent the handler neither starts nor runs in this process. */
  predicate StaysStopped(p: Past, q: Past) {
    p.stopped ==> q.stopped && q.spawns == p.spawns && q.begins == p.begins
  }

  /** The part of the invariant that the history depends on. */
  ghost predicate Known(x: Slot) {
    && (x.entry.Some? ==> EventsKnown(x.entry.value, x.past))
    && (x.past.finalised ==> x.entry == None) && (x.past.stopped ==> x.terminal)
  }

  /** `y` has the same memory as `x` where it matters here, and its history goes on. */
  ghost predicate Onward(x: Slot, y: Slot) {
    Grows(x.past, y.past) && StaysStopped(x.past, y.past)
  }

  /** Commits of records with no Event but known ones. */
  lemma CommitOnward(sh: Shared, x: Slot, after: Option<Entry>)
    requires Known(x)
    requires after.Some? ==> EventsKnown(after.value, x.past) && !x.past.finalised
    ensures Onward(x, Commit(sh, x, after)) && Known(Commit(sh, x, after))
  {
  }

  lemma StartOnward(sh: Shared, x: Slot)
    requires Known(x)
    ensures Onward(x, Start(sh, x))
  {
  }

  /** Two commits in a row. */
  lemma CommitTwiceOnward(sh: Shared, x: Slot, first: Entry, after: Option<Entry>)
    requires Known(x) && EventsKnown(first, x.past) && !x.past.finalised
    requires after.Some? ==> after.value.events == first.events || after.value.events == map[]
    ensures var y := Commit(sh, Commit(sh, x, Some(first)), after);
            Onward(x, y) && Known(y)
  {
  }

  /** Only one function adds an Event to a record. */
  lemma AdvancedEvents(e: Entry, to: State)
    ensures Advanced(e, to).Ok? ==> Advanced(e, to).value.events == e.events
  {
  }

  /** Leaving out what happened in memory makes no difference to the history. */
  lemma JournalOnlyOnward(x: Slot, y: Slot)
    requires Onward(x, y)
    ensures Onward(x, JournalOnly(x, y))
  {
  }

  lemma CreatedOnward(sh: Shared, x: Slot, identity: Identity, input: Fields)
    requires Known(x) && !x.past.finalised && CreatedEntry(x, identity, input).Ok?
    requires x.past.offered.Some? ==> x.past.offered.value == identity
    ensures var y := CreatedSlot(sh, x, identity, CreatedEntry(x, identity, input).value);
            Onward(x, y) && Known(y) && y.entry == Some(CreatedEntry(x, identity, input).value)
  {
    var e := CreatedEntry(x, identity, input).value;
    CommitOnward(sh, x, Some(e));
    hide Noted;
  }

  lemma OfferOnward(sh: Shared, x: Slot, identity: Identity, input: Fields, roomy: bool)
    requires Known(x) && FinalFits(x, sh.epoch) && Enabled(sh, x, Offer(identity, input, roomy))
    ensures Onward(x, OfferStep(sh, x, identity, input, roomy))
    ensures !x.terminal && CreatedEntry(x, identity, input).Ok? ==>
              Onward(x, CreatedSlot(sh, x, identity, CreatedEntry(x, identity, input).value))
  {
    var created := CreatedEntry(x, identity, input);
    if !x.terminal && created.Ok? {
      var e := created.value;
      var y := CreatedSlot(sh, x, identity, e);
      CreatedOnward(sh, x, identity, input);
      hide Noted, CreatedSlot, CreatedEntry, Known;
      match e.rec.state
      case Received =>
        AdvancedEvents(e, AckSent);
        AdvancedEvents(e, RejectSent);
        TwoSteps(sh, x, y, if roomy then Advanced(e, AckSent).value else Advanced(e, RejectSent).value);
      case Confirmed =>
        StartOnward(sh, Permitted(y));
        GrowsTransitive(x.past, y.past, Start(sh, Permitted(y)).past);
      case _ =>
    }
  }

  lemma TwoSteps(sh: Shared, x: Slot, y: Slot, after: Entry)
    requires Onward(x, y) && Known(y) && y.entry.Some? && after.events == y.entry.value.events
    ensures Onward(x, Commit(sh, y, Some(after)))
    ensures Commit(sh, y, Some(after)).past.spawns == y.past.spawns
  {
  }

  lemma VouchedStartOnward(sh: Shared, x: Slot, e: Entry)
    requires Known(x) && x.entry.Some? && e.events == x.entry.value.events
    ensures Onward(x, Start(sh, Vouched(Commit(sh, x, Some(e)))))
    ensures Onward(x, Commit(sh, x, Some(e)))
  {
  }

  lemma ConfirmOnward(sh: Shared, x: Slot)
    requires Known(x)
    ensures Onward(x, ConfirmStep(sh, x)) && Onward(x, ConfirmedOnly(sh, x))
  {
    hide Noted, Start;
    if AdvancedEntry(x, Confirmed).Ok? {
      AdvancedEvents(x.entry.value, Confirmed);
      VouchedStartOnward(sh, x, AdvancedEntry(x, Confirmed).value);
      VouchedStartOnward(sh, x.(claim := NoClaim), AdvancedEntry(x, Confirmed).value);
    }
  }

  lemma RejectOnward(sh: Shared, x: Slot)
    requires Known(x)
    ensures Onward(x, RejectStep(sh, x))
    ensures AdvancedEntry(x, Rejected).Ok? ==> Onward(x, Commit(sh, x, Some(AdvancedEntry(x, Rejected).value)))
  {
    hide Noted;
    if AdvancedEntry(x, Rejected).Ok? {
      var e := AdvancedEntry(x, Rejected).value;
      AdvancedEvents(x.entry.value, Rejected);
      CommitTwiceOnward(sh, x.(claim := NoClaim), e, if Deletable(e) then None else Some(e));
      CommitOnward(sh, x, Some(e));
    }
  }

  lemma ContinueOnward(sh: Shared, x: Slot, id: TaskId, state: State, reconnect: bool)
    requires Known(x)
    ensures Onward(x, ContinueStep(sh, x, id, state, reconnect))
    ensures Onward(x, ConfirmedOnly(sh, x))
  {
    hide Noted, Start;
    ConfirmOnward(sh, x);
    var y := Release(x, id);
    StartOnward(sh, Vouched(y));
    if AdvancedEntry(y, Confirmed).Ok? {
      AdvancedEvents(x.entry.value, Confirmed);
      VouchedStartOnward(sh, y, AdvancedEntry(y, Confirmed).value);
    }
  }

  lemma DeletedOnward(sh: Shared, x: Slot, e: Entry)
    requires Known(x) && x.entry.Some? && EventsKnown(e, x.past)
    ensures Onward(x, Deleted(sh, x, e))
  {
    hide Noted;
    CommitOnward(sh, x, Some(e));
    if EventsCleared(e).Ok? {
      var cleared := EventsCleared(e).value;
      CommitTwiceOnward(sh, x, e, Some(cleared));
      var z := Commit(sh, Commit(sh, x, Some(e)), Some(cleared));
      CommitOnward(sh, z, None);
      GrowsTransitive(x.past, z.past, Commit(sh, z, None).past);
    }
  }

  lemma DeletionCutOnward(sh: Shared, x: Slot)
    requires Known(x) && x.entry.Some?
    ensures forall y :: DeletionCut(sh, x, y) ==> Onward(x, y)
  {
    hide Noted;
    var e := x.entry.value;
    CommitOnward(sh, x, None);
    if e.result.Some? {
      var f := ResultAckedBy(e, e.result.value.id).value;
      CommitOnward(sh, x, Some(f));
      CommitOnward(sh, x, Some(EventsCleared(f).value));
    } else if EventsCleared(e).Ok? {
      CommitOnward(sh, x, Some(EventsCleared(e).value));
    }
  }

  lemma ClearOnward(sh: Shared, x: Slot, id: TaskId, acked: bool)
    requires Known(x)
    ensures Onward(x, ClearStep(sh, x, id, acked))
  {
    if x.entry.Some? {
      DeletedOnward(sh, Release(x, id), x.entry.value);
      if x.entry.value.result.Some? {
        DeletedOnward(sh, Release(x, id), ResultAckedBy(x.entry.value, x.entry.value.result.value.id).value);
      }
      hide Deleted;
    }
  }

  lemma SendNextOnward(x: Slot, id: TaskId, events: seq<Event>, allowed: bool)
    requires Known(x) && !x.past.finalised
    ensures Onward(x, SendNext(x, id, events, allowed))
  {
    hide Pending, PendingSeqs, Known, Grows;
    SendOnward(x, x.past.sentEvents, x.past.sentResults);
    if events != [] {
      SendOnward(x, x.past.sentEvents + [events[0]], x.past.sentResults);
    } else if x.entry.Some? && x.entry.value.result.Some? {
      SendOnward(x, x.past.sentEvents, x.past.sentResults + [x.entry.value.result.value]);
    }
  }

  lemma SendOnward(x: Slot, events: seq<Event>, results: seq<Result>)
    requires x.past.sentEvents <= events && x.past.sentResults <= results && !x.past.finalised
    ensures Grows(x.past, x.past.(sentEvents := events, sentResults := results))
    ensures x.past == x.past.(sentEvents := x.past.sentEvents)
  {
  }

  lemma AckOnward(sh: Shared, x: Slot, e: Event)
    requires Known(x)
    ensures Onward(x, AckOnly(sh, x, e)) && Known(AckOnly(sh, x, e)) && Onward(x, NoteAck(x, e))
    ensures AckedEntry(x, e).Ok? ==> !AckOnly(sh, x, e).past.finalised
    ensures AckedEntry(x, e).Ok? ==>
              AckOnly(sh, x, e) == Commit(sh, NoteAck(x, e), Some(AckedEntry(NoteAck(x, e), e).value))
  {
    hide Applied;
  }

  lemma EventAckOnward(sh: Shared, x: Slot, id: TaskId, e: Event, rest: seq<Event>, allowed: bool)
    requires Known(x)
    ensures Onward(x, EventAckStep(sh, x, id, e, rest, allowed))
  {
    hide Applied, SendNext, AckOnly, Known, Noted;
    AckOnward(sh, x, e);
    if AckedEntry(x, e).Ok? {
      var y := AckOnly(sh, x, e);
      SendNextOnward(y, id, rest, allowed);
      GrowsTransitive(x.past, y.past, SendNext(y, id, rest, allowed).past);
    }
  }

  lemma ReplayNextOnward(x: Slot, id: TaskId, events: seq<Event>, r: Result)
    requires !x.past.finalised
    ensures Onward(x, ReplayNext(x, id, events, r))
  {
    hide Grows;
    if events != [] {
      SendOnward(x, x.past.sentEvents + [events[0]], x.past.sentResults);
    } else {
      SendOnward(x, x.past.sentEvents, x.past.sentResults + [r]);
    }
  }

  lemma ReplayAckOnward(sh: Shared, x: Slot, id: TaskId, e: Event, rest: seq<Event>, r: Result)
    requires Known(x)
    ensures Onward(x, ReplayAckStep(sh, x, id, e, rest, r))
  {
    hide Applied, ReplayNext, AckOnly, Known, Noted;
    AckOnward(sh, x, e);
    if AckedEntry(x, e).Ok? {
      var y := AckOnly(sh, x, e);
      ReplayNextOnward(y, id, rest, r);
      GrowsTransitive(x.past, y.past, ReplayNext(y, id, rest, r).past);
    }
  }

  lemma ResultAckOnward(sh: Shared, x: Slot, id: TaskId, r: Result)
    requires Known(x)
    ensures Onward(x, ResultAckStep(sh, x, id, r))
  {
    hide Deleted;
    var y := Release(x.(past := x.past.(resultAcked := true)), id);
    if y.entry.Some? && ResultAckedBy(y.entry.value, r.id).Ok? {
      DeletedOnward(sh, y, ResultAckedBy(y.entry.value, r.id).value);
      GrowsTransitive(x.past, y.past, Deleted(sh, y, ResultAckedBy(y.entry.value, r.id).value).past);
    }
  }

  lemma FinaliseOnward(sh: Shared, x: Slot, id: TaskId)
    requires Known(x)
    ensures Onward(x, FinaliseStep(sh, x, id))
  {
  }

  lemma RevokeCutOnward(sh: Shared, x: Slot)
    requires Known(x) && x.entry.Some?
    ensures var e := RevokedEntry(x.entry.value);
            Onward(x, Commit(sh, x, Some(e)))
            && Onward(x, Commit(sh, x, Some(Discarded(e).value))) && Onward(x, Commit(sh, x, None))
  {
    var e := RevokedEntry(x.entry.value);
    AdvancedEvents(x.entry.value, Revoked);
    hide Noted;
    CommitOnward(sh, x, Some(e));
    CommitOnward(sh, x, Some(Discarded(e).value));
    CommitOnward(sh, x, None);
  }

  /** Only a started record takes another Event, and it has no Result yet. */
  lemma EmitOnward(sh: Shared, x: Slot, id: EventId, kind: string, payload: Fields)
    requires Always(x, sh.epoch)
    ensures Onward(x, EmitStep(sh, x, id, kind, payload))
  {
  }

  lemma StoreOnward(sh: Shared, x: Slot, body: Fields, freshNumber: nat)
    requires Known(x) && x.handler.Some?
    ensures Onward(x, StoreStep(sh, x, body, freshNumber))
  {
  }

  // ---------------------------------------------------------------- every step

  lemma KnownFrom(sh: Shared, x: Slot)
    requires Always(x, sh.epoch)
    ensures Known(x) && FinalFits(x, sh.epoch) && (x.past.finalised ==> x.entry == None)
  {
  }

  lemma BeginOnward(sh: Shared, x: Slot)
    requires Always(x, sh.epoch) && x.handler == Some(Handler(Spawned, false))
    ensures Onward(x, WithPhase(x, Running).(past := x.past.(begins := x.past.begins + 1)))
  {
  }

  /** Most steps add nothing to the history, or only one of two marks. */
  lemma QuietOnward(x: Slot, y: Slot)
    requires y.past in {x.past, x.past.(resultAcked := true), x.past.(stopped := true)}
    ensures Onward(x, y)
  {
  }

  /** Steps with no store write and no Event or Result message. */
  predicate Quiet(step: Step) {
    step.Ask? || step.CancelStart? || (!NeedsStore(step) && !step.Begin?)
  }

  lemma QuietStepOnward(sh: Shared, x: Slot, step: Step)
    requires Enabled(sh, x, step) && Quiet(step)
    ensures Onward(x, Apply(sh, x, step))
  {
    hide Onward;
    QuietOnward(x, Apply(sh, x, step));
  }

  /** Steps of a flush. */
  predicate Flushes(step: Step) {
    step.FlushLock? || step.EventAck? || step.ResultAck? || step.Missing? || step.ReplayAck?
  }

  lemma FlushOnward(sh: Shared, x: Slot, step: Step)
    requires Known(x) && Enabled(sh, x, step) && Flushes(step)
    ensures Onward(x, Apply(sh, x, step))
  {
    if step.FlushLock? && (x.permit == None || x.entry == None) {
      QuietOnward(x, Release(x, step.id));
    }
    hide Onward, EventAckStep, ResultAckStep, ReplayNext, ReplayAckStep, SendNext;
    match step
    case FlushLock(id) =>
      if x.entry.Some? && x.permit.Some? {
        SendNextOnward(x, id, if x.permit.value.events then Pending(x.entry.value) else [], x.permit.value.result);
      }
    case EventAck(id) =>
      EventAckOnward(sh, x, id, x.tasks[id].event, x.tasks[id].rest, x.tasks[id].resultAllowed);
    case ResultAck(id) => ResultAckOnward(sh, x, id, x.tasks[id].result);
    case Missing(id, _, events) => ReplayNextOnward(x, id, events, x.tasks[id].result);
    case ReplayAck(id) => ReplayAckOnward(sh, x, id, x.tasks[id].event, x.tasks[id].rest, x.tasks[id].result);
  }

  /** Steps that claim or resume. */
  predicate Claims(step: Step) {
    step.Offer? || step.Confirm? || step.RejectAccepted? || step.Continue?
  }

  lemma ClaimOnward(sh: Shared, x: Slot, step: Step)
    requires Known(x) && FinalFits(x, sh.epoch) && Enabled(sh, x, step) && Claims(step)
    ensures Onward(x, Apply(sh, x, step))
  {
    hide Known, Onward, OfferStep, ConfirmStep, RejectStep, ContinueStep;
    match step
    case Offer(identity, input, roomy) => OfferOnward(sh, x, identity, input, roomy);
    case Confirm => ConfirmOnward(sh, x);
    case RejectAccepted => RejectOnward(sh, x);
    case Continue(id, reconnect) => ContinueOnward(sh, x, id, x.tasks[id].state, reconnect);
  }

  lemma StepOnward(sh: Shared, x: Slot, step: Step)
    requires Inv(sh, x) && Enabled(sh, x, step)
    ensures Onward(x, Apply(sh, x, step))
  {
    InvGivesAlways(sh, x);
    hide Known, Inv, Always, Onward;
    KnownFrom(sh, x);
    if Quiet(step) {
      QuietStepOnward(sh, x, step);
    } else if Flushes(step) {
      FlushOnward(sh, x, step);
    } else if Claims(step) {
      ClaimOnward(sh, x, step);
    } else {
      hide ClearStep, FinaliseStep, EmitStep, StoreStep;
      match step
      case Clear(id) => ClearOnward(sh, x, id, x.tasks[id].acked);
      case Finalise(id) => FinaliseOnward(sh, x, id);
      case Emit(id, kind, payload) => EmitOnward(sh, x, id, kind, payload);
      case StoreResult(body, n) => StoreOnward(sh, x, body, n);
      case Begin => BeginOnward(sh, x);
    }
  }

  lemma CutShortOnward(sh: Shared, x: Slot, step: Step, y: Slot)
    requires Inv(sh, x) && Enabled(sh, x, step) && CutShort(sh, x, step, y)
    ensures Onward(x, y)
  {
    hide Known, Inv, Always, Onward, OfferStep, ConfirmStep, RejectStep, ContinueStep, EmitStep, StoreStep,
      Commit, AckOnly;
    InvGivesAlways(sh, x);
    KnownFrom(sh, x);
    match step
    case Offer(identity, input, roomy) =>
      OfferOnward(sh, x, identity, input, roomy);
      CreatedOnward(sh, x, identity, input);
      JournalOnlyOnward(x, OfferStep(sh, x, identity, input, roomy));
    case Confirm =>
      ConfirmOnward(sh, x);
      JournalOnlyOnward(x, ConfirmStep(sh, x));
    case RejectAccepted =>
      RejectOnward(sh, x);
      JournalOnlyOnward(x, RejectStep(sh, x));
    case Continue(id, reconnect) =>
      ContinueOnward(sh, x, id, x.tasks[id].state, reconnect);
      JournalOnlyOnward(x, ContinueStep(sh, x, id, x.tasks[id].state, reconnect));
    case Clear(id) => DeletionCutOnward(sh, x);
    case EventAck(id) => AckOnward(sh, x, x.tasks[id].event);
    case ResultAck(id) => ResultCutOnward(sh, x, y);
    case ReplayAck(id) => AckOnward(sh, x, x.tasks[id].event);
    case Finalise(id) => RevokeCutOnward(sh, x);
    case Emit(id, kind, payload) => EmitOnward(sh, x, id, kind, payload);
    case StoreResult(body, n) =>
      StoreOnward(sh, x, body, n);
      JournalOnlyOnward(x, StoreStep(sh, x, body, n));
    case _ =>
  }

  lemma ResultCutOnward(sh: Shared, x: Slot, y: Slot)
    requires Known(x) && x.entry.Some? && DeletionCut(sh, x.(past := x.past.(resultAcked := true)), y)
    ensures Onward(x, y)
  {
    hide DeletionCut;
    DeletionCutOnward(sh, x.(past := x.past.(resultAcked := true)));
  }

  lemma InvGivesAlways(sh: Shared, x: Slot)
    requires Inv(sh, x)
    ensures Always(x, sh.epoch)
  {
  }
}
