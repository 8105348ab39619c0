/** Conversely, wherever the operations of a step can stop, the worker's steps cut short have that record. */
module WorkerCuts {
  import opened Prelude
  import opened Journal
  import opened Worker
  import opened WorkerInvariant
  import opened WorkerOperations
  import S = StoreRuns

  lemma {:induction false} UniqueAt(
    a: AttemptId, e: Option<Entry>, ops: seq<S.Operation>, f: Option<Entry>, g: Option<Entry>)
    requires PerformsAt(a, e, ops, f) && PerformsAt(a, e, ops, g)
    ensures f == g
    decreases |ops|
  {
    hide IssuedAt, EffectAt;
    if ops != [] {
      UniqueAt(a, EffectAt(e, ops[0]).value, ops[1..], f, g);
    }
  }

  /** The record when the first `n` operations of the step took effect and no other did. */
  ghost predicate StopsAt(sh: Shared, a: AttemptId, x: Slot, step: Step, n: nat, f: Option<Entry>)
    requires Enabled(sh, x, step)
  {
    n <= |StepOps(sh, a, x, step)| && PerformsAt(a, x.entry, StepOps(sh, a, x, step)[..n], f)
  }

  /** One of the ways in which the step can be cut short leaves this record. */
  ghost predicate LeavesRecord(sh: Shared, x: Slot, step: Step, f: Option<Entry>)
    requires Enabled(sh, x, step)
  {
    f == x.entry || exists y :: CutShort(sh, x, step, y) && y.entry == f
  }

  lemma Leaves(sh: Shared, x: Slot, step: Step, y: Slot)
    requires Enabled(sh, x, step) && CutShort(sh, x, step, y)
    ensures LeavesRecord(sh, x, step, y.entry)
  {
    hide CutShort;
  }

  lemma OfferCuts(sh: Shared, a: AttemptId, x: Slot, step: Step, n: nat, f: Option<Entry>)
    requires Enabled(sh, x, step) && Belongs(a, x) && step.Offer? && step.identity.attempt == a
    requires n > 0 && StopsAt(sh, a, x, step, n, f)
    ensures LeavesRecord(sh, x, step, f)
  {
    var ops := OfferOps(x, step.identity, step.input, step.roomy);
    assert !x.terminal && CreatedEntry(x, step.identity, step.input).Ok?;
    var y := CreatedSlot(sh, x, step.identity, CreatedEntry(x, step.identity, step.input).value);
    var z := OfferStep(sh, x, step.identity, step.input, step.roomy);
    OfferAt(sh, a, x, step.identity, step.input, step.roomy);
    assert |ops| <= 2;
    hide PerformsAt, OfferStep, LeavesRecord, OfferOps, Noted;
    if n == 1 {
      UniqueAt(a, x.entry, ops[..1], f, y.entry);
      Leaves(sh, x, step, y);
    } else {
      assert ops[..n] == ops;
      UniqueAt(a, x.entry, ops, f, z.entry);
      Leaves(sh, x, step, JournalOnly(x, z));
    }
  }

  lemma ConfirmCuts(sh: Shared, a: AttemptId, x: Slot, step: Step, n: nat, f: Option<Entry>)
    requires Enabled(sh, x, step) && Belongs(a, x)
    requires step.Confirm? || (step.Continue? && x.tasks[step.id].state == AckSent)
    requires n > 0 && StopsAt(sh, a, x, step, n, f)
    ensures LeavesRecord(sh, x, step, f)
  {
    var ops := ConfirmOps(x);
    assert StepOps(sh, a, x, step) == ops && AdvancedEntry(x, Confirmed).Ok? && |ops| <= 2;
    var e := AdvancedEntry(x, Confirmed).value;
    var y := Start(sh, x.(entry := Some(e)));
    var z := Apply(sh, x, step);
    ConfirmAt(sh, a, x);
    assert z.entry == y.entry by {
      var w := if step.Confirm? then x.(claim := NoClaim) else Release(x, step.id);
      SameStart(sh, x.(entry := Some(e)), Vouched(Commit(sh, w, Some(e))));
      hide Start, Noted, Advanced;
    }
    hide PerformsAt, LeavesRecord, ConfirmOps, Noted, Start, Advanced;
    if n == 1 {
      UniqueAt(a, x.entry, ops[..1], f, Some(e));
      Leaves(sh, x, step, ConfirmedOnly(sh, x));
    } else {
      assert ops[..n] == ops;
      UniqueAt(a, x.entry, ops, f, y.entry);
      Leaves(sh, x, step, JournalOnly(x, z));
    }
  }

  lemma ContinueCuts(sh: Shared, a: AttemptId, x: Slot, step: Step, n: nat, f: Option<Entry>)
    requires Enabled(sh, x, step) && Belongs(a, x) && step.Continue?
    requires n > 0 && StopsAt(sh, a, x, step, n, f)
    ensures LeavesRecord(sh, x, step, f)
  {
    if x.tasks[step.id].state == AckSent {
      ConfirmCuts(sh, a, x, step, n, f);
    } else {
      assert x.tasks[step.id].state == Confirmed;
      ResumedCuts(sh, a, x, step, n, f);
    }
    hide *;
  }

  lemma ResumedCuts(sh: Shared, a: AttemptId, x: Slot, step: Step, n: nat, f: Option<Entry>)
    requires Enabled(sh, x, step) && Belongs(a, x) && step.Continue? && x.tasks[step.id].state == Confirmed
    requires n > 0 && StopsAt(sh, a, x, step, n, f)
    ensures LeavesRecord(sh, x, step, f)
  {
    var ops := StartOps(x);
    var y := Vouched(Release(x, step.id));
    StartAt(sh, a, x);
    SameStart(sh, x, y);
    assert |ops| <= 1 && ops[..n] == ops;
    UniqueAt(a, x.entry, ops, f, Start(sh, x).entry);
    hide LeavesRecord, PerformsAt, StartOps, Noted, Start, Advanced;
    Leaves(sh, x, step, JournalOnly(x, Apply(sh, x, step)));
  }

  lemma RejectCuts(sh: Shared, a: AttemptId, x: Slot, n: nat, f: Option<Entry>)
    requires Enabled(sh, x, RejectAccepted) && Belongs(a, x)
    requires n > 0 && StopsAt(sh, a, x, RejectAccepted, n, f)
    ensures LeavesRecord(sh, x, RejectAccepted, f)
  {
    var e := AdvancedEntry(x, Rejected).value;
    var ops := RejectOps(x);
    AdvanceAt(a, x, Rejected);
    assert ops[..1] == [S.Advance(MessageIn(x), Rejected)];
    RejectPerforms(sh, a, x);
    hide LeavesRecord, PerformsAt, Noted, Advanced;
    if n == 1 {
      UniqueAt(a, x.entry, ops[..1], f, Some(e));
      Leaves(sh, x, RejectAccepted, Commit(sh, x, Some(e)));
    } else {
      assert ops[..n] == ops;
      UniqueAt(a, x.entry, ops, f, RejectStep(sh, x).entry);
      Leaves(sh, x, RejectAccepted, JournalOnly(x, RejectStep(sh, x)));
    }
  }

  /** The record after each operation of a removal. */
  lemma DeletionCuts(sh: Shared, a: AttemptId, x: Slot, n: nat, f: Option<Entry>)
    requires Belongs(a, x) && x.entry.Some?
    requires var e := x.entry.value;
             var ops := if e.result.Some? then ResultOps(a, x, e.result.value.id) else DeletedOps(a, e);
             1 <= n <= |ops| && PerformsAt(a, x.entry, ops[..n], f)
    ensures forall w: Slot :: w.entry == x.entry ==> DeletionCut(sh, w, Commit(sh, w, f))
  {
    var e := x.entry.value;
    if e.result.Some? {
      var ops := ResultOps(a, x, e.result.value.id);
      ResultAt(a, x, e.result.value.id);
      assert ops[..3] == ops;
      var g := ResultAckedBy(e, e.result.value.id).value;
      UniqueAt(a, x.entry, ops[..n], f,
               if n == 1 then Some(g) else if n == 2 then Some(EventsCleared(g).value) else None);
      hide PerformsAt, ResultOps, Noted;
    } else {
      DeletedAt(a, e);
      assert DeletedOps(a, e)[..2] == DeletedOps(a, e);
      UniqueAt(a, x.entry, DeletedOps(a, e)[..n], f, if n == 1 then Some(EventsCleared(e).value) else None);
      hide PerformsAt, DeletedOps, Noted;
    }
  }

  lemma RemovalCuts(sh: Shared, a: AttemptId, x: Slot, step: Step, n: nat, f: Option<Entry>)
    requires Inv(sh, x) && Enabled(sh, x, step) && Belongs(a, x) && (step.Clear? || step.ResultAck?)
    requires n > 0 && StopsAt(sh, a, x, step, n, f)
    ensures LeavesRecord(sh, x, step, f)
  {
    assert step.ResultAck? ==> ResultLive(x, x.tasks[step.id].result);
    hide Inv;
    DeletionCuts(sh, a, x, n, f);
    hide LeavesRecord, PerformsAt, DeletionCut, ResultOps, DeletedOps, Noted, PendingSeqs;
    var w := if step.Clear? then x else x.(past := x.past.(resultAcked := true));
    Leaves(sh, x, step, Commit(sh, w, f));
  }

  lemma FinaliseCuts(sh: Shared, a: AttemptId, x: Slot, step: Step, n: nat, f: Option<Entry>)
    requires Enabled(sh, x, step) && Belongs(a, x) && step.Finalise?
    requires n > 0 && StopsAt(sh, a, x, step, n, f)
    ensures LeavesRecord(sh, x, step, f)
  {
    var e := RevokedEntry(x.entry.value);
    var g := Discarded(e).value;
    var ops, first := FinaliseOps(a, x), RevokeOps(x);
    FinaliseAt(a, x);
    assert ops[..|first| + 2] == ops;
    UniqueAt(a, x.entry, ops[..n], f, if n == |first| then Some(e) else if n == |first| + 1 then Some(g) else None);
    hide LeavesRecord, PerformsAt, FinaliseOps, RevokeOps, RevokedEntry, Noted;
    Leaves(sh, x, step, Commit(sh, x, f));
  }

  lemma AckCuts(sh: Shared, a: AttemptId, x: Slot, step: Step, n: nat, f: Option<Entry>)
    requires Enabled(sh, x, step) && Belongs(a, x) && (step.EventAck? || step.ReplayAck?)
    requires n > 0 && StopsAt(sh, a, x, step, n, f)
    ensures LeavesRecord(sh, x, step, f)
  {
    var e := x.tasks[step.id].event;
    var ops := AckOps(a, x, e);
    assert ops[..n] == ops;
    OneAt(a, x.entry, ops[0], AckOnly(sh, x, e).entry);
    UniqueAt(a, x.entry, ops, f, AckOnly(sh, x, e).entry);
    hide LeavesRecord, PerformsAt, EventAcked, Noted, PendingSeqs;
    Leaves(sh, x, step, AckOnly(sh, x, e));
  }

  lemma HandlerCuts(sh: Shared, a: AttemptId, x: Slot, step: Step, n: nat, f: Option<Entry>)
    requires Inv(sh, x) && Enabled(sh, x, step) && Belongs(a, x) && (step.Emit? || step.StoreResult?)
    requires n > 0 && StopsAt(sh, a, x, step, n, f)
    ensures LeavesRecord(sh, x, step, f)
  {
    var ops := StepOps(sh, a, x, step);
    assert |ops| == 1 && ops[..n] == ops;
    HandlerPerforms(sh, a, x, step);
    hide Inv;
    UniqueAt(a, x.entry, ops, f, Apply(sh, x, step).entry);
    hide LeavesRecord, PerformsAt, Appended, ResultStoredFile, Noted;
    Leaves(sh, x, step, if step.Emit? then Apply(sh, x, step) else JournalOnly(x, Apply(sh, x, step)));
  }

  lemma NothingCuts(sh: Shared, a: AttemptId, x: Slot, step: Step, n: nat, f: Option<Entry>)
    requires Enabled(sh, x, step) && (n == 0 || KeepsTheRecord(step)) && StopsAt(sh, a, x, step, n, f)
    ensures LeavesRecord(sh, x, step, f)
  {
    assert n == 0;
    hide CutShort, StepOps;
  }

  /** Wherever the operations stop, the step can be cut short with that record. */
  lemma StepCuts(sh: Shared, a: AttemptId, x: Slot, step: Step, n: nat, f: Option<Entry>)
    requires Inv(sh, x) && Enabled(sh, x, step) && Belongs(a, x) && (step.Offer? ==> step.identity.attempt == a)
    requires StopsAt(sh, a, x, step, n, f)
    ensures LeavesRecord(sh, x, step, f)
  {
    hide Inv, LeavesRecord, StopsAt, Belongs;
    if n == 0 {
      NothingCuts(sh, a, x, step, n, f);
      return;
    }
    match step
    case Offer(_, _, _) => OfferCuts(sh, a, x, step, n, f);
    case Confirm => ConfirmCuts(sh, a, x, step, n, f);
    case RejectAccepted => RejectCuts(sh, a, x, n, f);
    case Continue(_, _) => ContinueCuts(sh, a, x, step, n, f);
    case Clear(_) => RemovalCuts(sh, a, x, step, n, f);
    case ResultAck(_) => RemovalCuts(sh, a, x, step, n, f);
    case Finalise(_) => FinaliseCuts(sh, a, x, step, n, f);
    case EventAck(_) => AckCuts(sh, a, x, step, n, f);
    case ReplayAck(_) => AckCuts(sh, a, x, step, n, f);
    case Emit(_, _, _) => HandlerCuts(sh, a, x, step, n, f);
    case StoreResult(_, _) => HandlerCuts(sh, a, x, step, n, f);
    case _ => NothingCuts(sh, a, x, step, n, f);
  }
}
