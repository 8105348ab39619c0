/** From the first step of a revocation on, the handler is over or cancelled, and no Result is stored. */
module WorkerRevoking {
  import opened Prelude
  import opened Journal
  import opened Worker
  import opened WorkerInvariant
  import opened WorkerHistory
  import opened WorkerRuns

  /** The handler, if there is one, is over or was told to stop. */
  predicate Quelled(x: Slot) {
    !HandlerOver(x) ==> x.handler.value.cancelled
  }

  /** The first step of every kind of revocation, and of a cancellation. */
  predicate Revokes(step: Step) {
    step.ClaimRevoked? || step.TicketRevoked? || step.AbortTerminal? || step.RevokeSpawn? || step.CancelStart?
  }

  /** Nothing that the handler still does can count: its attempt is terminal, or it was cancelled. */
  predicate Dismissed(x: Slot) {
    x.terminal || (x.handler.Some? && x.handler.value.cancelled)
  }

  lemma DismissedIsQuelled(sh: Shared, x: Slot)
    requires Inv(sh, x) && Dismissed(x)
    ensures Quelled(x)
  {
    hide PastFits, EntryFits, HandlerFits, TasksFit, Live;
  }

  /** What the first step does: an unfinished handler is cancelled there and then. */
  lemma RevokingCancels(sh: Shared, x: Slot, step: Step)
    requires Inv(sh, x) && Enabled(sh, x, step) && (Revokes(step) || (step.TicketAcked? && x.active && x.handler.Some?))
    ensures var y := Apply(sh, x, step);
            && Dismissed(y) && (!HandlerOver(x) ==> y.handler == Some(x.handler.value.(cancelled := true)))
            && (Revokes(step) ==> y.terminal)
  {
    assert SpawnFits(x);
    hide Inv;
  }

  // ---------------------------------------------------------------- it stays so

  /** What the record has of a Result is noted. */
  predicate NotedResult(x: Slot) {
    x.entry.Some? && x.entry.value.result.Some? ==> x.past.result == x.entry.value.result
  }

  /**
   * The handler is the same task, further on: a cancelled one stays cancelled, as a terminal
   * attempt stays terminal. No Result became durable, and no handler was called.
   */
  predicate GoesOn(x: Slot, y: Slot) {
    && (x.handler.Some? ==> y.handler.Some? && (x.handler.value.cancelled ==> y.handler.value.cancelled))
    && (x.terminal ==> y.terminal) && y.past.result == x.past.result && NotedResult(y)
    && y.past.begins == x.past.begins
  }

  predicate FromRecord(after: Option<Entry>, x: Slot) {
    after.Some? && after.value.result.Some? ==> x.entry.Some? && after.value.result == x.entry.value.result
  }

  lemma CommitGoesOn(sh: Shared, x: Slot, after: Option<Entry>)
    requires NotedResult(x) && FromRecord(after, x)
    ensures GoesOn(x, Commit(sh, x, after))
  {
  }

  lemma QuietGoesOn(sh: Shared, x: Slot, step: Step)
    requires Enabled(sh, x, step) && Quiet(step) && NotedResult(x)
    ensures GoesOn(x, Apply(sh, x, step))
  {
  }

  lemma SendGoesOn(x: Slot, id: TaskId, events: seq<Event>, allowed: bool)
    requires NotedResult(x)
    ensures GoesOn(x, SendNext(x, id, events, allowed))
  {
    hide PendingSeqs;
  }

  lemma ReplayGoesOn(x: Slot, id: TaskId, events: seq<Event>, r: Result)
    requires NotedResult(x)
    ensures GoesOn(x, ReplayNext(x, id, events, r))
  {
  }

  lemma AckGoesOn(sh: Shared, x: Slot, e: Event)
    requires NotedResult(x)
    ensures GoesOn(x, NoteAck(x, e))
    ensures AckedEntry(x, e).Ok? ==> GoesOn(x, Commit(sh, NoteAck(x, e), Some(AckedEntry(NoteAck(x, e), e).value)))
  {
    if AckedEntry(x, e).Ok? {
      CommitGoesOn(sh, NoteAck(x, e), Some(AckedEntry(NoteAck(x, e), e).value));
    }
    hide Noted;
  }

  lemma DeletedGoesOn(sh: Shared, x: Slot, e: Entry)
    requires NotedResult(x) && FromRecord(Some(e), x)
    ensures GoesOn(x, Deleted(sh, x, e))
  {
    var y := Commit(sh, x, Some(e));
    CommitGoesOn(sh, x, Some(e));
    if EventsCleared(e).Ok? {
      var cleared := EventsCleared(e).value;
      CommitGoesOn(sh, y, Some(cleared));
      CommitGoesOn(sh, Commit(sh, y, Some(cleared)), None);
    }
    hide Noted;
  }

  lemma FlushGoesOn(sh: Shared, x: Slot, step: Step)
    requires Enabled(sh, x, step) && Flushes(step) && NotedResult(x)
    ensures GoesOn(x, Apply(sh, x, step))
  {
    hide Pending, PendingSeqs, SendNext, ReplayNext, Deleted;
    match step
    case FlushLock(id) =>
      if x.permit.Some? && x.entry.Some? {
        var p := x.permit.value;
        SendGoesOn(x, id, if p.events then Pending(x.entry.value) else [], p.result);
      }
    case Missing(id, _, events) => ReplayGoesOn(x, id, events, x.tasks[id].result);
    case EventAck(id) =>
      var t := x.tasks[id];
      AckGoesOn(sh, x, t.event);
      if AckedEntry(x, t.event).Ok? {
        SendGoesOn(Commit(sh, NoteAck(x, t.event), Some(AckedEntry(x, t.event).value)), id, t.rest, t.resultAllowed);
      }
      hide AckedEntry, Commit, NoteAck;
    case ReplayAck(id) =>
      var t := x.tasks[id];
      AckGoesOn(sh, x, t.event);
      if AckedEntry(x, t.event).Ok? {
        ReplayGoesOn(Commit(sh, NoteAck(x, t.event), Some(AckedEntry(x, t.event).value)), id, t.rest, t.result);
      }
      hide AckedEntry, Commit, NoteAck;
    case ResultAck(id) =>
      var y := Release(x.(past := x.past.(resultAcked := true)), id);
      if y.entry.Some? && ResultAckedBy(y.entry.value, x.tasks[id].result.id).Ok? {
        DeletedGoesOn(sh, y, ResultAckedBy(y.entry.value, x.tasks[id].result.id).value);
      }
  }

  // ---------------------------------------------------------------- claims and decisions

  /** A start of an attempt that has no handler yet. */
  lemma StartGoesOn(sh: Shared, x: Slot)
    requires NotedResult(x)
    ensures var y := Start(sh, x);
            (x.handler.Some? ==> y.past.spawns == x.past.spawns) ==> GoesOn(x, y)
    ensures Start(sh, x) != x ==> Start(sh, x).past.spawns == x.past.spawns + 1
  {
    if x.entry.Some? && Advanced(x.entry.value, Started).Ok? {
      CommitGoesOn(sh, x, Some(Advanced(x.entry.value, Started).value));
    }
  }

  lemma OfferGoesOn(sh: Shared, x: Slot, identity: Identity, input: Fields, roomy: bool)
    requires NotedResult(x)
    ensures var y := OfferStep(sh, x, identity, input, roomy);
            (x.handler.Some? ==> y.past.spawns == x.past.spawns) ==> GoesOn(x, y)
    ensures !x.terminal && CreatedEntry(x, identity, input).Ok? ==>
              GoesOn(x, CreatedSlot(sh, x, identity, CreatedEntry(x, identity, input).value))
  {
    if !x.terminal && CreatedEntry(x, identity, input).Ok? {
      var e := CreatedEntry(x, identity, input).value;
      var y := CreatedSlot(sh, x, identity, e);
      CommitGoesOn(sh, x, Some(e));
      assert GoesOn(x, y) && y.past.spawns == x.past.spawns;
      if e.rec.state == Received {
        var f := Advanced(e, if roomy then AckSent else RejectSent).value;
        CommitGoesOn(sh, y, Some(f));
        assert Noted(y.past, y.entry, Some(f), sh.epoch).spawns == y.past.spawns;
      } else if e.rec.state == Confirmed {
        StartGoesOn(sh, Permitted(y));
      }
      hide Noted, CreatedEntry, CreatedSlot, Start;
    }
  }

  lemma ConfirmedGoesOn(sh: Shared, x: Slot, y: Slot)
    requires NotedResult(x) && y.entry == x.entry && GoesOn(x, y) && GoesOn(y, x)
    requires AdvancedEntry(y, Confirmed).Ok?
    ensures var e := AdvancedEntry(y, Confirmed).value;
            var z := Start(sh, Vouched(Commit(sh, y, Some(e))));
            && GoesOn(x, Commit(sh, y, Some(e)))
            && ((y.handler.Some? ==> z.past.spawns == y.past.spawns) ==> GoesOn(x, z))
  {
    var e := AdvancedEntry(y, Confirmed).value;
    CommitGoesOn(sh, y, Some(e));
    assert Commit(sh, y, Some(e)).past.spawns == y.past.spawns;
    hide Noted;
    StartGoesOn(sh, Vouched(Commit(sh, y, Some(e))));
    hide Start;
  }

  lemma ClaimGoesOn(sh: Shared, x: Slot, step: Step)
    requires Enabled(sh, x, step) && Claims(step) && NotedResult(x)
    requires x.handler.Some? ==> Apply(sh, x, step).past.spawns == x.past.spawns
    ensures GoesOn(x, Apply(sh, x, step))
  {
    hide Noted, OfferStep, Start, Advanced;
    match step
    case Offer(identity, input, roomy) => OfferGoesOn(sh, x, identity, input, roomy);
    case Confirm =>
      var y := x.(claim := NoClaim);
      if AdvancedEntry(y, Confirmed).Ok? { ConfirmedGoesOn(sh, x, y); }
    case RejectAccepted => RejectGoesOn(sh, x, x.(claim := NoClaim));
    case Continue(id, _) =>
      var y := Release(x, id);
      if AdvancedEntry(y, Confirmed).Ok? { ConfirmedGoesOn(sh, x, y); }
      StartGoesOn(sh, Vouched(y));
  }

  lemma RejectGoesOn(sh: Shared, x: Slot, y: Slot)
    requires NotedResult(x) && y.entry == x.entry && GoesOn(x, y)
    ensures AdvancedEntry(y, Rejected).Ok? ==>
              var e := AdvancedEntry(y, Rejected).value;
              && GoesOn(x, Commit(sh, y, Some(e)))
              && GoesOn(x, Commit(sh, Commit(sh, y, Some(e)), if Deletable(e) then None else Some(e)))
  {
    if AdvancedEntry(y, Rejected).Ok? {
      var e := AdvancedEntry(y, Rejected).value;
      CommitGoesOn(sh, y, Some(e));
      CommitGoesOn(sh, Commit(sh, y, Some(e)), if Deletable(e) then None else Some(e));
      hide Noted;
    }
  }

  // ---------------------------------------------------------------- the other steps

  lemma RestGoesOn(sh: Shared, x: Slot, step: Step)
    requires Enabled(sh, x, step) && NotedResult(x) && !Quiet(step) && !Flushes(step) && !Claims(step)
    requires !step.Begin? && (step.StoreResult? ==> x.handler.value.cancelled)
    ensures GoesOn(x, Apply(sh, x, step))
  {
    match step
    case Clear(id) =>
      var y := Release(x, id);
      if x.entry.Some? {
        var e := x.entry.value;
        DeletedGoesOn(sh, y, if e.result.Some? then ResultAckedBy(e, e.result.value.id).value else e);
      }
      hide Deleted;
    case Finalise(id) => FinaliseGoesOn(sh, x, id);
    case Emit(freshId, kind, payload) =>
      if x.entry.Some? && Appended(x.entry.value, freshId, kind, payload).Ok? {
        CommitGoesOn(sh, x, Some(Appended(x.entry.value, freshId, kind, payload).value));
      }
      hide Noted;
    case _ => hide Noted, ResultStoredFile;
  }

  lemma FinaliseGoesOn(sh: Shared, x: Slot, id: TaskId)
    requires NotedResult(x)
    ensures GoesOn(x, FinaliseStep(sh, x, id))
  {
  }

  /** After the first step of a revocation no step stores a Result, and the handler stays cancelled. */
  lemma StepGoesOn(sh: Shared, x: Slot, step: Step)
    requires Inv(sh, x) && Enabled(sh, x, step) && Dismissed(x)
    ensures GoesOn(x, Apply(sh, x, step)) && Dismissed(Apply(sh, x, step))
  {
    DismissedIsQuelled(sh, x);
    StepKeeps(sh, x, step);
    SpawnedOnce(sh, x, Apply(sh, x, step));
    StepOnward(sh, x, step);
    hide Inv;
    if Quiet(step) {
      QuietGoesOn(sh, x, step);
    } else if Flushes(step) {
      FlushGoesOn(sh, x, step);
    } else if Claims(step) {
      ClaimGoesOn(sh, x, step);
    } else {
      RestGoesOn(sh, x, step);
    }
    hide GoesOn, Enabled, Apply;
    assert GoesOn(x, Apply(sh, x, step));
  }

  lemma SpawnedOnce(sh: Shared, x: Slot, y: Slot)
    requires Inv(sh, x) && Inv(sh, y)
    ensures NotedResult(x) && (x.handler.Some? ==> x.past.spawns == 1) && y.past.spawns <= 1
  {
    hide Sound, TasksFit, Live;
  }

  // ---------------------------------------------------------------- faults and runs

  lemma JournalGoesOn(x: Slot, y: Slot)
    requires GoesOn(x, y)
    ensures GoesOn(x, JournalOnly(x, y))
  {
  }

  lemma DeletionCutGoesOn(sh: Shared, x: Slot, y: Slot)
    requires x.entry.Some? && NotedResult(x) && DeletionCut(sh, x, y)
    ensures GoesOn(x, y)
  {
    var e := x.entry.value;
    CommitGoesOn(sh, x, None);
    if e.result.Some? {
      var f := ResultAckedBy(e, e.result.value.id).value;
      CommitGoesOn(sh, x, Some(f));
      CommitGoesOn(sh, x, Some(EventsCleared(f).value));
    } else if EventsCleared(e).Ok? {
      CommitGoesOn(sh, x, Some(EventsCleared(e).value));
    }
    hide Commit;
  }

  lemma RevokeCutGoesOn(sh: Shared, x: Slot)
    requires x.entry.Some? && NotedResult(x)
    ensures var e := RevokedEntry(x.entry.value);
            GoesOn(x, Commit(sh, x, Some(e))) && GoesOn(x, Commit(sh, x, Some(Discarded(e).value)))
            && GoesOn(x, Commit(sh, x, None))
  {
    var e := RevokedEntry(x.entry.value);
    CommitGoesOn(sh, x, Some(e));
    CommitGoesOn(sh, x, Some(Discarded(e).value));
    CommitGoesOn(sh, x, None);
    hide Commit;
  }

  lemma ClaimCutGoesOn(sh: Shared, x: Slot, step: Step, y: Slot)
    requires Enabled(sh, x, step) && CutShort(sh, x, step, y) && Claims(step) && NotedResult(x)
    requires GoesOn(x, Apply(sh, x, step))
    ensures GoesOn(x, y)
  {
    hide Noted, OfferStep, Start, Advanced, Commit, GoesOn;
    JournalGoesOn(x, Apply(sh, x, step));
    SameGoesOn(x);
    match step
    case Offer(identity, input, roomy) =>
      OfferGoesOn(sh, x, identity, input, roomy);
    case RejectAccepted => RejectGoesOn(sh, x, x);
    case _ => ConfirmedOnlyGoesOn(sh, x);
  }

  lemma SameGoesOn(x: Slot)
    requires NotedResult(x)
    ensures GoesOn(x, x)
  {
  }

  lemma ConfirmedOnlyGoesOn(sh: Shared, x: Slot)
    requires NotedResult(x)
    ensures GoesOn(x, ConfirmedOnly(sh, x))
  {
    if AdvancedEntry(x, Confirmed).Ok? {
      CommitGoesOn(sh, x, Some(AdvancedEntry(x, Confirmed).value));
      hide Noted;
    }
  }

  lemma CutShortGoesOn(sh: Shared, x: Slot, step: Step, y: Slot)
    requires Inv(sh, x) && Enabled(sh, x, step) && Dismissed(x) && CutShort(sh, x, step, y)
    ensures GoesOn(x, y) && Dismissed(y)
  {
    StepGoesOn(sh, x, step);
    SpawnedOnce(sh, x, x);
    DismissedIsQuelled(sh, x);
    hide Inv;
    if Claims(step) {
      ClaimCutGoesOn(sh, x, step, y);
    } else if step.Clear? || step.ResultAck? {
      DeletionCutGoesOn(sh, if step.Clear? then x else x.(past := x.past.(resultAcked := true)), y);
    } else if step.Finalise? {
      RevokeCutGoesOn(sh, x);
    } else {
      JournalGoesOn(x, Apply(sh, x, step));
      if step.EventAck? || step.ReplayAck? { AckGoesOn(sh, x, x.tasks[step.id].event); }
      hide Noted, Appended, ResultStoredFile;
    }
  }

  /** Nothing of the handler's doing is added to the history between the two. */
  predicate NothingMore(p: Past, q: Past) {
    q.result == p.result && q.begins == p.begins
  }

  /** Over every run of the process, with faults: the handler stays cancelled or ends, and stores nothing. */
  lemma {:induction false} DismissedForGood(w: World, moves: seq<Move>, a: AttemptId)
    requires WorldInv(w) && Run(w, moves) && !HasRestart(moves) && Dismissed(SlotOf(w, a))
    ensures var x, y := SlotOf(w, a), SlotOf(After(w, moves), a);
            Dismissed(y) && Quelled(y) && (x.terminal ==> y.terminal) && NothingMore(x.past, y.past)
    decreases |moves|
  {
    var x := SlotOf(w, a);
    assert Inv(w.sh, x);
    if moves == [] {
      DismissedIsQuelled(w.sh, x);
    } else {
      NextKeeps(w, moves[0]);
      MoveGoesOn(w, moves[0], a);
      hide WorldInv, Inv, Next, Allowed, Dismissed, Quelled;
      DismissedForGood(Next(w, moves[0]), moves[1..], a);
    }
  }

  lemma MoveGoesOn(w: World, m: Move, a: AttemptId)
    requires WorldInv(w) && Allowed(w, m) && m != Restart && Dismissed(SlotOf(w, a))
    ensures var x, y := SlotOf(w, a), SlotOf(Next(w, m), a);
            Dismissed(y) && (x.terminal ==> y.terminal) && NothingMore(x.past, y.past)
  {
    var x := SlotOf(w, a);
    assert Inv(w.sh, x);
    hide Inv, Apply, Enabled, CutShort, Dismissed;
    match m
    case Act(b, step) => if b == a { StepGoesOn(w.sh, x, step); }
    case Fault(b, step, left) => if b == a && left != x { CutShortGoesOn(w.sh, x, step, left); }
    case _ =>
  }

  /**
   * A revocation or cancellation, or the news that Core has the Result, takes hold with its first
   * step: from there on, over every run of the process, the handler is over or cancelled, it is
   * not called if it was not yet, and no Result of the attempt becomes durable.
   */
  lemma RevocationTakesHold(epoch: nat, moves: seq<Move>, a: AttemptId, step: Step, more: seq<Move>)
    requires Run(Fresh(epoch), moves)
    requires var w := After(Fresh(epoch), moves);
             var x := SlotOf(w, a);
             && Allowed(w, Act(a, step)) && (Revokes(step) || (step.TicketAcked? && x.active && x.handler.Some?))
             && Run(Next(w, Act(a, step)), more) && !HasRestart(more)
    ensures var w := After(Fresh(epoch), moves);
            var v := Next(w, Act(a, step));
            var x, y, z := SlotOf(w, a), SlotOf(v, a), SlotOf(After(v, more), a);
            && (!HandlerOver(x) ==> y.handler == Some(x.handler.value.(cancelled := true)))
            && Quelled(y) && Quelled(z) && (Revokes(step) ==> y.terminal && z.terminal)
            && NothingMore(x.past, z.past)
  {
    var w := After(Fresh(epoch), moves);
    var v := Next(w, Act(a, step));
    var x := SlotOf(w, a);
    Reached(epoch, moves, a);
    RevokingCancels(w.sh, x, step);
    RevokingAdds(w.sh, x, step);
    NextKeeps(w, Act(a, step));
    assert SlotOf(v, a) == Apply(w.sh, x, step);
    hide Run, After, WorldInv, Apply, Enabled, Inv, Dismissed;
    DismissedForGood(v, more, a);
    QuelledNow(v, a);
  }

  lemma QuelledNow(w: World, a: AttemptId)
    requires WorldInv(w) && Dismissed(SlotOf(w, a))
    ensures Quelled(SlotOf(w, a))
  {
    assert Inv(w.sh, SlotOf(w, a));
    DismissedIsQuelled(w.sh, SlotOf(w, a));
  }

  lemma RevokingAdds(sh: Shared, x: Slot, step: Step)
    requires Enabled(sh, x, step) && (Revokes(step) || step.TicketAcked?)
    ensures NothingMore(x.past, Apply(sh, x, step).past)
  {
  }
}
