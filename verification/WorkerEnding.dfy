/** Acknowledged, revoked and cancelled attempts leave the journal and keep the invariant. */
module WorkerEnding {
  import opened Prelude
  import opened Acks
  import opened Journal
  import opened Worker
  import opened WorkerInvariant
  import opened WorkerTasks
  import opened WorkerSteps

  /** A change of a record that tells the history nothing new keeps what holds in every state. */
  lemma SettleKeeps(sh: Shared, x: Slot, f: Entry)
    requires Always(x, sh.epoch) && x.entry.Some?
    requires EntryFits(f, x.past) && Noted(x.past, x.entry, Some(f), sh.epoch) == x.past
    ensures Always(Commit(sh, x, Some(f)), sh.epoch)
  {
  }

  /** So does its deletion, once the Result is acknowledged. */
  lemma DropKeeps(sh: Shared, x: Slot)
    requires Always(x, sh.epoch) && x.entry.Some? && x.past.resultAcked
    ensures Always(Commit(sh, x, None), sh.epoch)
  {
  }

  /** Clearing and deleting a record whose Result is gone. */
  lemma ClearedKeeps(sh: Shared, x: Slot, e: Entry)
    requires Always(x, sh.epoch) && x.entry == Some(e) && e.result == None
    requires EventsCleared(e).Ok? && NoResultSent(x) && x.past.resultAcked && HandlerOver(x)
    ensures Inv(sh, Deleted(sh, x, e))
  {
    TerminalFits(e, x.past, sh.epoch);
    SameEntryNoted(sh, x);
    hide EntryFits, PastFits, TasksFit;
    var f := EventsCleared(e).value;
    SettleKeeps(sh, x, f);
    GoneKeeps(sh, Commit(sh, x, Some(f)), None);
  }

  /** The Result of this record was acknowledged. */
  lemma DeletionKeeps(sh: Shared, x: Slot)
    requires Inv(sh, x) && !sh.poisoned && x.entry.Some? && x.entry.value.result.Some?
    requires x.past.resultAcked && NoResultSent(x)
    ensures Inv(sh, Deleted(sh, x, ResultAckedBy(x.entry.value, x.entry.value.result.value.id).value))
  {
    var e := x.entry.value;
    var f := ResultAckedBy(e, e.result.value.id).value;
    ResultAckFits(e, x.past, e.result.value.id, sh.epoch);
    FinishedIsIdle(sh, x);
    SettleKeeps(sh, x, f);
    hide Always, EntryFits;
    ClearedKeeps(sh, Commit(sh, x, Some(f)), f);
    SameEntryNoted(sh, Commit(sh, x, Some(f)));
  }

  /** A deletion may stop after any of its store operations. */
  lemma DeletionCutKeeps(sh: Shared, x: Slot)
    requires Always(x, sh.epoch) && x.entry.Some? && x.past.resultAcked
    ensures forall y :: DeletionCut(sh, x, y) ==> Always(y, sh.epoch)
  {
    var e := x.entry.value;
    DropKeeps(sh, x);
    if e.result.Some? {
      var f := ResultAckedBy(e, e.result.value.id).value;
      ResultAckFits(e, x.past, e.result.value.id, sh.epoch);
      SettleKeeps(sh, x, f);
      TerminalFits(f, x.past, sh.epoch);
      hide Always, EntryFits;
      NothingNotedBetween(x.past, e, f, EventsCleared(f).value, sh.epoch);
      SettleKeeps(sh, x, EventsCleared(f).value);
    } else if EventsCleared(e).Ok? {
      TerminalFits(e, x.past, sh.epoch);
      SettleKeeps(sh, x, EventsCleared(e).value);
    }
  }

  lemma NothingNotedBetween(p: Past, e: Entry, f: Entry, g: Entry, epoch: nat)
    requires f.rec.state == g.rec.state == ResultAcked && g.events == map[] && f.result == None && g.result == None
    requires p.result.Some? || e.result == None
    ensures Noted(p, Some(e), Some(g), epoch) == Noted(p, Some(f), Some(g), epoch)
  {
  }

  /** A handler whose Result is stored, or whose record is terminal, is over. */
  lemma FinishedIsIdle(sh: Shared, x: Slot)
    requires Inv(sh, x) && !sh.poisoned && x.entry.Some?
    requires x.entry.value.result.Some? || Terminal(x.entry.value.rec.state)
    ensures HandlerOver(x) && x.past.offered.Some?
  {
  }

  lemma UnlockedIsIdle(x: Slot, epoch: nat)
    requires TasksFit(x, epoch) && x.lock == None
    ensures NoResultSent(x)
  {
  }

  lemma ClearStepKeeps(sh: Shared, x: Slot, id: TaskId)
    requires Inv(sh, x) && Enabled(sh, x, Clear(id))
    ensures Inv(sh, Apply(sh, x, Clear(id)))
    ensures forall y :: CutShort(sh, x, Clear(id), y) ==> Always(y, sh.epoch)
  {
    hide Live, EntryFits, PastFits, HandlerFits;
    ReleaseKeeps(sh, x, id);
    assert TaskFits(x, sh.epoch, id, x.tasks[id]);
    UnlockedIsIdle(x, sh.epoch);
    var y := Release(x, id);
    hide Always, TasksFit;
    if x.entry != None {
      var e := x.entry.value;
      DeletionCutKeeps(sh, x);
      if e.result.Some? {
        DeletionKeeps(sh, y);
      } else {
        SameEntryNoted(sh, y);
        if EventsCleared(e).Ok? {
          FinishedIsIdle(sh, x);
          ClearedKeeps(sh, y, e);
        }
      }
    }
  }

  lemma ResultAckStepKeeps(sh: Shared, x: Slot, id: TaskId)
    requires Inv(sh, x) && Enabled(sh, x, ResultAck(id))
    ensures Inv(sh, Apply(sh, x, ResultAck(id)))
    ensures forall y :: CutShort(sh, x, ResultAck(id), y) ==> Always(y, sh.epoch)
  {
    var z := x.(past := x.past.(resultAcked := true));
    NoteResultAckKeeps(sh, x);
    assert ResultLive(x, x.tasks[id].result);
    OneResultSent(sh, x, id);
    hide Live, EntryFits, PastFits, HandlerFits, TasksFit;
    ReleaseKeeps(sh, z, id);
    DeletionKeeps(sh, Release(z, id));
    DeletionCutKeeps(sh, z);
  }

  /** Only the task that holds the lock waits for the acknowledgement of a Result. */
  lemma OneResultSent(sh: Shared, x: Slot, id: TaskId)
    requires Inv(sh, x) && id in x.tasks && HoldsLock(x.tasks[id])
    ensures NoResultSent(Release(x, id)) && x.lock == Some(id)
  {
  }

  // ---------------------------------------------------------------- revoking and cancelling

  lemma FinaliseKeeps(sh: Shared, x: Slot, id: TaskId)
    requires Inv(sh, x) && Enabled(sh, x, Finalise(id))
    ensures Inv(sh, Apply(sh, x, Finalise(id)))
    ensures forall y :: CutShort(sh, x, Finalise(id), y) ==> Always(y, sh.epoch)
  {
    hide Live, PastFits, HandlerFits, HandlerLive, TasksLive, EntryFits;
    assert TaskFits(x, sh.epoch, id, x.tasks[id]);
    UnlockedIsIdle(x, sh.epoch);
    ReleaseKeeps(sh, x, id);
    if x.entry != None {
      var e := x.entry.value;
      RevokeFits(e, x.past, sh.epoch);
      TerminalFits(RevokedEntry(e), x.past, sh.epoch);
      RevokeCutKeeps(sh, x);
    }
    FinalisedKeeps(sh, Release(x, id));
  }

  lemma RevokeCutKeeps(sh: Shared, x: Slot)
    requires Always(x, sh.epoch) && x.entry.Some? && x.terminal
    ensures Always(Commit(sh, x, Some(RevokedEntry(x.entry.value))), sh.epoch)
    ensures Discarded(RevokedEntry(x.entry.value)).Ok? && Deletable(Discarded(RevokedEntry(x.entry.value)).value)
    ensures Always(Commit(sh, x, Some(Discarded(RevokedEntry(x.entry.value)).value)), sh.epoch)
    ensures Always(Commit(sh, x, None), sh.epoch)
  {
    var e := x.entry.value;
    var f := RevokedEntry(e);
    var g := Discarded(f).value;
    RevokeFits(e, x.past, sh.epoch);
    TerminalFits(f, x.past, sh.epoch);
    SettleKeeps(sh, x, f);
    DiscardNotes(x, sh.epoch);
    SettleKeeps(sh, x, g);
    hide EntryFits, PastFits, PendingSeqs, HoldsLock, Noted, Discarded;
  }

  lemma DiscardNotes(x: Slot, epoch: nat)
    requires Always(x, epoch) && x.entry.Some?
    ensures var f := RevokedEntry(x.entry.value);
            Discarded(f).Ok? && Deletable(Discarded(f).value)
            && Noted(x.past, x.entry, Some(Discarded(f).value), epoch) == x.past
  {
    hide PastFits, TasksFit, PendingSeqs;
  }

  lemma FinalisedKeeps(sh: Shared, x: Slot)
    requires Always(x, sh.epoch) && x.terminal && x.lock == None && NoResultSent(x)
    ensures Inv(sh, x.(entry := None, permit := None, active := false,
                       past := x.past.(finalised := x.past.finalised || x.past.offered.Some?)))
  {
  }

  lemma CancelStartKeeps(sh: Shared, x: Slot, id: TaskId)
    requires Inv(sh, x) && Enabled(sh, x, CancelStart(id))
    ensures Inv(sh, Apply(sh, x, CancelStart(id)))
  {
    hide EntryFits, PastFits, TasksFit, TasksLive, JournalLive;
    CancelKeeps(sh, x);
    var y := Cancelled(x).(terminal := true);
    assert TaskFits(y, sh.epoch, id, CancelLocking(x.active));
    hide Inv;
    WaitingKeeps(sh, y, id, CancelLocking(x.active));
  }

  lemma CancelLockKeeps(sh: Shared, x: Slot, id: TaskId)
    requires Inv(sh, x) && Enabled(sh, x, CancelLock(id))
    ensures Inv(sh, Apply(sh, x, CancelLock(id)))
  {
    assert TaskFits(x, sh.epoch, id, x.tasks[id]);
    hide Inv, Always;
    PermitKeeps(sh, x, None);
    WaitingKeeps(sh, x.(permit := None), id, CancelWaiting(x.tasks[id].had));
  }

  /** When "stopped" is sent, the handler is over and cannot start again. */
  lemma CancelStoppedKeeps(sh: Shared, x: Slot, id: TaskId)
    requires Inv(sh, x) && Enabled(sh, x, CancelStopped(id))
    ensures Inv(sh, Apply(sh, x, CancelStopped(id)))
    ensures x.terminal && HandlerOver(x)
  {
    assert TaskFits(x, sh.epoch, id, x.tasks[id]);
    hide EntryFits, TasksFit, PastFits, Live;
    WaitingKeeps(sh, x, id, Revoking);
    StoppedKeeps(sh, x.(tasks := x.tasks[id := Revoking]));
  }

  lemma StoppedKeeps(sh: Shared, x: Slot)
    requires Inv(sh, x) && x.terminal && HandlerOver(x)
    ensures Inv(sh, x.(past := x.past.(stopped := true)))
  {
    hide Sound, Meaning, PendingSeqs;
  }
}
