/** The parts of a step that only move tasks, locks and the handler. */
module WorkerTasks {
  import opened Prelude
  import opened Acks
  import opened Journal
  import opened Worker
  import opened WorkerInvariant

  lemma ReleaseKeeps(sh: Shared, x: Slot, id: TaskId)
    requires Inv(sh, x)
    ensures Inv(sh, Release(x, id))
  {
    hide EntryFits, PastFits, PendingSeqs;
  }

  /** A task that holds no lock takes the place of whatever the task was before. */
  lemma WaitingKeeps(sh: Shared, x: Slot, id: TaskId, t: Task)
    requires Inv(sh, x) && !HoldsLock(t) && TaskFits(x, sh.epoch, id, t)
    requires id in x.tasks ==> !HoldsLock(x.tasks[id])
    ensures Inv(sh, x.(tasks := x.tasks[id := t]))
  {
    hide EntryFits, PastFits, PendingSeqs;
  }

  /** A task goes on holding the attempt lock, or takes it while it is free. */
  lemma LockedKeeps(sh: Shared, x: Slot, id: TaskId, t: Task)
    requires Inv(sh, x) && HoldsLock(t) && (x.lock == None || x.lock == Some(id))
    requires x.entry.Some?
    requires TaskFits(x.(lock := Some(id)), sh.epoch, id, t)
    requires !sh.poisoned && (t.SendingResult? || t.Replaying?) ==> ResultLive(x, t.result)
    ensures Inv(sh, x.(lock := Some(id), tasks := x.tasks[id := t]))
  {
    hide EntryFits, PastFits, PendingSeqs;
  }

  lemma CancelKeeps(sh: Shared, x: Slot)
    requires Inv(sh, x)
    ensures Inv(sh, Cancelled(x)) && Inv(sh, Cancelled(x).(terminal := true))
  {
    hide EntryFits, PastFits, PendingSeqs;
  }

  lemma BeginRevokeKeeps(sh: Shared, x: Slot, id: TaskId)
    requires Inv(sh, x)
    requires id in x.tasks ==> !HoldsLock(x.tasks[id])
    ensures Inv(sh, BeginRevoke(x, id))
  {
    hide Inv;
    CancelKeeps(sh, x);
    var y := Cancelled(x).(terminal := true);
    assert TaskFits(y, sh.epoch, id, Revoking);
    WaitingKeeps(sh, y, id, Revoking);
  }

  lemma PermitKeeps(sh: Shared, x: Slot, permit: Option<Permit>)
    requires Inv(sh, x)
    ensures Inv(sh, x.(permit := permit))
  {
  }

  lemma SendEventKeeps(sh: Shared, x: Slot, e: Event)
    requires Inv(sh, x) && IsEver(x.past, e)
    ensures Inv(sh, SendEvent(x, e))
  {
    hide Sound, Meaning, PendingSeqs;
  }

  lemma SendResultKeeps(sh: Shared, x: Slot, r: Result)
    requires Inv(sh, x) && x.past.result == Some(r)
    ensures Inv(sh, SendResult(x, r))
  {
    hide Sound, Meaning, PendingSeqs;
  }

  lemma NoteAckKeeps(sh: Shared, x: Slot, e: Event)
    requires Inv(sh, x)
    ensures Inv(sh, NoteAck(x, e))
  {
    hide Sound, Meaning, PendingSeqs;
  }

  lemma NoteResultAckKeeps(sh: Shared, x: Slot)
    requires Inv(sh, x)
    ensures Inv(sh, x.(past := x.past.(resultAcked := true)))
  {
    hide Sound, Meaning, PendingSeqs;
  }
}
