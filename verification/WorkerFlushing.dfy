/** Flushing, replaying and acknowledging keep the invariant. */
module WorkerFlushing {
  import opened Prelude
  import opened Acks
  import opened Journal
  import opened Ranges
  import opened Worker
  import opened WorkerInvariant
  import opened WorkerTasks
  import opened WorkerSteps

  /** What a flush reads from the journal was noted when it was stored. */
  lemma PendingEver(e: Entry, p: Past)
    requires EntryFits(e, p)
    ensures AreEver(p, Pending(e))
  {
    hide Meaning;
    forall i | 0 <= i < |Pending(e)| ensures IsEver(p, Pending(e)[i]) {
      var n := Sorted(PendingSeqs(e))[i];
      assert n in PendingSeqs(e) && EventFits(e, n);
    }
  }

  /** So are the Events replayed at the request of Core. */
  lemma SelectedEver(e: Entry, p: Past, order: seq<nat>, events: seq<Event>)
    requires EntryFits(e, p) && Selects(e.events, order, events)
    ensures AreEver(p, events)
  {
  }

  lemma ResultPhaseKeeps(sh: Shared, x: Slot, id: TaskId, allowed: bool)
    requires Inv(sh, x) && !sh.poisoned && (x.lock == None || x.lock == Some(id))
    ensures Inv(sh, ResultPhase(x, id, allowed))
  {
    ReleaseKeeps(sh, x, id);
    if ResultPhase(x, id, allowed) != Release(x, id) {
      var r := x.entry.value.result.value;
      SendResultKeeps(sh, x, r);
      ResultIsLive(x, r, sh.epoch);
      LockedKeeps(sh, SendResult(x, r), id, SendingResult(r, false));
    }
  }

  lemma ResultIsLive(x: Slot, r: Result, epoch: nat)
    requires Always(x, epoch) && TerminalLive(x)
    requires x.entry.Some? && x.entry.value.result == Some(r) && PendingSeqs(x.entry.value) == {}
    ensures ResultLive(x, r) && x.past.result == Some(r)
  {
  }

  lemma SendNextKeeps(sh: Shared, x: Slot, id: TaskId, events: seq<Event>, allowed: bool)
    requires Inv(sh, x) && !sh.poisoned && x.entry.Some? && (x.lock == None || x.lock == Some(id))
    requires AreEver(x.past, events)
    ensures Inv(sh, SendNext(x, id, events, allowed))
  {
    if events == [] {
      ResultPhaseKeeps(sh, x, id, allowed);
    } else {
      hide Always, Live;
      assert IsEver(x.past, events[0]);
      SendEventKeeps(sh, x, events[0]);
      assert TaskFits(SendEvent(x, events[0]).(lock := Some(id)), sh.epoch, id,
                      SendingEvent(events[0], events[1..], allowed));
      LockedKeeps(sh, SendEvent(x, events[0]), id, SendingEvent(events[0], events[1..], allowed));
    }
  }

  lemma FlushStepKeeps(sh: Shared, x: Slot, id: TaskId)
    requires Inv(sh, x) && Enabled(sh, x, FlushLock(id))
    ensures Inv(sh, FlushStep(x, id))
  {
    ReleaseKeeps(sh, x, id);
    if x.permit != None && x.entry != None {
      PendingEver(x.entry.value, x.past);
      hide Inv;
      SendNextKeeps(sh, x, id, if x.permit.value.events then Pending(x.entry.value) else [], x.permit.value.result);
    }
  }

  /** Acknowledging an Event keeps the invariant, and leaves fewer Events pending. */
  lemma AckKeeps(sh: Shared, x: Slot, e: Event)
    requires Inv(sh, x) && !sh.poisoned && AckedEntry(x, e).Ok?
    ensures Inv(sh, AckOnly(sh, x, e)) && AckOnly(sh, x, e).past == NoteAck(x, e).past
    ensures AckOnly(sh, x, e) == Commit(sh, NoteAck(x, e), Some(AckedEntry(NoteAck(x, e), e).value))
  {
    hide Always, Live;
    AckAlways(sh, x, e);
    AckLive(sh, x, e);
  }

  lemma AckAlways(sh: Shared, x: Slot, e: Event)
    requires Inv(sh, x) && AckedEntry(x, e).Ok?
    ensures Always(AckOnly(sh, x, e), sh.epoch) && AckOnly(sh, x, e).past == NoteAck(x, e).past
  {
    hide Sound, Meaning, PendingSeqs, EventAcked, PastFits, Live;
    EventAckFits(x.entry.value, x.past, e.id, e.seq_, sh.epoch);
    NoteAckKeeps(sh, x, e);
  }

  lemma AckLive(sh: Shared, x: Slot, e: Event)
    requires Always(x, sh.epoch) && Live(x, sh.epoch) && AckedEntry(x, e).Ok?
    ensures Live(AckOnly(sh, x, e), sh.epoch)
  {
    hide Meaning, PendingSeqs, PastFits, HandlerFits, TasksFit, Sound;
    FewerPending(x.entry.value, e.id, e.seq_);
    EventAckFits(x.entry.value, x.past, e.id, e.seq_, sh.epoch);
  }

  lemma FewerPending(e: Entry, id: EventId, n: nat)
    requires Sound(e) && EventAcked(e, id, n).Ok?
    ensures PendingSeqs(EventAcked(e, id, n).value) <= PendingSeqs(e)
  {
  }

  lemma EventAckStepKeeps(sh: Shared, x: Slot, id: TaskId)
    requires Inv(sh, x) && Enabled(sh, x, EventAck(id))
    ensures Inv(sh, Apply(sh, x, EventAck(id)))
    ensures Always(AckOnly(sh, x, x.tasks[id].event), sh.epoch)
  {
    var e := x.tasks[id].event;
    assert TaskFits(x, sh.epoch, id, x.tasks[id]);
    NoteAckKeeps(sh, x, e);
    hide PastFits, EntryFits, TasksFit, HandlerFits, Live;
    if AckedEntry(x, e).Err? {
      ReleaseKeeps(sh, NoteAck(x, e), id);
    } else {
      AckKeeps(sh, x, e);
      SendNextKeeps(sh, AckOnly(sh, x, e), id, x.tasks[id].rest, x.tasks[id].resultAllowed);
    }
  }

  lemma ReplayNextKeeps(sh: Shared, x: Slot, id: TaskId, events: seq<Event>, r: Result)
    requires Inv(sh, x) && !sh.poisoned && x.lock == Some(id)
    requires AreEver(x.past, events) && ResultLive(x, r) && x.past.result == Some(r)
    ensures Inv(sh, ReplayNext(x, id, events, r))
  {
    hide Always, Live, PendingSeqs;
    if events == [] {
      SendResultKeeps(sh, x, r);
      LockedKeeps(sh, SendResult(x, r), id, SendingResult(r, true));
    } else {
      assert IsEver(x.past, events[0]);
      SendEventKeeps(sh, x, events[0]);
      assert TaskFits(SendEvent(x, events[0]), sh.epoch, id, Replaying(events[0], events[1..], r));
      LockedKeeps(sh, SendEvent(x, events[0]), id, Replaying(events[0], events[1..], r));
    }
  }

  lemma MissingKeeps(sh: Shared, x: Slot, id: TaskId, ranges: seq<Range>, events: seq<Event>)
    requires Inv(sh, x) && Enabled(sh, x, Missing(id, ranges, events))
    ensures Inv(sh, Apply(sh, x, Missing(id, ranges, events)))
  {
    assert TaskFits(x, sh.epoch, id, x.tasks[id]);
    SelectedEver(x.entry.value, x.past, Expanded(ranges), events);
    hide Always;
    ReplayNextKeeps(sh, x, id, events, x.tasks[id].result);
  }

  lemma ReplayAckKeeps(sh: Shared, x: Slot, id: TaskId)
    requires Inv(sh, x) && Enabled(sh, x, ReplayAck(id))
    ensures Inv(sh, Apply(sh, x, ReplayAck(id)))
    ensures Always(AckOnly(sh, x, x.tasks[id].event), sh.epoch)
  {
    var e := x.tasks[id].event;
    assert TaskFits(x, sh.epoch, id, x.tasks[id]);
    NoteAckKeeps(sh, x, e);
    hide PastFits, EntryFits, TasksFit, HandlerFits;
    if AckedEntry(x, e).Err? {
      ReleaseKeeps(sh, NoteAck(x, e), id);
    } else {
      AckKeeps(sh, x, e);
      var y := AckOnly(sh, x, e);
      assert y.tasks[id].Replaying? && ResultLive(y, y.tasks[id].result);
      ReplayNextKeeps(sh, y, id, x.tasks[id].rest, x.tasks[id].result);
    }
  }
}
