/** The handler task, resume decisions and a restart keep the invariant. */
module WorkerHandling {
  import opened Prelude
  import opened Acks
  import opened Journal
  import opened Worker
  import opened WorkerInvariant
  import opened WorkerTasks
  import opened WorkerSteps

  // ---------------------------------------------------------------- the handler task

  lemma BeginKeeps(sh: Shared, x: Slot)
    requires Inv(sh, x) && Enabled(sh, x, Begin)
    ensures Inv(sh, Apply(sh, x, Begin))
  {
    hide Sound, Meaning, PendingSeqs;
  }

  lemma PhaseKeeps(sh: Shared, x: Slot, phase: Phase)
    requires Inv(sh, x) && x.handler.Some? && phase != Spawned
    requires x.handler.value.phase == Done ==> phase == Done
    ensures Inv(sh, WithPhase(x, phase))
  {
  }

  /** A new Event extends what was ever durable; nothing that was noted changes. */
  lemma AppendFits(e: Entry, p: Past, id: EventId, kind: string, payload: Fields, epoch: nat)
    requires EntryFits(e, p) && PastFits(p, epoch) && Appended(e, id, kind, payload).Ok?
    requires forall n :: n in e.events ==> e.events[n].id != id
    ensures var f := Appended(e, id, kind, payload).value;
            var q := Noted(p, Some(e), Some(f), epoch);
            var n := e.rec.last + 1;
            && n !in p.ever && q == p.(ever := p.ever[n := f.events[n]])
            && EntryFits(f, q) && PastFits(q, epoch) && f.rec.state == Started
  {
    hide Meaning;
    AppendedSound(e, id, kind, payload);
  }

  lemma EmitKeeps(sh: Shared, x: Slot, freshId: EventId, kind: string, payload: Fields)
    requires Inv(sh, x) && Enabled(sh, x, Emit(freshId, kind, payload))
    ensures Inv(sh, EmitStep(sh, x, freshId, kind, payload))
  {
    if x.entry.Some? && Appended(x.entry.value, freshId, kind, payload).Ok? {
      var e := x.entry.value;
      var f := Appended(e, freshId, kind, payload).value;
      RecordFits(sh, x);
      hide Inv, EntryFits, PastFits;
      AppendFits(e, x.past, freshId, kind, payload, sh.epoch);
      assert e.rec.last + 1 in f.events && e.rec.state == Started;
      hide Appended, Noted;
      MoreEverKeeps(sh, x, e.rec.last + 1, f);
    }
  }

  lemma RecordFits(sh: Shared, x: Slot)
    requires Inv(sh, x) && x.entry.Some?
    ensures EntryFits(x.entry.value, x.past) && PastFits(x.past, sh.epoch)
  {
  }

  lemma MoreEverKeeps(sh: Shared, x: Slot, n: nat, f: Entry)
    requires Inv(sh, x) && !sh.poisoned && n !in x.past.ever && n in f.events
    requires x.entry.Some? && x.entry.value.rec.state == Started == f.rec.state
    requires var q := Noted(x.past, x.entry, Some(f), sh.epoch);
             q == x.past.(ever := x.past.ever[n := f.events[n]]) && EntryFits(f, q) && PastFits(q, sh.epoch)
    ensures Inv(sh, Commit(sh, x, Some(f)))
  {
    hide EntryFits, PastFits, PendingSeqs, Noted;
  }

  /** The first Result is the only one; it is noted with the record that becomes finished. */
  lemma StoreFits(e: Entry, p: Past, body: Fields, freshNumber: nat, epoch: nat)
    requires EntryFits(e, p) && PastFits(p, epoch) && e.rec.state == Started
    ensures var r := ResultStoredFile(e, Payload(body, None, None), freshNumber);
            && r.Ok? && e.result == None && p.result == None
            && var f := r.value;
               var q := Noted(p, Some(e), Some(f), epoch);
               && q == p.(result := f.result) && f.result.Some?
               && EntryFits(f, q) && PastFits(q, epoch) && f.rec.state == Finished
  {
  }

  lemma StoreKeeps(sh: Shared, x: Slot, body: Fields, freshNumber: nat)
    requires Inv(sh, x) && Enabled(sh, x, StoreResult(body, freshNumber))
    ensures Inv(sh, Apply(sh, x, StoreResult(body, freshNumber)))
    ensures Always(JournalOnly(x, Apply(sh, x, StoreResult(body, freshNumber))), sh.epoch)
  {
    PhaseKeeps(sh, x, Done);
    assert Always(x, sh.epoch);
    hide Inv, Always;
    if !x.handler.value.cancelled && x.entry.Some? {
      FirstResultStored(sh, x, body, freshNumber);
    }
    StoreIs(sh, x, body, freshNumber);
    hide Commit, ResultStoredFile, StoreStep, JournalOnly;
  }

  /** The two outcomes of the step. */
  lemma StoreIs(sh: Shared, x: Slot, body: Fields, freshNumber: nat)
    requires x.handler.Some?
    ensures var y := StoreStep(sh, x, body, freshNumber);
            if x.handler.value.cancelled || x.entry == None
               || ResultStoredFile(x.entry.value, Payload(body, None, None), freshNumber).Err?
            then y == WithPhase(x, Done) && JournalOnly(x, y) == x
            else
              var f := ResultStoredFile(x.entry.value, Payload(body, None, None), freshNumber).value;
              y == Permitted(Commit(sh, WithPhase(x, Done), Some(f))) && JournalOnly(x, y) == Commit(sh, x, Some(f))
  {
    hide ResultStoredFile;
  }

  lemma FirstResultStored(sh: Shared, x: Slot, body: Fields, freshNumber: nat)
    requires Inv(sh, x) && !sh.poisoned && x.handler.Some? && x.handler.value.phase == Storing && x.entry.Some?
    ensures var r := ResultStoredFile(x.entry.value, Payload(body, None, None), freshNumber);
            && r.Ok? && Inv(sh, Permitted(Commit(sh, WithPhase(x, Done), Some(r.value))))
            && Always(Commit(sh, x, Some(r.value)), sh.epoch)
  {
    var e := x.entry.value;
    assert HandlerLive(x) && ActiveLive(x) && EntryFits(e, x.past) && PastFits(x.past, sh.epoch);
    StoreFits(e, x.past, body, freshNumber, sh.epoch);
    var f := ResultStoredFile(e, Payload(body, None, None), freshNumber).value;
    hide EntryFits, PastFits, PendingSeqs, ResultStoredFile, Noted;
    FirstResultKeeps(sh, x, f);
  }

  lemma FirstResultKeeps(sh: Shared, x: Slot, f: Entry)
    requires Inv(sh, x) && !sh.poisoned && x.past.result == None && f.result.Some? && f.rec.state == Finished
    requires x.entry.Some? && x.entry.value.rec.state == Started && x.handler.Some? && x.active
    requires var q := Noted(x.past, x.entry, Some(f), sh.epoch);
             q == x.past.(result := f.result) && EntryFits(f, q) && PastFits(q, sh.epoch)
    ensures Inv(sh, Permitted(Commit(sh, WithPhase(x, Done), Some(f))))
    ensures Always(Commit(sh, x, Some(f)), sh.epoch)
  {
    hide EntryFits, PastFits, PendingSeqs, Noted;
  }

  // ---------------------------------------------------------------- resuming

  lemma AskKeeps(sh: Shared, x: Slot, id: TaskId)
    requires Inv(sh, x) && Enabled(sh, x, Ask(id))
    ensures Inv(sh, Apply(sh, x, Ask(id)))
  {
    assert TaskFits(x, sh.epoch, id, Ticket(x.entry.value.rec.state));
    WaitingKeeps(sh, x, id, Ticket(x.entry.value.rec.state));
  }

  lemma TicketAckedKeeps(sh: Shared, x: Slot, id: TaskId)
    requires Inv(sh, x) && Enabled(sh, x, TicketAcked(id))
    ensures Inv(sh, Apply(sh, x, TicketAcked(id)))
  {
    hide Inv;
    CancelKeeps(sh, x);
    NoteResultAckKeeps(sh, Cancelled(x));
    var y := Cancelled(x).(past := x.past.(resultAcked := true));
    var t := Clearing(x.tasks[id].state == ResultAcked);
    assert TaskFits(y, sh.epoch, id, t);
    WaitingKeeps(sh, y, id, t);
  }

  /**
   * A snapshot from before this process's start of the attempt never starts it again: an
   * inactive started record was started by an earlier process, and then the snapshot cannot
   * be of a record that had not been started.
   */
  lemma StaleTicketIsHarmless(sh: Shared, x: Slot, id: TaskId)
    requires Inv(sh, x) && !sh.poisoned && !x.past.late
    requires id in x.tasks && x.tasks[id].Ticket? && PreStart(x.tasks[id].state)
    requires x.entry.Some? && Executing(x.entry.value.rec.state)
    ensures x.active
  {
  }

  lemma StartOrNotKeeps(sh: Shared, x: Slot)
    requires Inv(sh, x) && !sh.poisoned
    requires x.entry.Some? && Executing(x.entry.value.rec.state) ==> x.active
    ensures Inv(sh, Start(sh, x)) && Always(JournalOnly(x, Start(sh, x)), sh.epoch)
  {
    JournalOnlyOf(sh, x, x);
    if x.entry.Some? && x.entry.value.rec.state == Confirmed {
      StartKeeps(sh, x);
    }
  }

  lemma ContinueConfirmedKeeps(sh: Shared, x: Slot, id: TaskId)
    requires Inv(sh, x) && !sh.poisoned && !x.past.late
    requires id in x.tasks && x.tasks[id].Ticket? && PreStart(x.tasks[id].state)
    ensures Inv(sh, Start(sh, Vouched(x))) && Always(JournalOnly(x, Start(sh, Vouched(x))), sh.epoch)
  {
    hide Always, Live;
    if x.entry.Some? && Executing(x.entry.value.rec.state) {
      StaleTicketIsHarmless(sh, x, id);
    }
    VouchedKeeps(sh, x);
    StartOrNotKeeps(sh, Vouched(x));
    hide Start;
    JournalOnlyOf(sh, x, JournalOnly(Vouched(x), Start(sh, Vouched(x))));
  }

  lemma ContinueAckSentKeeps(sh: Shared, x: Slot)
    requires Inv(sh, x) && !sh.poisoned && !x.past.late
    ensures Always(ConfirmedOnly(sh, x), sh.epoch)
    ensures AdvancedEntry(x, Confirmed).Ok? ==>
              var y := Start(sh, Vouched(Commit(sh, x, Some(AdvancedEntry(x, Confirmed).value))));
              Inv(sh, y) && Always(JournalOnly(x, y), sh.epoch)
  {
    hide Live;
    if AdvancedEntry(x, Confirmed).Ok? {
      ConfirmKeeps(sh, x);
    }
  }

  /** Ending the task that resumes commutes with what it does to the journal. */
  lemma StartCommutes(sh: Shared, x: Slot, id: TaskId)
    ensures Start(sh, Vouched(Release(x, id))) == Release(Start(sh, Vouched(x)), id)
  {
  }

  lemma ReleaseCommutes(sh: Shared, x: Slot, id: TaskId, y: Slot, e: Entry)
    ensures Start(sh, Vouched(Release(x, id))) == Release(Start(sh, Vouched(x)), id)
    ensures Start(sh, Vouched(Commit(sh, Release(x, id), Some(e))))
            == Release(Start(sh, Vouched(Commit(sh, x, Some(e)))), id)
    ensures JournalOnly(x, Release(y, id)) == JournalOnly(x, y)
  {
    hide Start, Noted;
    StartCommutes(sh, x, id);
    StartCommutes(sh, Commit(sh, x, Some(e)), id);
  }

  lemma ContinueKeeps(sh: Shared, x: Slot, id: TaskId, reconnect: bool)
    requires Inv(sh, x) && Enabled(sh, x, Continue(id, reconnect))
    ensures Inv(sh, Apply(sh, x, Continue(id, reconnect)))
    ensures forall y :: CutShort(sh, x, Continue(id, reconnect), y) ==> Always(y, sh.epoch)
  {
    hide Always, Live, Start, Vouched, Commit, Advanced, JournalOnly;
    var y := Release(x, id);
    ReleaseKeeps(sh, x, id);
    PermitKeeps(sh, y, Some(Permit(true, true)));
    JournalOnlyReleases(sh, x, y);
    JournalOnlyReleases(sh, x, Permitted(y));
    match x.tasks[id].state
    case AckSent =>
      ContinueAckSentKeeps(sh, x);
      if AdvancedEntry(x, Confirmed).Ok? {
        var e := AdvancedEntry(x, Confirmed).value;
        var z := Start(sh, Vouched(Commit(sh, x, Some(e))));
        ReleaseCommutes(sh, x, id, z, e);
        ReleaseKeeps(sh, z, id);
      }
    case Confirmed =>
      var z := Start(sh, Vouched(x));
      ContinueConfirmedKeeps(sh, x, id);
      StartCommutes(sh, x, id);
      SameJournal(x, z, id);
      ReleaseKeeps(sh, z, id);
    case _ =>
  }

  lemma SameJournal(x: Slot, y: Slot, id: TaskId)
    ensures JournalOnly(x, Release(y, id)) == JournalOnly(x, y)
  {
  }

  lemma JournalOnlyReleases(sh: Shared, x: Slot, y: Slot)
    requires Inv(sh, x) && y.entry == x.entry && y.past == x.past
    ensures JournalOnly(x, y) == x && Always(JournalOnly(x, y), sh.epoch)
  {
  }

  // ---------------------------------------------------------------- restart

  /** The process died, whatever it was doing, and another opens the directory. */
  lemma RebornKeeps(sh: Shared, x: Slot, later: Shared)
    requires Always(x, sh.epoch) && later.epoch == sh.epoch + 1
    ensures Inv(later, Reborn(x))
    ensures Reborn(x).entry == (if x.entry == None then None else Some(Settled(x.entry.value)))
  {
    PastReborn(x.past, sh.epoch);
    if x.entry.Some? {
      EntryReborn(x.entry.value, x.past);
    }
    hide EntryFits, PastFits, PendingSeqs, Repaired, TasksFit, HandlerFits;
  }

  lemma PastReborn(p: Past, epoch: nat)
    requires PastFits(p, epoch)
    ensures PastFits(p.(stopped := false), epoch + 1)
  {
  }

  lemma EntryReborn(e: Entry, p: Past)
    requires EntryFits(e, p)
    ensures Repaired(e) == Ok(Settled(e)) && EntryFits(Settled(e), p.(stopped := false))
    ensures Executing(Settled(e).rec.state) ==> p.startedIn.Some?
    ensures Terminal(Settled(e).rec.state) ==> Settled(e).result == None
    ensures p.offered.Some?
  {
    hide Meaning, Repaired, Sound;
    RepairedSound(e);
  }
}
