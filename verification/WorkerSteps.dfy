/** Every step of the worker keeps the invariant. */
module WorkerSteps {
  import opened Prelude
  import opened Acks
  import opened Journal
  import opened Worker
  import opened WorkerInvariant
  import opened WorkerTasks

  // ---------------------------------------------------------------- changes of one record

  /** `f` is `e` in another state, possibly with less spool. */
  ghost predicate SameRecord(e: Entry, f: Entry) {
    && f.rec.identity == e.rec.identity && f.rec.last == e.rec.last && f.rec.acks == e.rec.acks
    && (forall n :: n in f.events ==> n in e.events && f.events[n] == e.events[n])
    && (f.result == e.result || f.result == None)
  }

  /** Such a change tells the history nothing new, unless it starts the attempt. */
  lemma NothingNoted(p: Past, e: Entry, f: Entry, epoch: nat)
    requires EventsKnown(e, p) && (e.result.Some? ==> p.result == e.result)
    requires SameRecord(e, f)
    requires f.rec.state == Started ==> e.rec.state == Started
    ensures Noted(p, Some(e), Some(f), epoch) == p
  {
  }

  /** A change of state alone. */
  lemma AdvanceFits(e: Entry, p: Past, to: State, epoch: nat)
    requires EntryFits(e, p) && Advanced(e, to).Ok? && to !in {Finished, Started}
    requires to == Confirmed ==> p.confirmed && !p.late
    ensures var f := Advanced(e, to).value;
            && EntryFits(f, p) && SameRecord(e, f) && f.rec.state == to && f.result == e.result
            && Noted(p, Some(e), Some(f), epoch) == p
            && (PreStart(e.rec.state) ==> f.result == None)
  {
    hide Meaning, Repaired;
    var f := Advanced(e, to).value;
    AdvanceReopensIff(e, to);
    NothingNoted(p, e, f, epoch);
  }

  lemma TerminalFits(e: Entry, p: Past, epoch: nat)
    requires EntryFits(e, p)
    ensures Discarded(e).Ok? ==> EntryFits(Discarded(e).value, p) && SameRecord(e, Discarded(e).value)
                                 && Noted(p, Some(e), Some(Discarded(e).value), epoch) == p
    ensures EventsCleared(e).Ok? ==> EntryFits(EventsCleared(e).value, p) && SameRecord(e, EventsCleared(e).value)
                                     && Noted(p, Some(e), Some(EventsCleared(e).value), epoch) == p
  {
    hide Meaning, Sound;
    DroppedSound(e);
  }

  lemma RevokeFits(e: Entry, p: Past, epoch: nat)
    requires EntryFits(e, p)
    ensures EntryFits(RevokedEntry(e), p) && Terminal(RevokedEntry(e).rec.state)
    ensures Noted(p, Some(e), Some(RevokedEntry(e)), epoch) == p
  {
    hide Sound, Meaning;
    if Terminal(e.rec.state) {
      NothingNoted(p, e, e, epoch);
    } else {
      AdvanceFits(e, p, Revoked, epoch);
    }
  }

  lemma ResultAckFits(e: Entry, p: Past, id: ResultId, epoch: nat)
    requires EntryFits(e, p) && ResultAckedBy(e, id).Ok?
    ensures var f := ResultAckedBy(e, id).value;
            && EntryFits(f, p) && SameRecord(e, f) && f.rec.state == ResultAcked && f.result == None
            && Noted(p, Some(e), Some(f), epoch) == p
  {
  }

  lemma EventAckFits(e: Entry, p: Past, id: EventId, n: nat, epoch: nat)
    requires EntryFits(e, p) && EventAcked(e, id, n).Ok?
    ensures var f := EventAcked(e, id, n).value;
            var q := p.(acked := p.acked + {n});
            EntryFits(f, q) && Noted(q, Some(e), Some(f), epoch) == q
            && f.rec.state == e.rec.state && f.result == e.result && f.events == e.events
  {
    hide Sound, Meaning, Applied;
    EventAckedSound(e, id, n);
    var f := EventAcked(e, id, n).value;
    var q := p.(acked := p.acked + {n});
    assert f.rec == e.rec.(acks := f.rec.acks);
    assert EventsKnown(f, q);
  }

  /** The one step into Started. */
  lemma StartFits(e: Entry, p: Past, epoch: nat)
    requires EntryFits(e, p) && PastFits(p, epoch)
    requires e.rec.state == Confirmed
    ensures p.startedIn == None && p.spawns == 0 && p.ever == map[] && p.result == None
    ensures var f := Advanced(e, Started).value;
            var q := Noted(p, Some(e), Some(f), epoch);
            && Advanced(e, Started).Ok? && q == p.(startedIn := Some(epoch))
            && EntryFits(f, q) && PastFits(q, epoch)
            && PastFits(q.(spawns := 1), epoch) && EntryFits(f, q.(spawns := 1))
  {
  }

  // ---------------------------------------------------------------- claiming

  /** Starting from a confirmed record. */
  lemma StartKeeps(sh: Shared, x: Slot)
    requires Inv(sh, x) && !sh.poisoned
    requires x.entry.Some? && x.entry.value.rec.state == Confirmed
    ensures Inv(sh, Start(sh, x))
    ensures Always(JournalOnly(x, Start(sh, x)), sh.epoch)
  {
    hide Sound, Meaning, Applied, PendingSeqs;
    StartFits(x.entry.value, x.past, sh.epoch);
  }

  /** Nothing but permits and the confirmation mark differ. */
  lemma VouchedKeeps(sh: Shared, x: Slot)
    requires Inv(sh, x)
    ensures Inv(sh, Permitted(x))
    ensures Inv(sh, Vouched(x))
  {
    hide Inv;
    PermitKeeps(sh, x, Some(Permit(true, true)));
    MarkKeeps(sh, Permitted(x));
  }

  /** Everything but the record and its history is the same. */
  predicate SameMemory(x: Slot, y: Slot) {
    && x.handler == y.handler && x.active == y.active && x.terminal == y.terminal
    && x.lock == y.lock && x.tasks == y.tasks && x.past.spawns == y.past.spawns
  }

  lemma CreatedKeeps(sh: Shared, x: Slot, identity: Identity, input: Fields)
    requires Inv(sh, x) && !sh.poisoned && !x.terminal && identity.epoch == sh.epoch
    requires x.past.offered.Some? ==> x.past.offered.value == identity
    requires CreatedEntry(x, identity, input).Ok?
    ensures var y := CreatedSlot(sh, x, identity, CreatedEntry(x, identity, input).value);
            Inv(sh, y) && y.entry == Some(CreatedEntry(x, identity, input).value) && y.terminal == x.terminal
            && y.past.late == (x.past.late || (x.entry == None && x.past.resultAcked)) && SameMemory(x, y)
  {
    var e := CreatedEntry(x, identity, input).value;
    if x.entry.Some? {
      SameEntryNoted(sh, x);
      assert x.past.offered == Some(identity) by { hide Sound, Meaning; }
      hide Inv, Noted;
    } else {
      FreshKeeps(sh, x, identity, input);
    }
  }

  lemma SameEntryNoted(sh: Shared, x: Slot)
    requires Always(x, sh.epoch) && x.entry.Some?
    ensures Commit(sh, x, x.entry) == x
  {
  }

  lemma FreshKeeps(sh: Shared, x: Slot, identity: Identity, input: Fields)
    requires Inv(sh, x) && !sh.poisoned && !x.terminal && identity.epoch == sh.epoch && x.entry == None
    requires x.past.offered.Some? ==> x.past.offered.value == identity
    ensures Inv(sh, CreatedSlot(sh, x, identity, Entry(NewAssignment(identity, input), map[], None)))
  {
    var e := Entry(NewAssignment(identity, input), map[], None);
    var p := x.past.(offered := Some(identity), late := x.past.late || x.past.resultAcked);
    FreshFits(x.past, identity, input, sh.epoch);
    assert CreatedSlot(sh, x, identity, e) == x.(entry := Some(e), past := p);
    assert EntryFits(e, p) by { FreshEntryFits(x, identity, input, sh.epoch); }
    hide EntryFits, PastFits, PendingSeqs, Noted;
  }

  lemma FreshFits(p: Past, identity: Identity, input: Fields, epoch: nat)
    requires PastFits(p, epoch) && identity.epoch == epoch
    requires p.offered.Some? ==> p.offered.value == identity
    ensures var q := p.(offered := Some(identity), late := p.late || p.resultAcked);
            && PastFits(q, epoch)
            && Noted(p, None, Some(Entry(NewAssignment(identity, input), map[], None)), epoch) == p
  {
  }

  /** A fresh record after a start is late: the earlier one went with its Result or in an earlier process. */
  lemma FreshEntryFits(x: Slot, identity: Identity, input: Fields, epoch: nat)
    requires Always(x, epoch) && x.entry == None && !x.terminal && identity.epoch == epoch
    requires x.past.offered.Some? ==> x.past.offered.value == identity
    ensures EntryFits(Entry(NewAssignment(identity, input), map[], None),
                      x.past.(offered := Some(identity), late := x.past.late || x.past.resultAcked))
  {
  }

  lemma AdvanceKeeps(sh: Shared, x: Slot, to: State)
    requires Inv(sh, x) && !sh.poisoned
    requires AdvancedEntry(x, to).Ok? && to in {AckSent, Confirmed, RejectSent, Rejected}
    requires to == Confirmed ==> x.past.confirmed && !x.past.late
    ensures var y := Commit(sh, x, Some(AdvancedEntry(x, to).value));
            Inv(sh, y) && y.entry == Some(AdvancedEntry(x, to).value) && y.past == x.past
  {
    hide Sound, Meaning, Applied, PendingSeqs;
    AdvanceFits(x.entry.value, x.past, to, sh.epoch);
  }

  lemma ClaimChangeKeeps(sh: Shared, x: Slot, claim: Claim)
    requires Inv(sh, x)
    ensures Inv(sh, x.(claim := claim))
  {
  }

  lemma OfferKeeps(sh: Shared, x: Slot, identity: Identity, input: Fields, roomy: bool)
    requires Inv(sh, x) && Enabled(sh, x, Offer(identity, input, roomy))
    ensures Inv(sh, OfferStep(sh, x, identity, input, roomy))
    ensures !x.terminal && CreatedEntry(x, identity, input).Ok? ==>
              && Always(CreatedSlot(sh, x, identity, CreatedEntry(x, identity, input).value), sh.epoch)
              && Always(JournalOnly(x, OfferStep(sh, x, identity, input, roomy)), sh.epoch)
  {
    hide Always, Live, Noted, CreatedSlot;
    var created := CreatedEntry(x, identity, input);
    if !x.terminal && created.Ok? {
      CreatedKeeps(sh, x, identity, input);
      var y := CreatedSlot(sh, x, identity, created.value);
      JournalOnlyOf(sh, x, y);
      match created.value.rec.state
      case Received =>
        var to := if roomy then AckSent else RejectSent;
        AdvanceKeeps(sh, y, to);
        var z := Commit(sh, y, Some(AdvancedEntry(y, to).value));
        ClaimChangeKeeps(sh, z, AwaitConfirm);
        ClaimChangeKeeps(sh, z, AwaitReject);
        JournalOnlyOf(sh, x, z);
      case AckSent =>
        ClaimChangeKeeps(sh, y, AwaitConfirm);
      case Confirmed =>
        VouchedKeeps(sh, y);
        StartKeeps(sh, Permitted(y));
        JournalOnlyStart(sh, x, Permitted(y));
      case _ =>
    }
  }

  /** Taking over only the journal of a state keeps what holds in every state. */
  lemma JournalOnlyOf(sh: Shared, x: Slot, y: Slot)
    requires Always(y, sh.epoch) && SameMemory(x, y)
    ensures Always(JournalOnly(x, y), sh.epoch)
  {
  }

  lemma JournalOnlyStart(sh: Shared, x: Slot, y: Slot)
    requires Inv(sh, y) && !sh.poisoned
    requires y.entry.Some? && y.entry.value.rec.state == Confirmed
    requires SameMemory(x, y)
    ensures Always(JournalOnly(x, Start(sh, y)), sh.epoch)
  {
    hide Always, Live;
    StartKeeps(sh, y);
    var z := JournalOnly(y, Start(sh, y));
    JournalOnlyOf(sh, x, z);
    assert JournalOnly(x, z) == JournalOnly(x, Start(sh, y));
  }

  lemma ConfirmKeeps(sh: Shared, x: Slot)
    requires Inv(sh, x) && !sh.poisoned && !x.past.late && AdvancedEntry(x, Confirmed).Ok?
    ensures var y := Vouched(Commit(sh, x, Some(AdvancedEntry(x, Confirmed).value)));
            Inv(sh, y) && y.entry.value.rec.state == Confirmed && Inv(sh, Start(sh, y))
            && Always(JournalOnly(x, Start(sh, y)), sh.epoch)
    ensures Always(ConfirmedOnly(sh, x), sh.epoch)
  {
    var f := AdvancedEntry(x, Confirmed).value;
    var y := Vouched(Commit(sh, x, Some(f)));
    var z := x.(past := x.past.(confirmed := true));
    MarkKeeps(sh, x);
    AdvanceKeeps(sh, z, Confirmed);
    NothingNotedAsWell(x.past, z.past, x.entry.value, f, sh.epoch);
    assert ConfirmedOnly(sh, x) == Commit(sh, z, Some(f)) && y == Permitted(Commit(sh, z, Some(f)));
    assert Advanced(x.entry.value, Confirmed).Ok? ==> f.rec.state == Confirmed;
    hide Always, Live, Noted;
    PermitKeeps(sh, Commit(sh, z, Some(f)), Some(Permit(true, true)));
    StartKeeps(sh, y);
    JournalOnlyStart(sh, x, y);
  }

  lemma MarkKeeps(sh: Shared, x: Slot)
    requires Inv(sh, x)
    ensures Inv(sh, x.(past := x.past.(confirmed := true)))
  {
    hide Sound, Meaning, PendingSeqs, HoldsLock;
  }

  lemma NothingNotedAsWell(p: Past, q: Past, e: Entry, f: Entry, epoch: nat)
    requires q == p.(confirmed := true)
    ensures Noted(p, Some(e), Some(f), epoch).(confirmed := true) == Noted(q, Some(e), Some(f), epoch)
  {
  }

  lemma ConfirmStepKeeps(sh: Shared, x: Slot)
    requires Inv(sh, x) && Enabled(sh, x, Confirm)
    ensures Inv(sh, ConfirmStep(sh, x))
    ensures !x.terminal ==>
              Always(ConfirmedOnly(sh, x), sh.epoch) && Always(JournalOnly(x, ConfirmStep(sh, x)), sh.epoch)
  {
    hide Always, Live;
    var y := x.(claim := NoClaim);
    ClaimChangeKeeps(sh, x, NoClaim);
    if !x.terminal && AdvancedEntry(y, Confirmed).Ok? {
      ConfirmKeeps(sh, y);
      ConfirmKeeps(sh, x);
      JournalOnlyOf(sh, x, JournalOnly(y, ConfirmStep(sh, x)));
    } else {
      JournalOnlyOf(sh, x, x);
    }
  }

  /** No task waits for the acknowledgement of a Result. */
  ghost predicate NoResultSent(x: Slot) {
    forall id :: id in x.tasks ==> !x.tasks[id].SendingResult? && !x.tasks[id].Replaying?
  }

  /** The record of an attempt leaves the journal. */
  lemma GoneKeeps(sh: Shared, x: Slot, permit: Option<Permit>)
    requires Always(x, sh.epoch) && x.entry.Some? && NoResultSent(x)
    requires x.past.startedIn.Some? ==> x.terminal || x.past.resultAcked
    requires HandlerOver(x) || x.terminal
    ensures Inv(sh, Commit(sh, x, None).(active := false, permit := permit))
    ensures Always(Commit(sh, x, None), sh.epoch)
  {
    hide EntryFits, PastFits, PendingSeqs, HoldsLock;
  }

  lemma RejectStepKeeps(sh: Shared, x: Slot)
    requires Inv(sh, x) && Enabled(sh, x, RejectAccepted)
    ensures Inv(sh, RejectStep(sh, x))
    ensures !x.terminal && AdvancedEntry(x, Rejected).Ok? ==>
              && Always(Commit(sh, x, Some(AdvancedEntry(x, Rejected).value)), sh.epoch)
              && Always(JournalOnly(x, RejectStep(sh, x)), sh.epoch)
  {
    hide Always;
    var y := x.(claim := NoClaim);
    ClaimChangeKeeps(sh, x, NoClaim);
    if !x.terminal && AdvancedEntry(x, Rejected).Ok? {
      AdvanceKeeps(sh, x, Rejected);
      AdvanceKeeps(sh, y, Rejected);
      var e := AdvancedEntry(y, Rejected).value;
      var z := Commit(sh, y, Some(e));
      RejectedIsIdle(sh, z);
      JournalOnlyOf(sh, x, z);
      if Deletable(e) {
        GoneKeeps(sh, z, z.permit);
        JournalOnlyOf(sh, x, Commit(sh, z, None));
      }
    }
  }

  lemma RejectedIsIdle(sh: Shared, x: Slot)
    requires Inv(sh, x) && !sh.poisoned && x.entry.Some? && x.entry.value.rec.state == Rejected
    ensures NoResultSent(x) && HandlerOver(x) && !x.active
    ensures x.past.startedIn.Some? ==> x.past.resultAcked
  {
  }
}
