/** The invariant of the worker, one attempt at a time. */
module WorkerInvariant {
  import opened Prelude
  import opened Acks
  import opened Journal
  import opened Worker

  predicate PreStart(s: State) {
    s in {Received, AckSent, Confirmed, RejectSent}
  }

  predicate Executing(s: State) {
    s in {Started, Finished}
  }

  /** The record of an attempt against its history. */
  ghost predicate EntryFits(e: Entry, p: Past) {
    && Sound(e)
    && p.offered == Some(e.rec.identity)
    && EventsKnown(e, p)
    && (e.result.Some? ==> p.result == e.result)
    && (forall n :: n in Meaning(e.rec.acks) ==> n in p.acked)
    && ((PreStart(e.rec.state) || e.rec.state == Rejected) && p.startedIn.Some? ==> p.late)
    && (p.late ==> e.rec.state !in {Confirmed, Started, Finished})
    && (e.rec.state in {Confirmed, Started, Finished} ==> p.confirmed)
    && (Executing(e.rec.state) ==> p.startedIn.Some?)
    && (e.rec.state == Started ==> p.result == None && forall n :: n in p.ever ==> n <= e.rec.last)
  }

  ghost predicate EventsKnown(e: Entry, p: Past) {
    forall n :: n in e.events ==> n in p.ever && p.ever[n] == e.events[n]
  }

  ghost predicate IsEver(p: Past, e: Event) {
    e.seq_ in p.ever && p.ever[e.seq_] == e
  }

  ghost predicate AreEver(p: Past, events: seq<Event>) {
    forall i :: 0 <= i < |events| ==> IsEver(p, events[i])
  }

  /** The history itself: one start, and every send repeats what was durable. */
  ghost predicate PastFits(p: Past, epoch: nat) {
    && (p.offered.Some? ==> p.offered.value.epoch <= epoch)
    && (p.startedIn.Some? ==> p.offered.Some? && p.startedIn.value <= epoch)
    && p.begins <= p.spawns <= 1
    && (p.spawns == 1 ==> p.startedIn.Some? && p.confirmed)
    && (p.ever != map[] || p.result.Some? ==> p.startedIn.Some?)
    && (forall n :: n in p.ever ==> p.ever[n].seq_ == n)
    && AreEver(p, p.sentEvents)
    && (forall i :: 0 <= i < |p.sentResults| ==> p.result == Some(p.sentResults[i]))
    && (p.late ==> p.resultAcked)
  }

  ghost predicate HandlerFits(x: Slot, epoch: nat) {
    x.handler.Some? ==>
      && x.past.startedIn == Some(epoch) && x.past.spawns == 1
      && (x.handler.value.phase == Spawned ==> x.past.begins == 0)
  }

  predicate HandlerOver(x: Slot) {
    x.handler.Some? ==> x.handler.value.phase == Done
  }

  ghost predicate TaskFits(x: Slot, epoch: nat, id: TaskId, t: Task) {
    && (HoldsLock(t) ==> x.lock == Some(id))
    && match t
       case Ticket(s) => PreStart(s) ==> x.past.late || x.past.startedIn == None || x.past.startedIn == Some(epoch)
       case SendingEvent(e, rest, _) => IsEver(x.past, e) && AreEver(x.past, rest)
       case SendingResult(r, _) => x.past.result == Some(r)
       case Replaying(e, rest, r) => IsEver(x.past, e) && AreEver(x.past, rest) && x.past.result == Some(r)
       case Revoking => x.terminal
       case Clearing(_) => x.past.resultAcked
       case CancelLocking(had) => x.terminal && (if had then x.handler.Some? else HandlerOver(x))
       case CancelWaiting(had) => x.terminal && (if had then x.handler.Some? else HandlerOver(x))
       case _ => true
  }

  ghost predicate TasksFit(x: Slot, epoch: nat) {
    forall id :: id in x.tasks ==> TaskFits(x, epoch, id, x.tasks[id])
  }

  predicate LockFits(x: Slot) {
    x.lock.Some? ==> x.lock.value in x.tasks && HoldsLock(x.tasks[x.lock.value])
  }

  /** A started attempt whose record is gone cannot come back as a fresh one. */
  predicate GoneFits(x: Slot, epoch: nat) {
    x.entry == None && x.past.startedIn.Some? ==>
      x.terminal || x.past.resultAcked || (x.past.offered.Some? && x.past.offered.value.epoch < epoch)
  }

  predicate FinalFits(x: Slot, epoch: nat) {
    x.past.finalised ==>
      && x.entry == None && x.lock == None && !x.active
      && x.past.offered.Some? && (x.terminal || x.past.offered.value.epoch < epoch)
  }

  predicate StoppedFits(x: Slot) {
    x.past.stopped ==> x.terminal && HandlerOver(x)
  }

  /** A handler task that is not over is known as active or its attempt is terminal, and then it is cancelled. */
  predicate SpawnFits(x: Slot) {
    && (!HandlerOver(x) ==> x.active || x.terminal)
    && (x.terminal && !HandlerOver(x) ==> x.handler.value.cancelled)
  }

  /** What holds in every state, poisoned or not. */
  ghost predicate Always(x: Slot, epoch: nat) {
    && PastFits(x.past, epoch)
    && (x.entry.Some? ==> EntryFits(x.entry.value, x.past))
    && HandlerFits(x, epoch)
    && TasksFit(x, epoch)
    && LockFits(x) && GoneFits(x, epoch) && FinalFits(x, epoch) && StoppedFits(x) && SpawnFits(x)
  }

  /** A running handler has a started record, unless its revocation removed it. */
  predicate HandlerLive(x: Slot) {
    !HandlerOver(x) ==>
      || (x.entry.Some? && x.entry.value.rec.state == Started && x.active)
      || (x.entry == None && x.terminal)
  }

  predicate ActiveLive(x: Slot) {
    x.active ==> x.handler.Some? && x.entry.Some? && Executing(x.entry.value.rec.state)
  }

  predicate JournalLive(x: Slot, epoch: nat) {
    x.entry.Some? && Executing(x.entry.value.rec.state) && !x.active ==>
      x.past.startedIn.Some? && x.past.startedIn.value < epoch
  }

  /** The spool of a terminal record goes in the step that makes it terminal. */
  predicate TerminalLive(x: Slot) {
    x.entry.Some? && Terminal(x.entry.value.rec.state) ==> x.entry.value.result == None
  }

  /** While a Result is on the wire its record is finished and no Event is pending. */
  ghost predicate ResultLive(x: Slot, r: Result) {
    && x.entry.Some? && x.entry.value.rec.state == Finished
    && x.entry.value.result == Some(r) && PendingSeqs(x.entry.value) == {}
  }

  ghost predicate TasksLive(x: Slot) {
    forall id :: id in x.tasks ==>
      && (x.tasks[id].SendingResult? ==> ResultLive(x, x.tasks[id].result))
      && (x.tasks[id].Replaying? ==> ResultLive(x, x.tasks[id].result))
  }

  /** What holds as long as the store can be used. */
  ghost predicate Live(x: Slot, epoch: nat) {
    HandlerLive(x) && ActiveLive(x) && JournalLive(x, epoch) && TerminalLive(x) && TasksLive(x)
  }

  ghost predicate Inv(sh: Shared, x: Slot) {
    Always(x, sh.epoch) && (!sh.poisoned ==> Live(x, sh.epoch))
  }

  lemma EmptyInv(sh: Shared)
    ensures Inv(sh, EMPTY_SLOT)
  {
  }
}
