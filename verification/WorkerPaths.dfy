/** The other ways of an attempt that the worker can go to the end: each from any state that allows its first step. */
module WorkerPaths {
  import opened Prelude
  import opened Journal
  import opened Ranges
  import opened Worker
  import opened WorkerInvariant
  import opened WorkerRuns
  import opened WorkerEffects
  import opened WorkerGrants
  import opened WorkerRevoking
  import opened WorkerFields
  import opened WorkerDelivery

  lemma TwoSteps(sh: Shared, x: Slot, a: Step, b: Step)
    requires Enabled(sh, x, a) && Enabled(sh, Apply(sh, x, a), b)
    ensures Goes(sh, x, [a, b]) && Gone(sh, x, [a, b]) == Apply(sh, Apply(sh, x, a), b)
  {
    hide Enabled, Apply;
    var y := Apply(sh, x, a);
    NoSteps(sh, Apply(sh, y, b));
    GoesFirst(sh, y, b, []);
    GoesFirst(sh, x, a, [b] + []);
    assert [a] + ([b] + []) == [a, b];
  }

  // ---------------------------------------------------------------- revoking and cancelling

  /** A task that has begun a revocation carries it through once the lock is free. */
  lemma FinaliseEnds(sh: Shared, x: Slot, id: TaskId)
    requires !sh.poisoned && id in x.tasks && x.tasks[id].Revoking? && x.lock == None
    ensures Enabled(sh, x, Finalise(id))
    ensures var y := Apply(sh, x, Finalise(id));
            && y.entry == None && y.permit == None && !y.active && id !in y.tasks
            && y.handler == x.handler && y.terminal == x.terminal
  {
    hide Noted;
  }

  /** A revocation can always be carried through: the handler is cancelled and nothing of the attempt is left. */
  lemma RevocationCanFinish(sh: Shared, x: Slot, id: TaskId)
    requires Inv(sh, x) && !sh.poisoned && id !in x.tasks && x.lock == None
    ensures var steps := [RevokeSpawn(id), Finalise(id)];
            && Goes(sh, x, steps)
            && var y := Gone(sh, x, steps);
               && y.entry == None && y.permit == None && !y.active && y.terminal
               && (!HandlerOver(x) ==> y.handler == Some(x.handler.value.(cancelled := true)))
  {
    RevokeBegins(sh, x, id);
    RevokingCancels(sh, x, RevokeSpawn(id));
    hide Inv, Apply, Enabled, Goes;
    FinaliseEnds(sh, Apply(sh, x, RevokeSpawn(id)), id);
    TwoSteps(sh, x, RevokeSpawn(id), Finalise(id));
  }

  lemma RevokeBegins(sh: Shared, x: Slot, id: TaskId)
    requires id !in x.tasks && x.lock == None
    ensures Enabled(sh, x, RevokeSpawn(id))
    ensures var y := Apply(sh, x, RevokeSpawn(id));
            id in y.tasks && y.tasks[id].Revoking? && y.lock == None && y.terminal
  {
  }

  /** The first half of a cancellation: under the lock the permission goes, and the handler is asked to stop. */
  lemma CancelWaits(sh: Shared, x: Slot, id: TaskId)
    requires Inv(sh, x) && !sh.poisoned && x.entry.Some? && id !in x.tasks && x.lock == None
    ensures Enabled(sh, x, CancelStart(id)) && Enabled(sh, Apply(sh, x, CancelStart(id)), CancelLock(id))
    ensures var y := Apply(sh, Apply(sh, x, CancelStart(id)), CancelLock(id));
            && id in y.tasks && y.tasks[id] == CancelWaiting(x.active) && y.lock == None && y.terminal
            && (x.active ==> y.handler.Some?)
            && (!HandlerOver(x) ==> y.handler == Some(x.handler.value.(cancelled := true)))
            && (HandlerOver(x) ==> HandlerOver(y))
  {
    CancelledAs(sh, x);
    hide Inv;
    CancelBegins(sh, x, id);
    LockIsTaken(sh, Apply(sh, x, CancelStart(id)), id, x.active);
    hide Apply, Enabled;
  }

  lemma CancelBegins(sh: Shared, x: Slot, id: TaskId)
    requires !sh.poisoned && x.entry.Some? && id !in x.tasks && (x.active ==> x.handler.Some?)
    ensures Enabled(sh, x, CancelStart(id))
    ensures var y := Apply(sh, x, CancelStart(id));
            && id in y.tasks && y.tasks[id] == CancelLocking(x.active) && y.lock == x.lock && y.terminal
            && (x.handler == None ==> y.handler == None)
            && (x.handler.Some? ==>
                  y.handler == Some(x.handler.value.(cancelled := x.active || x.handler.value.cancelled)))
  {
  }

  lemma LockIsTaken(sh: Shared, x: Slot, id: TaskId, had: bool)
    requires id in x.tasks && x.tasks[id] == CancelLocking(had) && x.lock == None
    ensures Enabled(sh, x, CancelLock(id))
    ensures var y := Apply(sh, x, CancelLock(id));
            && id in y.tasks && y.tasks[id] == CancelWaiting(had) && y.lock == None && y.terminal == x.terminal
            && y.handler == x.handler
  {
  }

  lemma CancelledAs(sh: Shared, x: Slot)
    requires Inv(sh, x) && !sh.poisoned && x.entry.Some?
    ensures x.active ==> x.handler.Some?
    ensures !HandlerOver(x) ==> x.active
  {
    assert Live(x, sh.epoch) && SpawnFits(x);
    hide Always, JournalLive, TasksLive;
  }

  /** The second half: once the handler is over Core is told, and the record goes. */
  lemma StopAndFinalise(sh: Shared, x: Slot, id: TaskId, had: bool)
    requires !sh.poisoned && id in x.tasks && x.tasks[id] == CancelWaiting(had) && x.lock == None
    requires HandlerOver(x) && (had ==> x.handler.Some?)
    ensures var steps := [CancelStopped(id), Finalise(id)];
            && Goes(sh, x, steps)
            && var y := Gone(sh, x, steps);
               && y.entry == None && y.permit == None && y.past.stopped
               && y.handler == x.handler && y.terminal == x.terminal
  {
    StopIsSent(sh, x, id, had);
    hide Apply, Enabled, Goes;
    var y := Apply(sh, x, CancelStopped(id));
    FinaliseEnds(sh, y, id);
    StepMarks(sh, y, Finalise(id));
    TwoSteps(sh, x, CancelStopped(id), Finalise(id));
  }

  lemma StopIsSent(sh: Shared, x: Slot, id: TaskId, had: bool)
    requires id in x.tasks && x.tasks[id] == CancelWaiting(had) && HandlerOver(x) && (had ==> x.handler.Some?)
    ensures Enabled(sh, x, CancelStopped(id))
    ensures var y := Apply(sh, x, CancelStopped(id));
            && id in y.tasks && y.tasks[id].Revoking? && y.lock == x.lock && y.past.stopped
            && y.handler == x.handler && y.terminal == x.terminal
  {
  }

  /** Every durable attempt can be cancelled to the end: "stopped" is sent once the handler is over. */
  lemma CancellationCanFinish(sh: Shared, x: Slot, id: TaskId) returns (steps: seq<Step>)
    requires Inv(sh, x) && !sh.poisoned && x.entry.Some? && id !in x.tasks && x.lock == None
    ensures Goes(sh, x, steps)
    ensures forall i :: 0 <= i < |steps| ==>
              steps[i] in {CancelStart(id), CancelLock(id), Die, CancelStopped(id), Finalise(id)}
    ensures HandlerOver(x) ==> Die !in steps
    ensures var y := Gone(sh, x, steps);
            y.entry == None && y.permit == None && y.terminal && y.past.stopped && HandlerOver(y)
  {
    CancelWaits(sh, x, id);
    hide Inv, Apply, Enabled, Goes;
    TwoSteps(sh, x, CancelStart(id), CancelLock(id));
    var y := Apply(sh, Apply(sh, x, CancelStart(id)), CancelLock(id));
    var first, last := [CancelStart(id), CancelLock(id)], [CancelStopped(id), Finalise(id)];
    if HandlerOver(x) {
      StopAndFinalise(sh, y, id, x.active);
      GoesOnWith(sh, x, first, last);
      steps := first + last;
    } else {
      DieEnds(sh, y);
      StopAndFinalise(sh, Apply(sh, y, Die), id, x.active);
      GoesFirst(sh, y, Die, last);
      GoesOnWith(sh, x, first, [Die] + last);
      steps := first + ([Die] + last);
    }
  }

  lemma DieEnds(sh: Shared, x: Slot)
    requires x.handler.Some?
    ensures Enabled(sh, x, Die)
    ensures var y := Apply(sh, x, Die);
            HandlerOver(y) && y.handler.Some? && y.tasks == x.tasks && y.lock == x.lock && y.terminal == x.terminal
  {
  }

  // ---------------------------------------------------------------- resuming

  /** A finished attempt of an earlier process: Core allows both uploads, and everything pending is delivered. */
  lemma ResumeCanDeliver(sh: Shared, x: Slot, ticket: TaskId, id: TaskId) returns (steps: seq<Step>)
    requires Inv(sh, x) && !sh.poisoned && x.entry.Some? && x.entry.value.rec.state == Finished
    requires x.lock == None && id !in x.tasks && ticket !in x.tasks && id != ticket
    ensures Goes(sh, x, steps) && |steps| >= 2 && steps[..2] == [Ask(ticket), Upload(ticket, ALL)]
    ensures var events, r := Pending(x.entry.value), x.entry.value.result;
            && r.Some? && Delivered(Gone(sh, x, steps))
            && Sent(x, Gone(sh, x, steps), events, [r.value], SeqsOf(events))
  {
    var first := [Ask(ticket), Upload(ticket, ALL)];
    UploadAllows(sh, x, ticket, id);
    hide *;
    TwoSteps(sh, x, Ask(ticket), Upload(ticket, ALL));
    GoesKeeps(sh, x, first);
    var rest := DeliveryCanFinish(sh, Gone(sh, x, first), id);
    GoesOnWith(sh, x, first, rest);
    steps := first + rest;
    SentAlike(x, Gone(sh, x, first), Gone(sh, x, steps), Pending(x.entry.value), [x.entry.value.result.value],
              SeqsOf(Pending(x.entry.value)));
  }

  lemma UploadAllows(sh: Shared, x: Slot, ticket: TaskId, id: TaskId)
    requires !sh.poisoned && x.entry.Some? && x.lock == None && id !in x.tasks && ticket !in x.tasks
    ensures Enabled(sh, x, Ask(ticket)) && Enabled(sh, Apply(sh, x, Ask(ticket)), Upload(ticket, ALL))
    ensures var y := Apply(sh, Apply(sh, x, Ask(ticket)), Upload(ticket, ALL));
            y.entry == x.entry && y.permit == Some(ALL) && y.lock == None && id !in y.tasks && y.past == x.past
  {
  }

  lemma SentAlike(x: Slot, y: Slot, z: Slot, events: seq<Event>, results: seq<Result>, acked: set<nat>)
    requires y.past == x.past && Sent(y, z, events, results, acked)
    ensures Sent(x, z, events, results, acked)
  {
  }

  /** A stored Result that Core turns out to have is cleared, with its record, and nothing is sent. */
  lemma AcknowledgedCanClear(sh: Shared, x: Slot, id: TaskId)
    requires Inv(sh, x) && !sh.poisoned && x.entry.Some? && x.entry.value.result.Some?
    requires x.lock == None && id !in x.tasks
    ensures var steps := [Ask(id), TicketAcked(id), Clear(id)];
            Goes(sh, x, steps) && Delivered(Gone(sh, x, steps)) && Sent(x, Gone(sh, x, steps), [], [], {})
  {
    TicketClears(sh, x, id);
    hide *;
    var y := Apply(sh, Apply(sh, x, Ask(id)), TicketAcked(id));
    ClearDelivers(sh, y, id);
    var z := Apply(sh, y, Clear(id));
    TwoSteps(sh, x, Ask(id), TicketAcked(id));
    NoSteps(sh, z);
    GoesFirst(sh, y, Clear(id), []);
    GoesOnWith(sh, x, [Ask(id), TicketAcked(id)], [Clear(id)] + []);
    assert [Ask(id), TicketAcked(id)] + ([Clear(id)] + []) == [Ask(id), TicketAcked(id), Clear(id)];
    SentThen(x, y, z, [], [], {}, [], [], {});
  }

  lemma TicketClears(sh: Shared, x: Slot, id: TaskId)
    requires !sh.poisoned && x.entry.Some? && x.entry.value.result.Some? && x.lock == None && id !in x.tasks
    ensures Enabled(sh, x, Ask(id)) && Enabled(sh, Apply(sh, x, Ask(id)), TicketAcked(id))
    ensures var y := Apply(sh, Apply(sh, x, Ask(id)), TicketAcked(id));
            Enabled(sh, y, Clear(id)) && y.entry == x.entry && y.past.resultAcked && Sent(x, y, [], [], {})
  {
  }

  lemma ClearDelivers(sh: Shared, y: Slot, id: TaskId)
    requires Enabled(sh, y, Clear(id)) && y.entry.Some? && y.entry.value.result.Some? && y.past.resultAcked
    ensures var z := Apply(sh, y, Clear(id));
            Delivered(z) && Sent(y, z, [], [], {})
  {
    ClearedResultIsGone(sh, y, id);
    ClearSendsNothing(sh, y, id);
    StepMarks(sh, y, Clear(id));
    hide Apply;
  }

  lemma ClearSendsNothing(sh: Shared, y: Slot, id: TaskId)
    requires Enabled(sh, y, Clear(id))
    ensures SentSame(y, Apply(sh, y, Clear(id)))
  {
    RestIdle(sh, y, Clear(id));
    hide Apply;
  }

  /** An offer without room is turned down, and its record goes. */
  lemma RejectionCanFinish(sh: Shared, x: Slot, identity: Identity, input: Fields)
    requires Inv(sh, x) && !sh.poisoned && x.entry == None && !x.terminal && x.claim == NoClaim
    requires identity.epoch == sh.epoch && (x.past.offered.Some? ==> x.past.offered.value == identity)
    ensures var steps := [Offer(identity, input, false), RejectAccepted];
            && Goes(sh, x, steps)
            && Gone(sh, x, steps).entry == None && Gone(sh, x, steps).claim == NoClaim
  {
    OfferRejects(sh, x, identity, input);
    StepKeeps(sh, x, Offer(identity, input, false));
    RejectionDeletes(sh, Apply(sh, x, Offer(identity, input, false)));
    RejectIs(sh, Apply(sh, x, Offer(identity, input, false)));
    hide *;
    TwoSteps(sh, x, Offer(identity, input, false), RejectAccepted);
  }

  lemma RejectIs(sh: Shared, y: Slot)
    requires Enabled(sh, y, RejectAccepted)
    ensures Apply(sh, y, RejectAccepted) == RejectStep(sh, y)
  {
    hide RejectStep;
  }

  lemma OfferRejects(sh: Shared, x: Slot, identity: Identity, input: Fields)
    requires !sh.poisoned && x.entry == None && !x.terminal && x.claim == NoClaim
    requires identity.epoch == sh.epoch && (x.past.offered.Some? ==> x.past.offered.value == identity)
    ensures Enabled(sh, x, Offer(identity, input, false))
    ensures var y := Apply(sh, x, Offer(identity, input, false));
            Enabled(sh, y, RejectAccepted) && !y.terminal && y.entry.Some? && y.entry.value.rec.state == RejectSent
  {
    hide Noted;
  }

  // ---------------------------------------------------------------- replaying

  /** A replay is on its way with these Events, all of them stored, and then the Result. */
  ghost predicate Replays(x: Slot, id: TaskId, events: seq<Event>, r: Result) {
    && x.entry.Some? && x.entry.value.result == Some(r) && x.lock == Some(id)
    && id in x.tasks && Some(x.tasks[id]) == ReplayGoesTo(events, r)
    && AreStored(x.entry.value, events)
  }

  ghost predicate AreStored(e: Entry, events: seq<Event>) {
    forall i :: 0 <= i < |events| ==> events[i].seq_ in e.events && e.events[events[i].seq_] == events[i]
  }

  lemma ReplayGoesOn(sh: Shared, x: Slot, id: TaskId, events: seq<Event>, r: Result)
    requires Inv(sh, x) && !sh.poisoned && events != [] && Replays(x, id, events, r)
    ensures Enabled(sh, x, ReplayAck(id))
    ensures var y := Apply(sh, x, ReplayAck(id));
            Replays(y, id, events[1..], r)
            && Sent(x, y, FirstOf(events[1..]), LastIf(events[1..] == [], r), {events[0].seq_})
  {
    ReplayAckFinds(sh, x, id, events, r);
    hide Inv, Apply, Enabled, AckedEntry, TaskFieldsFit, MarksFit;
    StepTasks(sh, x, ReplayAck(id));
    StepMarks(sh, x, ReplayAck(id));
    AfterReplayAck(x, Apply(sh, x, ReplayAck(id)), id, events, r);
  }

  lemma ReplayAckFinds(sh: Shared, x: Slot, id: TaskId, events: seq<Event>, r: Result)
    requires !sh.poisoned && events != [] && Replays(x, id, events, r)
    ensures Enabled(sh, x, ReplayAck(id)) && x.tasks[id] == Replaying(events[0], events[1..], r)
    ensures var f := AckedEntry(x, events[0]);
            && f.Ok? && f.value.events == x.entry.value.events && f.value.result == Some(r)
            && Apply(sh, x, ReplayAck(id)).entry == Some(f.value)
  {
    hide Noted;
  }

  lemma AfterReplayAck(x: Slot, y: Slot, id: TaskId, events: seq<Event>, r: Result)
    requires events != [] && Replays(x, id, events, r) && x.tasks[id] == Replaying(events[0], events[1..], r)
    requires var f := AckedEntry(x, events[0]);
             f.Ok? && f.value.events == x.entry.value.events && f.value.result == Some(r) && y.entry == Some(f.value)
    requires TaskFieldsFit(x, y, ReplayAck(id)) && MarksFit(x, y, ReplayAck(id))
    ensures Replays(y, id, events[1..], r)
            && Sent(x, y, FirstOf(events[1..]), LastIf(events[1..] == [], r), {events[0].seq_})
  {
    hide AckedEntry;
  }

  lemma ReplayEnds(sh: Shared, x: Slot, id: TaskId, r: Result)
    requires Inv(sh, x) && !sh.poisoned && Replays(x, id, [], r)
    ensures Enabled(sh, x, ResultAck(id))
    ensures var y := Apply(sh, x, ResultAck(id));
            Delivered(y) && Sent(x, y, [], [], {})
  {
    ResultAckEnabled(sh, x, id);
    StepTasks(sh, x, ResultAck(id));
    StepMarks(sh, x, ResultAck(id));
    AcknowledgedResultIsGone(sh, x, id);
    hide Inv, Apply, AckedEntry, Enabled;
  }

  lemma ResultAckEnabled(sh: Shared, x: Slot, id: TaskId)
    requires !sh.poisoned && id in x.tasks && x.tasks[id].SendingResult?
    ensures Enabled(sh, x, ResultAck(id))
  {
  }

  lemma ReplayFinishes(sh: Shared, x: Slot, id: TaskId, events: seq<Event>, r: Result) returns (steps: seq<Step>)
    requires Inv(sh, x) && !sh.poisoned && Replays(x, id, events, r)
    ensures Goes(sh, x, steps) && Delivered(Gone(sh, x, steps))
    ensures forall i :: 0 <= i < |steps| ==> steps[i] in {ReplayAck(id), ResultAck(id)}
    ensures Sent(x, Gone(sh, x, steps), RestOf(events), LastIf(events != [], r), SeqsOf(events))
    decreases |events|
  {
    hide *;
    if events == [] {
      ReplayEnds(sh, x, id, r);
      NoSteps(sh, Apply(sh, x, ResultAck(id)));
      GoesFirst(sh, x, ResultAck(id), []);
      PartsOf([], r);
      steps := [ResultAck(id)] + [];
    } else {
      ReplayGoesOn(sh, x, id, events, r);
      StepKeeps(sh, x, ReplayAck(id));
      var y := Apply(sh, x, ReplayAck(id));
      var rest := ReplayFinishes(sh, y, id, events[1..], r);
      steps := [ReplayAck(id)] + rest;
      GoesFirst(sh, x, ReplayAck(id), rest);
      RestIsSent(x, y, Gone(sh, y, rest), events, r);
    }
  }

  /**
   * When Core misses Events that are stored, the replay sends exactly those again, in the order
   * of its ranges, and the same Result after them; once Core has acknowledged them the record goes.
   */
  lemma ReplayCanFinish(sh: Shared, x: Slot, id: TaskId, ranges: seq<Range>, events: seq<Event>)
    returns (steps: seq<Step>)
    requires Inv(sh, x) && Enabled(sh, x, Missing(id, ranges, events))
    ensures Goes(sh, x, steps) && steps != [] && steps[0] == Missing(id, ranges, events)
    ensures forall i :: 0 < i < |steps| ==> steps[i] in {ReplayAck(id), ResultAck(id)}
    ensures var y := Gone(sh, x, steps);
            Delivered(y) && Sent(x, y, events, [x.tasks[id].result], SeqsOf(events))
  {
    hide *;
    ReplayBegins(sh, x, id, ranges, events);
    StepKeeps(sh, x, Missing(id, ranges, events));
    var y, r := Apply(sh, x, Missing(id, ranges, events)), x.tasks[id].result;
    var rest := ReplayFinishes(sh, y, id, events, r);
    GoesFirst(sh, x, Missing(id, ranges, events), rest);
    steps := [Missing(id, ranges, events)] + rest;
    SentThen(x, y, Gone(sh, y, rest), FirstOf(events), LastIf(events == [], r), {},
             RestOf(events), LastIf(events != [], r), SeqsOf(events));
    PartsOf(events, r);
    assert {} + SeqsOf(events) == SeqsOf(events);
  }

  lemma ReplayBegins(sh: Shared, x: Slot, id: TaskId, ranges: seq<Range>, events: seq<Event>)
    requires Inv(sh, x) && Enabled(sh, x, Missing(id, ranges, events))
    ensures id in x.tasks && x.tasks[id].SendingResult?
    ensures var y, r := Apply(sh, x, Missing(id, ranges, events)), x.tasks[id].result;
            Replays(y, id, events, r) && Sent(x, y, FirstOf(events), LastIf(events == [], r), {}) && !sh.poisoned
  {
    assert ResultLive(x, x.tasks[id].result) && TaskFits(x, sh.epoch, id, x.tasks[id]);
    StepTasks(sh, x, Missing(id, ranges, events));
    StepMarks(sh, x, Missing(id, ranges, events));
    SelectedAreStored(sh, x, ranges, events);
    MissingKeepsRecord(sh, x, id, ranges, events);
    hide Inv, Apply, Enabled, AckedEntry;
  }

  lemma SelectedAreStored(sh: Shared, x: Slot, ranges: seq<Range>, events: seq<Event>)
    requires Inv(sh, x) && x.entry.Some? && Selects(x.entry.value.events, Expanded(ranges), events)
    ensures AreStored(x.entry.value, events)
  {
    RecordIsSound(sh, x);
    forall i | 0 <= i < |events| ensures events[i].seq_ in x.entry.value.events
                                         && x.entry.value.events[events[i].seq_] == events[i] {
      assert SelectsAt(x.entry.value.events, Expanded(ranges)[i], events[i]);
      assert EventFits(x.entry.value, Expanded(ranges)[i]);
    }
    hide Inv;
  }

  lemma MissingKeepsRecord(sh: Shared, x: Slot, id: TaskId, ranges: seq<Range>, events: seq<Event>)
    requires Enabled(sh, x, Missing(id, ranges, events))
    ensures Apply(sh, x, Missing(id, ranges, events)).entry == x.entry && !sh.poisoned
  {
  }
}
