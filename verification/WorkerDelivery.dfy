/** What the worker can carry through: from an offer to the last acknowledgement, whatever the handler emits. */
module WorkerDelivery {
  import opened Prelude
  import opened Acks
  import opened Journal
  import opened Worker
  import opened WorkerInvariant
  import opened WorkerRuns
  import opened WorkerEffects
  import opened WorkerGrants
  import opened WorkerFields

  // ---------------------------------------------------------------- steps of one attempt

  ghost predicate Goes(sh: Shared, x: Slot, steps: seq<Step>)
    decreases |steps|
  {
    steps == [] || (Enabled(sh, x, steps[0]) && Goes(sh, Apply(sh, x, steps[0]), steps[1..]))
  }

  ghost function Gone(sh: Shared, x: Slot, steps: seq<Step>): Slot
    requires Goes(sh, x, steps)
    decreases |steps|
  {
    if steps == [] then x else Gone(sh, Apply(sh, x, steps[0]), steps[1..])
  }

  lemma GoesFirst(sh: Shared, x: Slot, step: Step, steps: seq<Step>)
    requires Enabled(sh, x, step) && Goes(sh, Apply(sh, x, step), steps)
    ensures Goes(sh, x, [step] + steps) && Gone(sh, x, [step] + steps) == Gone(sh, Apply(sh, x, step), steps)
  {
    assert ([step] + steps)[1..] == steps;
    hide Enabled, Apply;
  }

  lemma {:induction false} GoesOnWith(sh: Shared, x: Slot, steps: seq<Step>, more: seq<Step>)
    requires Goes(sh, x, steps) && Goes(sh, Gone(sh, x, steps), more)
    ensures Goes(sh, x, steps + more) && Gone(sh, x, steps + more) == Gone(sh, Gone(sh, x, steps), more)
    decreases |steps|
  {
    hide Enabled, Apply;
    if steps == [] {
      assert steps + more == more;
    } else {
      GoesOnWith(sh, Apply(sh, x, steps[0]), steps[1..], more);
      assert (steps + more)[1..] == steps[1..] + more;
    }
  }

  lemma {:induction false} GoesKeeps(sh: Shared, x: Slot, steps: seq<Step>)
    requires Inv(sh, x) && Goes(sh, x, steps)
    ensures Inv(sh, Gone(sh, x, steps))
    decreases |steps|
  {
    hide Inv, Enabled, Apply;
    if steps != [] {
      StepKeeps(sh, x, steps[0]);
      GoesKeeps(sh, Apply(sh, x, steps[0]), steps[1..]);
    }
  }

  // ---------------------------------------------------------------- the spool runs dry

  /** The acknowledgement of the first pending Event takes it from the pending ones. */
  lemma AckShortens(e: Entry)
    requires Sound(e) && Pending(e) != []
    ensures var v := Pending(e)[0];
            var f := EventAcked(e, v.id, v.seq_);
            && f.Ok? && Sound(f.value) && f.value == e.(rec := e.rec.(acks := f.value.rec.acks))
            && Pending(f.value) == Pending(e)[1..] && PendingSeqs(e) == PendingSeqs(f.value) + {v.seq_}
  {
    var order := Sorted(PendingSeqs(e));
    var m := order[0];
    assert m in PendingSeqs(e) && EventFits(e, m);
    EventAckedSound(e, e.events[m].id, m);
    var f := EventAcked(e, e.events[m].id, m).value;
    PendingWithout(e, f, m);
    FirstGoes(order, PendingSeqs(f));
    hide Sound, PendingSeqs, Sorted, EventAcked;
  }

  lemma PendingWithout(e: Entry, f: Entry, m: nat)
    requires f.events == e.events && m in PendingSeqs(e) && (forall n :: n in e.events ==> n > 0)
    requires Meaning(f.rec.acks) == Meaning(e.rec.acks) + {m}
    ensures PendingSeqs(f) == PendingSeqs(e) - {m}
  {
  }

  lemma FirstGoes(order: seq<nat>, rest: set<nat>)
    requires order != [] && Ascending(order) && rest == Members(order) - {order[0]}
    ensures Sorted(rest) == order[1..]
  {
    assert forall n :: n in order[1..] <==> n in rest;
    AscendingUnique(Sorted(rest), order[1..]);
  }

  /** A flush is on its way with everything that is pending. */
  ghost predicate Sending(x: Slot, id: TaskId) {
    && x.entry.Some? && x.entry.value.rec.state == Finished && x.entry.value.result.Some?
    && x.lock == Some(id) && id in x.tasks
    && Some(x.tasks[id]) == FlushGoesTo(x.entry.value, Pending(x.entry.value), true)
  }

  function SeqsOf(events: seq<Event>): set<nat> {
    set v | v in events :: v.seq_
  }

  /** What was sent and acknowledged between the two. */
  predicate Sent(x: Slot, y: Slot, events: seq<Event>, results: seq<Result>, acked: set<nat>) {
    && y.past.sentEvents == x.past.sentEvents + events && y.past.sentResults == x.past.sentResults + results
    && y.past.acked == x.past.acked + acked
  }

  lemma SentThen(x: Slot, y: Slot, z: Slot, events: seq<Event>, results: seq<Result>, acked: set<nat>,
                 moreEvents: seq<Event>, moreResults: seq<Result>, moreAcked: set<nat>)
    requires Sent(x, y, events, results, acked) && Sent(y, z, moreEvents, moreResults, moreAcked)
    ensures Sent(x, z, events + moreEvents, results + moreResults, acked + moreAcked)
  {
  }

  /** Nothing is left of the record, and Core has the Result. */
  predicate Delivered(y: Slot) {
    y.entry == None && y.past.resultAcked && !y.active && y.permit == None
  }

  /** What a flush sends with these Events pending, as it begins and after that. */
  function FirstOf(events: seq<Event>): seq<Event> {
    if events == [] then [] else [events[0]]
  }

  function RestOf(events: seq<Event>): seq<Event> {
    if events == [] then [] else events[1..]
  }

  function LastIf(last: bool, r: Result): seq<Result> {
    if last then [r] else []
  }

  /** One acknowledged Event: the flush is on its way with the rest. */
  lemma SendingGoesOn(sh: Shared, x: Slot, id: TaskId)
    requires Inv(sh, x) && !sh.poisoned && Sending(x, id) && Pending(x.entry.value) != []
    ensures Enabled(sh, x, EventAck(id))
    ensures var e, y := x.entry.value, Apply(sh, x, EventAck(id));
            && Sending(y, id) && Pending(y.entry.value) == Pending(e)[1..] && y.entry.value.result == e.result
            && Sent(x, y, FirstOf(Pending(e)[1..]), LastIf(Pending(e)[1..] == [], e.result.value),
                    {Pending(e)[0].seq_})
  {
    var e := x.entry.value;
    RecordIsSound(sh, x);
    hide Inv, Sound, PendingSeqs, Pending, Apply, EventAcked, DueResults, TaskFieldsFit, MarksFit, Sent;
    AckFinds(x, id);
    assert Enabled(sh, x, EventAck(id)) by { AckEnabled(sh, x, id); }
    hide AckedEntry, Sending, Enabled;
    StepTasks(sh, x, EventAck(id));
    StepMarks(sh, x, EventAck(id));
    FlushContinues(sh, x, id);
    AfterAck(x, Apply(sh, x, EventAck(id)), id, AckedEntry(x, Pending(e)[0]).value);
  }

  lemma AckEnabled(sh: Shared, x: Slot, id: TaskId)
    requires !sh.poisoned && id in x.tasks && x.tasks[id].SendingEvent?
    ensures Enabled(sh, x, EventAck(id))
  {
  }

  lemma AckFinds(x: Slot, id: TaskId)
    requires Sending(x, id) && Sound(x.entry.value) && Pending(x.entry.value) != []
    ensures var e := x.entry.value;
            var f := AckedEntry(x, Pending(e)[0]);
            && x.tasks[id] == SendingEvent(Pending(e)[0], Pending(e)[1..], true)
            && f.Ok? && f.value == e.(rec := e.rec.(acks := f.value.rec.acks)) && Pending(f.value) == Pending(e)[1..]
  {
    AckShortens(x.entry.value);
    hide Sound, Pending, EventAcked;
  }

  lemma AfterAck(x: Slot, y: Slot, id: TaskId, f: Entry)
    requires Sending(x, id) && x.tasks[id].SendingEvent? && Pending(f) == Pending(x.entry.value)[1..]
    requires Pending(x.entry.value) != [] && AckedEntry(x, Pending(x.entry.value)[0]) == Ok(f)
    requires f == x.entry.value.(rec := x.entry.value.rec.(acks := f.rec.acks)) && y.entry == Some(f)
    requires TaskFieldsFit(x, y, EventAck(id)) && MarksFit(x, y, EventAck(id))
    ensures var e := x.entry.value;
            Sending(y, id)
            && Sent(x, y, FirstOf(Pending(e)[1..]), LastIf(Pending(e)[1..] == [], e.result.value), {Pending(e)[0].seq_})
  {
    hide Pending, AckedEntry;
  }

  lemma RecordIsSound(sh: Shared, x: Slot)
    requires Inv(sh, x) && x.entry.Some?
    ensures Sound(x.entry.value) && (x.entry.value.rec.state == Finished ==> x.entry.value.result.Some?)
  {
    hide Live, PastFits;
  }

  lemma LastAck(sh: Shared, x: Slot, id: TaskId)
    requires Inv(sh, x) && !sh.poisoned && Sending(x, id) && Pending(x.entry.value) == []
    ensures Enabled(sh, x, ResultAck(id))
    ensures var y := Apply(sh, x, ResultAck(id));
            Delivered(y) && Sent(x, y, [], [], {})
  {
    StepTasks(sh, x, ResultAck(id));
    StepMarks(sh, x, ResultAck(id));
    AcknowledgedResultIsGone(sh, x, id);
    hide Inv, Apply, Pending, AckedEntry;
  }

  /** From the start of a flush to the end of the record, while Core acknowledges what it is sent. */
  lemma FlushFinishes(sh: Shared, x: Slot, id: TaskId) returns (steps: seq<Step>)
    requires Inv(sh, x) && !sh.poisoned && Sending(x, id)
    ensures Goes(sh, x, steps) && Delivered(Gone(sh, x, steps))
    ensures forall i :: 0 <= i < |steps| ==> steps[i] in {EventAck(id), ResultAck(id)}
    ensures var events, r := Pending(x.entry.value), x.entry.value.result.value;
            Sent(x, Gone(sh, x, steps), RestOf(events), LastIf(events != [], r), SeqsOf(events))
    decreases |Pending(x.entry.value)|
  {
    hide *;
    SendingHas(x, id);
    if Pending(x.entry.value) == [] {
      LastAck(sh, x, id);
      NoSteps(sh, Apply(sh, x, ResultAck(id)));
      GoesFirst(sh, x, ResultAck(id), []);
      PartsOf([], x.entry.value.result.value);
      steps := [ResultAck(id)] + [];
    } else {
      SendingGoesOn(sh, x, id);
      StepKeeps(sh, x, EventAck(id));
      var y := Apply(sh, x, EventAck(id));
      var rest := FlushFinishes(sh, y, id);
      steps := [EventAck(id)] + rest;
      GoesFirst(sh, x, EventAck(id), rest);
      RestIsSent(x, y, Gone(sh, y, rest), Pending(x.entry.value), x.entry.value.result.value);
    }
  }

  lemma SendingHas(x: Slot, id: TaskId)
    requires Sending(x, id)
    ensures x.entry.Some? && x.entry.value.result.Some?
  {
  }

  lemma RestIsSent(x: Slot, y: Slot, z: Slot, events: seq<Event>, r: Result)
    requires events != []
    requires Sent(x, y, FirstOf(events[1..]), LastIf(events[1..] == [], r), {events[0].seq_})
    requires Sent(y, z, RestOf(events[1..]), LastIf(events[1..] != [], r), SeqsOf(events[1..]))
    ensures Sent(x, z, RestOf(events), LastIf(events != [], r), SeqsOf(events))
  {
    var more := events[1..];
    hide Sent, FirstOf, RestOf, LastIf, SeqsOf;
    SentThen(x, y, z, FirstOf(more), LastIf(more == [], r), {events[0].seq_},
             RestOf(more), LastIf(more != [], r), SeqsOf(more));
    PartsOf(events, r);
    PartsOf(more, r);
  }

  lemma NoSteps(sh: Shared, x: Slot)
    ensures Goes(sh, x, []) && Gone(sh, x, []) == x
  {
  }

  lemma PartsOf(events: seq<Event>, r: Result)
    ensures FirstOf(events) + RestOf(events) == events
    ensures LastIf(events == [], r) + LastIf(events != [], r) == [r]
    ensures events != [] ==> {events[0].seq_} + SeqsOf(events[1..]) == SeqsOf(events)
    ensures if events == [] then RestOf(events) == [] && SeqsOf(events) == {} else RestOf(events) == events[1..]
    ensures LastIf(true, r) == [r] && LastIf(false, r) == []
  {
    assert events != [] ==> events == [events[0]] + events[1..];
  }

  /**
   * Whatever has happened before: a finished record with everything allowed and no message on
   * the way can be delivered by one flush. It sends the pending Events in order and then the
   * Result, and it ends with all of them acknowledged and the record gone.
   */
  lemma DeliveryCanFinish(sh: Shared, x: Slot, id: TaskId) returns (steps: seq<Step>)
    requires Inv(sh, x) && !sh.poisoned && x.entry.Some? && x.entry.value.rec.state == Finished
    requires x.permit == Some(ALL) && x.lock == None && id !in x.tasks
    ensures Goes(sh, x, steps) && Delivered(Gone(sh, x, steps))
    ensures forall i :: 0 <= i < |steps| ==> steps[i] in {FlushSpawn(id), FlushLock(id), EventAck(id), ResultAck(id)}
    ensures var events, r := Pending(x.entry.value), x.entry.value.result;
            r.Some? && Sent(x, Gone(sh, x, steps), events, [r.value], SeqsOf(events))
  {
    hide *;
    SpawnIs(sh, x, id);
    RecordIsSound(sh, x);
    StepKeeps(sh, x, FlushSpawn(id));
    var y, events, r := Apply(sh, x, FlushSpawn(id)), Pending(x.entry.value), x.entry.value.result.value;
    StepKeeps(sh, y, FlushLock(id));
    FlushStarts(sh, y, id);
    var z := Apply(sh, y, FlushLock(id));
    var rest := FlushFinishes(sh, z, id);
    GoesFirst(sh, y, FlushLock(id), rest);
    GoesFirst(sh, x, FlushSpawn(id), [FlushLock(id)] + rest);
    steps := [FlushSpawn(id)] + ([FlushLock(id)] + rest);
    SentThen(y, z, Gone(sh, z, rest), FirstOf(events), LastIf(events == [], r), {},
             RestOf(events), LastIf(events != [], r), SeqsOf(events));
    PartsOf(events, r);
    SentThen(x, y, Gone(sh, z, rest), [], [], {}, events, [r], {} + SeqsOf(events));
    assert [] + events == events && [] + [r] == [r] && {} + ({} + SeqsOf(events)) == SeqsOf(events);
  }

  lemma SpawnIs(sh: Shared, x: Slot, id: TaskId)
    requires id !in x.tasks && x.lock == None && !sh.poisoned
    ensures Enabled(sh, x, FlushSpawn(id))
    ensures var y := Apply(sh, x, FlushSpawn(id));
            && Enabled(sh, y, FlushLock(id)) && y.entry == x.entry && y.permit == x.permit
            && Sent(x, y, [], [], {})
  {
  }

  lemma FlushStarts(sh: Shared, y: Slot, id: TaskId)
    requires Inv(sh, y) && Enabled(sh, y, FlushLock(id)) && y.permit == Some(ALL)
    requires y.entry.Some? && y.entry.value.rec.state == Finished && y.entry.value.result.Some?
    ensures var e, z := y.entry.value, Apply(sh, y, FlushLock(id));
            && z.entry == y.entry && Sending(z, id)
            && Sent(y, z, FirstOf(Pending(e)), LastIf(Pending(e) == [], e.result.value), {})
  {
    StepTasks(sh, y, FlushLock(id));
    StepMarks(sh, y, FlushLock(id));
    FlushKeepsRecord(sh, y, id);
    hide Inv, Apply, Pending, AckedEntry;
  }

  lemma FlushKeepsRecord(sh: Shared, y: Slot, id: TaskId)
    requires Enabled(sh, y, FlushLock(id))
    ensures Apply(sh, y, FlushLock(id)).entry == y.entry
  {
    hide Pending, PendingSeqs;
  }

  // ---------------------------------------------------------------- from an offer to the end

  type Emission = (string, Fields)

  /** The Event of the i-th emission. */
  function EventOf(identity: Identity, emitted: seq<Emission>, i: nat): Event
    requires i < |emitted|
  {
    Event(identity, i, i + 1, emitted[i].0, emitted[i].1)
  }

  /** The Events of a handler that emitted this much, in order. */
  function EventsOf(identity: Identity, emitted: seq<Emission>): (events: seq<Event>)
    ensures |events| == |emitted| && forall i :: 0 <= i < |emitted| ==> events[i] == EventOf(identity, emitted, i)
  {
    seq(|emitted|, i requires 0 <= i < |emitted| => EventOf(identity, emitted, i))
  }

  ghost predicate Holds(e: Entry, identity: Identity, emitted: seq<Emission>) {
    && e.rec.identity == identity && e.rec.last == |emitted| && e.rec.acks == Window(0, [])
    && e.events.Keys == UpTo(|emitted|)
    && forall n :: n in e.events ==> e.events[n] == EventOf(identity, emitted, n - 1)
  }

  predicate NothingSent(x: Slot) {
    && x.tasks == map[] && x.lock == None
    && x.past.sentEvents == [] && x.past.sentResults == [] && x.past.acked == {}
  }

  ghost predicate Working(x: Slot, identity: Identity, emitted: seq<Emission>) {
    && x.entry.Some? && x.entry.value.rec.state == Started && x.entry.value.result == None
    && Holds(x.entry.value, identity, emitted)
    && x.handler == Some(Handler(Running, false)) && NothingSent(x)
  }

  /** Offered, confirmed and called. */
  lemma Opening(sh: Shared, identity: Identity, input: Fields)
    requires !sh.poisoned && !sh.draining && identity.epoch == sh.epoch
    ensures var steps := [Offer(identity, input, true), Confirm, Begin];
            Goes(sh, EMPTY_SLOT, steps) && Working(Gone(sh, EMPTY_SLOT, steps), identity, [])
  {
    hide *;
    var x := EMPTY_SLOT;
    OfferOpens(sh, identity, input);
    var y := Apply(sh, x, Offer(identity, input, true));
    ConfirmOpens(sh, y, identity, input);
    var z := Apply(sh, y, Confirm);
    BeginOpens(sh, z, identity, input);
    NoSteps(sh, Apply(sh, z, Begin));
    GoesFirst(sh, z, Begin, []);
    GoesFirst(sh, y, Confirm, [Begin] + []);
    GoesFirst(sh, x, Offer(identity, input, true), [Confirm] + ([Begin] + []));
    var steps: seq<Step> := [Offer(identity, input, true), Confirm, Begin];
    assert steps == [Offer(identity, input, true)] + ([Confirm] + ([Begin] + []));
  }

  lemma BeginOpens(sh: Shared, z: Slot, identity: Identity, input: Fields)
    requires z.entry == Some(Entry(NewAssignment(identity, input).(state := Started), map[], None))
    requires z.handler == Some(Handler(Spawned, false)) && NothingSent(z)
    ensures Enabled(sh, z, Begin) && Working(Apply(sh, z, Begin), identity, [])
  {
  }

  lemma OfferOpens(sh: Shared, identity: Identity, input: Fields)
    requires !sh.poisoned && !sh.draining && identity.epoch == sh.epoch
    ensures Enabled(sh, EMPTY_SLOT, Offer(identity, input, true))
    ensures var y := Apply(sh, EMPTY_SLOT, Offer(identity, input, true));
            && y.entry == Some(Entry(NewAssignment(identity, input).(state := AckSent), map[], None))
            && y.claim == AwaitConfirm && !y.active && !y.terminal && !y.past.late && NothingSent(y)
  {
  }

  lemma ConfirmOpens(sh: Shared, y: Slot, identity: Identity, input: Fields)
    requires !sh.poisoned && y.entry == Some(Entry(NewAssignment(identity, input).(state := AckSent), map[], None))
    requires y.claim == AwaitConfirm && !y.active && !y.terminal && !y.past.late && NothingSent(y)
    ensures Enabled(sh, y, Confirm)
    ensures var z := Apply(sh, y, Confirm);
            && z.entry == Some(Entry(NewAssignment(identity, input).(state := Started), map[], None))
            && z.handler == Some(Handler(Spawned, false)) && NothingSent(z)
  {
  }

  /** One emission. */
  lemma EmitGoesOn(sh: Shared, x: Slot, identity: Identity, emitted: seq<Emission>, kind: string, payload: Fields)
    requires Inv(sh, x) && !sh.poisoned && Working(x, identity, emitted)
    ensures Enabled(sh, x, Emit(|emitted|, kind, payload))
    ensures Working(Apply(sh, x, Emit(|emitted|, kind, payload)), identity, emitted + [(kind, payload)])
  {
    var e, id := x.entry.value, |emitted|;
    EmitEnabled(sh, x, identity, emitted, kind, payload);
    hide Inv, Holds, Enabled, EventOf, EmitStep, Appended;
    AppendedIs(e, id, kind, payload);
    HoldsMore(e, Appended(e, id, kind, payload).value, identity, emitted, kind, payload);
    EmitCommits(sh, x, id, kind, payload);
    EmitIdle(sh, x, id, kind, payload);
    HandlerMarks(sh, x, id, kind, payload, 0);
  }

  lemma EmitEnabled(sh: Shared, x: Slot, identity: Identity, emitted: seq<Emission>, kind: string, payload: Fields)
    requires !sh.poisoned && Working(x, identity, emitted)
    ensures Enabled(sh, x, Emit(|emitted|, kind, payload))
  {
    assert forall k :: k in x.entry.value.events ==> x.entry.value.events[k].id == k - 1;
  }

  lemma EmitCommits(sh: Shared, x: Slot, id: EventId, kind: string, payload: Fields)
    requires x.entry.Some? && Appended(x.entry.value, id, kind, payload).Ok?
    ensures var y := EmitStep(sh, x, id, kind, payload);
            y.entry == Some(Appended(x.entry.value, id, kind, payload).value) && y.handler == x.handler
  {
    hide Appended, Noted;
  }

  lemma HoldsMore(e: Entry, f: Entry, identity: Identity, emitted: seq<Emission>, kind: string, payload: Fields)
    requires Holds(e, identity, emitted)
    requires var n := |emitted| + 1;
             f == Entry(e.rec.(last := n), e.events[n := Event(e.rec.identity, n - 1, n, kind, payload)], e.result)
    ensures Holds(f, identity, emitted + [(kind, payload)])
  {
  }

  /** All emissions from the k-th on. */
  lemma EmitAll(sh: Shared, x: Slot, identity: Identity, emitted: seq<Emission>, k: nat) returns (steps: seq<Step>)
    requires Inv(sh, x) && !sh.poisoned && k <= |emitted| && Working(x, identity, emitted[..k])
    ensures Goes(sh, x, steps) && Working(Gone(sh, x, steps), identity, emitted)
    ensures forall i :: 0 <= i < |steps| ==> steps[i].Emit?
    decreases |emitted| - k
  {
    hide *;
    NoSteps(sh, x);
    if k == |emitted| {
      assert emitted[..k] == emitted;
      return [];
    }
    var (kind, payload) := emitted[k];
    EmitGoesOn(sh, x, identity, emitted[..k], kind, payload);
    StepKeeps(sh, x, Emit(k, kind, payload));
    assert emitted[..k] + [(kind, payload)] == emitted[..k + 1];
    var rest := EmitAll(sh, Apply(sh, x, Emit(k, kind, payload)), identity, emitted, k + 1);
    steps := [Emit(k, kind, payload)] + rest;
    GoesFirst(sh, x, Emit(k, kind, payload), rest);
  }

  function ResultOf(identity: Identity, body: Fields, final: nat): Result {
    Result(identity, Uuid(0), final, Payload(body, Some(Uuid(0)), Some(final)))
  }

  /** Returned and stored. */
  lemma Closing(sh: Shared, x: Slot, identity: Identity, emitted: seq<Emission>, body: Fields)
    requires Inv(sh, x) && !sh.poisoned && Working(x, identity, emitted)
    ensures var steps := [Return, StoreResult(body, 0)];
            && Goes(sh, x, steps)
            && var y := Gone(sh, x, steps);
               && y.entry.Some? && y.entry.value.rec.state == Finished && Holds(y.entry.value, identity, emitted)
               && y.entry.value.result == Some(ResultOf(identity, body, |emitted|))
               && y.permit == Some(ALL) && NothingSent(y)
  {
    hide *;
    ReturnCloses(sh, x, identity, emitted);
    StepKeeps(sh, x, Return);
    var y := Apply(sh, x, Return);
    StoreCloses(sh, y, identity, emitted, body);
    NoSteps(sh, Apply(sh, y, StoreResult(body, 0)));
    GoesFirst(sh, y, StoreResult(body, 0), []);
    GoesFirst(sh, x, Return, [StoreResult(body, 0)] + []);
    var steps: seq<Step> := [Return, StoreResult(body, 0)];
    assert steps == [Return] + ([StoreResult(body, 0)] + []);
  }

  ghost predicate Returned(y: Slot, identity: Identity, emitted: seq<Emission>) {
    && y.entry.Some? && y.entry.value.rec.state == Started && Holds(y.entry.value, identity, emitted)
    && y.handler == Some(Handler(Storing, false)) && NothingSent(y)
  }

  lemma ReturnCloses(sh: Shared, x: Slot, identity: Identity, emitted: seq<Emission>)
    requires Working(x, identity, emitted)
    ensures Enabled(sh, x, Return) && Returned(Apply(sh, x, Return), identity, emitted)
  {
    hide Holds;
  }

  lemma StoreCloses(sh: Shared, y: Slot, identity: Identity, emitted: seq<Emission>, body: Fields)
    requires Inv(sh, y) && !sh.poisoned && Returned(y, identity, emitted)
    ensures Enabled(sh, y, StoreResult(body, 0))
    ensures var z := Apply(sh, y, StoreResult(body, 0));
            && z.entry.Some? && z.entry.value.rec.state == Finished && Holds(z.entry.value, identity, emitted)
            && z.entry.value.result == Some(ResultOf(identity, body, |emitted|))
            && z.permit == Some(ALL) && NothingSent(z)
  {
    StoreEnabled(sh, y, body);
    hide Inv, StoreStep, Enabled, Holds;
    StoreFinishes(sh, y, body, 0);
    StoreIdle(sh, y, body, 0);
    HandlerMarks(sh, y, 0, "", body, 0);
    HoldsStill(y.entry.value, Apply(sh, y, StoreResult(body, 0)).entry.value, identity, emitted);
  }

  lemma StoreEnabled(sh: Shared, y: Slot, body: Fields)
    requires !sh.poisoned && y.handler == Some(Handler(Storing, false)) && y.lock == None
    ensures Enabled(sh, y, StoreResult(body, 0))
  {
  }

  lemma HoldsStill(e: Entry, f: Entry, identity: Identity, emitted: seq<Emission>)
    requires Holds(e, identity, emitted) && f.events == e.events
    requires f.rec == e.rec.(state := f.rec.state, resultId := f.rec.resultId, finalSeq := f.rec.finalSeq)
    ensures Holds(f, identity, emitted) && e.rec.identity == identity && e.rec.last == |emitted|
  {
  }

  /** Nothing acknowledged: all Events are pending, in the order of their sequences. */
  lemma AllPending(e: Entry, identity: Identity, emitted: seq<Emission>)
    requires Holds(e, identity, emitted)
    ensures Pending(e) == EventsOf(identity, emitted) && SeqsOf(Pending(e)) == UpTo(|emitted|)
  {
    hide *;
    PendingLength(e, identity, emitted);
    AllUnacked(e, identity, emitted);
    SequencesOf(identity, emitted);
    var pending, events := Pending(e), EventsOf(identity, emitted);
    forall i | 0 <= i < |emitted| ensures pending[i] == events[i] {
      PendingAt(e, identity, emitted, i);
    }
    assert pending == events;
  }

  lemma PendingLength(e: Entry, identity: Identity, emitted: seq<Emission>)
    requires Holds(e, identity, emitted)
    ensures |Pending(e)| == |emitted|
  {
    AllUnacked(e, identity, emitted);
    SortedUpTo(|emitted|);
    hide PendingSeqs, Sorted, UpTo, Holds;
  }

  lemma PendingAt(e: Entry, identity: Identity, emitted: seq<Emission>, i: nat)
    requires Holds(e, identity, emitted) && i < |emitted|
    ensures i < |Pending(e)| && Pending(e)[i] == EventOf(identity, emitted, i)
  {
    AllUnacked(e, identity, emitted);
    PendingLength(e, identity, emitted);
    assert Sorted(UpTo(|emitted|))[i] == i + 1 by { SortedUpTo(|emitted|); }
    assert i + 1 in e.events;
    hide PendingSeqs, Sorted, UpTo;
  }

  lemma AllUnacked(e: Entry, identity: Identity, emitted: seq<Emission>)
    requires Holds(e, identity, emitted)
    ensures PendingSeqs(e) == UpTo(|emitted|) && forall k :: 1 <= k <= |emitted| ==> k in e.events
  {
    assert forall k :: k in e.events ==> k in UpTo(|emitted|);
    assert forall k :: k in UpTo(|emitted|) ==> k in e.events;
    hide UpTo;
  }

  lemma SortedUpTo(n: nat)
    ensures |Sorted(UpTo(n))| == n && forall i :: 0 <= i < n ==> Sorted(UpTo(n))[i] == i + 1
  {
    var order: seq<nat> := seq(n, i requires 0 <= i < n => (i + 1) as nat);
    forall k: nat ensures k in order <==> k in UpTo(n) {
      if 1 <= k <= n {
        assert order[k - 1] == k;
      }
    }
    hide Sorted, UpTo;
    AscendingUnique(Sorted(UpTo(n)), order);
  }

  lemma SequencesOf(identity: Identity, emitted: seq<Emission>)
    ensures SeqsOf(EventsOf(identity, emitted)) == UpTo(|emitted|)
  {
    var events := EventsOf(identity, emitted);
    forall k ensures k in SeqsOf(events) <==> k in UpTo(|emitted|) {
      if 1 <= k <= |emitted| {
        assert events[k - 1].seq_ == k;
      }
    }
  }

  // ---------------------------------------------------------------- as a run of the worker

  function Acts(a: AttemptId, steps: seq<Step>): (moves: seq<Move>)
    ensures |moves| == |steps|
  {
    if steps == [] then [] else [Act(a, steps[0])] + Acts(a, steps[1..])
  }

  ghost predicate OffersFit(a: AttemptId, steps: seq<Step>) {
    forall i :: 0 <= i < |steps| && steps[i].Offer? ==> steps[i].identity.attempt == a
  }

  lemma {:induction false} ActsRun(w: World, a: AttemptId, steps: seq<Step>)
    requires Goes(w.sh, SlotOf(w, a), steps) && OffersFit(a, steps)
    ensures Run(w, Acts(a, steps))
    ensures SlotOf(After(w, Acts(a, steps)), a) == Gone(w.sh, SlotOf(w, a), steps)
    decreases |steps|
  {
    hide Enabled, Apply;
    if steps != [] {
      var v := Next(w, Act(a, steps[0]));
      assert Acts(a, steps)[1..] == Acts(a, steps[1..]);
      ActsRun(v, a, steps[1..]);
    }
  }

  lemma EmptyFits(sh: Shared, identity: Identity)
    ensures Inv(sh, EMPTY_SLOT) && forall epoch :: SlotOf(Fresh(epoch), identity.attempt) == EMPTY_SLOT
  {
    EmptyInv(sh);
  }

  /** The first half: the handler has emitted everything. */
  lemma ToTheEnd(sh: Shared, identity: Identity, input: Fields, emitted: seq<Emission>) returns (steps: seq<Step>)
    requires !sh.poisoned && !sh.draining && identity.epoch == sh.epoch
    ensures Goes(sh, EMPTY_SLOT, steps) && OffersFit(identity.attempt, steps)
    ensures var y := Gone(sh, EMPTY_SLOT, steps);
            Inv(sh, y) && Working(y, identity, emitted)
  {
    var first := [Offer(identity, input, true), Confirm, Begin];
    hide *;
    EmptyFits(sh, identity);
    Opening(sh, identity, input);
    GoesKeeps(sh, EMPTY_SLOT, first);
    assert emitted[..0] == [];
    var second := EmitAll(sh, Gone(sh, EMPTY_SLOT, first), identity, emitted, 0);
    GoesOnWith(sh, EMPTY_SLOT, first, second);
    GoesKeeps(sh, EMPTY_SLOT, first + second);
    OneOffer(identity, input, second);
    steps := first + second;
  }

  lemma OneOffer(identity: Identity, input: Fields, emits: seq<Step>)
    requires forall i :: 0 <= i < |emits| ==> emits[i].Emit?
    ensures OffersFit(identity.attempt, [Offer(identity, input, true), Confirm, Begin] + emits)
  {
  }

  /** The second half: it returns, and its spool runs dry. */
  lemma ToTheLastAck(sh: Shared, x: Slot, identity: Identity, emitted: seq<Emission>, body: Fields)
    returns (steps: seq<Step>)
    requires Inv(sh, x) && !sh.poisoned && Working(x, identity, emitted)
    ensures Goes(sh, x, steps) && OffersFit(identity.attempt, steps)
    ensures var y := Gone(sh, x, steps);
            && Delivered(y)
            && y.past.sentEvents == EventsOf(identity, emitted) && y.past.acked == UpTo(|emitted|)
            && y.past.sentResults == [ResultOf(identity, body, |emitted|)]
  {
    var first := [Return, StoreResult(body, 0)];
    hide *;
    Closing(sh, x, identity, emitted, body);
    var y := Gone(sh, x, first);
    GoesKeeps(sh, x, first);
    AllPending(y.entry.value, identity, emitted);
    NothingYet(y, 0);
    var second := DeliveryCanFinish(sh, y, 0);
    NoOffer(identity.attempt, body, second);
    var events, r := EventsOf(identity, emitted), ResultOf(identity, body, |emitted|);
    SentOnly(y, Gone(sh, y, second), events, [r], UpTo(|emitted|));
    GoesOnWith(sh, x, first, second);
    steps := first + second;
  }

  lemma NoOffer(a: AttemptId, body: Fields, steps: seq<Step>)
    requires forall i :: 0 <= i < |steps| ==> steps[i] in {FlushSpawn(0), FlushLock(0), EventAck(0), ResultAck(0)}
    ensures OffersFit(a, [Return, StoreResult(body, 0)] + steps)
  {
  }

  lemma OffersFitBoth(a: AttemptId, first: seq<Step>, second: seq<Step>)
    requires OffersFit(a, first) && OffersFit(a, second)
    ensures OffersFit(a, first + second)
  {
  }

  lemma NothingYet(x: Slot, id: TaskId)
    requires NothingSent(x)
    ensures x.lock == None && id !in x.tasks
  {
  }

  lemma SentOnly(x: Slot, y: Slot, events: seq<Event>, results: seq<Result>, acked: set<nat>)
    requires NothingSent(x) && Sent(x, y, events, results, acked)
    ensures y.past.sentEvents == events && y.past.sentResults == results && y.past.acked == acked
  {
  }

  /**
   * Whatever a handler emits and returns, there is a run of the worker in which its attempt is
   * offered and confirmed, the handler runs, every Event is sent once, in order and under the
   * sequences 1 to n, then the Result, and the record is gone with everything acknowledged.
   */
  lemma EverythingIsDelivered(epoch: nat, identity: Identity, input: Fields, emitted: seq<Emission>, body: Fields)
    returns (moves: seq<Move>)
    requires identity.epoch == epoch
    ensures Run(Fresh(epoch), moves)
    ensures var y := SlotOf(After(Fresh(epoch), moves), identity.attempt);
            && Delivered(y)
            && y.past.sentEvents == EventsOf(identity, emitted) && y.past.acked == UpTo(|emitted|)
            && y.past.sentResults == [ResultOf(identity, body, |emitted|)]
  {
    var w := Fresh(epoch);
    assert w.sh == Shared(epoch, false, false);
    hide *;
    EmptyFits(w.sh, identity);
    var first := ToTheEnd(w.sh, identity, input, emitted);
    var second := ToTheLastAck(w.sh, Gone(w.sh, EMPTY_SLOT, first), identity, emitted, body);
    GoesOnWith(w.sh, EMPTY_SLOT, first, second);
    OffersFitBoth(identity.attempt, first, second);
    ActsRun(w, identity.attempt, first + second);
    moves := Acts(identity.attempt, first + second);
  }
}
