/** When the sends of an Event or a Result agree, and runs in which they do not. */
module WorkerWire {
  import opened Prelude
  import opened Acks
  import opened Journal
  import opened Payloads
  import opened Worker
  import opened WorkerInvariant
  import opened WorkerRuns
  import opened WorkerPayloads
  import T = WorkerTheorems

  // ---------------------------------------------------------------- over every run

  /** The object was handed over for this Event. */
  predicate Handed(c: Contents, n: nat, o: Held) {
    n in c.given.events && c.given.events[n] == o
  }

  /** Two sends of an Event for which this object was handed over read the same. */
  ghost predicate EventSendsAgree(s: Machine, a: AttemptId, o: Held) {
    var c, sent := ContentsOf(s, a), SlotOf(s.world, a).past.sentEvents;
    && |c.events| == |sent|
    && forall i, j ::
         0 <= i < j < |sent| && sent[i].seq_ == sent[j].seq_ && Handed(c, sent[i].seq_, o) ==>
           c.events[i] == c.events[j]
  }

  ghost predicate ResultSendsAgree(s: Machine, a: AttemptId, o: Held) {
    var c, sent := ContentsOf(s, a), SlotOf(s.world, a).past.sentResults;
    && |c.results| == |sent|
    && (c.given.result == Some(o) ==> forall i, j :: 0 <= i < j < |sent| ==> c.results[i] == c.results[j])
  }

  /** An offer that comes again with the same input finds that input. */
  ghost predicate InputStays(s: Machine, a: AttemptId, o: Held) {
    ContentsOf(s, a).given.input == Some(o) ==> InputText(s, a) == ContentsOf(s, a).offered
  }

  /**
   * Over every run, with handlers that change their objects at any time, faults and restarts: a
   * send of an Event for which no object with a nested list or object was handed over carries the
   * payload of its file, and so does a send of the Result.
   */
  lemma SendsCarryTheFiles(epoch: nat, heap: Heap, turns: seq<Turn>, a: AttemptId)
    requires Turns(Begun(epoch, heap), turns)
    ensures var s := AtEnd(Begun(epoch, heap), turns);
            var c, p := ContentsOf(s, a), SlotOf(s.world, a).past;
            && |c.events| == |p.sentEvents| && |c.results| == |p.sentResults|
            && (forall i :: 0 <= i < |p.sentEvents| && FlatEvent(c.given, p.sentEvents[i]) ==>
                  c.events[i] == p.sentEvents[i].payload)
            && (forall i :: 0 <= i < |p.sentResults| && FlatResult(c.given) ==>
                  c.results[i] == p.sentResults[i].payload.body)
  {
    ContentsReached(epoch, heap, turns, a);
    hide Turns, AtEnd, MachineInv;
  }

  lemma FlatSendsAgree(epoch: nat, heap: Heap, turns: seq<Turn>, a: AttemptId, o: Held)
    requires Turns(Begun(epoch, heap), turns) && Flat(o)
    ensures var s := AtEnd(Begun(epoch, heap), turns);
            EventSendsAgree(s, a, o) && ResultSendsAgree(s, a, o) && InputStays(s, a, o)
  {
    var s := AtEnd(Begun(epoch, heap), turns);
    ContentsReached(epoch, heap, turns, a);
    var c, x := ContentsOf(s, a), SlotOf(s.world, a);
    assert PastFits(x.past, s.world.sh.epoch) by { PastOf(s.world, a); }
    hide Turns, AtEnd, MachineInv, FilesFit;
    var sent := x.past.sentEvents;
    forall i, j | 0 <= i < j < |sent| && sent[i].seq_ == sent[j].seq_
                  && Handed(c, sent[i].seq_, o)
      ensures c.events[i] == c.events[j]
    {
      assert IsEver(x.past, sent[i]) && IsEver(x.past, sent[j]);
      assert FlatEvent(c.given, sent[i]) && FlatEvent(c.given, sent[j]);
    }
    if c.memory.input.Some? && c.given.input == Some(o) {
      FlatReadsTheSame(o, s.heap, map[]);
    }
  }

  // ---------------------------------------------------------------- runs, turn by turn

  lemma {:induction false} TurnsExtend(s: Machine, turns: seq<Turn>, t: Turn)
    requires Turns(s, turns) && MayTurn(AtEnd(s, turns), t)
    ensures Turns(s, turns + [t]) && AtEnd(s, turns + [t]) == Turned(AtEnd(s, turns), t)
    decreases |turns|
  {
    hide MayTurn, Turned;
    if turns == [] {
      assert turns + [t] == [t] && [t][1..] == [];
      assert Turns(Turned(s, t), []) && AtEnd(Turned(s, t), []) == Turned(s, t);
    } else {
      assert (turns + [t])[1..] == turns[1..] + [t];
      TurnsExtend(Turned(s, turns[0]), turns[1..], t);
    }
  }

  /** A run from an empty directory to this slot, these contents and this heap, without fault or fence. */
  ghost predicate Leads(start: Heap, turns: seq<Turn>, epoch: nat, a: AttemptId, x: Slot, c: Contents, heap: Heap) {
    && Turns(Begun(0, start), turns)
    && var s := AtEnd(Begun(0, start), turns);
       s.world.sh == Shared(epoch, false, false) && SlotOf(s.world, a) == x && ContentsOf(s, a) == c && s.heap == heap
  }

  lemma OneStep(
    start: Heap, turns: seq<Turn>, epoch: nat, a: AttemptId, x: Slot, c: Contents, heap: Heap,
    step: Step, o: Held, y: Slot) returns (longer: seq<Turn>)
    requires Leads(start, turns, epoch, a, x, c, heap) && Reads(step, o, heap)
    requires Enabled(Shared(epoch, false, false), x, step) && y == Apply(Shared(epoch, false, false), x, step)
    requires step.Offer? ==> step.identity.attempt == a
    ensures Leads(start, longer, epoch, a, y, Went(c, heap, x, y, step, o), heap)
  {
    hide Enabled, Apply, Went, Reads;
    var t := Take(Act(a, step), o);
    longer := turns + [t];
    TurnsExtend(Begun(0, start), turns, t);
    hide Turns, AtEnd;
  }

  /** A step that hands over and sends nothing. */
  lemma QuietStep(
    start: Heap, turns: seq<Turn>, epoch: nat, a: AttemptId, x: Slot, c: Contents, heap: Heap, step: Step, y: Slot)
    returns (longer: seq<Turn>)
    requires Leads(start, turns, epoch, a, x, c, heap) && !step.Offer? && !step.Emit? && !step.StoreResult?
    requires Enabled(Shared(epoch, false, false), x, step) && y == Apply(Shared(epoch, false, false), x, step)
    requires y.past.sentEvents == x.past.sentEvents && y.past.sentResults == x.past.sentResults
    ensures Leads(start, longer, epoch, a, y, c, heap)
  {
    QuietWent(c, heap, x, y, step);
    hide Leads, Enabled, Apply, Reads, Went;
    longer := OneStep(start, turns, epoch, a, x, c, heap, step, map[], y);
  }

  lemma QuietWent(c: Contents, heap: Heap, x: Slot, y: Slot, step: Step)
    requires !step.Offer? && !step.Emit? && !step.StoreResult?
    requires y.past.sentEvents == x.past.sentEvents && y.past.sentResults == x.past.sentResults
    ensures Went(c, heap, x, y, step, map[]) == c && Reads(step, map[], heap)
  {
  }

  lemma OneChange(
    start: Heap, turns: seq<Turn>, epoch: nat, a: AttemptId, x: Slot, c: Contents, heap: Heap, later: Heap)
    returns (longer: seq<Turn>)
    requires Leads(start, turns, epoch, a, x, c, heap)
    ensures Leads(start, longer, epoch, a, x, c, later)
  {
    longer := turns + [Handlers(later)];
    TurnsExtend(Begun(0, start), turns, Handlers(later));
    hide Turns, AtEnd, Next;
  }

  lemma OneRestart(start: Heap, turns: seq<Turn>, epoch: nat, a: AttemptId, x: Slot, c: Contents, heap: Heap)
    returns (longer: seq<Turn>)
    requires Leads(start, turns, epoch, a, x, c, heap)
    ensures Leads(start, longer, epoch + 1, a, Reborn(x), c.(memory := NO_OBJECTS), heap)
  {
    var t := Take(Restart, map[]);
    longer := turns + [t];
    TurnsExtend(Begun(0, start), turns, t);
    assert Reborn(EMPTY_SLOT) == EMPTY_SLOT;
    hide Turns, AtEnd, Repaired;
  }

  // ---------------------------------------------------------------- the start of an attempt

  /** The contents while the handler runs and has handed over nothing. */
  function StartedContents(input: Held, heap: Heap): Contents {
    var k := Objects(map[], None, Some(input));
    Contents(k, k, Some(Rendered(input, heap)), Some(Rendered(input, heap)), [], [])
  }

  lemma StartedRun(identity: Identity, input: Held, heap: Heap) returns (turns: seq<Turn>)
    requires identity.epoch == 0
    ensures Leads(heap, turns, 0, identity.attempt, T.StartedSlot(identity, Rendered(input, heap), Running, 1),
                  StartedContents(input, heap), heap)
  {
    var a, text := identity.attempt, Rendered(input, heap);
    turns := [];
    assert Leads(heap, turns, 0, a, EMPTY_SLOT, NO_CONTENTS, heap);
    var c := StartedContents(input, heap);
    var x1, x2 := T.OfferedSlot(identity, text), T.StartedSlot(identity, text, Spawned, 0);
    var x3 := T.StartedSlot(identity, text, Running, 1);
    T.OfferedIs(identity, text);
    T.StartedIs(identity, text);
    CreatedWent(identity, input, heap);
    hide Leads, Rendered, Enabled, Apply, Went;
    turns := OneStep(heap, turns, 0, a, EMPTY_SLOT, NO_CONTENTS, heap, Offer(identity, text, true), input, x1);
    turns := QuietStep(heap, turns, 0, a, x1, c, heap, Confirm, x2);
    turns := QuietStep(heap, turns, 0, a, x2, c, heap, Begin, x3);
  }

  lemma CreatedWent(identity: Identity, input: Held, heap: Heap)
    ensures var text := Rendered(input, heap);
            Went(NO_CONTENTS, heap, EMPTY_SLOT, T.OfferedSlot(identity, text), Offer(identity, text, true), input)
            == StartedContents(input, heap)
  {
  }

  // ---------------------------------------------------------------- emitting and flushing in such a run

  function WithEvent(x: Slot, e: Event): Slot
    requires x.entry.Some?
  {
    var f := x.entry.value;
    x.(entry := Some(Entry(f.rec.(last := e.seq_), f.events[e.seq_ := e], f.result)),
       past := x.past.(ever := x.past.ever[e.seq_ := e]))
  }

  function WithPayload(c: Contents, n: nat, o: Held): Contents {
    c.(memory := c.memory.(events := c.memory.events[n := o]), given := c.given.(events := c.given.events[n := o]))
  }

  /** A handler that can emit its next Event. */
  predicate CanEmit(x: Slot, id: EventId) {
    && x.entry.Some? && x.entry.value.rec.state == Started && x.handler.Some? && x.handler.value.phase == Running
    && (forall n :: n in x.past.ever ==> n <= x.entry.value.rec.last)
    && (forall n :: n in x.entry.value.events ==> x.entry.value.events[n].id != id)
  }

  lemma EmitIs(epoch: nat, x: Slot, id: EventId, kind: string, payload: Fields)
    requires CanEmit(x, id) && x.past.result == x.entry.value.result == None
    ensures var sh, step := Shared(epoch, false, false), Emit(id, kind, payload);
            && Enabled(sh, x, step) && Apply(sh, x, step) == WithEvent(x, NextEvent(x.entry.value, id, kind, payload))
  {
  }

  lemma EmitWent(c: Contents, heap: Heap, x: Slot, e: Event, o: Held)
    requires x.entry.Some? && e.seq_ !in x.past.ever
    ensures Went(c, heap, x, WithEvent(x, e), Emit(e.id, e.kind, e.payload), o) == WithPayload(c, e.seq_, o)
  {
    var y := WithEvent(x, e);
    EmitAddsObject(c.memory, x, e, o);
    EmitAddsObject(c.given, x, e, o);
    assert NewOnes(x.past.sentEvents, y.past.sentEvents) == [];
    assert NewOnes(x.past.sentResults, y.past.sentResults) == [];
    hide WithObject, NewOnes, Rendered, WithEvent;
    assert forall m: Objects :: EventTexts(m, heap, []) == [] && BodyTexts(m, heap, []) == [];
  }

  lemma EmitAddsObject(k: Objects, x: Slot, e: Event, o: Held)
    requires x.entry.Some? && e.seq_ !in x.past.ever
    ensures WithObject(k, x, WithEvent(x, e), Emit(e.id, e.kind, e.payload), o)
         == k.(events := k.events[e.seq_ := o])
  {
    var added := map n | n in WithEvent(x, e).past.ever && n !in x.past.ever :: o;
    assert added == map[e.seq_ := o];
    assert k.events + added == k.events[e.seq_ := o];
  }

  lemma EmitRun(
    start: Heap, turns: seq<Turn>, epoch: nat, a: AttemptId, x: Slot, c: Contents, heap: Heap,
    id: EventId, kind: string, o: Held) returns (longer: seq<Turn>)
    requires Leads(start, turns, epoch, a, x, c, heap)
    requires CanEmit(x, id) && x.past.result == x.entry.value.result == None
    ensures var e := NextEvent(x.entry.value, id, kind, Rendered(o, heap));
            Leads(start, longer, epoch, a, WithEvent(x, e), WithPayload(c, e.seq_, o), heap)
  {
    var step := Emit(id, kind, Rendered(o, heap));
    var e := NextEvent(x.entry.value, id, kind, Rendered(o, heap));
    EmitIs(epoch, x, id, kind, Rendered(o, heap));
    EmitWent(c, heap, x, e, o);
    assert Reads(step, o, heap);
    hide Leads, Enabled, Apply, Went, Rendered, Reads;
    longer := OneStep(start, turns, epoch, a, x, c, heap, step, o, WithEvent(x, e));
  }

  /** No task runs, and everything may be uploaded. */
  predicate CanFlush(x: Slot) {
    x.lock == None && x.tasks == map[] && x.permit == Some(Permit(true, true)) && x.entry.Some?
  }

  function Sending(x: Slot, t: Task): Slot {
    x.(lock := Some(0), tasks := map[0 := t])
  }

  function AfterEvent(x: Slot, e: Event): Slot {
    x.(past := x.past.(sentEvents := x.past.sentEvents + [e]))
  }

  function AfterResult(x: Slot, r: Result): Slot {
    x.(past := x.past.(sentResults := x.past.sentResults + [r]))
  }

  lemma FlushIs(epoch: nat, x: Slot)
    requires CanFlush(x)
    ensures var sh, y := Shared(epoch, false, false), x.(tasks := map[0 := FlushWaiting]);
            && Enabled(sh, x, FlushSpawn(0)) && Apply(sh, x, FlushSpawn(0)) == y
            && Enabled(sh, y, FlushLock(0))
            && (forall pending :: Pending(x.entry.value) == pending && pending != [] ==>
                  Apply(sh, y, FlushLock(0))
                  == Sending(AfterEvent(x, pending[0]), SendingEvent(pending[0], pending[1..], true)))
            && (forall r :: PendingSeqs(x.entry.value) == {} && Pending(x.entry.value) == []
                            && x.entry.value.result == Some(r) ==>
                  Apply(sh, y, FlushLock(0)) == Sending(AfterResult(x, r), SendingResult(r, false)))
  {
    hide Pending, PendingSeqs;
  }

  lemma AbortIs(epoch: nat, x: Slot, t: Task)
    requires x.lock == None && x.tasks == map[]
    ensures var sh := Shared(epoch, false, false);
            Enabled(sh, Sending(x, t), Abort(0)) && Apply(sh, Sending(x, t), Abort(0)) == x
  {
    assert map[0 := t] - {0} == map[];
  }

  lemma SentWent(c: Contents, heap: Heap, x: Slot, e: Event, t: Task)
    ensures Went(c, heap, x, Sending(AfterEvent(x, e), t), FlushLock(0), map[])
            == c.(events := c.events + [Rendered(EventObject(c.memory, e), heap)])
    ensures forall r ::
              Went(c, heap, x, Sending(AfterResult(x, r), t), FlushLock(0), map[])
              == c.(results := c.results + [Rendered(BodyObject(c.memory, r), heap)])
  {
    var sent := x.past.sentEvents;
    assert (sent + [e])[|sent|..] == [e];
    forall r ensures (x.past.sentResults + [r])[|x.past.sentResults|..] == [r] {
    }
    hide Rendered, EventObject, BodyObject;
  }

  /** A flush sends the first pending Event, and its acknowledgement is lost. */
  lemma FlushRun(
    start: Heap, turns: seq<Turn>, epoch: nat, a: AttemptId, x: Slot, c: Contents, heap: Heap, pending: seq<Event>)
    returns (longer: seq<Turn>)
    requires Leads(start, turns, epoch, a, x, c, heap) && CanFlush(x)
    requires Pending(x.entry.value) == pending && pending != []
    ensures Leads(start, longer, epoch, a, AfterEvent(x, pending[0]),
                  c.(events := c.events + [Rendered(EventObject(c.memory, pending[0]), heap)]), heap)
  {
    var y := x.(tasks := map[0 := FlushWaiting]);
    var t := SendingEvent(pending[0], pending[1..], true);
    var z := AfterEvent(x, pending[0]);
    var d := c.(events := c.events + [Rendered(EventObject(c.memory, pending[0]), heap)]);
    FlushIs(epoch, x);
    AbortIs(epoch, z, t);
    SentWent(c, heap, y, pending[0], t);
    assert Sending(AfterEvent(y, pending[0]), t) == Sending(z, t);
    hide Leads, Enabled, Apply, Went, Rendered, EventObject, Pending;
    longer := QuietStep(start, turns, epoch, a, x, c, heap, FlushSpawn(0), y);
    longer := OneStep(start, longer, epoch, a, y, c, heap, FlushLock(0), map[], Sending(z, t));
    longer := QuietStep(start, longer, epoch, a, Sending(z, t), d, heap, Abort(0), z);
  }

  lemma FlushResultRun(
    start: Heap, turns: seq<Turn>, epoch: nat, a: AttemptId, x: Slot, c: Contents, heap: Heap, r: Result)
    returns (longer: seq<Turn>)
    requires Leads(start, turns, epoch, a, x, c, heap) && CanFlush(x)
    requires PendingSeqs(x.entry.value) == {} && x.entry.value.result == Some(r)
    ensures Leads(start, longer, epoch, a, AfterResult(x, r),
                  c.(results := c.results + [Rendered(BodyObject(c.memory, r), heap)]), heap)
  {
    var y := x.(tasks := map[0 := FlushWaiting]);
    var t := SendingResult(r, false);
    var z := AfterResult(x, r);
    var d := c.(results := c.results + [Rendered(BodyObject(c.memory, r), heap)]);
    assert Pending(x.entry.value) == [];
    FlushIs(epoch, x);
    AbortIs(epoch, z, t);
    SentWent(c, heap, y, Event(r.identity, 0, 0, "", map[]), t);
    assert Sending(AfterResult(y, r), t) == Sending(z, t);
    hide Leads, Enabled, Apply, Went, Rendered, BodyObject, Pending, PendingSeqs;
    longer := QuietStep(start, turns, epoch, a, x, c, heap, FlushSpawn(0), y);
    longer := OneStep(start, longer, epoch, a, y, c, heap, FlushLock(0), map[], Sending(z, t));
    longer := QuietStep(start, longer, epoch, a, Sending(z, t), d, heap, Abort(0), z);
  }

  // ---------------------------------------------------------------- Events

  lemma OnePending(e: Entry, v: Event)
    requires e.events == map[v.seq_ := v] && !Acked(e.rec.acks, v.seq_)
    ensures Pending(e) == [v]
  {
    assert PendingSeqs(e) == {v.seq_};
    AscendingUnique(Sorted({v.seq_}), [v.seq_]);
  }

  /** One Event, handed over as the object and not sent yet. */
  ghost predicate Emitted(x: Slot, c: Contents, e: Event, o: Held, heap: Heap) {
    && CanFlush(x) && Pending(x.entry.value) == [e] && e.payload == Rendered(o, heap) && x.past.sentEvents == []
    && Handed(c, e.seq_, o) && EventObject(c.memory, e) == o && c.events == []
  }

  lemma EmittedRun(identity: Identity, o: Held, heap: Heap)
    returns (turns: seq<Turn>, x: Slot, c: Contents, e: Event)
    requires identity.epoch == 0
    ensures Leads(heap, turns, 0, identity.attempt, x, c, heap) && Emitted(x, c, e, o, heap)
  {
    var y := T.StartedSlot(identity, map[], Running, 1);
    var d := StartedContents(map[], heap);
    e := NextEvent(y.entry.value, 0, "run.progress", Rendered(o, heap));
    x, c := WithEvent(y, e), WithPayload(d, 1, o);
    assert Rendered(map[], heap) == map[];
    OnePending(x.entry.value, e);
    hide Leads, Rendered, Pending;
    turns := StartedRun(identity, map[], heap);
    turns := EmitRun(heap, turns, 0, identity.attempt, y, d, heap, 0, "run.progress", o);
  }

  /** An Event with a nested list or object: its acknowledgement is lost, and it is sent again as it reads now. */
  lemma NestedEventDiffers(identity: Identity, o: Held, heap: Heap) returns (turns: seq<Turn>)
    requires identity.epoch == 0 && !Flat(o)
    ensures Turns(Begun(0, heap), turns) && !EventSendsAgree(AtEnd(Begun(0, heap), turns), identity.attempt, o)
  {
    var a, later := identity.attempt, Disturbed(heap, o);
    DisturbedDiffers(o, heap);
    var x, c, e;
    turns, x, c, e := EmittedRun(identity, o, heap);
    hide Leads, Rendered, Pending, Disturbed, EventObject;
    turns := FlushRun(heap, turns, 0, a, x, c, heap, [e]);
    var d := c.(events := c.events + [Rendered(o, heap)]);
    turns := OneChange(heap, turns, 0, a, AfterEvent(x, e), d, heap, later);
    turns := FlushRun(heap, turns, 0, a, AfterEvent(x, e), d, later, [e]);
    TwoSendsDiffer(heap, turns, 0, a, AfterEvent(AfterEvent(x, e), e),
                   d.(events := d.events + [Rendered(o, later)]), later, e, o);
  }

  lemma TwoSendsDiffer(
    start: Heap, turns: seq<Turn>, epoch: nat, a: AttemptId, x: Slot, c: Contents, heap: Heap, e: Event, o: Held)
    requires Leads(start, turns, epoch, a, x, c, heap) && x.past.sentEvents == [e, e]
    requires Handed(c, e.seq_, o) && |c.events| == 2 && c.events[0] != c.events[1]
    ensures Turns(Begun(0, start), turns) && !EventSendsAgree(AtEnd(Begun(0, start), turns), a, o)
  {
    hide Turns, AtEnd;
  }

  /** All sends of an Event agree, whatever the handlers do, exactly when its payload has no nested list or object. */
  lemma EventPayloadIsStableIff(o: Held)
    ensures (forall epoch, heap, turns, a :: Turns(Begun(epoch, heap), turns) ==>
               EventSendsAgree(AtEnd(Begun(epoch, heap), turns), a, o))
       <==> Flat(o)
  {
    if Flat(o) {
      forall epoch, heap, turns, a | Turns(Begun(epoch, heap), turns)
        ensures EventSendsAgree(AtEnd(Begun(epoch, heap), turns), a, o)
      {
        FlatSendsAgree(epoch, heap, turns, a, o);
      }
    } else {
      var turns := NestedEventDiffers(Identity("attempt", "lease", 0), o, map[]);
    }
    hide Turns, AtEnd, EventSendsAgree, Flat;
  }

  // ---------------------------------------------------------------- over a restart, at an input

  /** A resume gives the permission to upload again. */
  lemma ResumeRun(start: Heap, turns: seq<Turn>, epoch: nat, a: AttemptId, x: Slot, c: Contents, heap: Heap)
    returns (longer: seq<Turn>)
    requires Leads(start, turns, epoch, a, x, c, heap) && x.entry.Some? && x.tasks == map[] && x.lock == None
    ensures Leads(start, longer, epoch, a, x.(permit := Some(Permit(true, true))), c, heap)
  {
    var t := Ticket(x.entry.value.rec.state);
    var y := x.(tasks := map[0 := t]);
    var z := x.(permit := Some(Permit(true, true)));
    ResumeIs(epoch, x);
    hide Leads, Enabled, Apply;
    longer := QuietStep(start, turns, epoch, a, x, c, heap, Ask(0), y);
    longer := QuietStep(start, longer, epoch, a, y, c, heap, Upload(0, Permit(true, true)), z);
  }

  lemma ResumeIs(epoch: nat, x: Slot)
    requires x.entry.Some? && x.tasks == map[] && x.lock == None
    ensures var sh, y := Shared(epoch, false, false), x.(tasks := map[0 := Ticket(x.entry.value.rec.state)]);
            && Enabled(sh, x, Ask(0)) && Apply(sh, x, Ask(0)) == y
            && Enabled(sh, y, Upload(0, Permit(true, true)))
            && Apply(sh, y, Upload(0, Permit(true, true))) == x.(permit := Some(Permit(true, true)))
  {
    assert map[0 := Ticket(x.entry.value.rec.state)] - {0} == map[];
  }

  /** A flush, a crash before the acknowledgement, and the flush of the next process. */
  lemma SentAndSentAgain(
    start: Heap, turns: seq<Turn>, a: AttemptId, x: Slot, c: Contents, heap: Heap, e: Event, rest: seq<Event>)
    returns (longer: seq<Turn>, y: Slot, d: Contents)
    requires Leads(start, turns, 0, a, x, c, heap) && CanFlush(x)
    requires Pending(x.entry.value) == [e] + rest && Repaired(x.entry.value) == Ok(x.entry.value)
    ensures Leads(start, longer, 1, a, y, d, heap)
    ensures d.events == c.events + [Rendered(EventObject(c.memory, e), heap), e.payload]
    ensures y.past.sentEvents == x.past.sentEvents + [e, e]
  {
    hide Leads, Rendered, Pending, Repaired;
    longer := FlushRun(start, turns, 0, a, x, c, heap, [e] + rest);
    var x1 := AfterEvent(x, e);
    var c1 := c.(events := c.events + [Rendered(EventObject(c.memory, e), heap)]);
    longer := OneRestart(start, longer, 0, a, x1, c1, heap);
    var x2, c2 := Reborn(x1), c1.(memory := NO_OBJECTS);
    longer := ResumeRun(start, longer, 1, a, x2, c2, heap);
    var x3 := x2.(permit := Some(Permit(true, true)));
    longer := FlushRun(start, longer, 1, a, x3, c2, heap, [e] + rest);
    y, d := AfterEvent(x3, e), c2.(events := c2.events + [Rendered(EventObject(NO_OBJECTS, e), heap)]);
    assert Rendered(Constant(e.payload), heap) == e.payload;
  }

  const STEPS: Held := map["steps" := Nested(0)]
  const ONE_STEP: Heap := map[0 := "[0]"]
  const TWO_STEPS: Heap := map[0 := "[0, 1]"]

  lemma StepsRead()
    ensures Rendered(STEPS, ONE_STEP) == map["steps" := "[0]"]
    ensures Rendered(STEPS, TWO_STEPS) == map["steps" := "[0, 1]"]
    ensures forall heap :: Rendered(map[], heap) == map[]
  {
  }

  lemma TwoPending(e: Entry, v: Event, w: Event)
    requires e.events == map[1 := v, 2 := w] && e.rec.acks == Window(0, [])
    ensures Pending(e) == [v] + [w]
  {
    TwoSequences(e, v, w);
    hide PendingSeqs, Sorted;
  }

  lemma TwoSequences(e: Entry, v: Event, w: Event)
    requires e.events == map[1 := v, 2 := w] && e.rec.acks == Window(0, [])
    ensures Sorted(PendingSeqs(e)) == [1, 2]
  {
    var order: seq<nat> := [1, 2];
    assert PendingSeqs(e) == {1, 2};
    hide PendingSeqs, Sorted;
    AscendingUnique(Sorted({1, 2}), order);
  }

  lemma TwoReopen(e: Entry, v: Event, w: Event)
    requires e.events == map[1 := v, 2 := w] && e.rec.state == Started && e.rec.last == 2 && e.result == None
    ensures Repaired(e) == Ok(e)
  {
    UpToSize(2);
    assert e.events.Keys == {1, 2} == UpTo(2);
    hide UpTo;
  }

  /**
   * A handler appends to one list and emits it, twice. Event 1 goes out as the list reads by
   * then, with both elements; the process dies, and the next one sends Event 1 under the same
   * id with the one element that its file has.
   */
  lemma GrowingListExample() returns (turns: seq<Turn>)
    ensures Turns(Begun(0, ONE_STEP), turns)
    ensures var s := AtEnd(Begun(0, ONE_STEP), turns);
            && ContentsOf(s, "attempt").events == [map["steps" := "[0, 1]"], map["steps" := "[0]"]]
            && var sent := SlotOf(s.world, "attempt").past.sentEvents;
               |sent| == 2 && sent[0] == sent[1] && sent[0].seq_ == 1
  {
    StepsRead();
    var x, c, e1, e2, y, d;
    turns, x, c, e1, e2 := TwoEmittedRun(Identity("attempt", "lease", 0));
    hide Leads, Rendered, Pending, Repaired, EventObject, CanFlush, STEPS, ONE_STEP, TWO_STEPS;
    turns, y, d := SentAndSentAgain(ONE_STEP, turns, "attempt", x, c, TWO_STEPS, e1, [e2]);
    Arrived(ONE_STEP, turns, 1, "attempt", y, d, TWO_STEPS);
  }

  /** The list is emitted with one element and again with two. */
  lemma TwoEmittedRun(identity: Identity) returns (turns: seq<Turn>, x: Slot, c: Contents, e1: Event, e2: Event)
    requires identity.epoch == 0
    ensures Leads(ONE_STEP, turns, 0, identity.attempt, x, c, TWO_STEPS) && CanFlush(x)
    ensures Pending(x.entry.value) == [e1] + [e2] && Repaired(x.entry.value) == Ok(x.entry.value)
    ensures e1.seq_ == 1 && e1.payload == Rendered(STEPS, ONE_STEP) && EventObject(c.memory, e1) == STEPS
    ensures c.events == [] && x.past.sentEvents == []
  {
    var kind, a := "run.progress", identity.attempt;
    var x0, c0 := T.StartedSlot(identity, map[], Running, 1), StartedContents(map[], ONE_STEP);
    var x1, c1 := WithEvent(x0, ListEvent(identity, 1)), WithPayload(c0, 1, STEPS);
    e1, e2 := ListEvent(identity, 1), ListEvent(identity, 2);
    x, c := WithEvent(x1, e2), WithPayload(c1, 2, STEPS);
    StepsRead();
    OneListed(identity);
    TwoListed(identity);
    hide Leads, Rendered, Pending, Repaired, STEPS, ONE_STEP, TWO_STEPS, CanEmit, T.StartedSlot, ListEvent, NextEvent,
      WithEvent;
    turns := StartedRun(identity, map[], ONE_STEP);
    turns := EmitRun(ONE_STEP, turns, 0, a, x0, c0, ONE_STEP, 0, kind, STEPS);
    turns := OneChange(ONE_STEP, turns, 0, a, x1, c1, ONE_STEP, TWO_STEPS);
    turns := EmitRun(ONE_STEP, turns, 0, a, x1, c1, TWO_STEPS, 1, kind, STEPS);
  }

  /** The two Events, as their files have them. */
  function ListEvent(identity: Identity, n: nat): Event
    requires n > 0
  {
    Event(identity, n - 1, n, "run.progress", Rendered(STEPS, if n == 1 then ONE_STEP else TWO_STEPS))
  }

  lemma OneListed(identity: Identity)
    ensures var x := T.StartedSlot(identity, map[], Running, 1);
            var y := WithEvent(x, ListEvent(identity, 1));
            && CanEmit(x, 0) && x.past.result == x.entry.value.result == None && ListEvent(identity, 1).seq_ == 1
            && NextEvent(x.entry.value, 0, "run.progress", Rendered(STEPS, ONE_STEP)) == ListEvent(identity, 1)
            && CanEmit(y, 1) && y.past.result == y.entry.value.result == None && ListEvent(identity, 2).seq_ == 2
            && NextEvent(y.entry.value, 1, "run.progress", Rendered(STEPS, TWO_STEPS)) == ListEvent(identity, 2)
  {
    hide Rendered;
  }

  lemma TwoListed(identity: Identity)
    ensures var e1, e2 := ListEvent(identity, 1), ListEvent(identity, 2);
            var x := WithEvent(WithEvent(T.StartedSlot(identity, map[], Running, 1), e1), e2);
            && CanFlush(x) && x.past.sentEvents == []
            && Pending(x.entry.value) == [e1] + [e2] && Repaired(x.entry.value) == Ok(x.entry.value)
  {
    var e1, e2 := ListEvent(identity, 1), ListEvent(identity, 2);
    var x := WithEvent(WithEvent(T.StartedSlot(identity, map[], Running, 1), e1), e2);
    hide Rendered, Pending, Repaired;
    TwoPending(x.entry.value, e1, e2);
    TwoReopen(x.entry.value, e1, e2);
  }

  lemma Arrived(start: Heap, turns: seq<Turn>, epoch: nat, a: AttemptId, x: Slot, c: Contents, heap: Heap)
    requires Leads(start, turns, epoch, a, x, c, heap)
    ensures Turns(Begun(0, start), turns)
    ensures var s := AtEnd(Begun(0, start), turns);
            SlotOf(s.world, a) == x && ContentsOf(s, a) == c && s.heap == heap
  {
  }

  // ---------------------------------------------------------------- the Result

  /** The contents once the Result was stored. */
  function StoredContents(o: Held, heap: Heap): Contents {
    var c := StartedContents(map[], heap);
    c.(memory := c.memory.(result := Some(o)), given := c.given.(result := Some(o)))
  }

  lemma StoredRun(identity: Identity, o: Held, heap: Heap) returns (turns: seq<Turn>)
    requires identity.epoch == 0
    ensures Leads(heap, turns, 0, identity.attempt, T.StoredSlot(identity, map[], Rendered(o, heap)),
                  StoredContents(o, heap), heap)
  {
    var a, body := identity.attempt, Rendered(o, heap);
    var x, y := T.StartedSlot(identity, map[], Running, 1), T.StartedSlot(identity, map[], Storing, 1);
    var z := T.StoredSlot(identity, map[], body);
    var c := StartedContents(map[], heap);
    assert Rendered(map[], heap) == map[];
    T.ReturnedIs(identity, map[]);
    T.StoredIs(identity, map[], body);
    StoredWent(identity, o, heap);
    assert Reads(StoreResult(body, 0), o, heap);
    turns := StartedRun(identity, map[], heap);
    hide Leads, Enabled, Apply, Went, Rendered, Reads;
    turns := QuietStep(heap, turns, 0, a, x, c, heap, Return, y);
    turns := OneStep(heap, turns, 0, a, y, c, heap, StoreResult(body, 0), o, z);
  }

  lemma StoredWent(identity: Identity, o: Held, heap: Heap)
    ensures var body := Rendered(o, heap);
            Went(StartedContents(map[], heap), heap, T.StartedSlot(identity, map[], Storing, 1),
                 T.StoredSlot(identity, map[], body), StoreResult(body, 0), o)
            == StoredContents(o, heap)
  {
    hide Rendered;
  }

  lemma ResultIsDue(identity: Identity, body: Fields)
    ensures var x := T.StoredSlot(identity, map[], body);
            && CanFlush(x) && PendingSeqs(x.entry.value) == {} && x.past.sentResults == []
            && x.entry.value.result.Some? && x.entry.value.result.value.payload.body == body
  {
  }

  /** A Result with an output that the handler can change: its acknowledgement is lost, and it is sent again changed. */
  lemma NestedResultDiffers(identity: Identity, o: Held, heap: Heap) returns (turns: seq<Turn>)
    requires identity.epoch == 0 && !Flat(o)
    ensures Turns(Begun(0, heap), turns) && !ResultSendsAgree(AtEnd(Begun(0, heap), turns), identity.attempt, o)
  {
    var a, later := identity.attempt, Disturbed(heap, o);
    DisturbedDiffers(o, heap);
    turns := StoredRun(identity, o, heap);
    var x, c := T.StoredSlot(identity, map[], Rendered(o, heap)), StoredContents(o, heap);
    ResultIsDue(identity, Rendered(o, heap));
    assert c.results == [] && BodyObject(c.memory, x.entry.value.result.value) == o && c.given.result == Some(o);
    hide Leads, Rendered, Disturbed, BodyObject, T.StoredSlot, StoredContents, PendingSeqs;
    var r := x.entry.value.result.value;
    turns := FlushResultRun(heap, turns, 0, a, x, c, heap, r);
    var d := c.(results := c.results + [Rendered(o, heap)]);
    turns := OneChange(heap, turns, 0, a, AfterResult(x, r), d, heap, later);
    turns := FlushResultRun(heap, turns, 0, a, AfterResult(x, r), d, later, r);
    d := d.(results := d.results + [Rendered(o, later)]);
    TwoResultsDiffer(heap, turns, 0, a, AfterResult(AfterResult(x, r), r), d, later, o);
  }

  lemma TwoResultsDiffer(
    start: Heap, turns: seq<Turn>, epoch: nat, a: AttemptId, x: Slot, c: Contents, heap: Heap, o: Held)
    requires Leads(start, turns, epoch, a, x, c, heap) && |x.past.sentResults| == 2
    requires c.given.result == Some(o) && |c.results| == 2 && c.results[0] != c.results[1]
    ensures Turns(Begun(0, start), turns) && !ResultSendsAgree(AtEnd(Begun(0, start), turns), a, o)
  {
    hide Turns, AtEnd;
  }

  /**
   * All sends of the Result agree, whatever the handlers do, exactly when the handler failed,
   * returned nothing or an empty object, or returned a scalar.
   */
  lemma ResultIsStableIff(returned: Returned, common: Fields, before: Heap)
    ensures (forall epoch, heap, turns, a :: Turns(Begun(epoch, heap), turns) ==>
               ResultSendsAgree(AtEnd(Begun(epoch, heap), turns), a, ResultObject(returned, common, before)))
       <==> OutOfReach(returned, before)
  {
    var o := ResultObject(returned, common, before);
    OutOfReachIff(returned, common, before);
    hide Turns, AtEnd, ResultSendsAgree, Flat, ResultObject, OutOfReach;
    if Flat(o) {
      forall epoch, heap, turns, a | Turns(Begun(epoch, heap), turns)
        ensures ResultSendsAgree(AtEnd(Begun(epoch, heap), turns), a, o)
      {
        FlatSendsAgree(epoch, heap, turns, a, o);
      }
    } else {
      var turns := NestedResultDiffers(Identity("attempt", "lease", 0), o, before);
    }
  }

  // ---------------------------------------------------------------- the input

  /**
   * The offer of an attempt that is made again finds the input it carries, whatever the handlers
   * do, exactly when the input has no nested list or object; otherwise it can be refused as a
   * conflict.
   */
  lemma InputIsStableIff(o: Held)
    ensures (forall epoch, heap, turns, a :: Turns(Begun(epoch, heap), turns) ==>
               InputStays(AtEnd(Begun(epoch, heap), turns), a, o))
       <==> Flat(o)
  {
    hide Turns, AtEnd, InputStays, Flat;
    if Flat(o) {
      forall epoch, heap, turns, a | Turns(Begun(epoch, heap), turns)
        ensures InputStays(AtEnd(Begun(epoch, heap), turns), a, o)
      {
        FlatSendsAgree(epoch, heap, turns, a, o);
      }
    } else {
      var turns := NestedInputDiffers(Identity("attempt", "lease", 0), o, map[]);
    }
  }

  /** The handler runs and has changed its input. */
  lemma NestedInputDiffers(identity: Identity, o: Held, heap: Heap) returns (turns: seq<Turn>)
    requires identity.epoch == 0 && !Flat(o)
    ensures Turns(Begun(0, heap), turns) && !InputStays(AtEnd(Begun(0, heap), turns), identity.attempt, o)
  {
    var a, later := identity.attempt, Disturbed(heap, o);
    DisturbedDiffers(o, heap);
    turns := StartedRun(identity, o, heap);
    var x, c := T.StartedSlot(identity, Rendered(o, heap), Running, 1), StartedContents(o, heap);
    turns := OneChange(heap, turns, 0, a, x, c, heap, later);
    Arrived(heap, turns, 0, a, x, c, later);
    hide Turns, AtEnd, Leads, Rendered, Disturbed;
  }

  /** Whichever way that comparison ends, an offer leaves an attempt alone whose handler has started. */
  lemma OfferOfStartedIsIdle(sh: Shared, x: Slot, identity: Identity, input: Fields, roomy: bool)
    requires Inv(sh, x) && Enabled(sh, x, Offer(identity, input, roomy))
    requires x.entry.Some? && Executing(x.entry.value.rec.state)
    ensures OfferStep(sh, x, identity, input, roomy) == x
  {
    hide Sound, Meaning, TasksFit, HandlerFits, Live;
  }
}
