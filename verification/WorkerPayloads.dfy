/**
 * What the sends of the worker carry. The worker of `WorkerRuns` runs over handlers that can
 * change, between any two steps, the lists and objects nested in what they handed over. The
 * payloads in its records are those of the files; beside them this machine keeps the objects
 * in memory, and what every send reads from them.
 */
module WorkerPayloads {
  import opened Prelude
  import opened Journal
  import opened Payloads
  import opened Worker
  import opened WorkerInvariant
  import opened WorkerHistory
  import opened WorkerRuns
  import E = WorkerEffects

  /** The objects of one attempt: its Events by sequence, its Result, and the input of its record. */
  datatype Objects = Objects(events: map<nat, Held>, result: Option<Held>, input: Option<Held>)

  const NO_OBJECTS := Objects(map[], None, None)

  /**
   * The objects that were handed over in this process and so are in memory as they are, those of
   * every process, the input of the offer and the one in the record's file, and what was sent.
   */
  datatype Contents = Contents(
    memory: Objects, given: Objects, offered: Option<Fields>, file: Option<Fields>,
    events: seq<Fields>, results: seq<Fields>)

  const NO_CONTENTS := Contents(NO_OBJECTS, NO_OBJECTS, None, None, [], [])

  datatype Machine = Machine(world: World, heap: Heap, contents: map<AttemptId, Contents>)

  /** A move of the worker, with the object it is about; a handler changing its objects; a record written again. */
  datatype Turn =
    | Take(move: Move, given: Held)
    | Handlers(heap: Heap)
    | Rewrite(attempt: AttemptId)

  function ContentsOf(s: Machine, a: AttemptId): Contents {
    if a in s.contents then s.contents[a] else NO_CONTENTS
  }

  // ---------------------------------------------------------------- what is read from memory

  /** An Event that this process has read from its file is not shared with anyone. */
  function EventObject(memory: Objects, e: Event): Held {
    if e.seq_ in memory.events then memory.events[e.seq_] else Constant(e.payload)
  }

  function BodyObject(memory: Objects, r: Result): Held {
    if memory.result.Some? then memory.result.value else Constant(r.payload.body)
  }

  function EventTexts(memory: Objects, heap: Heap, sent: seq<Event>): (r: seq<Fields>)
    ensures |r| == |sent|
    ensures forall i :: 0 <= i < |r| ==> r[i] == Rendered(EventObject(memory, sent[i]), heap)
  {
    seq(|sent|, i requires 0 <= i < |sent| => Rendered(EventObject(memory, sent[i]), heap))
  }

  function BodyTexts(memory: Objects, heap: Heap, sent: seq<Result>): (r: seq<Fields>)
    ensures |r| == |sent|
    ensures forall i :: 0 <= i < |r| ==> r[i] == Rendered(BodyObject(memory, sent[i]), heap)
  {
    seq(|sent|, i requires 0 <= i < |sent| => Rendered(BodyObject(memory, sent[i]), heap))
  }

  /** The input in memory, against which an offer that comes again is compared. */
  function InputText(s: Machine, a: AttemptId): Option<Fields> {
    var c := ContentsOf(s, a);
    if c.memory.input.Some? then Some(Rendered(c.memory.input.value, s.heap)) else c.file
  }

  // ---------------------------------------------------------------- turns

  /** The object a step is about, recorded where the step makes something durable of it. */
  function WithObject(k: Objects, x: Slot, y: Slot, step: Step, o: Held): Objects {
    match step
    case Emit(_, _, _) => k.(events := k.events + map n | n in y.past.ever && n !in x.past.ever :: o)
    case StoreResult(_, _) => if x.past.result == None && y.past.result.Some? then k.(result := Some(o)) else k
    case Offer(_, _, _) => if x.entry == None && y.entry.Some? then k.(input := Some(o)) else k
    case _ => k
  }

  function Went(c: Contents, heap: Heap, x: Slot, y: Slot, step: Step, o: Held): Contents {
    var memory := WithObject(c.memory, x, y, step, o);
    var created := step.Offer? && x.entry == None && y.entry.Some?;
    Contents(
      memory, WithObject(c.given, x, y, step, o),
      if created then Some(step.input) else c.offered, if created then Some(step.input) else c.file,
      c.events + EventTexts(memory, heap, NewOnes(x.past.sentEvents, y.past.sentEvents)),
      c.results + BodyTexts(memory, heap, NewOnes(x.past.sentResults, y.past.sentResults)))
  }

  function NewOnes<T>(before: seq<T>, after: seq<T>): seq<T> {
    if |before| <= |after| then after[|before|..] else []
  }

  /** An object that a step makes durable is written as it reads at that moment. */
  predicate Reads(step: Step, o: Held, heap: Heap) {
    match step
    case Emit(_, _, payload) => payload == Rendered(o, heap)
    case StoreResult(body, _) => body == Rendered(o, heap)
    case Offer(_, input, _) => input == Rendered(o, heap)
    case _ => true
  }

  ghost predicate MayTurn(s: Machine, t: Turn) {
    match t
    case Take(m, o) => Allowed(s.world, m) && (m.Act? || m.Fault? ==> Reads(m.step, o, s.heap))
    case Handlers(_) => true
    case Rewrite(a) => InputText(s, a).Some?
  }

  function Turned(s: Machine, t: Turn): Machine
    requires MayTurn(s, t)
  {
    match t
    case Handlers(heap) => s.(heap := heap)
    case Rewrite(a) => s.(contents := s.contents[a := ContentsOf(s, a).(file := InputText(s, a))])
    case Take(m, o) =>
      var v := Next(s.world, m);
      match m
      case Fence => s.(world := v)
      case Restart => s.(world := v, contents := map a | a in s.contents :: s.contents[a].(memory := NO_OBJECTS))
      case _ =>
        var a := m.attempt;
        var c := Went(ContentsOf(s, a), s.heap, SlotOf(s.world, a), SlotOf(v, a), m.step, o);
        s.(world := v, contents := s.contents[a := c])
  }

  ghost predicate Turns(s: Machine, turns: seq<Turn>)
    decreases |turns|
  {
    turns == [] || (MayTurn(s, turns[0]) && Turns(Turned(s, turns[0]), turns[1..]))
  }

  function AtEnd(s: Machine, turns: seq<Turn>): Machine
    requires Turns(s, turns)
    decreases |turns|
  {
    if turns == [] then s else AtEnd(Turned(s, turns[0]), turns[1..])
  }

  function Begun(epoch: nat, heap: Heap): Machine {
    Machine(Fresh(epoch), heap, map[])
  }

  // ---------------------------------------------------------------- the invariant

  predicate KnownIn(memory: Objects, given: Objects) {
    && (forall n :: n in memory.events ==> n in given.events && given.events[n] == memory.events[n])
    && (memory.result.Some? ==> given.result == memory.result)
    && (memory.input.Some? ==> given.input == memory.input)
  }

  /** What is durable of a flat object is how it reads for ever. */
  ghost predicate FilesFit(given: Objects, p: Past) {
    && (forall n :: n in given.events ==> n in p.ever)
    && (forall n :: n in given.events && Flat(given.events[n]) ==>
          p.ever[n].payload == Rendered(given.events[n], map[]))
    && (given.result.Some? ==> p.result.Some?)
    && (given.result.Some? && Flat(given.result.value) ==>
          p.result.value.payload.body == Rendered(given.result.value, map[]))
  }

  /** No object with a nested list or object was handed over for the Event. */
  predicate FlatEvent(given: Objects, e: Event) {
    e.seq_ in given.events ==> Flat(given.events[e.seq_])
  }

  predicate FlatResult(given: Objects) {
    given.result.Some? ==> Flat(given.result.value)
  }

  ghost predicate WireFits(c: Contents, p: Past) {
    && |c.events| == |p.sentEvents| && |c.results| == |p.sentResults|
    && (forall i :: 0 <= i < |p.sentEvents| && FlatEvent(c.given, p.sentEvents[i]) ==>
          c.events[i] == p.sentEvents[i].payload)
    && (forall i :: 0 <= i < |p.sentResults| && FlatResult(c.given) ==>
          c.results[i] == p.sentResults[i].payload.body)
  }

  predicate InputFits(c: Contents) {
    && (c.given.input.Some? <==> c.offered.Some?) && (c.offered.Some? <==> c.file.Some?)
    && (c.given.input.Some? && Flat(c.given.input.value) ==>
          c.offered == c.file == Some(Rendered(c.given.input.value, map[])))
  }

  ghost predicate ContentsFit(c: Contents, p: Past) {
    KnownIn(c.memory, c.given) && FilesFit(c.given, p) && WireFits(c, p) && InputFits(c)
  }

  ghost predicate MachineInv(s: Machine) {
    WorldInv(s.world) && forall a :: ContentsFit(ContentsOf(s, a), SlotOf(s.world, a).past)
  }

  /** What a step adds to the Events that were ever durable. */
  ghost predicate AddsWhatItReads(x: Slot, y: Slot, step: Step) {
    && (step.Emit? ==> forall n :: n in y.past.ever && n !in x.past.ever ==> y.past.ever[n].payload == step.payload)
    && (step.StoreResult? && x.past.result == None && y.past.result.Some? ==>
          y.past.result.value.payload.body == step.body)
  }

  lemma EmitAdds(sh: Shared, x: Slot, step: Step)
    requires Inv(sh, x) && Enabled(sh, x, step) && step.Emit?
    ensures AddsWhatItReads(x, Apply(sh, x, step), step)
  {
    E.EmitAppends(sh, x, step.freshId, step.kind, step.payload);
    hide Inv, EmitStep;
  }

  lemma StoreAdds(sh: Shared, x: Slot, step: Step)
    requires Enabled(sh, x, step) && step.StoreResult?
    ensures AddsWhatItReads(x, Apply(sh, x, step), step)
  {
  }

  lemma StepAdds(sh: Shared, x: Slot, step: Step)
    requires Inv(sh, x) && Enabled(sh, x, step)
    ensures AddsWhatItReads(x, Apply(sh, x, step), step)
    ensures forall y :: CutShort(sh, x, step, y) ==> AddsWhatItReads(x, y, step)
  {
    hide Inv;
    if step.Emit? {
      EmitAdds(sh, x, step);
    } else if step.StoreResult? {
      StoreAdds(sh, x, step);
    }
    hide EmitStep, StoreStep;
  }

  // ---------------------------------------------------------------- every turn keeps it

  lemma ObjectsKnown(c: Contents, heap: Heap, x: Slot, y: Slot, step: Step, o: Held)
    requires KnownIn(c.memory, c.given) && FilesFit(c.given, x.past)
    ensures var d := Went(c, heap, x, y, step, o);
            KnownIn(d.memory, d.given)
  {
    hide Rendered, Flat, EventTexts, BodyTexts;
  }

  /** The objects after a step against the history after it. */
  lemma ObjectsFit(k: Objects, heap: Heap, x: Slot, y: Slot, step: Step, o: Held)
    requires FilesFit(k, x.past) && Grows(x.past, y.past)
    requires AddsWhatItReads(x, y, step) && Reads(step, o, heap)
    ensures FilesFit(WithObject(k, x, y, step, o), y.past)
  {
    if Flat(o) { FlatReadsTheSame(o, heap, map[]); }
    GrownFits(k, x.past, y.past);
    hide Rendered, Flat, Grows;
  }

  lemma GrownFits(k: Objects, p: Past, q: Past)
    requires FilesFit(k, p) && Grows(p, q)
    ensures FilesFit(k, q)
  {
    hide Rendered, Flat;
  }

  /** Nothing is handed over for an Event or a Result that was durable before. */
  lemma EarlierObjects(k: Objects, x: Slot, y: Slot, step: Step, o: Held)
    ensures var after := WithObject(k, x, y, step, o);
            && (forall e :: IsEver(x.past, e) && FlatEvent(after, e) ==> FlatEvent(k, e))
            && (x.past.result.Some? ==> after.result == k.result)
  {
    hide Flat;
  }

  lemma InputsFit(c: Contents, heap: Heap, x: Slot, y: Slot, step: Step, o: Held)
    requires InputFits(c) && Reads(step, o, heap)
    ensures InputFits(Went(c, heap, x, y, step, o))
  {
    if Flat(o) { FlatReadsTheSame(o, heap, map[]); }
    hide Rendered, Flat, EventTexts, BodyTexts;
  }

  /** What a flat Event or Result reads as when it is sent. */
  lemma EventReads(memory: Objects, given: Objects, p: Past, heap: Heap, e: Event)
    requires KnownIn(memory, given) && FilesFit(given, p) && IsEver(p, e) && FlatEvent(given, e)
    ensures Rendered(EventObject(memory, e), heap) == e.payload
  {
    if e.seq_ in memory.events {
      FlatReadsTheSame(memory.events[e.seq_], heap, map[]);
    }
  }

  lemma BodyReads(memory: Objects, given: Objects, p: Past, heap: Heap, r: Result)
    requires KnownIn(memory, given) && FilesFit(given, p) && p.result == Some(r) && FlatResult(given)
    ensures Rendered(BodyObject(memory, r), heap) == r.payload.body
  {
    if memory.result.Some? {
      FlatReadsTheSame(memory.result.value, heap, map[]);
    }
  }

  /** The texts of the Events sent so far, after more were sent. */
  lemma EventWires(
    texts: seq<Fields>, memory: Objects, before: Objects, after: Objects, p: Past, q: Past, heap: Heap)
    requires |texts| == |p.sentEvents| && p.sentEvents <= q.sentEvents
    requires AreEver(p, p.sentEvents) && AreEver(q, q.sentEvents)
    requires forall i :: 0 <= i < |texts| && FlatEvent(before, p.sentEvents[i]) ==> texts[i] == p.sentEvents[i].payload
    requires KnownIn(memory, after) && FilesFit(after, q)
    requires forall e :: IsEver(p, e) && FlatEvent(after, e) ==> FlatEvent(before, e)
    ensures var all := texts + EventTexts(memory, heap, NewOnes(p.sentEvents, q.sentEvents));
            && |all| == |q.sentEvents|
            && forall i :: 0 <= i < |all| && FlatEvent(after, q.sentEvents[i]) ==> all[i] == q.sentEvents[i].payload
  {
    hide KnownIn, FilesFit, FlatEvent, IsEver, EventObject, Rendered;
    var all := texts + EventTexts(memory, heap, NewOnes(p.sentEvents, q.sentEvents));
    forall i | 0 <= i < |all| && FlatEvent(after, q.sentEvents[i]) ensures all[i] == q.sentEvents[i].payload {
      assert IsEver(q, q.sentEvents[i]);
      if i < |texts| {
        assert IsEver(p, p.sentEvents[i]);
      } else {
        EventReads(memory, after, q, heap, q.sentEvents[i]);
      }
    }
  }

  lemma BodyWires(
    texts: seq<Fields>, memory: Objects, before: Objects, after: Objects, p: Past, q: Past, heap: Heap)
    requires |texts| == |p.sentResults| && p.sentResults <= q.sentResults
    requires forall i :: 0 <= i < |p.sentResults| ==> p.result == Some(p.sentResults[i])
    requires forall i :: 0 <= i < |q.sentResults| ==> q.result == Some(q.sentResults[i])
    requires forall i :: 0 <= i < |texts| && FlatResult(before) ==> texts[i] == p.sentResults[i].payload.body
    requires KnownIn(memory, after) && FilesFit(after, q) && (p.result.Some? ==> after.result == before.result)
    ensures var all := texts + BodyTexts(memory, heap, NewOnes(p.sentResults, q.sentResults));
            && |all| == |q.sentResults|
            && forall i :: 0 <= i < |all| && FlatResult(after) ==> all[i] == q.sentResults[i].payload.body
  {
    hide KnownIn, FilesFit, BodyObject, Rendered;
    var all := texts + BodyTexts(memory, heap, NewOnes(p.sentResults, q.sentResults));
    forall i | 0 <= i < |all| && FlatResult(after) ensures all[i] == q.sentResults[i].payload.body {
      if i >= |texts| {
        BodyReads(memory, after, q, heap, q.sentResults[i]);
      }
    }
  }

  lemma WiresFit(c: Contents, heap: Heap, x: Slot, y: Slot, step: Step, o: Held, epoch: nat)
    requires WireFits(c, x.past) && Grows(x.past, y.past) && PastFits(x.past, epoch) && PastFits(y.past, epoch)
    requires var d := Went(c, heap, x, y, step, o);
             && KnownIn(d.memory, d.given) && FilesFit(d.given, y.past)
             && (forall e :: IsEver(x.past, e) && FlatEvent(d.given, e) ==> FlatEvent(c.given, e))
             && (x.past.result.Some? ==> d.given.result == c.given.result)
    ensures WireFits(Went(c, heap, x, y, step, o), y.past)
  {
    var d := Went(c, heap, x, y, step, o);
    hide KnownIn, FilesFit, FlatEvent, FlatResult, IsEver, WithObject, NewOnes;
    EventWires(c.events, d.memory, c.given, d.given, x.past, y.past, heap);
    BodyWires(c.results, d.memory, c.given, d.given, x.past, y.past, heap);
  }

  lemma WentFits(c: Contents, heap: Heap, x: Slot, y: Slot, step: Step, o: Held, epoch: nat)
    requires ContentsFit(c, x.past) && Grows(x.past, y.past) && PastFits(x.past, epoch) && PastFits(y.past, epoch)
    requires AddsWhatItReads(x, y, step) && Reads(step, o, heap)
    ensures ContentsFit(Went(c, heap, x, y, step, o), y.past)
  {
    ObjectsKnown(c, heap, x, y, step, o);
    ObjectsFit(c.given, heap, x, y, step, o);
    EarlierObjects(c.given, x, y, step, o);
    InputsFit(c, heap, x, y, step, o);
    WiresFit(c, heap, x, y, step, o, epoch);
    hide KnownIn, FilesFit, WireFits, InputFits, WithObject, Grows, PastFits;
  }

  /** An input read back, or written again, is that of a flat object whatever the heap is. */
  lemma RewriteFits(s: Machine, a: AttemptId, p: Past)
    requires ContentsFit(ContentsOf(s, a), p) && InputText(s, a).Some?
    ensures ContentsFit(ContentsOf(s, a).(file := InputText(s, a)), p)
  {
    var c := ContentsOf(s, a);
    if c.memory.input.Some? && Flat(c.memory.input.value) {
      FlatReadsTheSame(c.memory.input.value, s.heap, map[]);
    }
    hide FilesFit, WireFits, Rendered, Flat;
  }

  lemma PastOf(w: World, a: AttemptId)
    requires WorldInv(w)
    ensures PastFits(SlotOf(w, a).past, w.sh.epoch)
  {
    assert Inv(w.sh, SlotOf(w, a));
    hide EntryFits, HandlerFits, TasksFit, Live;
  }

  lemma TakeKeeps(s: Machine, m: Move, o: Held)
    requires MachineInv(s) && MayTurn(s, Take(m, o))
    ensures MachineInv(Turned(s, Take(m, o)))
  {
    var t := Turned(s, Take(m, o));
    NextKeeps(s.world, m);
    if m.Act? || m.Fault? { MoveFits(s, m, o); }
    hide Allowed, Apply, Enabled, WorldInv, Reads, Went, ContentsFit, Next;
    forall a ensures ContentsFit(ContentsOf(t, a), SlotOf(t.world, a).past) {
      assert ContentsFit(ContentsOf(s, a), SlotOf(s.world, a).past);
      if (m.Act? || m.Fault?) && m.attempt == a {
        assert t.contents[a] == Went(ContentsOf(s, a), s.heap, SlotOf(s.world, a), SlotOf(t.world, a), m.step, o);
      } else {
        OthersKeepThePast(s.world, m, a);
        SamePastFits(ContentsOf(s, a), SlotOf(s.world, a).past, SlotOf(t.world, a).past);
      }
    }
  }

  lemma OthersKeepThePast(w: World, m: Move, a: AttemptId)
    requires Allowed(w, m) && ((m.Act? || m.Fault?) ==> m.attempt != a)
    ensures SlotOf(Next(w, m), a).past.(stopped := false) == SlotOf(w, a).past.(stopped := false)
  {
    hide Enabled, Apply, Repaired;
  }

  lemma SamePastFits(c: Contents, p: Past, q: Past)
    requires ContentsFit(c, p) && p.(stopped := false) == q.(stopped := false)
    ensures ContentsFit(c, q) && ContentsFit(c.(memory := NO_OBJECTS), q)
  {
    hide Rendered, Flat;
  }

  lemma MoveFits(s: Machine, m: Move, o: Held)
    requires MachineInv(s) && MayTurn(s, Take(m, o)) && (m.Act? || m.Fault?)
    ensures var x, y := SlotOf(s.world, m.attempt), SlotOf(Next(s.world, m), m.attempt);
            ContentsFit(Went(ContentsOf(s, m.attempt), s.heap, x, y, m.step, o), y.past)
  {
    var a := m.attempt;
    var x, y := SlotOf(s.world, a), SlotOf(Next(s.world, m), a);
    assert Inv(s.world.sh, x) && ContentsFit(ContentsOf(s, a), x.past);
    NextKeeps(s.world, m);
    NextOnward(s.world, m, a);
    PastOf(s.world, a);
    PastOf(Next(s.world, m), a);
    StepAdds(s.world.sh, x, m.step);
    assert AddsWhatItReads(x, y, m.step);
    hide WorldInv, Inv, Enabled, Apply, CutShort, AddsWhatItReads, Grows, PastFits, ContentsFit, Went,
      MachineInv, Reads;
    WentFits(ContentsOf(s, a), s.heap, x, y, m.step, o, s.world.sh.epoch);
  }

  lemma TurnKeeps(s: Machine, t: Turn)
    requires MachineInv(s) && MayTurn(s, t)
    ensures MachineInv(Turned(s, t))
  {
    match t
    case Take(m, o) => TakeKeeps(s, m, o);
    case Handlers(_) => hide ContentsFit, WorldInv, Next, Allowed;
    case Rewrite(a) =>
      assert ContentsFit(ContentsOf(s, a), SlotOf(s.world, a).past);
      RewriteFits(s, a, SlotOf(s.world, a).past);
      hide ContentsFit, WorldInv, InputText, Next, Allowed;
  }

  lemma {:induction false} TurnsKeep(s: Machine, turns: seq<Turn>)
    requires MachineInv(s) && Turns(s, turns)
    ensures MachineInv(AtEnd(s, turns))
    decreases |turns|
  {
    hide MachineInv, MayTurn, Turned;
    if turns != [] {
      TurnKeeps(s, turns[0]);
      TurnsKeep(Turned(s, turns[0]), turns[1..]);
    }
  }

  lemma ContentsReached(epoch: nat, heap: Heap, turns: seq<Turn>, a: AttemptId)
    requires Turns(Begun(epoch, heap), turns)
    ensures var s := AtEnd(Begun(epoch, heap), turns);
            MachineInv(s) && ContentsFit(ContentsOf(s, a), SlotOf(s.world, a).past)
  {
    FreshInv(epoch);
    assert MachineInv(Begun(epoch, heap));
    TurnsKeep(Begun(epoch, heap), turns);
    hide ContentsFit, WorldInv, Turns, AtEnd;
  }
}
