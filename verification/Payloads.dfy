/**
 * What a handler hands over. The worker copies the top level of an object and no more: the
 * lists and objects nested in it stay the handler's, which can change them at any time. Files
 * hold the object as it read when it was written; what is sent is read from memory.
 */
module Payloads {
  import opened Journal

  /** A list or an object that a handler can still change. */
  type Cell = nat

  /** How the handlers' lists and objects read at the moment, as JSON text; one not yet made is an empty list. */
  type Heap = map<Cell, string>

  function TextAt(heap: Heap, c: Cell): string {
    if c in heap then heap[c] else "[]"
  }

  /** A value in a copied top level: a scalar or something else that cannot change, a nested one, or a wrapped one. */
  datatype Value =
    | Plain(text: string)
    | Nested(cell: Cell)
    | Wrapped(cell: Cell)

  /** A top level of the worker's own. */
  type Held = map<string, Value>

  function TextOf(v: Value, heap: Heap): string {
    match v
    case Plain(text) => text
    case Nested(c) => TextAt(heap, c)
    case Wrapped(c) => InValue(TextAt(heap, c))
  }

  /** An empty object, the brackets of an object, and the name under which another value is wrapped. */
  const NO_FIELDS: string := "{}"
  const OPENING: string := NO_FIELDS[..1]
  const CLOSING: string := NO_FIELDS[1..]
  const VALUE: string := "\"value\":"

  /** The object that a return value becomes which is not one. */
  function InValue(text: string): string {
    OPENING + VALUE + text + CLOSING
  }

  /** How the object reads. */
  function Rendered(o: Held, heap: Heap): (r: Fields)
    ensures r.Keys == o.Keys
  {
    map name | name in o :: TextOf(o[name], heap)
  }

  /** No nested list or object. */
  predicate Flat(o: Held) {
    forall name :: name in o ==> o[name].Plain?
  }

  /** An object read back from a file, which nobody else can change. */
  function Constant(f: Fields): (r: Held)
    ensures Flat(r) && forall heap :: Rendered(r, heap) == f
  {
    var r := map name | name in f :: Plain(f[name]);
    assert forall heap :: Rendered(r, heap) == f;
    r
  }

  /** What clearing a list or object makes of it, or filling an empty one. */
  function OtherText(text: string): (r: string)
    ensures r != text
  {
    if text == NO_FIELDS then InValue("0")
    else if text == "[]" then "[0]"
    else if OPENING <= text then NO_FIELDS
    else "[]"
  }

  /** The heap after the handler has cleared, or filled, every list and object nested in the object. */
  function Disturbed(heap: Heap, o: Held): Heap {
    map c | c in set name | name in o && !o[name].Plain? :: o[name].cell :: OtherText(TextAt(heap, c))
  }

  lemma DisturbedDiffers(o: Held, heap: Heap)
    requires !Flat(o)
    ensures Rendered(o, Disturbed(heap, o)) != Rendered(o, heap)
  {
    var name :| name in o && !o[name].Plain?;
    var before, after := TextAt(heap, o[name].cell), TextAt(Disturbed(heap, o), o[name].cell);
    assert after == OtherText(before);
    assert InValue(after) != InValue(before) by { WrappingIsInjective(before, after); }
    assert Rendered(o, Disturbed(heap, o))[name] != Rendered(o, heap)[name];
  }

  lemma WrappingIsInjective(a: string, b: string)
    ensures InValue(a) == InValue(b) ==> a == b
  {
    var n := |OPENING + VALUE|;
    assert InValue(a)[n..|InValue(a)| - 1] == a && InValue(b)[n..|InValue(b)| - 1] == b;
  }

  lemma FlatReadsTheSame(o: Held, now: Heap, later: Heap)
    requires Flat(o)
    ensures Rendered(o, later) == Rendered(o, now)
  {
  }

  /** An object reads the same for ever exactly when it has no nested list or object. */
  lemma FlatIff(o: Held, now: Heap)
    ensures Flat(o) <==> forall later :: Rendered(o, later) == Rendered(o, now)
  {
    if Flat(o) {
      forall later ensures Rendered(o, later) == Rendered(o, now) {
        FlatReadsTheSame(o, now, later);
      }
    } else {
      DisturbedDiffers(o, now);
    }
  }

  // ---------------------------------------------------------------- results

  /** What a handler can end with; an error stands for every way to fail. */
  datatype Returned =
    | Nothing
    | Mapping(cell: Cell)
    | Scalar(text: string)
    | Listing(cell: Cell)
    | Failure(error: string)

  /** The output of a success: an empty one becomes a new one, an object is taken as it is, the rest is wrapped. */
  function OutputOf(r: Returned, heap: Heap): Value
    requires !r.Failure?
  {
    match r
    case Nothing => Plain(NO_FIELDS)
    case Mapping(c) => if TextAt(heap, c) == NO_FIELDS then Plain(NO_FIELDS) else Nested(c)
    case Scalar(text) => Plain(InValue(text))
    case Listing(c) => Wrapped(c)
  }

  /** The Result payload made when the handler ends; `common` is the rest of it. */
  function ResultObject(r: Returned, common: Fields, heap: Heap): Held {
    if r.Failure? then Constant(common)["error" := Plain(r.error)]
    else Constant(common)["output" := OutputOf(r, heap)]
  }

  /** What the payload reads as when it is made: a failure its error, a success its output, and the rest as given. */
  lemma ResultReads(r: Returned, common: Fields, heap: Heap)
    requires common.Keys !! {"output", "error"}
    ensures var f := Rendered(ResultObject(r, common, heap), heap);
            && (forall name :: name in common ==> name in f && f[name] == common[name])
            && f.Keys == common.Keys + {if r.Failure? then "error" else "output"}
            && match r
               case Failure(error) => f["error"] == error
               case Nothing => f["output"] == NO_FIELDS
               case Mapping(c) => f["output"] == TextAt(heap, c)
               case Scalar(text) => f["output"] == InValue(text)
               case Listing(c) => f["output"] == InValue(TextAt(heap, c))
  {
  }

  /** A failure, an empty output, or a scalar that the worker wraps. */
  predicate OutOfReach(r: Returned, heap: Heap) {
    r.Failure? || r.Nothing? || r.Scalar? || (r.Mapping? && TextAt(heap, r.cell) == NO_FIELDS)
  }

  lemma OutOfReachIff(r: Returned, common: Fields, heap: Heap)
    ensures Flat(ResultObject(r, common, heap)) <==> OutOfReach(r, heap)
  {
    var o := ResultObject(r, common, heap);
    if !OutOfReach(r, heap) {
      assert !o["output"].Plain?;
    }
  }
}
