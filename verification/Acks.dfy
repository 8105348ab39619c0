/**
 * Acknowledgement arithmetic of the durable journal: the sequences that Core has
 * acknowledged are kept as a prefix 1..prefix plus a sorted list of sequences beyond it.
 */
module Acks {
  import opened Prelude

  datatype Window = Window(prefix: nat, ahead: seq<nat>)

  predicate Acked(w: Window, n: nat) {
    n <= w.prefix || n in w.ahead
  }

  /** The prefix reached when every next sequence present in `pending` is absorbed. */
  function Climb(prefix: nat, pending: set<nat>): (r: nat)
    ensures prefix <= r
    ensures r + 1 !in pending
    ensures forall n: nat :: prefix < n <= r ==> n in pending
    decreases |pending|
  {
    if prefix + 1 in pending then
      var rest := pending - {prefix + 1};
      assert forall n: nat :: n in pending <==> n == prefix + 1 || n in rest;
      Climb(prefix + 1, rest)
    else prefix
  }

  /** What one acknowledgement does to a window, whatever the window holds. */
  function Applied(w: Window, n: nat): Window {
    var ahead := Members(w.ahead);
    if Acked(w, n) then w
    else if n == w.prefix + 1 then
      var top := Climb(n, ahead);
      Window(top, Sorted(ahead - (set k | k in ahead && n < k <= top)))
    else Window(w.prefix, Sorted(ahead + {n}))
  }

  /** The mutable record whose acknowledgement fields the journal updates in place. */
  class AckRecord {
    var prefix: nat
    var ahead: seq<nat>

    constructor (w: Window)
      ensures Value() == w
    {
      prefix, ahead := w.prefix, w.ahead;
    }

    ghost function Value(): Window
      reads this
    {
      Window(prefix, ahead)
    }

    method Apply(sequence: nat)
      modifies this
      ensures Value() == Applied(old(Value()), sequence)
    {
      if sequence <= prefix || sequence in ahead {
        return;
      }
      if sequence == prefix + 1 {
        prefix := sequence;
        var pending := Members(ahead);
        while prefix + 1 in pending
          invariant ahead == old(ahead)
          invariant sequence <= prefix
          invariant pending == Members(ahead) - (set k | k in Members(ahead) && sequence < k <= prefix)
          invariant Climb(prefix, pending) == Climb(sequence, Members(ahead))
          decreases pending
        {
          prefix := prefix + 1;
          pending := pending - {prefix};
        }
        ahead := Sorted(pending);
        return;
      }
      ahead := Sorted(Members(ahead) + {sequence});
    }
  }

  /** Sorted, and nothing in the list touches the prefix. */
  ghost predicate WellFormed(w: Window) {
    && Ascending(w.ahead)
    && forall n :: n in w.ahead ==> w.prefix + 1 < n
  }

  /** The set of sequences a window stands for. */
  function Meaning(w: Window): (r: set<nat>)
    ensures forall n :: n in r <==> 1 <= n && Acked(w, n)
  {
    UpTo(w.prefix) + (set n | n in w.ahead && 1 <= n)
  }

  ghost predicate Within(w: Window, last: nat) {
    forall n :: n in Meaning(w) ==> n <= last
  }

  /** Acknowledging the next sequence closes the gap as far as the list reaches. */
  lemma PrefixGrows(w: Window, n: nat)
    requires WellFormed(w) && n == w.prefix + 1
    ensures WellFormed(Applied(w, n))
    ensures forall k: nat :: Acked(Applied(w, n), k) <==> Acked(w, k) || k == n
  {
  }

  /** Acknowledging a sequence beyond the next one adds it to the list. */
  lemma ListGrows(w: Window, n: nat)
    requires WellFormed(w) && w.prefix + 1 < n
    ensures WellFormed(Applied(w, n))
    ensures forall k: nat :: Acked(Applied(w, n), k) <==> Acked(w, k) || k == n
  {
  }

  /** One acknowledgement adds exactly its own sequence to the set and keeps the form. */
  lemma AppliedAddsOne(w: Window, n: nat)
    requires WellFormed(w) && 1 <= n
    ensures WellFormed(Applied(w, n))
    ensures Meaning(Applied(w, n)) == Meaning(w) + {n}
  {
    if n == w.prefix + 1 {
      PrefixGrows(w, n);
    } else if w.prefix + 1 < n {
      ListGrows(w, n);
    }
    hide Meaning, WellFormed;
  }

  /** A set of acknowledged sequences has only one well-formed window. */
  lemma WindowIsCanonical(v: Window, w: Window)
    requires WellFormed(v) && WellFormed(w)
    requires Meaning(v) == Meaning(w)
    ensures v == w
  {
    PrefixAtMost(v, w);
    PrefixAtMost(w, v);
    forall n ensures n in Members(v.ahead) <==> n in Members(w.ahead) {
      assert n in Meaning(v) <==> n in Meaning(w);
    }
    AscendingUnique(v.ahead, w.ahead);
  }

  lemma PrefixAtMost(v: Window, w: Window)
    requires WellFormed(v) && WellFormed(w)
    requires Meaning(v) == Meaning(w)
    ensures v.prefix <= w.prefix
  {
    assert w.prefix + 1 !in Meaning(w);
    assert w.prefix < v.prefix ==> w.prefix + 1 in Meaning(v);
  }

  /** A whole series of acknowledgements, first one first. */
  function AppliedAll(w: Window, acks: seq<nat>): Window
    decreases |acks|
  {
    if acks == [] then w else AppliedAll(Applied(w, acks[0]), acks[1..])
  }

  lemma {:induction false} AppliedAllAddsAll(w: Window, acks: seq<nat>)
    requires WellFormed(w)
    requires forall n :: n in acks ==> 1 <= n
    ensures WellFormed(AppliedAll(w, acks))
    ensures Meaning(AppliedAll(w, acks)) == Meaning(w) + Members(acks)
    decreases |acks|
  {
    if acks == [] {
      assert Members(acks) == {};
    } else {
      assert acks[0] in acks;
      AppliedAddsOne(w, acks[0]);
      assert forall n :: n in acks[1..] ==> n in acks;
      AppliedAllAddsAll(Applied(w, acks[0]), acks[1..]);
      assert acks == [acks[0]] + acks[1..];
      assert Members(acks) == {acks[0]} + Members(acks[1..]);
    }
  }

  /** Order and repetition of acknowledgements leave no trace in the record. */
  lemma AckOrderIsIrrelevant(w: Window, first: seq<nat>, second: seq<nat>)
    requires WellFormed(w)
    requires forall n :: n in first ==> 1 <= n
    requires Members(first) == Members(second)
    ensures AppliedAll(w, first) == AppliedAll(w, second)
  {
    forall n | n in second ensures 1 <= n {
      assert n in Members(second);
    }
    AppliedAllAddsAll(w, first);
    AppliedAllAddsAll(w, second);
    WindowIsCanonical(AppliedAll(w, first), AppliedAll(w, second));
  }

  /** Acknowledging only sequences that exist keeps the window inside 1..last. */
  lemma AppliedAllStaysWithin(acks: seq<nat>, last: nat)
    requires forall n :: n in acks ==> 1 <= n <= last
    ensures Within(AppliedAll(Window(0, []), acks), last)
    ensures AppliedAll(Window(0, []), acks).prefix <= last
  {
    var w := AppliedAll(Window(0, []), acks);
    AppliedAllAddsAll(Window(0, []), acks);
    assert Meaning(w) == Members(acks);
    assert 1 <= w.prefix ==> w.prefix in Meaning(w);
  }

  /** Everything up to `last` is acknowledged exactly when the record reads (last, []). */
  lemma CompleteIff(w: Window, last: nat)
    requires WellFormed(w) && Within(w, last)
    ensures (forall n: nat :: 1 <= n <= last ==> Acked(w, n)) <==> w == Window(last, [])
  {
    assert 1 <= w.prefix ==> w.prefix in Meaning(w);
    assert !Acked(w, w.prefix + 1);
    assert w.ahead != [] ==> w.ahead[0] in w.ahead && w.ahead[0] in Meaning(w);
  }
}
