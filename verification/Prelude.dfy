/** Small result types shared by the other modules. */
module Prelude {

  datatype Option<+T> = None | Some(value: T)

  /** The two ways a text or range operation can end. */
  datatype Outcome<+T, +E> = Ok(value: T) | Err(error: E)

  /** Strictly increasing. */
  ghost predicate Ascending(s: seq<nat>) {
    forall i, j :: 0 <= i < j < |s| ==> s[i] < s[j]
  }

  function Members(s: seq<nat>): (r: set<nat>)
    ensures forall n :: n in r <==> n in s
  {
    set n | n in s
  }

  /** The interval 1..n. */
  function UpTo(n: nat): (r: set<nat>)
    ensures forall k: nat :: k in r <==> 1 <= k <= n
  {
    if n == 0 then {} else UpTo(n - 1) + {n}
  }

  ghost predicate IsLeast(m: nat, s: set<nat>) {
    m in s && forall x :: x in s ==> m <= x
  }

  lemma LeastExists(s: set<nat>)
    requires s != {}
    ensures exists m :: IsLeast(m, s)
  {
    var m :| m in s;
    var rest := s - {m};
    assert forall x :: x in s <==> x == m || x in rest;
    if rest == {} {
      assert IsLeast(m, s);
    } else {
      LeastExists(rest);
      var k :| IsLeast(k, rest);
      assert IsLeast(if k < m then k else m, s);
    }
  }

  function Least(s: set<nat>): (m: nat)
    requires s != {}
    ensures IsLeast(m, s)
  {
    LeastExists(s);
    assert forall m, k :: IsLeast(m, s) && IsLeast(k, s) ==> m == k;
    var m :| m in s && forall x :: x in s ==> m <= x;
    m
  }

  /** The members of a finite set in ascending order (the built-in `sorted` on distinct numbers). */
  function Sorted(s: set<nat>): (r: seq<nat>)
    ensures Ascending(r)
    ensures forall n :: n in r <==> n in s
    decreases |s|
  {
    if s == {} then []
    else
      var m := Least(s);
      [m] + Sorted(s - {m})
  }

  /** An ascending list is determined by its members. */
  lemma {:induction false} AscendingUnique(a: seq<nat>, b: seq<nat>)
    requires Ascending(a) && Ascending(b)
    requires Members(a) == Members(b)
    ensures a == b
    decreases |a|
  {
    assert a != [] ==> a[0] in Members(a);
    assert b != [] ==> b[0] in Members(b) && b[0] in Members(a);
    if a != [] {
      assert a[0] in Members(b);
      var i :| 0 <= i < |a| && a[i] == b[0];
      var j :| 0 <= j < |b| && b[j] == a[0];
      assert a[0] == b[0];
      forall n ensures n in a[1..] <==> n in b[1..] {
        if n in a[1..] {
          var p :| 0 <= p < |a| - 1 && a[1..][p] == n;
          assert a[p + 1] == n && n in Members(b);
          var q :| 0 <= q < |b| && b[q] == n;
          assert b[1..][q - 1] == n;
        }
        if n in b[1..] {
          var p :| 0 <= p < |b| - 1 && b[1..][p] == n;
          assert b[p + 1] == n && n in Members(a);
          var q :| 0 <= q < |a| && a[q] == n;
          assert a[1..][q - 1] == n;
        }
      }
      AscendingUnique(a[1..], b[1..]);
    }
  }
}
