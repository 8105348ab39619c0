/** Python texts: code points, white space, stripping, cutting and lines. */
module Texts {

  /** A code point; surrogates are code points too. */
  type Char = c: nat | c < 0x110000 witness 0
  type Text = seq<Char>

  const LF: Char := 0x0A
  const CR: Char := 0x0D
  const QUOTE: Char := 0x22
  const HASH: Char := 0x23
  const APOSTROPHE: Char := 0x27
  const EQUALS: Char := 0x3D
  const BACKSLASH: Char := 0x5C

  function Plain(s: string): (t: Text)
    ensures |t| == |s| && forall i :: 0 <= i < |s| ==> t[i] == s[i] as int
  {
    seq(|s|, i requires 0 <= i < |s| => s[i] as int)
  }

  predicate IsSpace(c: Char) {
    || 0x09 <= c <= 0x0D || 0x1C <= c <= 0x20 || c in {0x85, 0xA0, 0x1680}
    || 0x2000 <= c <= 0x200A || c in {0x2028, 0x2029, 0x202F, 0x205F, 0x3000}
  }

  /** The characters at which a text is cut into lines. */
  predicate IsBoundary(c: Char) {
    0x0A <= c <= 0x0D || 0x1C <= c <= 0x1E || c in {0x85, 0x2028, 0x2029}
  }

  predicate Printable(t: Text) {
    forall i :: 0 <= i < |t| ==> 0x20 <= t[i] <= 0x7E
  }

  function LStrip(t: Text): Text {
    if t != [] && IsSpace(t[0]) then LStrip(t[1..]) else t
  }

  function RStrip(t: Text): Text {
    if t != [] && IsSpace(t[|t| - 1]) then RStrip(t[..|t| - 1]) else t
  }

  function Strip(t: Text): Text {
    RStrip(LStrip(t))
  }

  /** The position of the first `c`, or the length. */
  function Find(t: Text, c: Char): (n: nat)
    ensures n <= |t| && c !in t[..n] && (n < |t| ==> t[n] == c) && (n == |t| <==> c !in t)
  {
    if t == [] || t[0] == c then 0
    else
      assert t == [t[0]] + t[1..];
      var n := 1 + Find(t[1..], c);
      assert t[..n] == [t[0]] + t[1..][..n - 1];
      n
  }

  lemma {:induction false} FindIs(t: Text, c: Char, n: nat)
    requires n < |t| && t[n] == c && c !in t[..n]
    ensures Find(t, c) == n
  {
  }

  // ---------------------------------------------------------------- lines

  /** The end of the first line. */
  function LineEnd(t: Text): (n: nat)
    ensures n <= |t| && (n < |t| ==> IsBoundary(t[n]))
    ensures forall i :: 0 <= i < n ==> !IsBoundary(t[i])
  {
    if t == [] || IsBoundary(t[0]) then 0 else 1 + LineEnd(t[1..])
  }

  /** A carriage return and the line feed behind it are one boundary. */
  function Width(t: Text, n: nat): (k: nat)
    requires n < |t|
    ensures 1 <= k && n + k <= |t|
  {
    if t[n] == CR && n + 1 < |t| && t[n + 1] == LF then 2 else 1
  }

  function SplitLines(t: Text): seq<Text>
    decreases |t|
  {
    if t == [] then []
    else
      var n := LineEnd(t);
      if n == |t| then [t] else [t[..n]] + SplitLines(t[n + Width(t, n)..])
  }

  function Joined(lines: seq<Text>): Text {
    if lines == [] then [] else if |lines| == 1 then lines[0] else lines[0] + [LF] + Joined(lines[1..])
  }

  /** The lines joined by line feeds, and one more at the end unless there are none. */
  function Content(lines: seq<Text>): Text {
    Joined(lines) + if lines == [] then [] else [LF]
  }

  predicate Unbroken(t: Text) {
    forall i :: 0 <= i < |t| ==> !IsBoundary(t[i])
  }

  predicate AreLines(lines: seq<Text>) {
    forall i :: 0 <= i < |lines| ==> Unbroken(lines[i])
  }

  lemma {:induction false} SplitGivesLines(t: Text)
    ensures AreLines(SplitLines(t))
    decreases |t|
  {
    if t != [] && LineEnd(t) < |t| {
      SplitGivesLines(t[LineEnd(t) + Width(t, LineEnd(t))..]);
    }
  }

  lemma LineEndIs(t: Text, n: nat)
    requires n < |t| && Unbroken(t[..n]) && IsBoundary(t[n])
    ensures LineEnd(t) == n
  {
  }

  /** Writing lines and reading them back gives the lines. */
  lemma {:induction false} SplitContent(lines: seq<Text>)
    requires AreLines(lines)
    ensures SplitLines(Content(lines)) == lines
    decreases |lines|
  {
    if lines != [] {
      var rest := Content(lines[1..]);
      var t := Content(lines);
      var n := |lines[0]|;
      assert t == lines[0] + [LF] + rest by {
        if |lines| > 1 {
          assert t == (lines[0] + [LF] + Joined(lines[1..])) + [LF];
        }
      }
      assert t[..n] == lines[0] && t[n] == LF && t[n + 1..] == rest;
      LineEndIs(t, n);
      SplitContent(lines[1..]);
      assert lines == [lines[0]] + lines[1..];
    }
  }

  lemma StripNothing(t: Text)
    requires t != [] ==> !IsSpace(t[0]) && !IsSpace(t[|t| - 1])
    ensures Strip(t) == t
  {
  }
}
