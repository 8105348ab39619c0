/** JSON string literals as Python writes and reads them. */
module JsonStrings {
  import opened Prelude
  import opened Texts

  function HexDigit(n: nat): Char
    requires n < 16
  {
    if n < 10 then 0x30 + n else 0x61 + n - 10
  }

  function HexValue(c: Char): (v: Option<nat>)
    ensures v.Some? ==> v.value < 16
  {
    if 0x30 <= c <= 0x39 then Some(c - 0x30)
    else if 0x41 <= c <= 0x46 then Some(c - 0x41 + 10)
    else if 0x61 <= c <= 0x66 then Some(c - 0x61 + 10)
    else None
  }

  /** A backslash, a `u` and four hexadecimal digits. */
  function Unit(n: nat): Text
    requires n < 0x10000
  {
    [BACKSLASH, 0x75, HexDigit(n / 0x1000), HexDigit(n / 0x100 % 0x10), HexDigit(n / 0x10 % 0x10), HexDigit(n % 0x10)]
  }

  function ReadUnit(t: Text): (n: Option<nat>)
    ensures n.Some? ==> n.value < 0x10000 && |t| >= 6
  {
    if |t| < 6 || t[0] != BACKSLASH || t[1] != 0x75 then None
    else
      match (HexValue(t[2]), HexValue(t[3]), HexValue(t[4]), HexValue(t[5]))
      case (Some(a), Some(b), Some(c), Some(d)) => Some(((a * 0x10 + b) * 0x10 + c) * 0x10 + d)
      case _ => None
  }

  predicate IsHigh(n: nat) {
    0xD800 <= n <= 0xDBFF
  }

  predicate IsLow(n: nat) {
    0xDC00 <= n <= 0xDFFF
  }

  function Pair(high: nat, low: nat): Char
    requires IsHigh(high) && IsLow(low)
  {
    0x10000 + (high - 0xD800) * 0x400 + (low - 0xDC00)
  }

  /** The letter behind the backslash of a short escape. */
  function ShortEscape(c: Char): Option<Char> {
    if c == QUOTE then Some(QUOTE)
    else if c == BACKSLASH then Some(BACKSLASH)
    else if c == 0x08 then Some(0x62)
    else if c == 0x0C then Some(0x66)
    else if c == 0x0A then Some(0x6E)
    else if c == 0x0D then Some(0x72)
    else if c == 0x09 then Some(0x74)
    else None
  }

  function ReadShort(c: Char): Option<Char> {
    if c == QUOTE then Some(QUOTE)
    else if c == BACKSLASH then Some(BACKSLASH)
    else if c == 0x2F then Some(0x2F)
    else if c == 0x62 then Some(0x08)
    else if c == 0x66 then Some(0x0C)
    else if c == 0x6E then Some(0x0A)
    else if c == 0x72 then Some(0x0D)
    else if c == 0x74 then Some(0x09)
    else None
  }

  function EncodedChar(c: Char): Text {
    if ShortEscape(c).Some? then [BACKSLASH, ShortEscape(c).value]
    else if 0x20 <= c <= 0x7E then [c]
    else if c < 0x10000 then Unit(c)
    else Unit(0xD800 + (c - 0x10000) / 0x400) + Unit(0xDC00 + (c - 0x10000) % 0x400)
  }

  function EncodedBody(t: Text): Text {
    if t == [] then [] else EncodedChar(t[0]) + EncodedBody(t[1..])
  }

  /** json.dumps of a text. */
  function Encoded(t: Text): Text {
    [QUOTE] + EncodedBody(t) + [QUOTE]
  }

  function Prepend(c: Char, rest: Option<Text>): Option<Text> {
    if rest.Some? then Some([c] + rest.value) else None
  }

  /** What follows the opening quote, up to the closing quote that must be the end. */
  function DecodedBody(t: Text): Option<Text>
    decreases |t|
  {
    if t == [] then None
    else if t[0] == QUOTE then if |t| == 1 then Some([]) else None
    else if t[0] == BACKSLASH then
      if |t| == 1 then None
      else if t[1] != 0x75 then
        if ReadShort(t[1]) == None then None else Prepend(ReadShort(t[1]).value, DecodedBody(t[2..]))
      else if ReadUnit(t) == None then None
      else
        var n := ReadUnit(t).value;
        var next := ReadUnit(t[6..]);
        if IsHigh(n) && next.Some? && IsLow(next.value) then Prepend(Pair(n, next.value), DecodedBody(t[12..]))
        else Prepend(n, DecodedBody(t[6..]))
    else if t[0] < 0x20 then None
    else Prepend(t[0], DecodedBody(t[1..]))
  }

  /** json.loads of a text that starts and ends with a quote. */
  function Decoded(t: Text): Option<Text> {
    if |t| >= 2 && t[0] == QUOTE then DecodedBody(t[1..]) else None
  }

  /** A high surrogate directly before a low one is read back as one character. */
  function Merged(t: Text): Text
    decreases |t|
  {
    if |t| >= 2 && IsHigh(t[0]) && IsLow(t[1]) then [Pair(t[0], t[1])] + Merged(t[2..])
    else if t == [] then []
    else [t[0]] + Merged(t[1..])
  }

  predicate HasPair(t: Text) {
    exists i :: 0 <= i < |t| - 1 && IsHigh(t[i]) && IsLow(t[i + 1])
  }

  lemma DigitReads(k: nat)
    requires k < 16
    ensures HexValue(HexDigit(k)) == Some(k)
  {
  }

  lemma DigitsSum(n: nat)
    requires n < 0x10000
    ensures n / 0x1000 < 16
    ensures (((n / 0x1000) * 0x10 + n / 0x100 % 0x10) * 0x10 + n / 0x10 % 0x10) * 0x10 + n % 0x10 == n
  {
  }

  lemma UnitReads(n: nat, rest: Text)
    requires n < 0x10000
    ensures ReadUnit(Unit(n) + rest) == Some(n) && (Unit(n) + rest)[6..] == rest
    ensures |Unit(n)| == 6 && (Unit(n) + rest)[0] == BACKSLASH && (Unit(n) + rest)[1] == 0x75
  {
    DigitsSum(n);
    DigitReads(n / 0x1000);
    DigitReads(n / 0x100 % 0x10);
    DigitReads(n / 0x10 % 0x10);
    DigitReads(n % 0x10);
    hide HexDigit, HexValue;
  }

  /** A unit that is not half of a pair is read on its own. */
  lemma OneUnit(n: nat, rest: Text)
    requires n < 0x10000
    requires IsHigh(n) && ReadUnit(rest).Some? ==> !IsLow(ReadUnit(rest).value)
    ensures DecodedBody(Unit(n) + rest) == Prepend(n, DecodedBody(rest))
  {
    UnitReads(n, rest);
    hide Unit, ReadUnit;
  }

  lemma TwoUnits(high: nat, low: nat, rest: Text)
    requires IsHigh(high) && IsLow(low)
    ensures DecodedBody(Unit(high) + (Unit(low) + rest)) == Prepend(Pair(high, low), DecodedBody(rest))
  {
    UnitReads(low, rest);
    UnitReads(high, Unit(low) + rest);
    hide Unit, ReadUnit;
    var t := Unit(high) + (Unit(low) + rest);
    assert t[12..] == t[6..][6..];
  }

  /** One encoded character in front of a body is read back, unless it pairs with the next one. */
  lemma CharDecodes(c: Char, rest: Text)
    requires IsHigh(c) && ReadUnit(rest).Some? ==> !IsLow(ReadUnit(rest).value)
    ensures DecodedBody(EncodedChar(c) + rest) == Prepend(c, DecodedBody(rest))
  {
    if ShortEscape(c).Some? || 0x20 <= c <= 0x7E {
      PlainDecodes(c, rest);
    } else {
      hide DecodedBody, Unit, ReadUnit, ShortEscape;
      if c < 0x10000 {
        OneUnit(c, rest);
      } else {
        var high, low := 0xD800 + (c - 0x10000) / 0x400, 0xDC00 + (c - 0x10000) % 0x400;
        assert EncodedChar(c) + rest == Unit(high) + (Unit(low) + rest);
        TwoUnits(high, low, rest);
      }
    }
  }

  lemma PlainDecodes(c: Char, rest: Text)
    requires ShortEscape(c).Some? || 0x20 <= c <= 0x7E
    ensures DecodedBody(EncodedChar(c) + rest) == Prepend(c, DecodedBody(rest))
  {
    var t := EncodedChar(c) + rest;
    hide Unit, ReadUnit;
    if ShortEscape(c).Some? {
      var short := ShortEscape(c).value;
      ShortReads(c);
      hide ShortEscape, ReadShort;
      assert t[0] == BACKSLASH && t[1] == short && t[2..] == rest;
    } else {
      assert c != QUOTE && c != BACKSLASH;
      hide ShortEscape, ReadShort;
      assert t[0] == c && t[1..] == rest;
    }
  }

  lemma ShortReads(c: Char)
    requires ShortEscape(c).Some?
    ensures var short := ShortEscape(c).value;
            short != 0x75 && ReadShort(short) == Some(c)
  {
  }

  /** What the first unit of an encoded character can be. */
  lemma FirstUnitOfChar(c: Char, rest: Text)
    ensures var u := ReadUnit(EncodedChar(c) + rest);
            u.Some? && IsLow(u.value) ==> u.value == c
  {
    if c >= 0x10000 {
      var high, low := 0xD800 + (c - 0x10000) / 0x400, 0xDC00 + (c - 0x10000) % 0x400;
      assert EncodedChar(c) + rest == Unit(high) + (Unit(low) + rest);
      UnitReads(high, Unit(low) + rest);
    } else if EncodedChar(c) == Unit(c) {
      UnitReads(c, rest);
    }
    hide Unit, HexValue;
  }

  lemma FirstUnit(t: Text)
    ensures var u := ReadUnit(EncodedBody(t) + [QUOTE]);
            u.Some? && IsLow(u.value) ==> t != [] && t[0] == u.value
  {
    if t != [] {
      var rest := EncodedBody(t[1..]) + [QUOTE];
      assert EncodedBody(t) + [QUOTE] == EncodedChar(t[0]) + rest;
      FirstUnitOfChar(t[0], rest);
      hide *;
    }
  }

  /** What is read back, for every text. */
  lemma {:induction false} BodyDecodes(t: Text)
    ensures DecodedBody(EncodedBody(t) + [QUOTE]) == Some(Merged(t))
    decreases |t|
  {
    if t != [] {
      var rest := EncodedBody(t[1..]) + [QUOTE];
      assert EncodedBody(t) + [QUOTE] == EncodedChar(t[0]) + rest;
      if |t| >= 2 && IsHigh(t[0]) && IsLow(t[1]) {
        var last := EncodedBody(t[2..]) + [QUOTE];
        assert t[1..][1..] == t[2..];
        assert EncodedChar(t[0]) + rest == Unit(t[0]) + (Unit(t[1]) + last);
        TwoUnits(t[0], t[1], last);
        BodyDecodes(t[2..]);
      } else {
        FirstUnit(t[1..]);
        CharDecodes(t[0], rest);
        BodyDecodes(t[1..]);
      }
    }
  }

  lemma {:induction false} MergedIff(t: Text)
    ensures Merged(t) == t <==> !HasPair(t)
    ensures |Merged(t)| <= |t| && (HasPair(t) ==> |Merged(t)| < |t|) && (Merged(t) == [] <==> t == [])
    decreases |t|
  {
    if |t| >= 2 && IsHigh(t[0]) && IsLow(t[1]) {
      MergedIff(t[2..]);
    } else if t != [] {
      MergedIff(t[1..]);
      assert t == [t[0]] + t[1..];
      if HasPair(t) {
        var i :| 0 <= i < |t| - 1 && IsHigh(t[i]) && IsLow(t[i + 1]);
        assert IsHigh(t[1..][i - 1]) && IsLow(t[1..][i]);
      }
      if HasPair(t[1..]) {
        var i :| 0 <= i < |t[1..]| - 1 && IsHigh(t[1..][i]) && IsLow(t[1..][i + 1]);
        assert IsHigh(t[i + 1]) && IsLow(t[i + 2]);
      }
    }
  }

  /** A text survives the round trip exactly when no surrogate pair stands in it as two characters. */
  lemma RoundTripIff(t: Text)
    ensures Decoded(Encoded(t)) == Some(Merged(t))
    ensures Decoded(Encoded(t)) == Some(t) <==> !HasPair(t)
  {
    assert Encoded(t)[1..] == EncodedBody(t) + [QUOTE];
    BodyDecodes(t);
    MergedIff(t);
  }

  /** The two halves of a pair come back as the one character they stand for. */
  lemma SplitPairExample()
    ensures Decoded(Encoded([0xD83D, 0xDE00])) == Some([0x1F600])
  {
    RoundTripIff([0xD83D, 0xDE00]);
    assert Merged([]) == [] && Merged([0xD83D, 0xDE00]) == [0x1F600];
    hide Decoded, Encoded;
  }

  // ---------------------------------------------------------------- strings that others have written

  /** Section 7 of RFC 8259: the letters behind a backslash, and what they stand for. */
  const LETTERS: Text := Plain("\"\\/bfnrt")
  const MEANINGS: seq<Char> := [QUOTE, BACKSLASH, 0x2F, 0x08, 0x0C, LF, CR, 0x09]

  /** A backslash with a letter is read as the table says, and with any other letter not at all. */
  lemma EscapeReads(letter: Char, rest: Text)
    requires letter != 0x75
    ensures forall i :: 0 <= i < |LETTERS| && letter == LETTERS[i] ==>
                          DecodedBody([BACKSLASH, letter] + rest) == Prepend(MEANINGS[i], DecodedBody(rest))
    ensures letter !in LETTERS ==> DecodedBody([BACKSLASH, letter] + rest) == None
  {
    var t := [BACKSLASH, letter] + rest;
    assert t[1] == letter && t[2..] == rest && |LETTERS| == |MEANINGS| == 8;
    LettersAre(letter);
    hide ReadUnit, ReadShort, LETTERS, MEANINGS;
  }

  lemma LettersAre(letter: Char)
    ensures letter in LETTERS <==> ReadShort(letter).Some?
    ensures forall i :: 0 <= i < |LETTERS| && letter == LETTERS[i] ==> ReadShort(letter) == Some(MEANINGS[i])
  {
    assert LETTERS[0] == 0x22 && LETTERS[1] == 0x5C && LETTERS[2] == 0x2F && LETTERS[3] == 0x62;
    assert LETTERS[4] == 0x66 && LETTERS[5] == 0x6E && LETTERS[6] == 0x72 && LETTERS[7] == 0x74;
  }

  const LOWER: Text := Plain("0123456789abcdef")
  const UPPER: Text := Plain("0123456789ABCDEF")

  /** Four digits in either case stand for the number that they spell. */
  lemma DigitsRead(digits: Text, v: seq<nat>, rest: Text)
    requires |digits| == |v| == 4
    requires forall i :: 0 <= i < 4 ==> v[i] < 16 && digits[i] in {LOWER[v[i]], UPPER[v[i]]}
    ensures ReadUnit([BACKSLASH, 0x75] + digits + rest)
         == Some(v[0] * 0x1000 + v[1] * 0x100 + v[2] * 0x10 + v[3])
  {
    forall i | 0 <= i < 4 ensures HexValue(digits[i]) == Some(v[i]) {
      DigitIs(v[i]);
    }
    var t := [BACKSLASH, 0x75] + digits + rest;
    assert t[2] == digits[0] && t[3] == digits[1] && t[4] == digits[2] && t[5] == digits[3];
    hide HexValue, LOWER, UPPER;
  }

  lemma DigitIs(v: nat)
    requires v < 16
    ensures HexValue(LOWER[v]) == HexValue(UPPER[v]) == Some(v)
  {
    assert LOWER[v] == if v < 10 then 0x30 + v else 0x61 + v - 10;
    assert UPPER[v] == if v < 10 then 0x30 + v else 0x41 + v - 10;
  }

  /** What is written: short escapes, small digits, and two units for a character beyond the first plane. */
  lemma EncodedExample()
    ensures EncodedChar(0xE9) == Plain("\\u00e9") && EncodedChar(0x1F600) == Plain("\\ud83d\\ude00")
    ensures EncodedChar(LF) == Plain("\\n") && EncodedChar(QUOTE) == Plain("\\\"") && EncodedChar(0x61) == Plain("a")
  {
    UnitExample();
    hide Unit;
    assert Plain("\\ud83d\\ude00") == Plain("\\ud83d") + Plain("\\ude00");
  }

  lemma UnitExample()
    ensures Unit(0xE9) == Plain("\\u00e9") && Unit(0xD83D) == Plain("\\ud83d") && Unit(0xDE00) == Plain("\\ude00")
  {
  }

  lemma EncodedCharPrintable(c: Char)
    ensures Printable(EncodedChar(c))
  {
  }

  /** The encoding is one line of printable characters without white space at its ends. */
  lemma {:induction false} EncodedBodyPrintable(t: Text)
    ensures Printable(EncodedBody(t))
  {
    if t != [] {
      EncodedBodyPrintable(t[1..]);
      EncodedCharPrintable(t[0]);
      hide EncodedChar;
    }
  }
}
