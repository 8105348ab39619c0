/** What the reader of an environment file makes of lines that no writer of ours has made. */
module EnvReading {
  import opened Prelude
  import opened Texts
  import opened JsonStrings
  import opened EnvFile

  predicate Padding(t: Text) {
    forall i :: 0 <= i < |t| ==> IsSpace(t[i])
  }

  /** No white space at either end. */
  predicate Trimmed(t: Text) {
    t != [] ==> !IsSpace(t[0]) && !IsSpace(t[|t| - 1])
  }

  const EXPORT: Text := Plain("export ")

  // ---------------------------------------------------------------- stripping

  lemma {:induction false} LStripPadded(p: Text, t: Text)
    requires Padding(p) && (t != [] ==> !IsSpace(t[0]))
    ensures LStrip(p + t) == t
    decreases |p|
  {
    if p == [] {
      assert p + t == t;
    } else {
      assert (p + t)[0] == p[0] && (p + t)[1..] == p[1..] + t;
      LStripPadded(p[1..], t);
    }
  }

  lemma {:induction false} RStripPadded(t: Text, p: Text)
    requires Padding(p) && (t != [] ==> !IsSpace(t[|t| - 1]))
    ensures RStrip(t + p) == t
    decreases |p|
  {
    if p == [] {
      assert t + p == t;
    } else {
      var n := |p| - 1;
      assert (t + p)[|t + p| - 1] == p[n] && (t + p)[..|t + p| - 1] == t + p[..n];
      RStripPadded(t, p[..n]);
    }
  }

  /** White space around a text goes, and nothing else. */
  lemma StripPadded(p: Text, t: Text, q: Text)
    requires Padding(p) && Padding(q) && Trimmed(t)
    ensures Strip(p + t + q) == t
  {
    if t == [] {
      assert p + t + q == (p + q) + [];
      LStripPadded(p + q, []);
    } else {
      assert p + t + q == p + (t + q) && (t + q)[0] == t[0];
      LStripPadded(p, t + q);
      RStripPadded(t, q);
    }
    hide LStrip, RStrip;
  }

  // ---------------------------------------------------------------- one line

  /** A line as it may stand in a file: a name, an equals sign and a value, with white space between. */
  datatype Shape = Shape(
    before: Text, exported: bool, lead: Text, name: Text, gap: Text, space: Text, value: Text, after: Text)

  function Assignment(s: Shape): Text {
    s.name + s.gap + [EQUALS] + s.space + s.value
  }

  function LineOf(s: Shape): Text {
    s.before + (if s.exported then EXPORT + s.lead else []) + Assignment(s) + s.after
  }

  /**
   * The white space is white space, name and value have none at their ends, the name has no
   * equals sign and is no comment, and `export` is only there as itself.
   */
  predicate IsAssignment(s: Shape) {
    && Padding(s.before) && Padding(s.lead) && Padding(s.gap) && Padding(s.space) && Padding(s.after)
    && Trimmed(s.name) && Trimmed(s.value) && EQUALS !in s.name
    && (if s.name == [] then s.gap == [] else s.name[0] != HASH)
    && (!s.exported ==> s.lead == [] && !(EXPORT <= Assignment(s)))
  }

  /** The line without what is stripped from it, with the space after the equals sign if no value follows. */
  function Core(s: Shape): Text {
    if s.value == [] then s.name + s.gap + [EQUALS] else Assignment(s)
  }

  lemma CoreIs(s: Shape)
    requires IsAssignment(s)
    ensures Trimmed(Core(s)) && Core(s) != [] && Core(s)[0] != HASH
    ensures Assignment(s) + s.after == Core(s) + (if s.value == [] then s.space + s.after else s.after)
    ensures Find(Core(s), EQUALS) == |s.name + s.gap|
    ensures Core(s)[..|s.name + s.gap|] == s.name + s.gap
    ensures Core(s)[|s.name + s.gap| + 1..] == if s.value == [] then [] else s.space + s.value
  {
    var c, n := Core(s), |s.name + s.gap|;
    assert !IsSpace(EQUALS);
    assert c[n] == EQUALS;
    assert c[..n] == s.name + s.gap;
    forall i | 0 <= i < n ensures (s.name + s.gap)[i] != EQUALS {
      if i >= |s.name| {
        assert IsSpace(s.gap[i - |s.name|]);
      }
    }
    FindIs(c, EQUALS, n);
    assert c[0] == if s.name == [] then EQUALS else s.name[0];
    if s.value != [] {
      assert c[|c| - 1] == s.value[|s.value| - 1];
      assert c[n + 1..] == s.space + s.value;
    }
  }

  /** A line is read as its name and its value, whatever white space and `export` are around them. */
  lemma AssignmentReads(s: Shape)
    requires IsAssignment(s)
    ensures Binding(LineOf(s)) == Some((s.name, Unquoted(s.value)))
  {
    var c, n := Core(s), |s.name + s.gap|;
    CoreIs(s);
    CandidateIs(s);
    NameAndValue(s);
    hide Core, Strip, Unquoted, Candidate, Binding, LineOf;
    BindingOf(LineOf(s), c, n);
  }

  lemma BindingOf(raw: Text, c: Text, n: nat)
    requires Candidate(raw) == c && n < |c| && Find(c, EQUALS) == n && c[0] != HASH
    ensures Binding(raw) == Some((Strip(c[..n]), Unquoted(Strip(c[n + 1..]))))
  {
    hide Candidate, Strip, Unquoted;
  }

  lemma NameAndValue(s: Shape)
    requires IsAssignment(s)
    ensures Strip(s.name + s.gap) == s.name
    ensures Strip(if s.value == [] then [] else s.space + s.value) == s.value
  {
    hide Strip;
    StripPadded([], s.name, s.gap);
    assert [] + s.name + s.gap == s.name + s.gap;
    StripPadded(if s.value == [] then [] else s.space, s.value, []);
    assert s.space + s.value + [] == s.space + s.value && [] + s.value + [] == s.value;
  }

  /** The white space that follows the core of a line. */
  function Rest(s: Shape): Text {
    if s.value == [] then s.space + s.after else s.after
  }

  lemma CandidateIs(s: Shape)
    requires IsAssignment(s)
    ensures Candidate(LineOf(s)) == Core(s)
  {
    CoreIs(s);
    NotExported(s);
    LinePieces(s);
    assert Padding(Rest(s));
    hide Core, Candidate, LineOf, Rest, Assignment;
    if s.exported {
      ExportedCandidate(s.before, s.lead, Core(s), Rest(s));
    } else {
      PlainCandidate(s.before, Core(s), Rest(s));
    }
  }

  lemma LinePieces(s: Shape)
    requires IsAssignment(s)
    ensures LineOf(s) == s.before + (if s.exported then EXPORT + s.lead + Core(s) else Core(s)) + Rest(s)
  {
    CoreIs(s);
    var head := if s.exported then EXPORT + s.lead else [];
    Regroup(s.before, head, Assignment(s), s.after, Core(s), Rest(s));
    hide Core, Assignment, IsAssignment, Rest, EXPORT;
    if !s.exported {
      assert [] + Core(s) == Core(s);
    }
  }

  lemma Regroup(a: Text, h: Text, m: Text, q: Text, c: Text, r: Text)
    requires m + q == c + r
    ensures a + h + m + q == a + (h + c) + r
  {
    assert a + h + m + q == a + h + (m + q);
    assert a + (h + c) + r == a + h + (c + r);
  }

  /** A line without `export`, stripped. */
  lemma PlainCandidate(before: Text, body: Text, after: Text)
    requires Padding(before) && Padding(after) && Trimmed(body) && !(EXPORT <= body)
    ensures Candidate(before + body + after) == body
  {
    StripPadded(before, body, after);
    ExportIs();
    hide Strip, Plain;
  }

  /** A line with it, stripped twice. */
  lemma ExportedCandidate(before: Text, lead: Text, body: Text, after: Text)
    requires Padding(before) && Padding(lead) && Padding(after) && Trimmed(body) && body != []
    ensures Candidate(before + (EXPORT + lead + body) + after) == body
  {
    ExportIs();
    var line := EXPORT + lead + body;
    assert line[|line| - 1] == body[|body| - 1] && line[0] == EXPORT[0];
    assert line[..7] == EXPORT && line[7..] == lead + body + [];
    hide Plain;
    StripPadded(before, line, after);
    StripPadded(lead, body, []);
    hide Strip;
  }

  lemma ExportIs()
    ensures |EXPORT| == 7 && EXPORT[0] == 0x65 && EXPORT == Plain("export ")
  {
  }

  lemma NotExported(s: Shape)
    requires IsAssignment(s)
    ensures !s.exported ==> !(EXPORT <= Core(s))
  {
    assert Core(s) <= Assignment(s);
    hide Core, Assignment;
  }

  /** Empty lines, comments and lines without an equals sign are no assignments, exported or not. */
  lemma OthersAreSkipped(before: Text, exported: bool, lead: Text, body: Text, after: Text)
    requires Padding(before) && Padding(lead) && Padding(after) && Trimmed(body)
    requires exported ==> body != []
    requires !exported ==> lead == [] && !(EXPORT <= body)
    requires body == [] || body[0] == HASH || EQUALS !in body
    ensures Binding(before + (if exported then EXPORT + lead else []) + body + after) == None
  {
    hide Strip, Unquoted;
    if exported {
      assert before + (EXPORT + lead) + body + after == before + (EXPORT + lead + body) + after;
      ExportedCandidate(before, lead, body, after);
    } else {
      assert before + [] + body + after == before + body + after;
      PlainCandidate(before, body, after);
    }
    hide Candidate;
  }

  // ---------------------------------------------------------------- what a value is read as

  /** Between two of these characters. */
  function Between(c: Char, t: Text): Text {
    [c] + t + [c]
  }

  predicate Quotish(value: Text) {
    |value| >= 2 && value[0] == value[|value| - 1] && value[0] in {QUOTE, APOSTROPHE}
  }

  /** A value without quotes around it is read as it stands. */
  lemma PlainReads(value: Text)
    requires !Quotish(value)
    ensures Unquoted(value) == value
  {
    hide Decoded;
  }

  /** Apostrophes are taken off, and nothing between them is changed. */
  lemma ApostrophesReads(inner: Text)
    ensures Unquoted(Between(APOSTROPHE, inner)) == inner
  {
    hide Decoded;
    var value := Between(APOSTROPHE, inner);
    assert value[1..|value| - 1] == inner;
  }

  /** Quotes around characters that need no escape are taken off. */
  lemma QuotesRead(inner: Text)
    requires forall i :: 0 <= i < |inner| ==> inner[i] >= 0x20 && inner[i] !in {QUOTE, BACKSLASH}
    ensures Unquoted(Between(QUOTE, inner)) == inner
  {
    var value := Between(QUOTE, inner);
    assert value[1..] == inner + [QUOTE];
    PlainBody(inner);
    hide DecodedBody;
  }

  lemma {:induction false} PlainBody(inner: Text)
    requires forall i :: 0 <= i < |inner| ==> inner[i] >= 0x20 && inner[i] !in {QUOTE, BACKSLASH}
    ensures DecodedBody(inner + [QUOTE]) == Some(inner)
    decreases |inner|
  {
    if inner == [] {
      assert inner + [QUOTE] == [QUOTE];
    } else {
      assert (inner + [QUOTE])[0] == inner[0] && (inner + [QUOTE])[1..] == inner[1..] + [QUOTE];
      PlainBody(inner[1..]);
      assert inner == [inner[0]] + inner[1..];
    }
  }

  /** Quotes around what is no JSON string stand as they are: a bare quote or a control character inside, say. */
  lemma NoJsonStands(inner: Text)
    requires Decoded(Between(QUOTE, inner)) == None
    ensures Unquoted(Between(QUOTE, inner)) == Between(QUOTE, inner)
  {
  }

  lemma {:induction false} BrokenBody(inner: Text, i: nat)
    requires i < |inner| && inner[i] < 0x20
    ensures DecodedBody(inner + [QUOTE]) == None
    decreases |inner|
  {
    var t := inner + [QUOTE];
    assert t[i] == inner[i] && |t| >= 2;
    if t[0] >= 0x20 && t[0] != QUOTE {
      var k := Read(t);
      if k <= i {
        assert t[k..] == inner[k..] + [QUOTE];
        BrokenBody(inner[k..], i - k);
      }
      ReadsOn(t, i);
    }
  }

  /** How many characters the decoder takes at once. */
  function Read(t: Text): nat {
    if t == [] || t[0] != BACKSLASH then 1
    else if |t| == 1 || t[1] != 0x75 then 2
    else
      var n, next := ReadUnit(t), if |t| >= 6 then ReadUnit(t[6..]) else None;
      if n.Some? && IsHigh(n.value) && next.Some? && IsLow(next.value) then 12 else 6
  }

  /** They are no control characters, or the text is no JSON string. */
  lemma ReadsOn(t: Text, i: nat)
    requires |t| >= 2 && t[0] >= 0x20 && t[0] != QUOTE && i < |t| && t[i] < 0x20
    ensures Read(t) <= i && DecodedBody(t[Read(t)..]) == None ==> DecodedBody(t) == None
    ensures i < Read(t) ==> DecodedBody(t) == None
  {
    hide HexValue;
    if t[0] == BACKSLASH && t[1] == 0x75 {
      UnitsAreDigits(t);
      if |t| >= 6 { UnitsAreDigits(t[6..]); }
    }
  }

  lemma UnitsAreDigits(t: Text)
    ensures ReadUnit(t).Some? ==> |t| >= 6 && forall i :: 0 <= i < 6 ==> t[i] >= 0x20
  {
  }

  // ---------------------------------------------------------------- the file

  /** The last line that binds the name binds it to this value. */
  predicate LastBinding(lines: seq<Text>, name: Text, i: nat, value: Text) {
    && i < |lines| && Binding(lines[i]) == Some((name, value))
    && forall j :: i < j < |lines| ==> !Binds(lines[j], name)
  }

  predicate Binds(line: Text, name: Text) {
    Binding(line).Some? && Binding(line).value.0 == name
  }

  /** The last line of a name counts, and a name without a line has no value. */
  lemma {:induction false} LastLineCounts(lines: seq<Text>, name: Text)
    ensures forall i: nat, value :: LastBinding(lines, name, i, value) ==>
              name in ValuesOf(lines) && ValuesOf(lines)[name] == value
    ensures (forall i :: 0 <= i < |lines| ==> !Binds(lines[i], name)) ==> name !in ValuesOf(lines)
    decreases |lines|
  {
    hide Binding;
    if lines != [] {
      var n := |lines| - 1;
      LastLineCounts(lines[..n], name);
      forall i: nat, value | LastBinding(lines, name, i, value)
        ensures name in ValuesOf(lines) && ValuesOf(lines)[name] == value
      {
        if i < n {
          assert LastBinding(lines[..n], name, i, value) && !Binds(lines[n], name);
        }
      }
    }
  }

  /** The value of a key in a file of these lines: that of its last line, or none. */
  ghost predicate ReadsAs(lines: seq<Text>, name: Text, value: Text) {
    || (exists i: nat :: LastBinding(lines, name, i, value))
    || (value == [] && forall i :: 0 <= i < |lines| ==> !Binds(lines[i], name))
  }

  lemma ReadsAsIs(lines: seq<Text>, name: Text, value: Text)
    requires ReadsAs(lines, name, value)
    ensures Get(ValuesOf(lines), name) == value
  {
    LastLineCounts(lines, name);
  }

  /**
   * Loading any file gives the registration whose fields are those values, and nothing exactly
   * when it has neither an id nor a token.
   */
  lemma LoadsWhatItReads(text: Text, r: AgentRegistration)
    requires forall k: Key :: ReadsAs(SplitLines(text), Name(k), Field(r, k))
    ensures Loaded(Some(text)) == if r.agentId == [] && r.agentToken == [] then None else Some(r)
  {
    hide SplitLines, ValuesOf, ReadsAs, Name;
    var values := ValuesOf(SplitLines(text));
    forall k: Key ensures Field(RegistrationOf(values), k) == Field(r, k) {
      ReadsAsIs(SplitLines(text), Name(k), Field(r, k));
      FieldOfRegistration(values, k);
    }
    SameFields(RegistrationOf(values), r);
    hide RegistrationOf, Field;
  }

  lemma FieldOfRegistration(values: Values, k: Key)
    ensures Field(RegistrationOf(values), k) == Get(values, Name(k))
  {
    hide Name;
  }

  lemma SameFields(a: AgentRegistration, b: AgentRegistration)
    requires forall k: Key :: Field(a, k) == Field(b, k)
    ensures a == b
  {
    assert Field(a, ApiBase) == Field(b, ApiBase) && Field(a, AgentId) == Field(b, AgentId);
    assert Field(a, AgentSlug) == Field(b, AgentSlug) && Field(a, AgentName) == Field(b, AgentName);
    assert Field(a, AgentToken) == Field(b, AgentToken) && Field(a, TokenId) == Field(b, TokenId);
    assert Field(a, TokenPrefix) == Field(b, TokenPrefix) && Field(a, UpdatedAt) == Field(b, UpdatedAt);
    assert Field(a, RegisteredAt) == Field(b, RegisteredAt);
  }

  /** A file of one line for a key, its value written by hand and without quotes. */
  lemma HandWrittenReads(key: Key, value: Text)
    requires Trimmed(value) && Unbroken(value) && !Quotish(value)
    ensures var line := Name(key) + [EQUALS] + value;
            && Binding(line) == Some((Name(key), value)) && SplitLines(line + [LF]) == [line]
            && forall k: Key :: ReadsAs([line], Name(k), if k == key then value else [])
  {
    var line := Name(key) + [EQUALS] + value;
    var s := Shape([], false, [], Name(key), [], [], value, []);
    HandWrittenShape(key, value);
    AssignmentReads(s);
    PlainReads(value);
    assert Content([line]) == line + [LF];
    SplitContent([line]);
    hide Binding, SplitLines, Name, LineOf;
    forall k: Key ensures ReadsAs([line], Name(k), if k == key then value else []) {
      OneLineReads(line, key, value, k);
    }
  }

  /** A token written by hand is loaded as it stands. */
  lemma HandWrittenExample()
    ensures Loaded(Some(Name(AgentToken) + [EQUALS] + Plain("old") + [LF]))
         == Some(AgentRegistration([], [], [], Plain("old"), [], [], [], [], []))
  {
    var r := AgentRegistration([], [], [], Plain("old"), [], [], [], [], []);
    HandWrittenReads(AgentToken, Plain("old"));
    assert Plain("old") != [];
    hide Binding, SplitLines, Loaded, Plain, Name, ReadsAs;
    LoadsWhatItReads(Name(AgentToken) + [EQUALS] + Plain("old") + [LF], r);
  }

  /** A file of one line reads nothing for any other key. */
  lemma OneLineReads(line: Text, key: Key, value: Text, k: Key)
    requires Binding(line) == Some((Name(key), value))
    ensures ReadsAs([line], Name(k), if k == key then value else [])
  {
    hide Binding, Name;
    if k == key {
      assert LastBinding([line], Name(k), 0, value);
    } else {
      NamesDiffer(k, key);
    }
  }

  lemma HandWrittenShape(key: Key, value: Text)
    requires Trimmed(value) && Unbroken(value)
    ensures var s := Shape([], false, [], Name(key), [], [], value, []);
            IsAssignment(s) && LineOf(s) == Name(key) + [EQUALS] + value && Unbroken(LineOf(s))
  {
    var s := Shape([], false, [], Name(key), [], [], value, []);
    NamesArePlain(key);
    ExportIs();
    hide Name;
    assert LineOf(s) == Name(key) + [EQUALS] + value;
    assert Assignment(s)[0] == Name(key)[0];
  }
}
