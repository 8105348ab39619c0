/** The registration kept in an environment file beside whatever else the file holds. */
module EnvFile {
  import opened Prelude
  import opened Texts
  import opened JsonStrings

  datatype Key =
    | ApiBase | AgentId | AgentSlug | AgentName | AgentToken | TokenId | TokenPrefix | RegisteredAt | UpdatedAt

  const KEYS: seq<Key> :=
    [ApiBase, AgentId, AgentSlug, AgentName, AgentToken, TokenId, TokenPrefix, RegisteredAt, UpdatedAt]

  function Name(k: Key): Text {
    match k
    case ApiBase => Plain("OPENLINKER_API_BASE")
    case AgentId => Plain("OPENLINKER_AGENT_ID")
    case AgentSlug => Plain("OPENLINKER_AGENT_SLUG")
    case AgentName => Plain("OPENLINKER_AGENT_NAME")
    case AgentToken => Plain("OPENLINKER_AGENT_TOKEN")
    case TokenId => Plain("OPENLINKER_AGENT_TOKEN_ID")
    case TokenPrefix => Plain("OPENLINKER_AGENT_TOKEN_PREFIX")
    case RegisteredAt => Plain("OPENLINKER_REGISTERED_AT")
    case UpdatedAt => Plain("OPENLINKER_UPDATED_AT")
  }

  datatype AgentRegistration = AgentRegistration(
    agentId: Text, agentSlug: Text, agentName: Text, agentToken: Text, tokenId: Text, tokenPrefix: Text,
    apiBase: Text, registeredAt: Text, updatedAt: Text)

  function Field(r: AgentRegistration, k: Key): Text {
    match k
    case ApiBase => r.apiBase
    case AgentId => r.agentId
    case AgentSlug => r.agentSlug
    case AgentName => r.agentName
    case AgentToken => r.agentToken
    case TokenId => r.tokenId
    case TokenPrefix => r.tokenPrefix
    case RegisteredAt => r.registeredAt
    case UpdatedAt => r.updatedAt
  }

  /** Names of the managed keys are made of capital letters and underscores. */
  lemma NamesArePlain(k: Key)
    ensures Name(k) != [] && forall i :: 0 <= i < |Name(k)| ==> 0x41 <= Name(k)[i] <= 0x5F
  {
  }

  lemma NameShape(k: Key)
    ensures |Name(k)| == (match k
                          case ApiBase => 19 case AgentId => 19 case AgentSlug => 21 case AgentName => 21
                          case AgentToken => 22 case TokenId => 25 case TokenPrefix => 29
                          case RegisteredAt => 24 case UpdatedAt => 21)
    ensures Name(k)[12]
         == (match k case ApiBase => 0x50 case UpdatedAt => 0x50 case RegisteredAt => 0x45 case _ => 0x47)
    ensures k == AgentSlug ==> Name(k)[17] == 0x53
    ensures k == AgentName ==> Name(k)[17] == 0x4E
  {
  }

  lemma NamesDiffer(j: Key, k: Key)
    ensures Name(j) == Name(k) ==> j == k
  {
    NameShape(j);
    NameShape(k);
    hide Name;
  }

  // ---------------------------------------------------------------- one line

  /** A line without surrounding white space and without a leading `export`. */
  function Candidate(raw: Text): Text {
    var line := Strip(raw);
    if Plain("export ") <= line then Strip(line[7..]) else line
  }

  function Unquoted(value: Text): Text {
    if |value| >= 2 && value[0] == value[|value| - 1] == QUOTE && Decoded(value).Some? then Decoded(value).value
    else if |value| >= 2 && value[0] == value[|value| - 1] == APOSTROPHE then value[1..|value| - 1]
    else value
  }

  /** What the reader makes of a line. */
  function Binding(raw: Text): Option<(Text, Text)> {
    var c := Candidate(raw);
    var n := Find(c, EQUALS);
    if c == [] || c[0] == HASH || n == |c| then None
    else Some((Strip(c[..n]), Unquoted(Strip(c[n + 1..]))))
  }

  /** What the writer takes for the key of a line. */
  function WrittenKey(raw: Text): Text {
    var c := Candidate(raw);
    var n := Find(c, EQUALS);
    if n == |c| then [] else Strip(c[..n])
  }

  predicate Managed(name: Text) {
    exists k: Key :: k in KEYS && name == Name(k)
  }

  function Line(k: Key, value: Text): Text {
    Name(k) + [EQUALS] + Encoded(value)
  }

  lemma {:induction false} RStripHead(t: Text)
    requires t != [] && !IsSpace(t[0])
    ensures RStrip(t) != [] && RStrip(t)[0] == t[0]
    decreases |t|
  {
    if IsSpace(t[|t| - 1]) {
      RStripHead(t[..|t| - 1]);
    }
  }

  /** Reader and writer agree on the key of a line, and on whether a managed key is read at all. */
  lemma ReaderAndWriterAgree(raw: Text)
    ensures Binding(raw).Some? ==> Binding(raw).value.0 == WrittenKey(raw)
    ensures Managed(WrittenKey(raw)) ==> Binding(raw).Some?
  {
    if Managed(WrittenKey(raw)) {
      var k :| k in KEYS && WrittenKey(raw) == Name(k);
      NamesArePlain(k);
      hide Name, Strip, Plain;
      var c := Candidate(raw);
      var n := Find(c, EQUALS);
      if c != [] && c[0] == HASH && n < |c| {
        assert Strip(c[..n]) == RStrip(c[..n]) && c[..n][0] == HASH by { StripIs(c[..n]); }
        RStripHead(c[..n]);
      }
    }
  }

  lemma StripIs(t: Text)
    requires t != [] && !IsSpace(t[0])
    ensures Strip(t) == RStrip(t)
  {
  }

  lemma LineShape(k: Key, value: Text)
    ensures var line, n := Line(k, value), |Name(k)|;
            && 0 < n < |line| && line[..n] == Name(k) && line[n] == EQUALS && line[n + 1..] == Encoded(value)
            && EQUALS !in Name(k) && Printable(line) && line[0] !in {0x65, HASH}
            && (forall t :: t in {line, Name(k), Encoded(value)} ==> t != [] && !IsSpace(t[0]) && !IsSpace(t[|t| - 1]))
  {
    NamesArePlain(k);
    EncodedBodyPrintable(value);
    hide Name, EncodedBody;
    var line := Line(k, value);
    forall i | 0 <= i < |line| ensures 0x20 <= line[i] <= 0x7E {
      assert i < |Name(k)| ==> line[i] == Name(k)[i];
      assert i > |Name(k)| ==> line[i] == Encoded(value)[i - |Name(k)| - 1];
    }
  }

  /** A managed line is read back as its key and its value. */
  lemma LineReads(k: Key, value: Text)
    ensures Binding(Line(k, value)) == Some((Name(k), Merged(value)))
    ensures WrittenKey(Line(k, value)) == Name(k) && Unbroken(Line(k, value))
  {
    LineShape(k, value);
    RoundTripIff(value);
    var line := Line(k, value);
    hide Name, Strip, Decoded, EncodedBody, Merged, Line, IsSpace;
    StripNothing(line);
    StripNothing(Name(k));
    StripNothing(Encoded(value));
    assert Plain("export ")[0] == 0x65;
    assert Candidate(line) == line;
    FindIs(line, EQUALS, |Name(k)|);
  }

  // ---------------------------------------------------------------- the file

  type Values = map<Text, Text>

  function Bound(values: Values, raw: Text): Values {
    if Binding(raw).Some? then values[Binding(raw).value.0 := Binding(raw).value.1] else values
  }

  /** What the reader makes of the lines: the last line of a key counts. */
  function ValuesOf(lines: seq<Text>): Values {
    if lines == [] then map[] else Bound(ValuesOf(lines[..|lines| - 1]), lines[|lines| - 1])
  }

  function Get(values: Values, name: Text): Text {
    if name in values then values[name] else []
  }

  lemma ValuesNext(lines: seq<Text>, i: nat)
    requires i < |lines|
    ensures ValuesOf(lines[..i + 1]) == Bound(ValuesOf(lines[..i]), lines[i])
  {
    assert lines[..i + 1][..i] == lines[..i];
    hide Bound;
  }

  method ReadEnv(text: Text) returns (values: Values)
    ensures values == ValuesOf(SplitLines(text))
  {
    hide SplitLines, Strip, Unquoted, ValuesOf;
    var lines := SplitLines(text);
    values := map[];
    assert ValuesOf(lines[..0]) == map[] by { NoValues(lines[..0]); }
    for i := 0 to |lines|
      invariant values == ValuesOf(lines[..i])
    {
      ValuesNext(lines, i);
      var line := Strip(lines[i]);
      if Plain("export ") <= line {
        line := Strip(line[7..]);
      }
      if line == [] || line[0] == HASH || EQUALS !in line {
        continue;
      }
      var n := Find(line, EQUALS);
      values := values[Strip(line[..n]) := Unquoted(Strip(line[n + 1..]))];
    }
    assert lines[..|lines|] == lines;
  }

  lemma NoValues(lines: seq<Text>)
    requires lines == []
    ensures ValuesOf(lines) == map[]
  {
  }

  /** What the writer makes of one existing line. */
  function KeptLine(raw: Text, values: Values): seq<Text> {
    var name := WrittenKey(raw);
    if !Managed(name) then [raw]
    else if Get(values, name) != [] then [name + [EQUALS] + Encoded(values[name])]
    else []
  }

  function Kept(lines: seq<Text>, values: Values): seq<Text> {
    if lines == [] then [] else Kept(lines[..|lines| - 1], values) + KeptLine(lines[|lines| - 1], values)
  }

  /** The managed keys that have a line. */
  function Seen(lines: seq<Text>): set<Text> {
    if lines == [] then {}
    else
      var name := WrittenKey(lines[|lines| - 1]);
      Seen(lines[..|lines| - 1]) + if Managed(name) then {name} else {}
  }

  function AddedLine(k: Key, seen: set<Text>, values: Values): seq<Text> {
    if Name(k) !in seen && Get(values, Name(k)) != [] then [Line(k, values[Name(k)])] else []
  }

  function Added(keys: seq<Key>, seen: set<Text>, values: Values): seq<Text> {
    if keys == [] then []
    else Added(keys[..|keys| - 1], seen, values) + AddedLine(keys[|keys| - 1], seen, values)
  }

  function Written(lines: seq<Text>, values: Values): seq<Text> {
    Kept(lines, values) + Added(KEYS, Seen(lines), values)
  }

  lemma KeptNext(lines: seq<Text>, i: nat, values: Values)
    requires i < |lines|
    ensures Kept(lines[..i + 1], values) == Kept(lines[..i], values) + KeptLine(lines[i], values)
    ensures Seen(lines[..i + 1])
         == Seen(lines[..i]) + if Managed(WrittenKey(lines[i])) then {WrittenKey(lines[i])} else {}
  {
    assert lines[..i + 1][..i] == lines[..i];
    hide KeptLine, Managed, WrittenKey;
  }

  lemma AddedNext(keys: seq<Key>, i: nat, seen: set<Text>, values: Values)
    requires i < |keys|
    ensures Added(keys[..i + 1], seen, values) == Added(keys[..i], seen, values) + AddedLine(keys[i], seen, values)
  {
    assert keys[..i + 1][..i] == keys[..i];
    hide AddedLine;
  }

  method WriteEnv(existing: Text, values: Values) returns (content: Text)
    ensures content == Content(Written(SplitLines(existing), values))
  {
    hide Managed, WrittenKey, Encoded, SplitLines, Kept, Seen, Added, Content, Name;
    var lines := SplitLines(existing);
    var seen: set<Text> := {};
    var output: seq<Text> := [];
    assert Kept([], values) == [] && Seen([]) == {} && forall s :: Added([], s, values) == [] by { Empties(values); }
    assert lines[..0] == [] && KEYS[..0] == [];
    for i := 0 to |lines|
      invariant output == Kept(lines[..i], values) && seen == Seen(lines[..i])
    {
      KeptNext(lines, i, values);
      var name := WrittenKey(lines[i]);
      if !Managed(name) {
        output := output + [lines[i]];
        continue;
      }
      seen := seen + {name};
      if Get(values, name) != [] {
        output := output + [name + [EQUALS] + Encoded(values[name])];
      }
    }
    assert lines[..|lines|] == lines;
    ghost var kept := output;
    for i := 0 to |KEYS|
      invariant output == kept + Added(KEYS[..i], seen, values)
    {
      AddedNext(KEYS, i, seen, values);
      var name := Name(KEYS[i]);
      if name !in seen && Get(values, name) != [] {
        output := output + [name + [EQUALS] + Encoded(values[name])];
      }
    }
    assert KEYS[..|KEYS|] == KEYS;
    return Content(output);
  }

  lemma Empties(values: Values)
    ensures Kept([], values) == [] && Seen([]) == {} && forall s :: Added([], s, values) == []
  {
  }

  // ---------------------------------------------------------------- the registration

  /** The managed values of a registration: the fields that are not empty. */
  function FieldValues(r: AgentRegistration, keys: seq<Key>): Values {
    if keys == [] then map[]
    else
      var k := keys[|keys| - 1];
      var rest := FieldValues(r, keys[..|keys| - 1]);
      if Field(r, k) != [] then rest[Name(k) := Field(r, k)] else rest - {Name(k)}
  }

  function Saved(text: Text, r: AgentRegistration): Text {
    Content(Written(SplitLines(text), FieldValues(r, KEYS)))
  }

  function RegistrationOf(values: Values): AgentRegistration {
    AgentRegistration(
      Get(values, Name(AgentId)), Get(values, Name(AgentSlug)), Get(values, Name(AgentName)),
      Get(values, Name(AgentToken)), Get(values, Name(TokenId)), Get(values, Name(TokenPrefix)),
      Get(values, Name(ApiBase)), Get(values, Name(RegisteredAt)), Get(values, Name(UpdatedAt)))
  }

  function Loaded(file: Option<Text>): Option<AgentRegistration> {
    if file == None then None
    else
      var r := RegistrationOf(ValuesOf(SplitLines(file.value)));
      if r.agentId == [] && r.agentToken == [] then None else Some(r)
  }

  lemma AllKeys(k: Key)
    ensures k in KEYS
  {
  }

  lemma {:induction false} FieldValuesGet(r: AgentRegistration, keys: seq<Key>, k: Key)
    requires k in keys
    ensures Get(FieldValues(r, keys), Name(k)) == Field(r, k)
  {
    var last := keys[|keys| - 1];
    NamesDiffer(k, last);
    hide Name;
    if k != last {
      FieldValuesGet(r, keys[..|keys| - 1], k);
    }
  }

  /** Only the managed values matter to what is written. */
  lemma WrittenDependsOnManaged(lines: seq<Text>, v: Values, w: Values)
    requires forall k: Key :: k in KEYS ==> Get(v, Name(k)) == Get(w, Name(k))
    ensures Written(lines, v) == Written(lines, w)
  {
    hide Name, Managed, WrittenKey, Kept, Added;
    KeptDependsOnManaged(lines, v, w);
    AddedDependsOnManaged(KEYS, Seen(lines), v, w);
  }

  lemma {:induction false} KeptDependsOnManaged(lines: seq<Text>, v: Values, w: Values)
    requires forall k: Key :: k in KEYS ==> Get(v, Name(k)) == Get(w, Name(k))
    ensures Kept(lines, v) == Kept(lines, w)
  {
    hide Name, WrittenKey;
    if lines != [] {
      KeptDependsOnManaged(lines[..|lines| - 1], v, w);
    }
  }

  lemma {:induction false} AddedDependsOnManaged(keys: seq<Key>, seen: set<Text>, v: Values, w: Values)
    requires forall k: Key :: k in KEYS ==> Get(v, Name(k)) == Get(w, Name(k))
    ensures Added(keys, seen, v) == Added(keys, seen, w)
  {
    hide Name;
    if keys != [] {
      AllKeys(keys[|keys| - 1]);
      AddedDependsOnManaged(keys[..|keys| - 1], seen, v, w);
    }
  }

  class EnvRegistrationStore {
    var file: Option<Text>

    method LoadAgentRegistration() returns (r: Option<AgentRegistration>)
      ensures r == Loaded(file)
    {
      hide Name, ValuesOf, SplitLines;
      if file == None {
        return None;
      }
      var values := ReadEnv(file.value);
      var found := RegistrationOf(values);
      if found.agentId == [] && found.agentToken == [] {
        return None;
      }
      return Some(found);
    }

    method SaveAgentRegistration(r: AgentRegistration)
      modifies this
      ensures file == Some(Saved(if old(file) == None then [] else old(file).value, r))
    {
      hide Name, ValuesOf, SplitLines, Written, FieldValues;
      var text: Text := if file == None then [] else file.value;
      var values: Values := map[];
      if file.Some? {
        values := ReadEnv(file.value);
      }
      for i := 0 to |KEYS|
        invariant forall k: Key :: k in KEYS[..i] && Field(r, k) != [] ==> Get(values, Name(k)) == Field(r, k)
      {
        var k := KEYS[i];
        if Field(r, k) != [] {
          ghost var before := values;
          values := values[Name(k) := Field(r, k)];
          OthersKeep(before, values, k);
        }
        assert KEYS[..i + 1] == KEYS[..i] + [k];
      }
      assert KEYS[..|KEYS|] == KEYS;
      for i := 0 to |KEYS|
        invariant forall k: Key :: k in KEYS && Field(r, k) != [] ==> Get(values, Name(k)) == Field(r, k)
        invariant forall k: Key :: k in KEYS[..i] && Field(r, k) == [] ==> Get(values, Name(k)) == []
      {
        var k := KEYS[i];
        if Field(r, k) == [] {
          ghost var before := values;
          values := values - {Name(k)};
          OthersKeep(before, values, k);
        }
        assert KEYS[..i + 1] == KEYS[..i] + [k];
      }
      assert KEYS[..|KEYS|] == KEYS;
      forall k: Key | k in KEYS ensures Get(values, Name(k)) == Get(FieldValues(r, KEYS), Name(k)) {
        FieldValuesGet(r, KEYS, k);
      }
      WrittenDependsOnManaged(SplitLines(text), values, FieldValues(r, KEYS));
      var content := WriteEnv(text, values);
      file := Some(content);
    }
  }

  /** Changing one key leaves what the others read. */
  lemma OthersKeep(before: Values, after: Values, k: Key)
    requires before - {Name(k)} == after - {Name(k)}
    ensures forall j: Key :: j != k ==> Get(after, Name(j)) == Get(before, Name(j))
  {
    forall j: Key | j != k ensures Get(after, Name(j)) == Get(before, Name(j)) {
      NamesDiffer(j, k);
      assert Name(j) in before - {Name(k)} <==> Name(j) in before;
      assert Name(j) in after - {Name(k)} <==> Name(j) in after;
    }
  }

  // ---------------------------------------------------------------- the promises

  lemma {:induction false} ValuesConcat(a: seq<Text>, b: seq<Text>)
    ensures ValuesOf(a + b) == ValuesOf(a) + ValuesOf(b)
    decreases |b|
  {
    hide Binding;
    if b == [] {
      assert a + b == a;
    } else {
      assert (a + b)[..|a + b| - 1] == a + b[..|b| - 1];
      ValuesConcat(a, b[..|b| - 1]);
    }
  }

  lemma {:induction false} SeenConcat(a: seq<Text>, b: seq<Text>)
    ensures Seen(a + b) == Seen(a) + Seen(b)
    decreases |b|
  {
    hide WrittenKey, Managed;
    if b == [] {
      assert a + b == a;
    } else {
      assert (a + b)[..|a + b| - 1] == a + b[..|b| - 1];
      SeenConcat(a, b[..|b| - 1]);
    }
  }

  /** What one line or none adds. */
  lemma SingleLine(raw: Text)
    ensures ValuesOf([raw]) == Bound(map[], raw) && ValuesOf([]) == map[]
    ensures Seen([raw]) == (if Managed(WrittenKey(raw)) then {WrittenKey(raw)} else {}) && Seen([]) == {}
  {
  }

  /** What a written line reads as, one name at a time. */
  lemma KeptLineReads(raw: Text, r: AgentRegistration, name: Text)
    requires !Managed(name)
    ensures var b := ValuesOf(KeptLine(raw, FieldValues(r, KEYS)));
            if name in b then Binding(raw) == Some((name, b[name]))
            else Binding(raw).Some? ==> Binding(raw).value.0 != name
  {
    var values := FieldValues(r, KEYS);
    ReaderAndWriterAgree(raw);
    SingleLine(raw);
    hide Name, WrittenKey, Binding, ValuesOf;
    if Managed(WrittenKey(raw)) {
      var k :| k in KEYS && WrittenKey(raw) == Name(k);
      LineReads(k, Get(values, Name(k)));
      SingleLine(Line(k, Get(values, Name(k))));
      SingleLine(raw);
    }
  }

  lemma {:induction false} KeptReads(lines: seq<Text>, r: AgentRegistration, name: Text)
    requires !Managed(name)
    ensures var v := ValuesOf(Kept(lines, FieldValues(r, KEYS)));
            (name in v <==> name in ValuesOf(lines)) && Get(v, name) == Get(ValuesOf(lines), name)
    decreases |lines|
  {
    var values := FieldValues(r, KEYS);
    if lines == [] {
      SingleLine([]);
    } else {
      var front, last := lines[..|lines| - 1], lines[|lines| - 1];
      KeptReads(front, r, name);
      KeptLineReads(last, r, name);
      ValuesConcat(Kept(front, values), KeptLine(last, values));
      hide Managed, Binding, KeptLine, FieldValues;
    }
  }

  lemma KeptLineReadsKey(raw: Text, r: AgentRegistration, k: Key)
    ensures var b := ValuesOf(KeptLine(raw, FieldValues(r, KEYS)));
            && (Name(k) in b <==> Name(k) == WrittenKey(raw) && Field(r, k) != [])
            && (Name(k) in b ==> b[Name(k)] == Merged(Field(r, k)))
  {
    AllKeys(k);
    FieldValuesGet(r, KEYS, k);
    ReaderAndWriterAgree(raw);
    SingleLine(raw);
    var values := FieldValues(r, KEYS);
    if Managed(WrittenKey(raw)) {
      var j :| j in KEYS && WrittenKey(raw) == Name(j);
      NamesDiffer(j, k);
      LineReads(j, Get(values, Name(j)));
      SingleLine(Line(j, Get(values, Name(j))));
    }
    hide Name, WrittenKey, Binding, ValuesOf;
  }

  lemma {:induction false} KeptReadsKey(lines: seq<Text>, r: AgentRegistration, k: Key)
    ensures var v := ValuesOf(Kept(lines, FieldValues(r, KEYS)));
            && (Name(k) in v <==> Name(k) in Seen(lines) && Field(r, k) != [])
            && (Name(k) in v ==> v[Name(k)] == Merged(Field(r, k)))
    decreases |lines|
  {
    var values := FieldValues(r, KEYS);
    if lines == [] {
      SingleLine([]);
    } else {
      var front, last := lines[..|lines| - 1], lines[|lines| - 1];
      KeptReadsKey(front, r, k);
      KeptLineReadsKey(last, r, k);
      ValuesConcat(Kept(front, values), KeptLine(last, values));
      AllKeys(k);
      assert Managed(Name(k));
      hide Name, Managed, Binding, WrittenKey, KeptLine, FieldValues, Merged;
    }
  }

  lemma {:induction false} AddedReads(keys: seq<Key>, seen: set<Text>, r: AgentRegistration)
    ensures var v := ValuesOf(Added(keys, seen, FieldValues(r, KEYS)));
            && (forall name :: name in v ==> Managed(name))
            && (forall k: Key :: Name(k) in v <==> k in keys && Name(k) !in seen && Field(r, k) != [])
            && (forall k: Key :: Name(k) in v ==> v[Name(k)] == Merged(Field(r, k)))
    decreases |keys|
  {
    var values := FieldValues(r, KEYS);
    if keys == [] {
      SingleLine([]);
    } else {
      var front, last := keys[..|keys| - 1], keys[|keys| - 1];
      AddedReads(front, seen, r);
      ValuesConcat(Added(front, seen, values), AddedLine(last, seen, values));
      AllKeys(last);
      FieldValuesGet(r, KEYS, last);
      LineReads(last, Field(r, last));
      SingleLine(Line(last, Field(r, last)));
      forall k: Key ensures Name(k) == Name(last) ==> k == last {
        NamesDiffer(k, last);
      }
      hide Name, FieldValues, Binding, Merged, Line;
    }
  }

  /** A saved file reads as before on keys that are not managed. */
  lemma WrittenReads(lines: seq<Text>, r: AgentRegistration, name: Text)
    requires !Managed(name)
    ensures var v := ValuesOf(Written(lines, FieldValues(r, KEYS)));
            (name in v <==> name in ValuesOf(lines)) && Get(v, name) == Get(ValuesOf(lines), name)
  {
    var values := FieldValues(r, KEYS);
    KeptReads(lines, r, name);
    AddedReads(KEYS, Seen(lines), r);
    ValuesConcat(Kept(lines, values), Added(KEYS, Seen(lines), values));
    hide Managed, ValuesOf, Kept, Added, FieldValues, Seen;
  }

  /** And as the registration on the managed ones. */
  lemma WrittenReadsKey(lines: seq<Text>, r: AgentRegistration, k: Key)
    ensures Get(ValuesOf(Written(lines, FieldValues(r, KEYS))), Name(k)) == Merged(Field(r, k))
  {
    var values := FieldValues(r, KEYS);
    KeptReadsKey(lines, r, k);
    AddedReads(KEYS, Seen(lines), r);
    ValuesConcat(Kept(lines, values), Added(KEYS, Seen(lines), values));
    AllKeys(k);
    assert Field(r, k) == [] ==> Merged(Field(r, k)) == [];
    hide Name, Managed, ValuesOf, Kept, Added, FieldValues, Merged, Seen;
  }

  // ---- lines

  predicate IsUnmanaged(raw: Text) {
    !Managed(WrittenKey(raw))
  }

  function Unmanaged(lines: seq<Text>): seq<Text> {
    if lines == [] then []
    else Unmanaged(lines[..|lines| - 1]) + if IsUnmanaged(lines[|lines| - 1]) then [lines[|lines| - 1]] else []
  }

  lemma {:induction false} UnmanagedConcat(a: seq<Text>, b: seq<Text>)
    ensures Unmanaged(a + b) == Unmanaged(a) + Unmanaged(b)
    decreases |b|
  {
    hide IsUnmanaged;
    if b == [] {
      assert a + b == a;
    } else {
      assert (a + b)[..|a + b| - 1] == a + b[..|b| - 1];
      UnmanagedConcat(a, b[..|b| - 1]);
    }
  }

  lemma KeptLineUnmanaged(raw: Text, values: Values)
    ensures Unmanaged(KeptLine(raw, values)) == Unmanaged([raw])
    ensures Unbroken(raw) ==> AreLines(KeptLine(raw, values))
    ensures forall x :: x in KeptLine(raw, values) ==> KeptLine(x, values) == [x]
    ensures Seen(KeptLine(raw, values)) ==
            if Managed(WrittenKey(raw)) && Get(values, WrittenKey(raw)) != [] then {WrittenKey(raw)} else {}
  {
    SingleLine(raw);
    if Managed(WrittenKey(raw)) {
      var k :| k in KEYS && WrittenKey(raw) == Name(k);
      var line := Line(k, Get(values, Name(k)));
      LineReads(k, Get(values, Name(k)));
      SingleLine(line);
      hide Name, WrittenKey, Binding, Seen;
      assert [line][..0] == Unmanaged([]) && [raw][..0] == Unmanaged([]);
    }
  }

  lemma {:induction false} KeptAreLines(lines: seq<Text>, values: Values)
    requires AreLines(lines)
    ensures AreLines(Kept(lines, values))
    decreases |lines|
  {
    hide KeptLine, Unbroken;
    if lines != [] {
      KeptAreLines(lines[..|lines| - 1], values);
      KeptLineUnmanaged(lines[|lines| - 1], values);
    }
  }

  lemma {:induction false} KeptUnmanaged(lines: seq<Text>, values: Values)
    ensures Unmanaged(Kept(lines, values)) == Unmanaged(lines)
    decreases |lines|
  {
    if lines != [] {
      var front, last := lines[..|lines| - 1], lines[|lines| - 1];
      assert Kept(lines, values) == Kept(front, values) + KeptLine(last, values);
      assert lines == front + [last];
      hide *;
      KeptUnmanaged(front, values);
      KeptLineUnmanaged(last, values);
      UnmanagedConcat(Kept(front, values), KeptLine(last, values));
      UnmanagedConcat(front, [last]);
    }
  }

  /** Writing a written line again keeps it. */
  ghost predicate Fixed(lines: seq<Text>, values: Values) {
    forall i :: 0 <= i < |lines| ==> KeptLine(lines[i], values) == [lines[i]]
  }

  lemma {:induction false} KeptFixed(lines: seq<Text>, values: Values)
    ensures Fixed(Kept(lines, values), values)
    ensures forall name :: name in Seen(Kept(lines, values)) <==> name in Seen(lines) && Get(values, name) != []
    decreases |lines|
  {
    if lines != [] {
      var front, last := lines[..|lines| - 1], lines[|lines| - 1];
      KeptFixed(front, values);
      KeptLineUnmanaged(last, values);
      SeenConcat(Kept(front, values), KeptLine(last, values));
      hide WrittenKey, Managed, KeptLine, Get;
    }
  }

  lemma FixedConcat(a: seq<Text>, b: seq<Text>, values: Values)
    requires Fixed(a, values) && Fixed(b, values)
    ensures Fixed(a + b, values)
  {
  }

  lemma AreLinesConcat(a: seq<Text>, b: seq<Text>)
    requires AreLines(a) && AreLines(b)
    ensures AreLines(a + b)
  {
  }

  lemma {:induction false} AddedLines(keys: seq<Key>, seen: set<Text>, values: Values)
    ensures AreLines(Added(keys, seen, values)) && Unmanaged(Added(keys, seen, values)) == []
    ensures Fixed(Added(keys, seen, values), values)
    ensures forall k: Key :: k in keys && Name(k) !in seen && Get(values, Name(k)) != []
                             ==> Name(k) in Seen(Added(keys, seen, values))
    decreases |keys|
  {
    if keys != [] {
      var front, last := keys[..|keys| - 1], keys[|keys| - 1];
      var a, b := Added(front, seen, values), AddedLine(last, seen, values);
      assert Added(keys, seen, values) == a + b;
      AddedLines(front, seen, values);
      AddedLineUnmanaged(last, seen, values);
      hide *;
      UnmanagedConcat(a, b);
      SeenConcat(a, b);
      AreLinesConcat(a, b);
      FixedConcat(a, b, values);
    }
  }

  lemma AddedLineUnmanaged(k: Key, seen: set<Text>, values: Values)
    ensures var a := AddedLine(k, seen, values);
            && AreLines(a) && Unmanaged(a) == [] && Fixed(a, values)
            && (Name(k) !in seen && Get(values, Name(k)) != [] ==> Name(k) in Seen(a))
  {
    var line := Line(k, Get(values, Name(k)));
    LineReads(k, Get(values, Name(k)));
    AllKeys(k);
    SingleLine(line);
    hide Name, WrittenKey, Binding, Seen, Encoded, Unbroken;
    assert Managed(Name(k));
    assert Unmanaged([line]) == Unmanaged([line][..0]) == [];
  }

  lemma {:induction false} FixedStays(lines: seq<Text>, values: Values)
    requires Fixed(lines, values)
    ensures Kept(lines, values) == lines
    decreases |lines|
  {
    hide KeptLine;
    if lines != [] {
      FixedStays(lines[..|lines| - 1], values);
    }
  }

  lemma {:induction false} NothingAdded(keys: seq<Key>, seen: set<Text>, values: Values)
    requires forall k: Key :: k in keys && Get(values, Name(k)) != [] ==> Name(k) in seen
    ensures Added(keys, seen, values) == []
    decreases |keys|
  {
    hide Name, Get;
    if keys != [] {
      NothingAdded(keys[..|keys| - 1], seen, values);
    }
  }

  lemma WrittenLines(lines: seq<Text>, values: Values)
    requires AreLines(lines)
    ensures AreLines(Written(lines, values)) && Unmanaged(Written(lines, values)) == Unmanaged(lines)
  {
    KeptAreLines(lines, values);
    KeptUnmanaged(lines, values);
    AddedLines(KEYS, Seen(lines), values);
    UnmanagedConcat(Kept(lines, values), Added(KEYS, Seen(lines), values));
    hide Unmanaged, Seen, Kept, Added, Unbroken, Fixed;
  }

  lemma WrittenTwice(lines: seq<Text>, values: Values)
    ensures Written(Written(lines, values), values) == Written(lines, values)
  {
    var kept, added := Kept(lines, values), Added(KEYS, Seen(lines), values);
    KeptFixed(lines, values);
    AddedLines(KEYS, Seen(lines), values);
    SeenConcat(kept, added);
    hide Name, KeptLine, Get, Seen, Kept, Added, AreLines, Unmanaged;
    assert Fixed(kept + added, values);
    FixedStays(kept + added, values);
    NothingAdded(KEYS, Seen(kept + added), values);
  }

  // ---- the file as a text

  /** Every line that is not of a managed key survives a save unchanged and in order. */
  lemma UnmanagedLinesSurvive(text: Text, r: AgentRegistration)
    ensures Unmanaged(SplitLines(Saved(text, r))) == Unmanaged(SplitLines(text))
  {
    SplitGivesLines(text);
    WrittenLines(SplitLines(text), FieldValues(r, KEYS));
    SplitContent(Written(SplitLines(text), FieldValues(r, KEYS)));
  }

  /** Every other key reads the same as before a save, or is missing as before. */
  lemma UnmanagedKeysReadTheSame(text: Text, r: AgentRegistration, name: Text)
    requires !Managed(name)
    ensures var before, after := ValuesOf(SplitLines(text)), ValuesOf(SplitLines(Saved(text, r)));
            (name in after <==> name in before) && (name in before ==> after[name] == before[name])
  {
    SplitGivesLines(text);
    WrittenLines(SplitLines(text), FieldValues(r, KEYS));
    SplitContent(Written(SplitLines(text), FieldValues(r, KEYS)));
    WrittenReads(SplitLines(text), r, name);
  }

  /** Saving the same registration again changes nothing. */
  lemma SaveTwice(text: Text, r: AgentRegistration)
    ensures Saved(Saved(text, r), r) == Saved(text, r)
  {
    SplitGivesLines(text);
    WrittenLines(SplitLines(text), FieldValues(r, KEYS));
    SplitContent(Written(SplitLines(text), FieldValues(r, KEYS)));
    WrittenTwice(SplitLines(text), FieldValues(r, KEYS));
  }

  function MergedFields(r: AgentRegistration): AgentRegistration {
    AgentRegistration(
      Merged(r.agentId), Merged(r.agentSlug), Merged(r.agentName), Merged(r.agentToken), Merged(r.tokenId),
      Merged(r.tokenPrefix), Merged(r.apiBase), Merged(r.registeredAt), Merged(r.updatedAt))
  }

  lemma MergedFieldsIff(r: AgentRegistration)
    ensures MergedFields(r) == r <==> forall k: Key :: !HasPair(Field(r, k))
  {
    forall k: Key ensures Merged(Field(r, k)) == Field(r, k) <==> !HasPair(Field(r, k)) {
      MergedIff(Field(r, k));
    }
    hide Merged, HasPair;
    assert forall k: Key :: Field(MergedFields(r), k) == Merged(Field(r, k));
    if MergedFields(r) != r {
      assert exists k: Key :: Field(MergedFields(r), k) != Field(r, k) by {
        if forall k: Key :: Field(MergedFields(r), k) == Field(r, k) {
          SameFields(MergedFields(r), r);
        }
      }
    }
  }

  lemma SameFields(r: AgentRegistration, s: AgentRegistration)
    requires forall k: Key :: Field(r, k) == Field(s, k)
    ensures r == s
  {
    assert Field(r, ApiBase) == Field(s, ApiBase) && Field(r, AgentId) == Field(s, AgentId);
    assert Field(r, AgentSlug) == Field(s, AgentSlug) && Field(r, AgentName) == Field(s, AgentName);
    assert Field(r, AgentToken) == Field(s, AgentToken) && Field(r, TokenId) == Field(s, TokenId);
    assert Field(r, TokenPrefix) == Field(s, TokenPrefix) && Field(r, RegisteredAt) == Field(s, RegisteredAt);
    assert Field(r, UpdatedAt) == Field(s, UpdatedAt);
  }

  /**
   * Loading after a save gives back exactly the saved registration if it has an id or a token
   * and no surrogate pair stands in a field as two characters, over any existing file.
   */
  lemma SaveThenLoadIff(text: Text, r: AgentRegistration)
    ensures Loaded(Some(Saved(text, r)))
         == if r.agentId == [] && r.agentToken == [] then None else Some(MergedFields(r))
    ensures Loaded(Some(Saved(text, r))) == Some(r)
       <==> (r.agentId != [] || r.agentToken != []) && forall k: Key :: !HasPair(Field(r, k))
  {
    var lines := Written(SplitLines(text), FieldValues(r, KEYS));
    SplitGivesLines(text);
    WrittenLines(SplitLines(text), FieldValues(r, KEYS));
    SplitContent(lines);
    RegistrationReads(SplitLines(text), r);
    MergedIff(r.agentId);
    MergedIff(r.agentToken);
    MergedFieldsIff(r);
    hide RegistrationOf, ValuesOf, Written, SplitLines, Content, Merged, HasPair;
  }

  lemma FieldsRead(v: Values, r: AgentRegistration, k: Key)
    ensures Field(RegistrationOf(v), k) == Get(v, Name(k)) && Field(MergedFields(r), k) == Merged(Field(r, k))
  {
  }

  lemma RegistrationReads(lines: seq<Text>, r: AgentRegistration)
    ensures RegistrationOf(ValuesOf(Written(lines, FieldValues(r, KEYS)))) == MergedFields(r)
  {
    hide *;
    var v := ValuesOf(Written(lines, FieldValues(r, KEYS)));
    forall k: Key ensures Field(RegistrationOf(v), k) == Field(MergedFields(r), k) {
      WrittenReadsKey(lines, r, k);
      FieldsRead(v, r, k);
    }
    SameFields(RegistrationOf(v), MergedFields(r));
  }

  /** An agent id of two surrogates that form a pair: the load gives another registration. */
  lemma SplitPairIsNotKept()
    ensures var r := AgentRegistration([0xD83D, 0xDE00], [], [], [], [], [], [], [], []);
            Loaded(Some(Saved([], r))) == Some(r.(agentId := [0x1F600])) != Some(r)
  {
    var r := AgentRegistration([0xD83D, 0xDE00], [], [], [], [], [], [], [], []);
    SaveThenLoadIff([], r);
    assert Merged([]) == [] && Merged([0xD83D, 0xDE00]) == [0x1F600];
    hide Loaded, Saved;
  }
}
