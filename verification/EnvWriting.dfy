/** Where a save puts the managed lines among those that are there. */
module EnvWriting {
  import opened Texts
  import opened JsonStrings
  import opened EnvFile

  /** The key of each line. */
  function KeysOf(lines: seq<Text>): seq<Text> {
    if lines == [] then [] else KeysOf(lines[..|lines| - 1]) + [WrittenKey(lines[|lines| - 1])]
  }

  /** The registration has nothing to say under this managed key. */
  ghost predicate Cleared(r: AgentRegistration, name: Text) {
    exists k: Key :: name == Name(k) && Field(r, k) == []
  }

  /** The keys without the cleared ones. */
  ghost function Staying(keys: seq<Text>, r: AgentRegistration): seq<Text> {
    if keys == [] then []
    else
      var last := keys[|keys| - 1];
      Staying(keys[..|keys| - 1], r) + if Cleared(r, last) then [] else [last]
  }

  /** The names with a value that have no line yet. */
  function Missing(names: seq<Key>, keys: seq<Text>, r: AgentRegistration): seq<Text> {
    if names == [] then []
    else
      var last := names[|names| - 1];
      Missing(names[..|names| - 1], keys, r)
      + if Name(last) in keys || Field(r, last) == [] then [] else [Name(last)]
  }

  /** Every line of a managed key is the one that the registration asks for. */
  ghost predicate UpToDate(lines: seq<Text>, r: AgentRegistration) {
    forall i, k: Key :: 0 <= i < |lines| && WrittenKey(lines[i]) == Name(k) ==> lines[i] == Line(k, Field(r, k))
  }

  lemma {:induction false} KeysConcat(a: seq<Text>, b: seq<Text>)
    ensures KeysOf(a + b) == KeysOf(a) + KeysOf(b)
    decreases |b|
  {
    hide WrittenKey;
    if b == [] {
      assert a + b == a;
    } else {
      assert (a + b)[..|a + b| - 1] == a + b[..|b| - 1];
      KeysConcat(a, b[..|b| - 1]);
    }
  }

  lemma {:induction false} SeenIffKey(lines: seq<Text>, k: Key)
    ensures Name(k) in Seen(lines) <==> Name(k) in KeysOf(lines)
  {
    hide Name, WrittenKey;
    AllKeys(k);
    if lines != [] {
      SeenIffKey(lines[..|lines| - 1], k);
    }
  }

  lemma UpToDateConcat(a: seq<Text>, b: seq<Text>, r: AgentRegistration)
    requires UpToDate(a, r) && UpToDate(b, r)
    ensures UpToDate(a + b, r)
  {
  }

  lemma OneKey(line: Text)
    ensures KeysOf([line]) == [WrittenKey(line)] && KeysOf([]) == []
  {
    assert [line][..0] == [];
    hide WrittenKey;
  }

  /** The line of a key, as it is written. */
  lemma ManagedLine(r: AgentRegistration, k: Key)
    ensures KeysOf([Line(k, Field(r, k))]) == [Name(k)] && UpToDate([Line(k, Field(r, k))], r)
    ensures Cleared(r, Name(k)) <==> Field(r, k) == []
    ensures Managed(Name(k)) && Get(FieldValues(r, KEYS), Name(k)) == Field(r, k)
  {
    AllKeys(k);
    LineReads(k, Field(r, k));
    OneKey(Line(k, Field(r, k)));
    FieldValuesGet(r, KEYS, k);
    forall j: Key ensures Name(j) == Name(k) ==> j == k {
      NamesDiffer(j, k);
    }
    hide Name, WrittenKey, Line;
  }

  lemma KeptLineKeys(raw: Text, r: AgentRegistration)
    ensures var kept := KeptLine(raw, FieldValues(r, KEYS));
            UpToDate(kept, r) && KeysOf(kept) == if Cleared(r, WrittenKey(raw)) then [] else [WrittenKey(raw)]
  {
    OneKey(raw);
    hide Name, WrittenKey, Line;
    if Managed(WrittenKey(raw)) {
      var k :| k in KEYS && WrittenKey(raw) == Name(k);
      ManagedLine(r, k);
      assert Line(k, Field(r, k)) == Name(k) + [EQUALS] + Encoded(Field(r, k)) by { LineIs(k, Field(r, k)); }
    } else {
      forall k: Key ensures WrittenKey(raw) != Name(k) {
        AllKeys(k);
      }
    }
  }

  lemma LineIs(k: Key, value: Text)
    ensures Line(k, value) == Name(k) + [EQUALS] + Encoded(value)
  {
  }

  lemma {:induction false} KeptKeys(lines: seq<Text>, r: AgentRegistration)
    ensures var kept := Kept(lines, FieldValues(r, KEYS));
            UpToDate(kept, r) && KeysOf(kept) == Staying(KeysOf(lines), r)
    decreases |lines|
  {
    if lines != [] {
      var values, front, last := FieldValues(r, KEYS), lines[..|lines| - 1], lines[|lines| - 1];
      KeptKeys(front, r);
      KeptLineKeys(last, r);
      hide KeptLine, UpToDate, WrittenKey, Cleared, FieldValues;
      KeysConcat(Kept(front, values), KeptLine(last, values));
      UpToDateConcat(Kept(front, values), KeptLine(last, values), r);
    }
  }

  lemma {:induction false} AddedKeys(names: seq<Key>, lines: seq<Text>, r: AgentRegistration)
    ensures var added := Added(names, Seen(lines), FieldValues(r, KEYS));
            UpToDate(added, r) && KeysOf(added) == Missing(names, KeysOf(lines), r)
    decreases |names|
  {
    if names != [] {
      var values, front, last := FieldValues(r, KEYS), names[..|names| - 1], names[|names| - 1];
      AddedKeys(front, lines, r);
      ManagedLine(r, last);
      SeenIffKey(lines, last);
      OneKey([]);
      hide UpToDate, WrittenKey, Cleared, FieldValues, Name, Line, Seen, Managed;
      assert AddedLine(last, Seen(lines), values)
        == if Name(last) in KeysOf(lines) || Field(r, last) == [] then [] else [Line(last, Field(r, last))];
      NothingIsUpToDate(r);
      KeysConcat(Added(front, Seen(lines), values), AddedLine(last, Seen(lines), values));
      UpToDateConcat(Added(front, Seen(lines), values), AddedLine(last, Seen(lines), values), r);
    }
  }

  lemma NothingIsUpToDate(r: AgentRegistration)
    ensures UpToDate([], r)
  {
  }

  /**
   * A save keeps every line in its place, drops those of managed keys without a value, and adds
   * the missing ones at the end in the order of the keys; and each line of a managed key is the
   * one of the registration. The other lines are the same as before by `UnmanagedLinesSurvive`.
   */
  lemma SavedLinesStandInPlace(text: Text, r: AgentRegistration)
    ensures var before, after := SplitLines(text), SplitLines(Saved(text, r));
            && KeysOf(after) == Staying(KeysOf(before), r) + Missing(KEYS, KeysOf(before), r)
            && UpToDate(after, r)
  {
    var lines, values := SplitLines(text), FieldValues(r, KEYS);
    SplitGivesLines(text);
    WrittenLines(lines, values);
    SplitContent(Written(lines, values));
    KeptKeys(lines, r);
    AddedKeys(KEYS, lines, r);
    hide UpToDate, KeysOf, Staying, Missing, FieldValues, SplitLines, Kept, Added, Content, Seen;
    KeysConcat(Kept(lines, values), Added(KEYS, Seen(lines), values));
    UpToDateConcat(Kept(lines, values), Added(KEYS, Seen(lines), values), r);
  }

  /** After a save each of these names is read as the field that it stands for. */
  lemma FieldsUnderTheirNames(text: Text, r: AgentRegistration)
    ensures var v := ValuesOf(SplitLines(Saved(text, r)));
            && Get(v, Plain("OPENLINKER_API_BASE")) == Merged(r.apiBase)
            && Get(v, Plain("OPENLINKER_AGENT_ID")) == Merged(r.agentId)
            && Get(v, Plain("OPENLINKER_AGENT_SLUG")) == Merged(r.agentSlug)
            && Get(v, Plain("OPENLINKER_AGENT_NAME")) == Merged(r.agentName)
            && Get(v, Plain("OPENLINKER_AGENT_TOKEN")) == Merged(r.agentToken)
            && Get(v, Plain("OPENLINKER_AGENT_TOKEN_ID")) == Merged(r.tokenId)
            && Get(v, Plain("OPENLINKER_AGENT_TOKEN_PREFIX")) == Merged(r.tokenPrefix)
            && Get(v, Plain("OPENLINKER_REGISTERED_AT")) == Merged(r.registeredAt)
            && Get(v, Plain("OPENLINKER_UPDATED_AT")) == Merged(r.updatedAt)
  {
    var lines, values := SplitLines(text), FieldValues(r, KEYS);
    SplitGivesLines(text);
    WrittenLines(lines, values);
    SplitContent(Written(lines, values));
    forall k: Key ensures Get(ValuesOf(SplitLines(Saved(text, r))), Name(k)) == Merged(Field(r, k)) {
      WrittenReadsKey(lines, r, k);
    }
    hide SplitLines, Written, FieldValues, ValuesOf, Get, Merged, Content, Saved;
    NamesAndFields(r);
    hide Name, Field;
  }

  lemma NamesAndFields(r: AgentRegistration)
    ensures Name(ApiBase) == Plain("OPENLINKER_API_BASE") && Field(r, ApiBase) == r.apiBase
    ensures Name(AgentId) == Plain("OPENLINKER_AGENT_ID") && Field(r, AgentId) == r.agentId
    ensures Name(AgentSlug) == Plain("OPENLINKER_AGENT_SLUG") && Field(r, AgentSlug) == r.agentSlug
    ensures Name(AgentName) == Plain("OPENLINKER_AGENT_NAME") && Field(r, AgentName) == r.agentName
    ensures Name(AgentToken) == Plain("OPENLINKER_AGENT_TOKEN") && Field(r, AgentToken) == r.agentToken
    ensures Name(TokenId) == Plain("OPENLINKER_AGENT_TOKEN_ID") && Field(r, TokenId) == r.tokenId
    ensures Name(TokenPrefix) == Plain("OPENLINKER_AGENT_TOKEN_PREFIX") && Field(r, TokenPrefix) == r.tokenPrefix
    ensures Name(RegisteredAt) == Plain("OPENLINKER_REGISTERED_AT") && Field(r, RegisteredAt) == r.registeredAt
    ensures Name(UpdatedAt) == Plain("OPENLINKER_UPDATED_AT") && Field(r, UpdatedAt) == r.updatedAt
  {
  }
}
