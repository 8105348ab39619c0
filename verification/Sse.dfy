/** The parser of server-sent events, line by line, and a printer for it. */
module Sse {
  import opened Texts

  const COLON: Char := 0x3A
  const SPACE: Char := 0x20

  const MESSAGE: Text := Plain("message")
  const EVENT: Text := Plain("event")
  const ID: Text := Plain("id")
  const DATA: Text := Plain("data")

  datatype StreamRunEvent = StreamRunEvent(event: Text, id: Text, data: Text)

  /** The event being collected. */
  datatype Block = Block(event: Text, id: Text, data: seq<Text>)

  const FRESH: Block := Block(MESSAGE, [], [])

  /** A line without the carriage returns at its end. */
  function Trimmed(line: Text): Text {
    if line != [] && line[|line| - 1] == CR then Trimmed(line[..|line| - 1]) else line
  }

  predicate IsBlank(line: Text) {
    Trimmed(line) == []
  }

  function FieldOf(line: Text): Text {
    line[..Find(line, COLON)]
  }

  /** What follows the first colon, without one leading space. */
  function ValueOf(line: Text): Text {
    var n := Find(line, COLON);
    if n == |line| then []
    else if n + 1 < |line| && line[n + 1] == SPACE then line[n + 2..]
    else line[n + 1..]
  }

  /** What a line that is not blank does to the block. */
  function Taken(b: Block, raw: Text): Block {
    var line := Trimmed(raw);
    if line != [] && line[0] == COLON then b
    else if FieldOf(line) == EVENT then b.(event := if ValueOf(line) != [] then ValueOf(line) else MESSAGE)
    else if FieldOf(line) == ID then b.(id := ValueOf(line))
    else if FieldOf(line) == DATA then b.(data := b.data + [ValueOf(line)])
    else b
  }

  /** A block without data gives nothing. */
  function Dispatched(b: Block): seq<StreamRunEvent> {
    if b.data == [] then [] else [StreamRunEvent(b.event, b.id, Joined(b.data))]
  }

  function Events(b: Block, lines: seq<Text>): seq<StreamRunEvent>
    decreases |lines|
  {
    if lines == [] then Dispatched(b)
    else if IsBlank(lines[0]) then Dispatched(b) + Events(FRESH, lines[1..])
    else Events(Taken(b, lines[0]), lines[1..])
  }

  function Parsed(lines: seq<Text>): seq<StreamRunEvent> {
    Events(FRESH, lines)
  }

  method ReadSse(lines: seq<Text>) returns (out: seq<StreamRunEvent>)
    ensures out == Parsed(lines)
  {
    var event, id, data := MESSAGE, [], [];
    out := [];
    for i := 0 to |lines|
      invariant out + Events(Block(event, id, data), lines[i..]) == Parsed(lines)
    {
      var line := Trimmed(lines[i]);
      assert lines[i..][1..] == lines[i + 1..];
      if line == [] {
        if data != [] {
          out := out + [StreamRunEvent(event, id, Joined(data))];
        }
        event, id, data := MESSAGE, [], [];
        continue;
      }
      if line[0] == COLON {
        continue;
      }
      var field, value := FieldOf(line), ValueOf(line);
      if field == EVENT {
        event := if value != [] then value else MESSAGE;
      } else if field == ID {
        id := value;
      } else if field == DATA {
        data := data + [value];
      }
    }
    if data != [] {
      out := out + [StreamRunEvent(event, id, Joined(data))];
    }
  }

  // ---------------------------------------------------------------- what a line is read as

  /** A field line as it may come in: the name alone, or a colon, one optional space, and the value. */
  function FieldLine(name: Text, colon: bool, space: bool, value: Text): Text {
    name + if colon then [COLON] + (if space then [SPACE] else []) + value else []
  }

  /** The name has no colon; without the space the value does not start with one; no carriage return ends the line. */
  predicate IsFieldLine(name: Text, colon: bool, space: bool, value: Text) {
    && name != [] && COLON !in name
    && (!colon ==> value == []) && (colon && !space && value != [] ==> value[0] != SPACE)
    && (var line := FieldLine(name, colon, space, value); line[|line| - 1] != CR)
  }

  lemma FieldLineReads(name: Text, colon: bool, space: bool, value: Text)
    requires IsFieldLine(name, colon, space, value)
    ensures var line := FieldLine(name, colon, space, value);
            Trimmed(line) == line && FieldOf(line) == name && ValueOf(line) == value && line[0] != COLON
  {
    var line := FieldLine(name, colon, space, value);
    if colon {
      assert line[..|name|] == name && line[|name|] == COLON;
      FindIs(line, COLON, |name|);
      assert line[|name| + 1..] == (if space then [SPACE] else []) + value;
      if space {
        assert line[|name| + 1] == SPACE && line[|name| + 2..] == value;
      }
    } else {
      assert line == name;
      assert line[..|line|] == name;
    }
    assert line[0] == name[0] && name[0] in name;
    hide Find;
  }

  /**
   * With or without the space, `event` names the event, and without a value the default one,
   * `id` sets the id, `data` adds a line of data, and any other field is passed over.
   */
  lemma FieldsAreTaken(b: Block, name: Text, colon: bool, space: bool, value: Text)
    requires IsFieldLine(name, colon, space, value)
    ensures var c := Taken(b, FieldLine(name, colon, space, value));
            && (name == EVENT ==> c == b.(event := if value == [] then MESSAGE else value))
            && (name == ID ==> c == b.(id := value))
            && (name == DATA ==> c == b.(data := b.data + [value]))
            && (name !in {EVENT, ID, DATA} ==> c == b)
  {
    FieldLineReads(name, colon, space, value);
    NamesAreThree();
    hide FieldOf, ValueOf, Trimmed, FieldLine, EVENT, ID, DATA;
  }

  /** Carriage returns at the end of a line make no difference. */
  lemma ReturnsAreDropped(b: Block, line: Text)
    ensures Taken(b, line + [CR]) == Taken(b, line) && (IsBlank(line + [CR]) <==> IsBlank(line))
  {
    assert (line + [CR])[..|line|] == line;
    assert Trimmed(line + [CR]) == Trimmed(line);
    hide Trimmed, FieldOf, ValueOf;
  }

  lemma NamesAreThree()
    ensures EVENT != ID && ID != DATA && DATA != EVENT
  {
    assert EVENT[0] == 0x65 && ID[0] == 0x69 && DATA[0] == 0x64;
  }

  /** The data of an event are its lines joined by line feeds: cut there, they are those lines. */
  lemma DataAreLines(b: Block)
    requires b.data != [] && AreLines(b.data)
    ensures |Dispatched(b)| == 1 && SplitLines(Dispatched(b)[0].data + [LF]) == b.data
    ensures Dispatched(b)[0].event == b.event && Dispatched(b)[0].id == b.id
  {
    SplitContent(b.data);
    hide SplitLines;
  }

  // ---------------------------------------------------------------- printing

  function Field(name: Text, value: Text): Text {
    name + [COLON, SPACE] + value
  }

  function DataLines(data: seq<Text>): seq<Text> {
    if data == [] then [] else [Field(DATA, data[0])] + DataLines(data[1..])
  }

  /** The lines of one event, without the blank line that ends it. */
  function BlockLines(b: Block): seq<Text> {
    [Field(EVENT, b.event), Field(ID, b.id)] + DataLines(b.data)
  }

  function Printed(blocks: seq<Block>): seq<Text> {
    if blocks == [] then [] else BlockLines(blocks[0]) + [[]] + Printed(blocks[1..])
  }

  function TrimmedAll(data: seq<Text>): seq<Text> {
    if data == [] then [] else [Trimmed(data[0])] + TrimmedAll(data[1..])
  }

  /** What a printed block is read as. */
  function Received(b: Block): StreamRunEvent {
    StreamRunEvent(if Trimmed(b.event) == [] then MESSAGE else Trimmed(b.event), Trimmed(b.id),
                   Joined(TrimmedAll(b.data)))
  }

  /** An event without data is not read at all. */
  function ReceivedAll(blocks: seq<Block>): seq<StreamRunEvent> {
    if blocks == [] then []
    else (if blocks[0].data == [] then [] else [Received(blocks[0])]) + ReceivedAll(blocks[1..])
  }

  lemma {:induction false} TrimmedField(name: Text, value: Text)
    ensures Trimmed(Field(name, value)) == Field(name, Trimmed(value))
    decreases |value|
  {
    if value != [] && value[|value| - 1] == CR {
      var line := Field(name, value);
      assert line[..|line| - 1] == Field(name, value[..|value| - 1]);
      TrimmedField(name, value[..|value| - 1]);
    }
  }

  lemma FieldReads(name: Text, value: Text)
    requires name in {EVENT, ID, DATA}
    ensures FieldOf(Field(name, value)) == name && ValueOf(Field(name, value)) == value
    ensures Field(name, value) != [] && Field(name, value)[0] != COLON
  {
    var line := Field(name, value);
    assert COLON !in name;
    assert line[..|name|] == name && line[|name|] == COLON && line[|name| + 2..] == value;
    FindIs(line, COLON, |name|);
  }

  lemma FieldTaken(b: Block, name: Text, value: Text)
    requires name in {EVENT, ID, DATA}
    ensures !IsBlank(Field(name, value))
    ensures name == EVENT ==>
              Taken(b, Field(name, value)) == b.(event := if Trimmed(value) != [] then Trimmed(value) else MESSAGE)
    ensures name == ID ==> Taken(b, Field(name, value)) == b.(id := Trimmed(value))
    ensures name == DATA ==> Taken(b, Field(name, value)) == b.(data := b.data + [Trimmed(value)])
  {
    TrimmedField(name, value);
    FieldReads(name, Trimmed(value));
    assert |EVENT| == 5 && |ID| == 2 && |DATA| == 4;
  }

  lemma OneDataLine(b: Block, d: Text, data: seq<Text>, rest: seq<Text>)
    ensures Events(b, DataLines([d] + data) + rest) == Events(b.(data := b.data + [Trimmed(d)]), DataLines(data) + rest)
    ensures TrimmedAll([d] + data) == [Trimmed(d)] + TrimmedAll(data)
  {
    assert ([d] + data)[1..] == data;
    FieldTaken(b, DATA, d);
    hide Taken, IsBlank, Field, Dispatched, Trimmed;
    var lines := DataLines([d] + data) + rest;
    assert lines[0] == Field(DATA, d) && lines[1..] == DataLines(data) + rest;
  }

  lemma {:induction false} DataTaken(b: Block, data: seq<Text>, rest: seq<Text>)
    ensures Events(b, DataLines(data) + rest) == Events(b.(data := b.data + TrimmedAll(data)), rest)
    decreases |data|
  {
    if data == [] {
      assert DataLines(data) + rest == rest && b.data + TrimmedAll(data) == b.data;
    } else {
      hide *;
      assert data == [data[0]] + data[1..];
      OneDataLine(b, data[0], data[1..], rest);
      var c := b.(data := b.data + [Trimmed(data[0])]);
      DataTaken(c, data[1..], rest);
      assert c.data + TrimmedAll(data[1..]) == b.data + TrimmedAll(data);
    }
  }

  /** The lines of one block, wherever they stand after a blank line. */
  lemma BlockTaken(b: Block, rest: seq<Text>)
    ensures Events(FRESH, BlockLines(b) + rest)
         == Events(Block(Received(b).event, Received(b).id, TrimmedAll(b.data)), rest)
  {
    var lines := BlockLines(b) + rest;
    var first := Taken(FRESH, Field(EVENT, b.event));
    var second := Taken(first, Field(ID, b.id));
    FieldTaken(FRESH, EVENT, b.event);
    FieldTaken(first, ID, b.id);
    assert [] + TrimmedAll(b.data) == TrimmedAll(b.data);
    assert lines[0] == Field(EVENT, b.event) && lines[1..][0] == Field(ID, b.id);
    assert lines[1..][1..] == DataLines(b.data) + rest;
    hide Taken, IsBlank, Field, Dispatched, Trimmed, DataLines, TrimmedAll;
    DataTaken(second, b.data, rest);
  }

  /** What any printed events are read as. */
  lemma {:induction false} PrintedParses(blocks: seq<Block>)
    ensures Parsed(Printed(blocks)) == ReceivedAll(blocks)
    decreases |blocks|
  {
    if blocks != [] {
      var rest := [[]] + Printed(blocks[1..]);
      assert Printed(blocks) == BlockLines(blocks[0]) + rest;
      BlockTaken(blocks[0], rest);
      assert rest[1..] == Printed(blocks[1..]);
      PrintedParses(blocks[1..]);
    }
  }

  /** Some data, a name, and no carriage return at the end of a line. */
  predicate Clean(b: Block) {
    && b.data != [] && Trimmed(b.event) == b.event != [] && Trimmed(b.id) == b.id
    && forall i :: 0 <= i < |b.data| ==> Trimmed(b.data[i]) == b.data[i]
  }

  lemma {:induction false} TrimmedShrinks(line: Text)
    ensures |Trimmed(line)| <= |line| && (Trimmed(line) == line <==> |Trimmed(line)| == |line|)
    decreases |line|
  {
    if line != [] && line[|line| - 1] == CR {
      TrimmedShrinks(line[..|line| - 1]);
    }
  }

  lemma {:induction false} DataIff(data: seq<Text>)
    ensures |Joined(TrimmedAll(data))| <= |Joined(data)| && |TrimmedAll(data)| == |data|
    ensures (forall i :: 0 <= i < |data| ==> Trimmed(data[i]) == data[i])
       <==> |Joined(TrimmedAll(data))| == |Joined(data)|
    ensures (forall i :: 0 <= i < |data| ==> Trimmed(data[i]) == data[i]) ==> TrimmedAll(data) == data
    decreases |data|
  {
    if data != [] {
      TrimmedShrinks(data[0]);
      DataIff(data[1..]);
      hide Trimmed;
      assert (forall i :: 0 <= i < |data| ==> Trimmed(data[i]) == data[i])
        <==> Trimmed(data[0]) == data[0]
             && forall i :: 0 <= i < |data[1..]| ==> Trimmed(data[1..][i]) == data[1..][i] by {
        assert forall i :: 0 < i < |data| ==> data[i] == data[1..][i - 1];
      }
    }
  }

  /** An event as the parser would present it. */
  function AsSent(b: Block): StreamRunEvent {
    StreamRunEvent(b.event, b.id, Joined(b.data))
  }

  function AllAsSent(blocks: seq<Block>): seq<StreamRunEvent> {
    if blocks == [] then [] else [AsSent(blocks[0])] + AllAsSent(blocks[1..])
  }

  lemma ReceivedIff(b: Block)
    requires b.data != []
    ensures Received(b) == AsSent(b) <==> Clean(b)
  {
    DataIff(b.data);
    TrimmedShrinks(b.event);
    assert MESSAGE != [] && Trimmed(MESSAGE) == MESSAGE;
    hide Trimmed;
  }

  lemma {:induction false} ReceivedAllIff(blocks: seq<Block>)
    ensures |ReceivedAll(blocks)| <= |AllAsSent(blocks)| == |blocks|
    ensures ReceivedAll(blocks) == AllAsSent(blocks) <==> forall i :: 0 <= i < |blocks| ==> Clean(blocks[i])
    decreases |blocks|
  {
    if blocks != [] {
      ReceivedAllIff(blocks[1..]);
      if blocks[0].data != [] {
        ReceivedIff(blocks[0]);
        hide Clean, Received, AsSent;
        var r, s := ReceivedAll(blocks), AllAsSent(blocks);
        assert r[0] == Received(blocks[0]) && r[1..] == ReceivedAll(blocks[1..]);
        assert s[0] == AsSent(blocks[0]) && s[1..] == AllAsSent(blocks[1..]);
        assert blocks == [blocks[0]] + blocks[1..];
      }
    }
  }

  /** Printed events come back as they were sent exactly when all of them are clean. */
  lemma RoundTripIff(blocks: seq<Block>)
    ensures Parsed(Printed(blocks)) == AllAsSent(blocks) <==> forall i :: 0 <= i < |blocks| ==> Clean(blocks[i])
  {
    PrintedParses(blocks);
    ReceivedAllIff(blocks);
    hide Clean;
  }

  // ---------------------------------------------------------------- structure

  /** A comment, or a line of a field the parser does not know. */
  predicate IsIgnored(raw: Text) {
    var line := Trimmed(raw);
    line != [] && (line[0] == COLON || FieldOf(line) !in {EVENT, ID, DATA})
  }

  /** Such a line makes no difference wherever it stands. */
  lemma {:induction false} IgnoredIsTransparent(b: Block, before: seq<Text>, raw: Text, after: seq<Text>)
    requires IsIgnored(raw)
    ensures Events(b, before + [raw] + after) == Events(b, before + after)
    decreases |before|
  {
    var lines := before + [raw] + after;
    if before == [] {
      assert lines[0] == raw && lines[1..] == after == before + after;
    } else {
      assert lines[1..] == before[1..] + [raw] + after && (before + after)[1..] == before[1..] + after;
      hide IsIgnored, Taken, IsBlank;
      IgnoredIsTransparent(FRESH, before[1..], raw, after);
      IgnoredIsTransparent(Taken(b, before[0]), before[1..], raw, after);
    }
  }

  /** Parsing distributes over a blank line, and the end of the lines ends an event like one. */
  lemma {:induction false} BlankLineDivides(b: Block, before: seq<Text>, blank: Text, after: seq<Text>)
    requires IsBlank(blank)
    ensures Events(b, before + [blank] + after) == Events(b, before) + Parsed(after)
    decreases |before|
  {
    var lines := before + [blank] + after;
    if before == [] {
      assert lines[0] == blank && lines[1..] == after;
    } else {
      assert lines[0] == before[0] && lines[1..] == before[1..] + [blank] + after;
      hide IsBlank, Taken, Dispatched, Parsed;
      BlankLineDivides(FRESH, before[1..], blank, after);
      BlankLineDivides(Taken(b, before[0]), before[1..], blank, after);
    }
  }
}
