// What an event block says, telemetry/sseparser.cpp:57-111, told from the lines a sender writes: every block is written
// by some lines, and parsing it gives what those lines mean.
module SseEvents {
  import opened Basics
  import opened SseFraming
  import opened SseParser

  // ------------------------------------------------------------ written lines

  datatype Field = EventField | IdField | DataField | Other(name: Bytes)

  // A field without a colon; with its value right behind the colon; with a space between them.
  datatype Style = Bare | Tight | Spaced

  datatype Content = Blank | Comment(text: Bytes) | Set(field: Field, style: Style, value: Bytes)

  // A line, and whether it ends in a carriage return before its line feed.
  datatype Item = Item(content: Content, cr: bool)

  function Ascii(s: string): Bytes {
    seq(|s|, i requires 0 <= i < |s| => if s[i] < 128 as char then s[i] as int else 0)
  }

  function NameOf(field: Field): Bytes {
    match field
    case EventField => Ascii("event")
    case IdField => Ascii("id")
    case DataField => Ascii("data")
    case Other(name) => name
  }

  function Behind(style: Style, value: Bytes): Bytes {
    match style
    case Bare => []
    case Tight => Ascii(":") + value
    case Spaced => Ascii(":") + (Ascii(" ") + value)
  }

  function Body(content: Content): Bytes {
    match content
    case Blank => []
    case Comment(text) => Ascii(":") + text
    case Set(field, style, value) => NameOf(field) + Behind(style, value)
  }

  function Written(item: Item): Bytes {
    Body(item.content) + if item.cr then [CR] else []
  }

  predicate IsName(name: Bytes) {
    COLON !in name && name != [] && name != Ascii("event") && name != Ascii("id") && name != Ascii("data")
  }

  // A line is written in one way only: no line feed in it; another name is none of the three; a value right behind
  // the colon does not begin with a space; a carriage return at the end is the one before the line feed.
  predicate Proper(item: Item) {
    && LF !in Body(item.content)
    && (!item.cr ==> var b := Body(item.content); b == [] || b[|b| - 1] != CR)
    && match item.content
       case Set(field, style, value) =>
         && (field.Other? ==> IsName(field.name))
         && (style.Bare? ==> value == [])
         && (style.Tight? ==> value == [] || value[0] != SPACE)
       case _ => true
  }

  lemma Names()
    ensures Ascii("event") == EVENT && Ascii("id") == ID && Ascii("data") == DATA
    ensures Ascii(":") == [COLON] && Ascii(" ") == [SPACE]
  {
  }

  // ------------------------------------------------------------- their meaning

  // The value of the last line that sets the field.
  function LastOf(items: seq<Item>, field: Field): Option<Bytes>
    decreases |items|
  {
    if items == [] then None
    else
      var rest := LastOf(items[1..], field);
      if rest.None? && items[0].content.Set? && items[0].content.field == field then Some(items[0].content.value)
      else rest
  }

  // The values of the data lines, in order.
  function DataLines(items: seq<Item>): seq<Bytes>
    decreases |items|
  {
    if items == [] then []
    else if items[0].content.Set? && items[0].content.field.DataField? then
      [items[0].content.value] + DataLines(items[1..])
    else DataLines(items[1..])
  }

  // Data lines are joined by line feeds, from the first one that is not empty.
  function Payload(values: seq<Bytes>): Bytes
    decreases |values|
  {
    if values == [] then [] else if values[0] == [] then Payload(values[1..]) else Join(values)
  }

  function Decoded(value: Option<Bytes>, otherwise: Text, c: Codec): Text {
    if value.Some? then c.utf8(value.value) else otherwise
  }

  // The event of a block: none without data; of the type and id set last.
  function Meaning(items: seq<Item>, id: Text, c: Codec): BlockResult {
    var newId := Decoded(LastOf(items, IdField), id, c);
    var named := Decoded(LastOf(items, EventField), [], c);
    var payload := Payload(DataLines(items));
    var error := if DataLines(items) == [] then NoError
                 else if payload == [] then EmptyData
                 else match c.json(payload)
                   case Malformed => JsonError
                   case NotObject => JsonNotObject
                   case Object(feedId, _) => if feedId == [] then MissingFeedId else NoError;
    var event := if DataLines(items) == [] || error != NoError then None
                 else Some(Event(c.json(payload).feedId, if named == [] then "message" else named, newId,
                                 c.json(payload).payload));
    BlockResult(event, newId, error)
  }

  function WrittenAll(items: seq<Item>): (lines: seq<Bytes>)
    ensures |lines| == |items|
  {
    seq(|items|, i requires 0 <= i < |items| => Written(items[i]))
  }

  function Block(items: seq<Item>): Bytes {
    if |items| == 0 then [] else Join(WrittenAll(items))
  }

  ghost predicate AllProper(items: seq<Item>) {
    forall i :: 0 <= i < |items| ==> Proper(items[i])
  }

  // ------------------------------------------------------------ reading a line

  lemma ColonAt(line: Bytes, at: nat)
    requires at < |line| && line[at] == COLON && COLON !in line[..at]
    ensures IndexFrom(line, [COLON], 0) == at
  {
    IndexIsFirst(line, [COLON], 0);
    assert line[at..at + 1] == [COLON];
    assert OccursAt(line, [COLON], at);
    var first := IndexFrom(line, [COLON], 0);
    OccursByte(line, [COLON], first, 0);
    assert forall j :: 0 <= j < at ==> line[j] == line[..at][j];
  }

  lemma NoColon(line: Bytes)
    requires COLON !in line
    ensures IndexFrom(line, [COLON], 0) == -1
  {
    IndexIsFirst(line, [COLON], 0);
    var first := IndexFrom(line, [COLON], 0);
    if first >= 0 {
      OccursByte(line, [COLON], first, 0);
    }
  }

  lemma NameHasNoColon(field: Field)
    requires field.Other? ==> IsName(field.name)
    ensures COLON !in NameOf(field) && NameOf(field) != []
  {
    Names();
  }

  lemma ColonSplits(name: Bytes, after: Bytes)
    requires COLON !in name
    ensures var line := name + ([COLON] + after);
            && IndexFrom(line, [COLON], 0) == |name| < |line|
            && line[..|name|] == name && line[|name| + 1..] == after
  {
    var line := name + ([COLON] + after);
    assert line[..|name|] == name;
    ColonAt(line, |name|);
  }

  lemma BareIsRead(name: Bytes)
    requires COLON !in name
    ensures Name(name) == name && Value(name) == []
  {
    NoColon(name);
  }

  lemma TightIsRead(name: Bytes, after: Bytes)
    requires COLON !in name && (after == [] || after[0] != SPACE)
    ensures Name(name + ([COLON] + after)) == name && Value(name + ([COLON] + after)) == after
  {
    ColonSplits(name, after);
  }

  lemma SpacedIsRead(name: Bytes, value: Bytes)
    requires COLON !in name
    ensures var line := name + ([COLON] + ([SPACE] + value)); Name(line) == name && Value(line) == value
  {
    var after := [SPACE] + value;
    ColonSplits(name, after);
    assert after[1..] == value;
  }

  lemma BodyIsRead(field: Field, style: Style, value: Bytes)
    requires Proper(Item(Set(field, style, value), true))
    ensures var line := Body(Set(field, style, value));
            line != [] && line[0] != COLON && Name(line) == NameOf(field) && Value(line) == value
  {
    var name, behind := NameOf(field), Behind(style, value);
    Names();
    NameHasNoColon(field);
    assert (name + behind)[0] == name[0];
    match style
    case Bare =>
      assert name + [] == name;
      BareIsRead(name);
    case Tight => TightIsRead(name, value);
    case Spaced => SpacedIsRead(name, value);
  }

  lemma ChopIsBody(item: Item)
    requires Proper(item)
    ensures ChopCr(Written(item)) == Body(item.content)
  {
    if item.cr {
      assert (Body(item.content) + [CR])[..|Body(item.content)|] == Body(item.content);
    } else {
      assert Body(item.content) + [] == Body(item.content);
    }
  }

  // What a line does to the fields read so far.
  lemma LineMeans(f: Fields, item: Item, c: Codec)
    requires Proper(item)
    ensures var g := Line(f, Written(item), c);
            match item.content
            case Set(EventField, _, value) => g == f.(eventType := c.utf8(value))
            case Set(IdField, _, value) => g == f.(id := c.utf8(value))
            case Set(DataField, _, value) =>
              g == f.(hasData := true, data := if f.data == [] then value else f.data + [LF] + value)
            case _ => g == f
  {
    ChopIsBody(item);
    Names();
    match item.content
    case Set(field, style, value) => BodyIsRead(field, style, value);
    case _ =>
  }

  // ----------------------------------------------------------- reading a block

  lemma {:induction false} SplitJoin(lines: seq<Bytes>)
    requires |lines| > 0 && forall i :: 0 <= i < |lines| ==> LF !in lines[i]
    ensures Split(Join(lines)) == lines
    decreases |lines|
  {
    var s, first := Join(lines), lines[0];
    IndexIsFirst(s, [LF], 0);
    var at := IndexFrom(s, [LF], 0);
    if at >= 0 { OccursByte(s, [LF], at, 0); }
    if |lines| > 1 {
      assert s[|first|..|first| + 1] == [LF];
      assert OccursAt(s, [LF], |first|);
      assert s[..|first|] == first;
      assert s[|first| + 1..] == Join(lines[1..]);
      SplitJoin(lines[1..]);
    }
  }

  // Data read so far, then the values that follow.
  lemma {:induction false} AppendIsJoin(data: Bytes, values: seq<Bytes>)
    requires data != [] && values != []
    ensures Join([data] + values) == data + [LF] + Join(values)
    ensures Join([data] + values) == Join([data + [LF] + values[0]] + values[1..])
  {
    assert ([data] + values)[1..] == values;
    if |values| > 1 {
      assert ([data + [LF] + values[0]] + values[1..])[1..] == values[1..];
    }
  }

  // What follows data already read.
  function Extended(data: Bytes, values: seq<Bytes>): Bytes {
    if data == [] then Payload(values) else Join([data] + values)
  }

  lemma ExtendedStep(data: Bytes, values: seq<Bytes>)
    requires values != []
    ensures Extended(data, values)
            == Extended(if data == [] then values[0] else data + [LF] + values[0], values[1..])
  {
    if data == [] {
      assert [values[0]] + values[1..] == values;
    } else {
      AppendIsJoin(data, values);
    }
  }

  // The fields once further lines have been read.
  function FieldsAfter(f: Fields, items: seq<Item>, c: Codec): Fields {
    Fields(Extended(f.data, DataLines(items)), Decoded(LastOf(items, EventField), f.eventType, c),
           f.hasData || DataLines(items) != [], Decoded(LastOf(items, IdField), f.id, c))
  }

  lemma OneMore(item: Item, rest: seq<Item>, field: Field)
    ensures var items, line := [item] + rest, item.content;
            && LastOf(items, field) == (if LastOf(rest, field) == None && line.Set? && line.field == field
                                        then Some(line.value) else LastOf(rest, field))
            && DataLines(items) == (if line.Set? && line.field.DataField? then [line.value] + DataLines(rest)
                                    else DataLines(rest))
  {
    var items := [item] + rest;
    assert items[1..] == rest;
  }

  lemma DataThenRest(data: Bytes, value: Bytes, rest: seq<Bytes>)
    ensures Extended(data, [value] + rest) == Extended(if data == [] then value else data + [LF] + value, rest)
  {
    var values := [value] + rest;
    assert values[1..] == rest;
    ExtendedStep(data, values);
  }

  lemma LineThenRest(f: Fields, item: Item, rest: seq<Item>, c: Codec)
    requires Proper(item)
    ensures FieldsAfter(Line(f, Written(item), c), rest, c) == FieldsAfter(f, [item] + rest, c)
  {
    OneMore(item, rest, EventField);
    OneMore(item, rest, IdField);
    LineMeans(f, item, c);
    if item.content.Set? && item.content.field.DataField? {
      DataThenRest(f.data, item.content.value, DataLines(rest));
    }
  }

  lemma NothingFollows(f: Fields, c: Codec)
    ensures FieldsAfter(f, [], c) == f
  {
  }

  lemma LinesStep(f: Fields, items: seq<Item>, c: Codec)
    requires |items| > 0
    ensures Lines(f, WrittenAll(items), c) == Lines(Line(f, Written(items[0]), c), WrittenAll(items[1..]), c)
  {
    var lines, rest := WrittenAll(items), WrittenAll(items[1..]);
    assert lines[1..] == rest;
  }

  lemma {:induction false} LinesMean(f: Fields, items: seq<Item>, c: Codec)
    requires AllProper(items)
    ensures Lines(f, WrittenAll(items), c) == FieldsAfter(f, items, c)
    decreases |items|
  {
    if |items| == 0 {
      NothingFollows(f, c);
    } else {
      var first, rest := items[0], items[1..];
      assert items == [first] + rest;
      LinesStep(f, items, c);
      LinesMean(Line(f, Written(first), c), rest, c);
      LineThenRest(f, first, rest, c);
    }
  }

  lemma OutcomeIsMeaning(items: seq<Item>, id: Text, c: Codec)
    ensures Outcome(FieldsAfter(Fields([], [], false, id), items, c), c) == Meaning(items, id, c)
  {
  }

  /** Parsing a block gives what its lines mean: the last event and the last id line win, data lines are joined by line
      feeds, comments, blank lines and other fields change nothing, and without data there is no event but the id
      moves. */
  lemma BlockMeans(items: seq<Item>, id: Text, c: Codec)
    requires |items| > 0 && AllProper(items)
    ensures ParseBlock(Block(items), id, c) == Meaning(items, id, c)
  {
    var lines := WrittenAll(items);
    forall i | 0 <= i < |items| ensures LF !in lines[i] {
      assert Proper(items[i]);
    }
    SplitJoin(lines);
    LinesMean(Fields([], [], false, id), items, c);
    OutcomeIsMeaning(items, id, c);
  }

  // ------------------------------------------------------ every block is written

  function FieldOf(name: Bytes): Field {
    if name == Ascii("event") then EventField
    else if name == Ascii("id") then IdField
    else if name == Ascii("data") then DataField
    else Other(name)
  }

  // A name and what is behind its colon.
  function ReadValue(name: Bytes, after: Bytes): Content {
    if after != [] && after[0] == SPACE then Set(FieldOf(name), Spaced, after[1..])
    else Set(FieldOf(name), Tight, after)
  }

  // A line without its carriage return, taken apart at its first colon.
  function Read(body: Bytes): Content {
    var at := IndexFrom(body, [COLON], 0);
    if body == [] then Blank
    else if at < 0 then Set(FieldOf(body), Bare, [])
    else if at == 0 then Comment(body[1..])
    else ReadValue(body[..at], body[at + 1..])
  }

  lemma ColonIsFound(body: Bytes, j: nat)
    requires j < |body| && body[j] == COLON
    ensures 0 <= IndexFrom(body, [COLON], 0) <= j
  {
    IndexIsFirst(body, [COLON], 0);
    assert body[j..j + 1] == [COLON];
    assert OccursAt(body, [COLON], j);
  }

  lemma FirstColon(body: Bytes)
    ensures var at := IndexFrom(body, [COLON], 0);
            if at < 0 then COLON !in body else at < |body| && body[at] == COLON && COLON !in body[..at]
  {
    var at := IndexFrom(body, [COLON], 0);
    forall j | 0 <= j < |body| && body[j] == COLON ensures 0 <= at <= j {
      ColonIsFound(body, j);
    }
    IndexIsFirst(body, [COLON], 0);
    if at >= 0 { OccursByte(body, [COLON], at, 0); }
  }

  lemma FieldIsNamed(name: Bytes)
    requires COLON !in name && name != []
    ensures NameOf(FieldOf(name)) == name && (FieldOf(name).Other? ==> IsName(name))
  {
  }

  lemma ValueIsWritten(name: Bytes, after: Bytes)
    requires COLON !in name && name != [] && LF !in name + ([COLON] + after)
    ensures Body(ReadValue(name, after)) == name + ([COLON] + after)
    ensures Proper(Item(ReadValue(name, after), true))
  {
    Names();
    FieldIsNamed(name);
    if after != [] && after[0] == SPACE {
      assert after == [SPACE] + after[1..];
    }
  }

  lemma BodyIsWritten(body: Bytes)
    requires LF !in body
    ensures Body(Read(body)) == body && Proper(Item(Read(body), true))
  {
    var at := IndexFrom(body, [COLON], 0);
    FirstColon(body);
    Names();
    if body == [] {
    } else if at < 0 {
      FieldIsNamed(body);
    } else if at == 0 {
      assert [COLON] + body[1..] == body;
    } else {
      var name, after := body[..at], body[at + 1..];
      assert body == name + ([COLON] + after);
      ValueIsWritten(name, after);
    }
  }

  lemma ChoppedLine(line: Bytes)
    ensures line == ChopCr(line) + if line != [] && line[|line| - 1] == CR then [CR] else []
    ensures LF !in line ==> LF !in ChopCr(line)
  {
  }

  /** Every line without a line feed is written by exactly what it reads as. */
  lemma LineIsWritten(line: Bytes) returns (item: Item)
    requires LF !in line
    ensures Proper(item) && Written(item) == line
  {
    ChoppedLine(line);
    BodyIsWritten(ChopCr(line));
    item := Item(Read(ChopCr(line)), line != [] && line[|line| - 1] == CR);
  }

  lemma {:induction false} LinesAreWritten(lines: seq<Bytes>) returns (items: seq<Item>)
    requires forall i :: 0 <= i < |lines| ==> LF !in lines[i]
    ensures |items| == |lines|
    ensures forall i :: 0 <= i < |lines| ==> Proper(items[i]) && Written(items[i]) == lines[i]
    decreases |lines|
  {
    items := [];
    if |lines| > 0 {
      var last := |lines| - 1;
      items := LinesAreWritten(lines[..last]);
      var item := LineIsWritten(lines[last]);
      items := items + [item];
    }
  }

  /** Every block of bytes is written by some lines, so parsing it gives their meaning and nothing else. */
  lemma EveryBlockMeans(block: Bytes, id: Text, c: Codec) returns (items: seq<Item>)
    ensures |items| > 0 && AllProper(items) && Block(items) == block
    ensures ParseBlock(block, id, c) == Meaning(items, id, c)
  {
    SplitIsLines(block);
    items := LinesAreWritten(Split(block));
    assert WrittenAll(items) == Split(block);
    BlockMeans(items, id, c);
  }

  // ---------------------------------------------------------- a written stream

  // No line of the block is blank.
  predicate Solid(lines: seq<Bytes>) {
    |lines| > 0 && forall i :: 0 <= i < |lines| ==> LF !in lines[i] && lines[i] != [] && lines[i] != [CR]
  }

  // What comes behind a line feed inside the block begins a line.
  lemma {:induction false} AfterLineFeed(lines: seq<Bytes>, end: Bytes, i: nat)
    requires Solid(lines) && end == LF_LF && i < |Join(lines)| && (Join(lines) + end)[i] == LF
    ensures var s := Join(lines) + end;
            && i + 2 < |s| && s[i + 1] != LF && (s[i + 1] == CR ==> s[i + 2] != LF)
    decreases |lines|
  {
    var s, first := Join(lines) + end, lines[0];
    assert forall k :: 0 <= k < |first| ==> s[k] == first[k];
    if |lines| > 1 {
      var rest := Join(lines[1..]);
      assert s == (first + [LF]) + (rest + end);
      assert rest[0] == lines[1][0] && (|lines[1]| > 1 ==> rest[1] == lines[1][1]);
      if i > |first| {
        AfterLineFeed(lines[1..], end, i - |first| - 1);
      }
    }
  }

  lemma NoBlankInside(lines: seq<Bytes>, i: nat)
    requires Solid(lines) && i < |Join(lines)|
    ensures !BlankLineAt(Join(lines) + LF_LF, i)
  {
    var s := Join(lines) + LF_LF;
    if OccursAt(s, LF_LF, i) {
      OccursByte(s, LF_LF, i, 0);
      OccursByte(s, LF_LF, i, 1);
      AfterLineFeed(lines, LF_LF, i);
    }
    if OccursAt(s, CRLF_CRLF, i) {
      OccursByte(s, CRLF_CRLF, i, 1);
      OccursByte(s, CRLF_CRLF, i, 2);
      OccursByte(s, CRLF_CRLF, i, 3);
      if i + 1 < |Join(lines)| {
        AfterLineFeed(lines, LF_LF, i + 1);
      }
    }
  }

  /** A block without a blank line ends at the blank line that is put behind it. */
  lemma SolidIsFramable(lines: seq<Bytes>)
    requires Solid(lines)
    ensures Framable(Join(lines))
  {
    var s := Join(lines) + LF_LF;
    forall j | j < |Join(lines)| ensures !BlankLineAt(s, j) {
      if j >= 0 { NoBlankInside(lines, j); }
    }
    assert s[|Join(lines)|..|Join(lines)| + 2] == LF_LF;
    FirstSeparatorIff(s, Separator(|Join(lines)|, 2));
  }

  // A block a sender may frame: some lines, none of them blank, within the parser's limit.
  ghost predicate Sendable(items: seq<Item>) {
    && |items| > 0 && AllProper(items) && |Block(items)| <= MAX_BUFFER
    && forall i :: 0 <= i < |items| ==> !items[i].content.Blank?
  }

  lemma SendableIsFramable(items: seq<Item>)
    requires Sendable(items)
    ensures Framable(Block(items))
  {
    var lines := WrittenAll(items);
    forall i | 0 <= i < |items| ensures LF !in lines[i] && lines[i] != [] && lines[i] != [CR] {
      assert Proper(items[i]) && !items[i].content.Blank?;
      SolidLine(items[i]);
    }
    SolidIsFramable(lines);
  }

  lemma SolidLine(item: Item)
    requires Proper(item) && !item.content.Blank?
    ensures LF !in Written(item) && Written(item) != [] && Written(item) != [CR]
  {
    var body := Body(item.content);
    Names();
    if item.content.Set? {
      NameHasNoColon(item.content.field);
    }
    assert body != [];
    if item.cr {
      assert |Written(item)| == |body| + 1;
    } else {
      assert Written(item) == body;
    }
  }

  function BlocksOf(told: seq<seq<Item>>): (blocks: seq<Bytes>)
    ensures |blocks| == |told|
  {
    seq(|told|, i requires 0 <= i < |told| => Block(told[i]))
  }

  // The meanings of the blocks one after the other, each with the id the ones before it leave.
  function Told(told: seq<seq<Item>>, id: Text, c: Codec): Drained
    decreases |told|
  {
    if told == [] then Drained([], [], id, NoError)
    else
      var b := Meaning(told[0], id, c);
      Before(b, Told(told[1..], b.id, c))
  }

  lemma OneIsParsed(items: seq<Item>, id: Text, c: Codec)
    requires Sendable(items)
    ensures Blocks(c)(Block(items), id) == Meaning(items, id, c)
  {
    BlockMeans(items, id, c);
  }

  lemma {:induction false} ToldIsParsed(told: seq<seq<Item>>, id: Text, c: Codec)
    requires forall i :: 0 <= i < |told| ==> Sendable(told[i])
    ensures ParseAll(BlocksOf(told), id, Blocks(c)) == Told(told, id, c)
    decreases |told|
  {
    if told != [] {
      var first, rest := told[0], told[1..];
      var blocks, others := BlocksOf(told), BlocksOf(rest);
      OneIsParsed(first, id, c);
      ToldIsParsed(rest, Meaning(first, id, c).id, c);
      assert blocks[0] == Block(first) && blocks[1..] == others;
    }
  }

  /** A stream of written events, cut into chunks anyhow and within the limit, gives exactly the events told, in order,
      and nothing is left over. */
  lemma StreamRoundTrip(told: seq<seq<Item>>, chunks: seq<Bytes>, c: Codec)
    requires forall i :: 0 <= i < |told| ==> Sendable(told[i])
    requires Concat(chunks) == Frame(BlocksOf(told)) && NeverOverflows(FRESH, chunks, Blocks(c))
    ensures var f := Feed(FRESH, chunks, Blocks(c));
            && f.events == Told(told, [], c).events && f.parser.lastEventId == Told(told, [], c).id
            && f.parser.buffer == []
  {
    forall i | 0 <= i < |told| ensures Framable(BlocksOf(told)[i]) {
      SendableIsFramable(told[i]);
    }
    FrameRoundTrip(BlocksOf(told), [], Blocks(c));
    ToldIsParsed(told, [], c);
    ToldLeavesNothing(told, [], c);
    FeedIsDrain(FRESH, chunks, Blocks(c));
    assert FRESH.buffer + Concat(chunks) == Frame(BlocksOf(told));
  }

  lemma {:induction false} ToldLeavesNothing(told: seq<seq<Item>>, id: Text, c: Codec)
    ensures Told(told, id, c).rest == []
    decreases |told|
  {
    if told != [] {
      ToldLeavesNothing(told[1..], Meaning(told[0], id, c).id, c);
    }
  }

  // ------------------------------------------------------------ one plain event

  // An event as a sender writes it: its type, its id, its data line by line, with or without the space and the
  // carriage returns.
  function Plain(eventType: Bytes, id: Bytes, data: seq<Bytes>, style: Style, cr: bool): seq<Item> {
    [Item(Set(EventField, style, eventType), cr), Item(Set(IdField, style, id), cr)] + DataItems(data, style, cr)
  }

  function DataItems(data: seq<Bytes>, style: Style, cr: bool): seq<Item> {
    seq(|data|, i requires 0 <= i < |data| => Item(Set(DataField, style, data[i]), cr))
  }

  predicate IsValue(value: Bytes, style: Style) {
    value != [] && LF !in value && CR !in value && (style.Spaced? || (style.Tight? && value[0] != SPACE))
  }

  lemma PlainIsProper(field: Field, style: Style, value: Bytes, cr: bool)
    requires !field.Other? && IsValue(value, style)
    ensures Proper(Item(Set(field, style, value), cr))
  {
    var name, behind := NameOf(field), Behind(style, value);
    Names();
    assert LF !in name && LF !in behind;
    assert (name + behind)[|name + behind| - 1] == value[|value| - 1];
  }

  lemma {:induction false} DataItemsMean(data: seq<Bytes>, style: Style, cr: bool)
    ensures var items := DataItems(data, style, cr);
            DataLines(items) == data && LastOf(items, EventField) == None && LastOf(items, IdField) == None
    decreases |data|
  {
    if data != [] {
      var items := DataItems(data, style, cr);
      DataItemsMean(data[1..], style, cr);
      assert items[1..] == DataItems(data[1..], style, cr);
      assert data == [data[0]] + data[1..];
    }
  }

  lemma PlainMeans(eventType: Bytes, id: Bytes, data: seq<Bytes>, style: Style, cr: bool)
    ensures var items := Plain(eventType, id, data, style, cr);
            && LastOf(items, EventField) == Some(eventType) && LastOf(items, IdField) == Some(id)
            && DataLines(items) == data
  {
    var items, rest := Plain(eventType, id, data, style, cr), DataItems(data, style, cr);
    var one := [Item(Set(IdField, style, id), cr)] + rest;
    DataItemsMean(data, style, cr);
    assert items[1..] == one && one[1..] == rest;
  }

  lemma PlainIsAllProper(eventType: Bytes, id: Bytes, data: seq<Bytes>, style: Style, cr: bool)
    requires IsValue(eventType, style) && IsValue(id, style)
    requires forall i :: 0 <= i < |data| ==> IsValue(data[i], style)
    ensures AllProper(Plain(eventType, id, data, style, cr))
  {
    PlainIsProper(EventField, style, eventType, cr);
    PlainIsProper(IdField, style, id, cr);
    forall i | 0 <= i < |data| ensures Proper(DataItems(data, style, cr)[i]) {
      PlainIsProper(DataField, style, data[i], cr);
    }
  }

  lemma PayloadIsJoined(data: seq<Bytes>)
    requires |data| > 0 && data[0] != []
    ensures Payload(data) == Join(data) != []
  {
  }

  // The outcome is the event of that type and id whose payload is the data joined by line feeds, decoded; none, and
  // an error, if that is no object with a feed id.
  predicate IsTheEvent(b: BlockResult, eventType: Bytes, id: Bytes, data: seq<Bytes>, c: Codec)
    requires |data| > 0
  {
    var json, named := c.json(Join(data)), c.utf8(eventType);
    && b.id == c.utf8(id)
    && if json.Object? && json.feedId != [] then
         && b.error == NoError
         && b.event == Some(Event(json.feedId, if named == [] then "message" else named, c.utf8(id), json.payload))
       else b.event == None && b.error != NoError
  }

  lemma PlainMeaning(items: seq<Item>, eventType: Bytes, id: Bytes, data: seq<Bytes>, oldId: Text, c: Codec)
    requires LastOf(items, EventField) == Some(eventType) && LastOf(items, IdField) == Some(id)
    requires DataLines(items) == data && |data| > 0 && data[0] != []
    ensures IsTheEvent(Meaning(items, oldId, c), eventType, id, data, c)
  {
    PayloadIsJoined(data);
  }

  /** An event written with a type, an id and data lines comes back as that event. */
  lemma PlainEventRoundTrip(eventType: Bytes, id: Bytes, data: seq<Bytes>, style: Style, cr: bool, oldId: Text,
                            c: Codec)
    requires IsValue(eventType, style) && IsValue(id, style) && |data| > 0
    requires forall i :: 0 <= i < |data| ==> IsValue(data[i], style)
    ensures var block := Block(Plain(eventType, id, data, style, cr));
            IsTheEvent(ParseBlock(block, oldId, c), eventType, id, data, c)
  {
    var items := Plain(eventType, id, data, style, cr);
    PlainIsAllProper(eventType, id, data, style, cr);
    PlainMeans(eventType, id, data, style, cr);
    BlockMeans(items, oldId, c);
    assert IsValue(data[0], style);
    PlainMeaning(items, eventType, id, data, oldId, c);
  }
}
