// Incremental parsing of server-sent events, telemetry/sseparser.cpp.
module SseParser {
  import opened Basics
  import opened SseFraming

  const COLON: Byte := 58
  const SPACE: Byte := 32
  const EVENT: Bytes := [101, 118, 101, 110, 116]
  const ID: Bytes := [105, 100]
  const DATA: Bytes := [100, 97, 116, 97]
  const MAX_BUFFER := 1024 * 1024

  datatype Json = Malformed | NotObject | Object(feedId: Text, payload: int)

  // Text decoding and JSON parsing are outside the model: any functions of the bytes will do.
  datatype Codec = Codec(utf8: Bytes -> Text, json: Bytes -> Json)

  // -------------------------------------------------------------- event blocks

  // The pieces of s between its line feeds.
  function Split(s: Bytes): (lines: seq<Bytes>)
    ensures |lines| > 0
    decreases |s|
  {
    var at := IndexFrom(s, [LF], 0);
    if at < 0 then [s] else [s[..at]] + Split(s[at + 1..])
  }

  function Join(lines: seq<Bytes>): Bytes
    requires |lines| > 0
    decreases |lines|
  {
    if |lines| == 1 then lines[0] else lines[0] + [LF] + Join(lines[1..])
  }

  lemma NoneBefore(s: Bytes, at: nat)
    requires at <= |s| && forall j :: 0 <= j < at ==> !OccursAt(s, [LF], j)
    ensures LF !in s[..at]
  {
    if LF in s[..at] {
      var j :| 0 <= j < at && s[j] == LF;
      assert s[j..j + 1] == [LF];
      assert OccursAt(s, [LF], j);
    }
  }

  /** Splitting loses nothing, and no piece holds a line feed. */
  lemma {:induction false} SplitIsLines(s: Bytes)
    ensures Join(Split(s)) == s
    ensures forall i :: 0 <= i < |Split(s)| ==> LF !in Split(s)[i]
    decreases |s|
  {
    var at := IndexFrom(s, [LF], 0);
    IndexIsFirst(s, [LF], 0);
    if at < 0 {
      NoneBefore(s, |s|);
      assert s[..|s|] == s;
    } else {
      NoneBefore(s, at);
      OccursByte(s, [LF], at, 0);
      SplitIsLines(s[at + 1..]);
      assert Split(s)[1..] == Split(s[at + 1..]);
      assert s == s[..at] + [LF] + s[at + 1..];
    }
  }

  // What the lines of a block have set so far.
  datatype Fields = Fields(data: Bytes, eventType: Text, hasData: bool, id: Text)

  function ChopCr(line: Bytes): Bytes {
    if line != [] && line[|line| - 1] == CR then line[..|line| - 1] else line
  }

  function Name(line: Bytes): Bytes {
    var colon := IndexFrom(line, [COLON], 0);
    if colon >= 0 then line[..colon] else line
  }

  function Value(line: Bytes): Bytes {
    var colon := IndexFrom(line, [COLON], 0);
    var value := if colon >= 0 then line[colon + 1..] else [];
    if value != [] && value[0] == SPACE then value[1..] else value
  }

  function SetField(f: Fields, name: Bytes, value: Bytes, c: Codec): Fields {
    if name == EVENT then f.(eventType := c.utf8(value))
    else if name == ID then f.(id := c.utf8(value))
    else if name == DATA then
      f.(hasData := true, data := if f.data != [] then f.data + [LF] + value else value)
    else f
  }

  function Line(f: Fields, raw: Bytes, c: Codec): Fields {
    var line := ChopCr(raw);
    if line == [] || line[0] == COLON then f else SetField(f, Name(line), Value(line), c)
  }

  function Lines(f: Fields, lines: seq<Bytes>, c: Codec): Fields
    decreases |lines|
  {
    if lines == [] then f else Lines(Line(f, lines[0], c), lines[1..], c)
  }

  lemma LinesFrom(f: Fields, lines: seq<Bytes>, i: nat, c: Codec)
    requires i < |lines|
    ensures Lines(f, lines[i..], c) == Lines(Line(f, lines[i], c), lines[i + 1..], c)
  {
  }

  function Outcome(f: Fields, c: Codec): BlockResult {
    if !f.hasData then BlockResult(None, f.id, NoError)
    else if f.data == [] then BlockResult(None, f.id, EmptyData)
    else match c.json(f.data)
      case Malformed => BlockResult(None, f.id, JsonError)
      case NotObject => BlockResult(None, f.id, JsonNotObject)
      case Object(feedId, payload) =>
        if feedId == [] then BlockResult(None, f.id, MissingFeedId)
        else BlockResult(Some(Event(feedId, if f.eventType == [] then "message" else f.eventType, f.id, payload)),
                         f.id, NoError)
  }

  function ParseBlock(block: Bytes, id: Text, c: Codec): BlockResult {
    Outcome(Lines(Fields([], [], false, id), Split(block), c), c)
  }

  function OneBlock(block: Bytes, id: Text, c: Codec): BlockResult {
    if |block| > MAX_BUFFER then BlockResult(None, id, BlockTooLong) else ParseBlock(block, id, c)
  }

  function Blocks(c: Codec): BlockParser {
    (block, id) => OneBlock(block, id, c)
  }

  // ------------------------------------------------------------------- pushing

  datatype Parser = Parser(buffer: Bytes, lastError: Error, lastEventId: Text)
  datatype Pushed = Pushed(parser: Parser, events: seq<Event>)

  const FRESH := Parser([], NoError, [])

  predicate Fits(p: Parser, chunk: Bytes) {
    |chunk| <= MAX_BUFFER && |p.buffer| <= MAX_BUFFER - |chunk|
  }

  function Settle(d: Drained, lastError: Error): Pushed {
    if |d.rest| > MAX_BUFFER then Pushed(Parser([], Overflow, d.id), d.events)
    else Pushed(Parser(d.rest, Later(lastError, d.error), d.id), d.events)
  }

  function PushChunk(p: Parser, chunk: Bytes, parse: BlockParser): Pushed {
    if !Fits(p, chunk) then Pushed(p.(buffer := [], lastError := Overflow), [])
    else Settle(Drain(p.buffer + chunk, p.lastEventId, parse), NoError)
  }

  function Feed(p: Parser, chunks: seq<Bytes>, parse: BlockParser): Pushed
    decreases |chunks|
  {
    if chunks == [] then Pushed(p, [])
    else
      var a := PushChunk(p, chunks[0], parse);
      var b := Feed(a.parser, chunks[1..], parse);
      Pushed(b.parser, a.events + b.events)
  }

  // The size limit is never hit on the way.
  predicate NeverOverflows(p: Parser, chunks: seq<Bytes>, parse: BlockParser)
    decreases |chunks|
  {
    chunks == [] || (Fits(p, chunks[0]) && NeverOverflows(PushChunk(p, chunks[0], parse).parser, chunks[1..], parse))
  }

  function Concat(chunks: seq<Bytes>): Bytes
    decreases |chunks|
  {
    if chunks == [] then [] else chunks[0] + Concat(chunks[1..])
  }

  // One push that fits is one drain of everything held: nothing is lost to the limit on what is left.
  lemma PushIsDrain(p: Parser, chunk: Bytes, parse: BlockParser)
    requires Fits(p, chunk)
    ensures var a := PushChunk(p, chunk, parse);
            var d := Drain(p.buffer + chunk, p.lastEventId, parse);
            && a == Pushed(Parser(d.rest, d.error, d.id), d.events)
            && FirstSeparator(d.rest).NoSeparator?
  {
    DrainLeavesNoBlock(p.buffer + chunk, p.lastEventId, parse);
  }

  /** A chunk that would take what is held past a mebibyte is dropped with it; the last event id stays. */
  lemma OverflowDropsTheBuffer(p: Parser, chunk: Bytes, parse: BlockParser)
    ensures |p.buffer| + |chunk| > 1048576 <==> !Fits(p, chunk)
    ensures |p.buffer| + |chunk| > 1048576 ==>
              PushChunk(p, chunk, parse) == Pushed(Parser([], Overflow, p.lastEventId), [])
  {
  }

  lemma DrainedAfter(lastError: Error, d: Drained)
    ensures Then(Drained([], [], [], lastError), d) == Drained(d.events, d.rest, d.id, Later(lastError, d.error))
  {
  }

  // The outcome of a run, apart from the error text.
  predicate Agrees(f: Pushed, d: Drained) {
    f.events == d.events && f.parser.buffer == d.rest && f.parser.lastEventId == d.id
  }

  lemma NothingHeld(p: Parser, parse: BlockParser)
    requires FirstSeparator(p.buffer).NoSeparator?
    ensures Agrees(Pushed(p, []), Drain(p.buffer, p.lastEventId, parse))
  {
  }

  lemma AgreesThen(a: Drained, f: Pushed, d: Drained)
    requires Agrees(f, d)
    ensures Agrees(Pushed(f.parser, a.events + f.events), Then(a, d))
  {
  }

  lemma FeedTurn(p: Parser, chunks: seq<Bytes>, parse: BlockParser, d: Drained)
    requires chunks != [] && NeverOverflows(p, chunks, parse)
    requires d == Drain(p.buffer + chunks[0], p.lastEventId, parse)
    ensures FirstSeparator(d.rest).NoSeparator?
    ensures var a := Parser(d.rest, d.error, d.id); var f := Feed(a, chunks[1..], parse);
            && NeverOverflows(a, chunks[1..], parse)
            && Feed(p, chunks, parse) == Pushed(f.parser, d.events + f.events)
  {
    PushIsDrain(p, chunks[0], parse);
  }

  lemma ConcatTurn(buf: Bytes, chunks: seq<Bytes>)
    requires chunks != []
    ensures buf + Concat(chunks) == buf + chunks[0] + Concat(chunks[1..])
  {
  }

  /** Feeding the chunks one by one is draining all their bytes at once. */
  lemma {:induction false} FeedIsDrain(p: Parser, chunks: seq<Bytes>, parse: BlockParser)
    requires FirstSeparator(p.buffer).NoSeparator? && NeverOverflows(p, chunks, parse)
    ensures Agrees(Feed(p, chunks, parse), Drain(p.buffer + Concat(chunks), p.lastEventId, parse))
    decreases |chunks|
  {
    if chunks == [] {
      assert p.buffer + Concat(chunks) == p.buffer;
      NothingHeld(p, parse);
    } else {
      var d := Drain(p.buffer + chunks[0], p.lastEventId, parse);
      var a := Parser(d.rest, d.error, d.id);
      FeedTurn(p, chunks, parse, d);
      FeedIsDrain(a, chunks[1..], parse);
      AgreesThen(d, Feed(a, chunks[1..], parse), Drain(a.buffer + Concat(chunks[1..]), d.id, parse));
      ConcatTurn(p.buffer, chunks);
      DrainExtends(p.buffer + chunks[0], Concat(chunks[1..]), p.lastEventId, parse);
    }
  }

  /** However the same bytes are cut into chunks, the events, what is left over and the last event id are
      the same, as long as the size limit is not hit. */
  lemma ChunkingDoesNotMatter(p: Parser, xs: seq<Bytes>, ys: seq<Bytes>, parse: BlockParser)
    requires FirstSeparator(p.buffer).NoSeparator? && Concat(xs) == Concat(ys)
    requires NeverOverflows(p, xs, parse) && NeverOverflows(p, ys, parse)
    ensures var x, y := Feed(p, xs, parse), Feed(p, ys, parse);
            && x.events == y.events && x.parser.buffer == y.parser.buffer
            && x.parser.lastEventId == y.parser.lastEventId
  {
    FeedIsDrain(p, xs, parse);
    FeedIsDrain(p, ys, parse);
  }

  /** A stream no longer than the limit never hits it, whatever its chunks. */
  lemma {:induction false} ShortStreamNeverOverflows(p: Parser, chunks: seq<Bytes>, parse: BlockParser)
    requires |p.buffer| + |Concat(chunks)| <= MAX_BUFFER
    ensures NeverOverflows(p, chunks, parse)
    decreases |chunks|
  {
    if chunks != [] {
      PushIsDrain(p, chunks[0], parse);
      DrainLeavesNoBlock(p.buffer + chunks[0], p.lastEventId, parse);
      ShortStreamNeverOverflows(PushChunk(p, chunks[0], parse).parser, chunks[1..], parse);
    }
  }

  /** A parser between pushes never holds a complete block, whatever it was fed. */
  lemma {:induction false} NoBlockIsKept(p: Parser, chunks: seq<Bytes>, parse: BlockParser)
    requires FirstSeparator(p.buffer).NoSeparator?
    ensures FirstSeparator(Feed(p, chunks, parse).parser.buffer).NoSeparator?
    decreases |chunks|
  {
    if chunks != [] {
      DrainLeavesNoBlock(p.buffer + chunks[0], p.lastEventId, parse);
      NoBlockIsKept(PushChunk(p, chunks[0], parse).parser, chunks[1..], parse);
    }
  }

  // ---------------------------------------------------------------- round trip

  // A block that a blank line ends where it should.
  predicate Framable(block: Bytes) {
    FirstSeparator(block + LF_LF) == Separator(|block|, 2)
  }

  function Frame(blocks: seq<Bytes>): Bytes
    decreases |blocks|
  {
    if blocks == [] then [] else blocks[0] + LF_LF + Frame(blocks[1..])
  }

  // The blocks parsed one after the other.
  function ParseAll(blocks: seq<Bytes>, id: Text, parse: BlockParser): Drained
    decreases |blocks|
  {
    if blocks == [] then Drained([], [], id, NoError)
    else
      var b := parse(blocks[0], id);
      Before(b, ParseAll(blocks[1..], b.id, parse))
  }

  /** Framing blocks with blank lines and draining them gives each block back, in order, with nothing left. */
  lemma {:induction false} FrameRoundTrip(blocks: seq<Bytes>, id: Text, parse: BlockParser)
    requires forall i :: 0 <= i < |blocks| ==> Framable(blocks[i])
    ensures Drain(Frame(blocks), id, parse) == ParseAll(blocks, id, parse)
    decreases |blocks|
  {
    if blocks != [] {
      var b, rest := blocks[0], Frame(blocks[1..]);
      var whole := Frame(blocks);
      assert whole == (b + LF_LF) + rest;
      SeparatorIsStable(b + LF_LF, rest);
      assert whole[..|b|] == b && whole[|b| + 2..] == rest;
      FrameRoundTrip(blocks[1..], parse(b, id).id, parse);
    }
  }

  // --------------------------------------------------------------- the object

  class SseParser {
    var buffer: Bytes
    var lastError: Error
    var lastEventId: Text
    const codec: Codec

    ghost function View(): Parser
      reads this
    {
      Parser(buffer, lastError, lastEventId)
    }

    constructor (codec: Codec)
      ensures View() == FRESH && this.codec == codec
    {
      this.codec := codec;
      buffer, lastError, lastEventId := [], NoError, [];
    }

    method Reset()
      modifies this
      ensures View() == FRESH
    {
      buffer, lastError, lastEventId := [], NoError, [];
    }

    method Push(chunk: Bytes) returns (events: seq<Event>)
      modifies this
      ensures Pushed(View(), events) == PushChunk(old(View()), chunk, Blocks(codec))
    {
      lastError := NoError;
      if |chunk| > MAX_BUFFER || |buffer| > MAX_BUFFER - |chunk| {
        buffer := [];
        lastError := Overflow;
        return [];
      }
      buffer := buffer + chunk;
      events := ParseBufferedEvents();
    }

    method ParseBufferedEvents() returns (events: seq<Event>)
      modifies this
      ensures Pushed(View(), events) == Settle(Drain(old(buffer), old(lastEventId), Blocks(codec)), old(lastError))
    {
      events := [];
      ghost var parse := Blocks(codec);
      ghost var all := Then(Drained([], [], [], lastError), Drain(buffer, lastEventId, parse));
      var sep := FirstSeparator(buffer);
      while sep.Separator?
        invariant sep == FirstSeparator(buffer)
        invariant all == Then(Drained(events, [], [], lastError), Drain(buffer, lastEventId, parse))
        decreases |buffer|
      {
        DrainTurn(Drained(events, [], [], lastError), buffer, lastEventId, parse);
        var event := NextEvent(sep);
        events := events + AsSeq(event);
        sep := FirstSeparator(buffer);
      }
      DrainNothing(Drained(events, [], [], lastError), buffer, lastEventId, parse);
      DrainedAfter(old(lastError), Drain(old(buffer), old(lastEventId), parse));
      if |buffer| > MAX_BUFFER {
        buffer := [];
        lastError := Overflow;
      }
    }

    // The body of the loop: take the block the separator ends and parse it unless it is too long.
    method NextEvent(sep: Separator) returns (event: Option<Event>)
      requires sep.Separator? && sep == FirstSeparator(buffer)
      modifies this
      ensures buffer == old(buffer)[sep.at + sep.length..]
      ensures var b := Blocks(codec)(old(buffer)[..sep.at], old(lastEventId));
              event == b.event && lastEventId == b.id && lastError == Later(old(lastError), b.error)
    {
      var block := buffer[..sep.at];
      buffer := buffer[sep.at + sep.length..];
      if |block| > MAX_BUFFER {
        lastError := BlockTooLong;
        return None;
      }
      event := ParseEventBlock(block);
    }

    method ParseEventBlock(block: Bytes) returns (event: Option<Event>)
      modifies this`lastEventId, this`lastError
      ensures var b := ParseBlock(block, old(lastEventId), codec);
              event == b.event && lastEventId == b.id && lastError == Later(old(lastError), b.error)
    {
      var data: Bytes, eventType: Text, hasData := [], [], false;
      var lines := Split(block);
      var i := 0;
      assert lines[0..] == lines;
      while i < |lines|
        invariant 0 <= i <= |lines| && lastError == old(lastError)
        invariant Lines(Fields(data, eventType, hasData, lastEventId), lines[i..], codec)
                  == Lines(Fields([], [], false, old(lastEventId)), lines, codec)
      {
        LinesFrom(Fields(data, eventType, hasData, lastEventId), lines, i, codec);
        data, eventType, hasData := ParseLine(lines[i], data, eventType, hasData);
        i := i + 1;
      }
      event := FinishBlock(data, eventType, hasData);
    }

    // One line of a block: comments and unknown fields leave everything as it is.
    method ParseLine(raw: Bytes, data0: Bytes, eventType0: Text, hasData0: bool)
      returns (data: Bytes, eventType: Text, hasData: bool)
      modifies this`lastEventId
      ensures Fields(data, eventType, hasData, lastEventId)
              == Line(Fields(data0, eventType0, hasData0, old(lastEventId)), raw, codec)
    {
      data, eventType, hasData := data0, eventType0, hasData0;
      var line := ChopCr(raw);
      if line == [] || line[0] == COLON { return; }
      var field, value := Name(line), Value(line);
      if field == EVENT {
        eventType := codec.utf8(value);
      } else if field == ID {
        lastEventId := codec.utf8(value);
      } else if field == DATA {
        hasData := true;
        if data != [] { data := data + [LF]; }
        data := data + value;
      }
    }

    // The event of a block whose lines have been read, or why there is none.
    method FinishBlock(data: Bytes, eventType: Text, hasData: bool) returns (event: Option<Event>)
      modifies this`lastError
      ensures var b := Outcome(Fields(data, eventType, hasData, lastEventId), codec);
              event == b.event && lastError == Later(old(lastError), b.error)
    {
      if !hasData { return None; }
      if data == [] {
        lastError := EmptyData;
        return None;
      }
      match codec.json(data) {
        case Malformed =>
          lastError := JsonError;
          return None;
        case NotObject =>
          lastError := JsonNotObject;
          return None;
        case Object(feedId, payload) =>
          if feedId == [] {
            lastError := MissingFeedId;
            return None;
          }
          return Some(Event(feedId, if eventType == [] then "message" else eventType, lastEventId, payload));
      }
    }
  }
}
