// Where an event stream buffer is cut into blocks, telemetry/sseparser.cpp:30-55.
module SseFraming {
  import opened Basics

  type Text = seq<char>

  const LF: Byte := 10
  const CR: Byte := 13
  const LF_LF: Bytes := [LF, LF]
  const CRLF_CRLF: Bytes := [CR, LF, CR, LF]

  predicate OccursAt(buf: Bytes, pat: Bytes, i: int) {
    0 <= i && i + |pat| <= |buf| && buf[i..i + |pat|] == pat
  }

  // The first occurrence at or after i, -1 when there is none.
  function IndexFrom(buf: Bytes, pat: Bytes, i: nat): (at: int)
    ensures at == -1 || i <= at <= |buf| - |pat|
    decreases |buf| - i
  {
    if i + |pat| > |buf| then -1
    else if OccursAt(buf, pat, i) then i
    else if i == |buf| then -1
    else IndexFrom(buf, pat, i + 1)
  }

  lemma {:induction false} IndexIsFirst(buf: Bytes, pat: Bytes, i: nat)
    ensures var at := IndexFrom(buf, pat, i);
            && (at >= 0 ==> OccursAt(buf, pat, at))
            && forall j :: i <= j && OccursAt(buf, pat, j) ==> 0 <= at <= j
    decreases |buf| - i
  {
    if i + |pat| <= |buf| && !OccursAt(buf, pat, i) && i < |buf| {
      IndexIsFirst(buf, pat, i + 1);
    }
  }

  datatype Separator = NoSeparator | Separator(at: nat, length: nat)

  function FirstSeparator(buf: Bytes): (s: Separator)
    ensures s.Separator? ==> s.length > 0 && s.at + s.length <= |buf|
  {
    var lf := IndexFrom(buf, LF_LF, 0);
    var crlf := IndexFrom(buf, CRLF_CRLF, 0);
    if crlf >= 0 && (lf < 0 || crlf < lf) then Separator(crlf, 4)
    else if lf >= 0 then Separator(lf, 2)
    else NoSeparator
  }

  // A blank line of either kind starts at i.
  predicate BlankLineAt(buf: Bytes, i: int) {
    OccursAt(buf, LF_LF, i) || OccursAt(buf, CRLF_CRLF, i)
  }

  predicate StartsHere(buf: Bytes, at: int, length: int) {
    (length == 2 && OccursAt(buf, LF_LF, at)) || (length == 4 && OccursAt(buf, CRLF_CRLF, at))
  }

  ghost predicate IsFirst(buf: Bytes, s: Separator) {
    match s
    case NoSeparator => forall j :: !BlankLineAt(buf, j)
    case Separator(at, length) => StartsHere(buf, at, length) && forall j :: j < at ==> !BlankLineAt(buf, j)
  }

  lemma OccursByte(buf: Bytes, pat: Bytes, i: int, k: int)
    requires OccursAt(buf, pat, i) && 0 <= k < |pat|
    ensures buf[i + k] == pat[k]
  {
  }

  // The two kinds begin with different bytes.
  lemma OneKindOnly(buf: Bytes, i: int)
    ensures !(OccursAt(buf, LF_LF, i) && OccursAt(buf, CRLF_CRLF, i))
  {
    if OccursAt(buf, LF_LF, i) {
      OccursByte(buf, LF_LF, i, 0);
      if i + 4 <= |buf| {
        assert buf[i..i + 4][0] != CRLF_CRLF[0];
      }
    }
  }

  lemma FoundIsFirst(buf: Bytes)
    ensures IsFirst(buf, FirstSeparator(buf))
  {
    IndexIsFirst(buf, LF_LF, 0);
    IndexIsFirst(buf, CRLF_CRLF, 0);
  }

  lemma FirstIsUnique(buf: Bytes, s: Separator, t: Separator)
    requires IsFirst(buf, s) && IsFirst(buf, t)
    ensures s == t
  {
    if s.Separator? { assert BlankLineAt(buf, s.at); }
    if t.Separator? { assert BlankLineAt(buf, t.at); }
    if s.Separator? && t.Separator? {
      OneKindOnly(buf, s.at);
    }
  }

  /** The separator found is exactly the earliest blank line, of either kind. */
  lemma FirstSeparatorIff(buf: Bytes, s: Separator)
    ensures IsFirst(buf, s) <==> FirstSeparator(buf) == s
  {
    FoundIsFirst(buf);
    if IsFirst(buf, s) {
      FirstIsUnique(buf, s, FirstSeparator(buf));
    }
  }

  lemma OccurrenceInPrefix(buf: Bytes, more: Bytes, pat: Bytes, i: int)
    requires i + |pat| <= |buf|
    ensures OccursAt(buf + more, pat, i) <==> OccursAt(buf, pat, i)
  {
  }

  /** A blank line that starts before a complete one ends inside it or before it, never past the prefix:
      the two byte patterns do not overlap that way. */
  lemma NothingEarlier(buf: Bytes, more: Bytes, s: Separator, j: int)
    requires s.Separator? && IsFirst(buf, s) && j < s.at
    ensures !BlankLineAt(buf + more, j)
  {
    assert !BlankLineAt(buf, j);
    OccurrenceInPrefix(buf, more, LF_LF, j);
    if j + 4 <= |buf| {
      OccurrenceInPrefix(buf, more, CRLF_CRLF, j);
    } else if OccursAt(buf + more, CRLF_CRLF, j) {
      OccursByte(buf + more, CRLF_CRLF, j, 2);
      OccursByte(buf, LF_LF, s.at, 1);
    }
  }

  /** The first separator of a prefix stays the first one in every extension. */
  lemma SeparatorIsStable(buf: Bytes, more: Bytes)
    requires FirstSeparator(buf).Separator?
    ensures FirstSeparator(buf + more) == FirstSeparator(buf)
  {
    var s := FirstSeparator(buf);
    FoundIsFirst(buf);
    forall j | j < s.at ensures !BlankLineAt(buf + more, j) {
      NothingEarlier(buf, more, s, j);
    }
    OccurrenceInPrefix(buf, more, if s.length == 2 then LF_LF else CRLF_CRLF, s.at);
    FirstSeparatorIff(buf + more, s);
  }

  // ------------------------------------------------------------------ draining

  datatype Event = Event(feedId: Text, eventType: Text, lastEventId: Text, payload: int)
  datatype Error = NoError | Overflow | BlockTooLong | EmptyData | JsonError | JsonNotObject | MissingFeedId
  datatype BlockResult = BlockResult(event: Option<Event>, id: Text, error: Error)
  datatype Drained = Drained(events: seq<Event>, rest: Bytes, id: Text, error: Error)

  // What a block and the last event id before it give. Draining is the same for any such function.
  type BlockParser = (Bytes, Text) -> BlockResult

  function AsSeq(o: Option<Event>): seq<Event> {
    if o.Some? then [o.value] else []
  }

  function Later(first: Error, second: Error): Error {
    if second.NoError? then first else second
  }

  // A block's outcome in front of what the rest of the buffer gives.
  function Before(b: BlockResult, d: Drained): Drained {
    Drained(AsSeq(b.event) + d.events, d.rest, d.id, Later(b.error, d.error))
  }

  /** Every complete block of the buffer, in order. */
  function Drain(buf: Bytes, id: Text, parse: BlockParser): Drained
    decreases |buf|
  {
    var s := FirstSeparator(buf);
    if s.NoSeparator? then Drained([], buf, id, NoError)
    else
      var b := parse(buf[..s.at], id);
      Before(b, Drain(buf[s.at + s.length..], b.id, parse))
  }

  lemma {:induction false} DrainLeavesNoBlock(buf: Bytes, id: Text, parse: BlockParser)
    ensures var d := Drain(buf, id, parse); FirstSeparator(d.rest).NoSeparator? && |d.rest| <= |buf|
    decreases |buf|
  {
    var s := FirstSeparator(buf);
    if s.Separator? {
      DrainLeavesNoBlock(buf[s.at + s.length..], parse(buf[..s.at], id).id, parse);
    }
  }

  lemma CutExtension(buf: Bytes, more: Bytes, at: nat, cut: nat)
    requires at <= cut <= |buf|
    ensures (buf + more)[..at] == buf[..at] && (buf + more)[cut..] == buf[cut..] + more
  {
  }

  // What is drained first, then what is drained after it.
  function Then(d: Drained, e: Drained): Drained {
    Drained(d.events + e.events, e.rest, e.id, Later(d.error, e.error))
  }

  lemma BeforeThen(b: BlockResult, d: Drained, e: Drained)
    ensures Before(b, Then(d, e)) == Then(Before(b, d), e)
  {
    assert AsSeq(b.event) + (d.events + e.events) == (AsSeq(b.event) + d.events) + e.events;
  }

  lemma ThenBefore(d: Drained, b: BlockResult, e: Drained)
    ensures Then(d, Before(b, e)) == Then(Drained(d.events + AsSeq(b.event), d.rest, d.id, Later(d.error, b.error)), e)
  {
    assert d.events + (AsSeq(b.event) + e.events) == (d.events + AsSeq(b.event)) + e.events;
  }

  // One turn of the drain, with what was drained before it.
  lemma DrainTurn(seen: Drained, buf: Bytes, id: Text, parse: BlockParser)
    requires FirstSeparator(buf).Separator?
    ensures var s := FirstSeparator(buf);
            var b := parse(buf[..s.at], id);
            var next := Drained(seen.events + AsSeq(b.event), seen.rest, seen.id, Later(seen.error, b.error));
            Then(seen, Drain(buf, id, parse)) == Then(next, Drain(buf[s.at + s.length..], b.id, parse))
  {
    var s := FirstSeparator(buf);
    var b := parse(buf[..s.at], id);
    ThenBefore(seen, b, Drain(buf[s.at + s.length..], b.id, parse));
  }

  lemma DrainNothing(seen: Drained, buf: Bytes, id: Text, parse: BlockParser)
    requires FirstSeparator(buf).NoSeparator?
    ensures Then(seen, Drain(buf, id, parse)) == Drained(seen.events, buf, id, seen.error)
  {
  }

  lemma NothingThen(buf: Bytes, id: Text, e: Drained)
    ensures Then(Drained([], buf, id, NoError), e) == e
  {
  }

  /** Draining an extension is draining the prefix, then what it left with the extension. */
  lemma {:induction false} DrainExtends(buf: Bytes, more: Bytes, id: Text, parse: BlockParser)
    ensures var d := Drain(buf, id, parse);
            Drain(buf + more, id, parse) == Then(d, Drain(d.rest + more, d.id, parse))
    decreases |buf|
  {
    var s := FirstSeparator(buf);
    if s.NoSeparator? {
      NothingThen(buf, id, Drain(buf + more, id, parse));
    } else {
      var cut, b := s.at + s.length, parse(buf[..s.at], id);
      var tail := Drain(buf[cut..], b.id, parse);
      var last := Drain(tail.rest + more, tail.id, parse);
      assert Drain(buf, id, parse) == Before(b, tail);
      assert Drain(buf + more, id, parse) == Before(b, Then(tail, last)) by {
        SeparatorIsStable(buf, more);
        CutExtension(buf, more, s.at, cut);
        DrainExtends(buf[cut..], more, b.id, parse);
      }
      BeforeThen(b, tail, last);
    }
  }
}
