// The monotonic-DTS rule of the writer, recorder_engine/muxer.cpp: one last DTS for each stream, and a
// packet at or behind it moves just past it.
module DtsBump {

  datatype Packet = Packet(stream: int, pts: int, dts: int, payload: int)

  function Bump(last: map<int, int>, p: Packet): Packet {
    if p.stream in last && p.dts <= last[p.stream] then
      var dts := last[p.stream] + 1;
      p.(dts := dts, pts := if p.pts < dts then dts else p.pts)
    else p
  }

  function LastAfter(last: map<int, int>, p: Packet): map<int, int> {
    last[p.stream := Bump(last, p).dts]
  }

  function BumpAll(last: map<int, int>, ps: seq<Packet>): seq<Packet>
    decreases |ps|
  {
    if ps == [] then [] else [Bump(last, ps[0])] + BumpAll(LastAfter(last, ps[0]), ps[1..])
  }

  function LastAll(last: map<int, int>, ps: seq<Packet>): map<int, int>
    decreases |ps|
  {
    if ps == [] then last else LastAll(LastAfter(last, ps[0]), ps[1..])
  }

  lemma {:induction false} BumpAppend(last: map<int, int>, ps: seq<Packet>, p: Packet)
    ensures BumpAll(last, ps + [p]) == BumpAll(last, ps) + [Bump(LastAll(last, ps), p)]
    ensures LastAll(last, ps + [p]) == LastAfter(LastAll(last, ps), p)
    decreases |ps|
  {
    if ps == [] {
      assert [p][1..] == [];
    } else {
      assert (ps + [p])[1..] == ps[1..] + [p];
      BumpAppend(LastAfter(last, ps[0]), ps[1..], p);
    }
  }

  // ------------------------------------------- what the rule means, per stream

  function DtsOf(ps: seq<Packet>, stream: int): seq<int> {
    if ps == [] then []
    else (if ps[0].stream == stream then [ps[0].dts] else []) + DtsOf(ps[1..], stream)
  }

  ghost predicate StrictlyIncreasing(s: seq<int>) {
    forall i, j :: 0 <= i < j < |s| ==> s[i] < s[j]
  }

  ghost predicate Dominates(s: seq<int>, t: seq<int>) {
    |s| == |t| && forall i :: 0 <= i < |s| ==> s[i] >= t[i]
  }

  /** The least strictly increasing sequence at or above the given one. */
  ghost predicate IsLeastAbove(out: seq<int>, input: seq<int>) {
    && StrictlyIncreasing(out) && Dominates(out, input)
    && forall s :: StrictlyIncreasing(s) && Dominates(s, input) ==> Dominates(s, out)
  }

  // Each element just past the one before, when it is not already past it.
  function Chain(floor: int, s: seq<int>): seq<int>
    decreases |s|
  {
    if s == [] then []
    else
      var d := if s[0] <= floor then floor + 1 else s[0];
      [d] + Chain(d, s[1..])
  }

  lemma {:induction false} ChainIsSound(floor: int, s: seq<int>)
    ensures StrictlyIncreasing(Chain(floor, s)) && Dominates(Chain(floor, s), s)
    ensures forall i :: 0 <= i < |s| ==> floor < Chain(floor, s)[i]
    decreases |s|
  {
    if s != [] {
      var d := if s[0] <= floor then floor + 1 else s[0];
      ChainIsSound(d, s[1..]);
    }
  }

  lemma {:induction false} ChainIsLeast(floor: int, s: seq<int>, other: seq<int>)
    requires StrictlyIncreasing(other) && Dominates(other, s) && (other != [] ==> floor < other[0])
    ensures Dominates(other, Chain(floor, s))
    decreases |s|
  {
    ChainIsSound(floor, s);
    if s != [] {
      var d := if s[0] <= floor then floor + 1 else s[0];
      ChainIsLeast(d, s[1..], other[1..]);
      ChainIsSound(d, s[1..]);
      forall i | 0 <= i < |other| ensures other[i] >= Chain(floor, s)[i] {
        if i > 0 { assert other[1..][i - 1] >= Chain(d, s[1..])[i - 1]; }
      }
    }
  }

  // A stream not written yet has no floor: any value below its first packet will do.
  function Floor(last: map<int, int>, stream: int, s: seq<int>): int {
    if stream in last then last[stream] else if s == [] then 0 else s[0] - 1
  }

  lemma {:induction false} StreamIsChain(last: map<int, int>, ps: seq<Packet>, stream: int)
    ensures DtsOf(BumpAll(last, ps), stream)
            == Chain(Floor(last, stream, DtsOf(ps, stream)), DtsOf(ps, stream))
    decreases |ps|
  {
    if ps != [] {
      var p := ps[0];
      StreamIsChain(LastAfter(last, p), ps[1..], stream);
      var out := BumpAll(last, ps);
      assert out[0] == Bump(last, p) && out[1..] == BumpAll(LastAfter(last, p), ps[1..]);
      if p.stream == stream {
        assert DtsOf(ps, stream) == [p.dts] + DtsOf(ps[1..], stream);
        assert DtsOf(ps, stream)[1..] == DtsOf(ps[1..], stream);
        assert DtsOf(out, stream) == [out[0].dts] + DtsOf(out[1..], stream);
      } else {
        assert DtsOf(ps, stream) == DtsOf(ps[1..], stream);
        assert DtsOf(out, stream) == DtsOf(out[1..], stream);
      }
    }
  }

  /** Whatever order the streams are interleaved in, each stream's written DTS are the least strictly
      increasing sequence at or above its incoming ones. */
  lemma WrittenDtsIsLeast(ps: seq<Packet>, stream: int)
    ensures IsLeastAbove(DtsOf(BumpAll(map[], ps), stream), DtsOf(ps, stream))
  {
    var input := DtsOf(ps, stream);
    var floor := Floor(map[], stream, input);
    StreamIsChain(map[], ps, stream);
    ChainIsSound(floor, input);
    forall s | StrictlyIncreasing(s) && Dominates(s, input)
      ensures Dominates(s, Chain(floor, input))
    {
      ChainIsLeast(floor, input, s);
    }
  }

  /** Two interleavings that agree on a stream write the same DTS to it. */
  lemma InterleavingDoesNotMatter(ps: seq<Packet>, qs: seq<Packet>, stream: int)
    requires DtsOf(ps, stream) == DtsOf(qs, stream)
    ensures DtsOf(BumpAll(map[], ps), stream) == DtsOf(BumpAll(map[], qs), stream)
  {
    StreamIsChain(map[], ps, stream);
    StreamIsChain(map[], qs, stream);
  }

  /** Order, stream and payload are untouched, no timestamp goes back, and PTS >= DTS is preserved. */
  lemma {:induction false} BumpOnlyRaises(last: map<int, int>, ps: seq<Packet>)
    ensures var out := BumpAll(last, ps);
            && |out| == |ps|
            && forall i :: 0 <= i < |ps| ==>
                 && out[i].stream == ps[i].stream && out[i].payload == ps[i].payload
                 && out[i].dts >= ps[i].dts && out[i].pts >= ps[i].pts
                 && (out[i].dts == ps[i].dts ==> out[i] == ps[i])
                 && (ps[i].pts >= ps[i].dts ==> out[i].pts >= out[i].dts)
    decreases |ps|
  {
    if ps != [] { BumpOnlyRaises(LastAfter(last, ps[0]), ps[1..]); }
  }
}
