// The audio ring and the player that feeds it, playback/audioplayer.cpp. Amplitude ramps are not modelled.
module AudioPlayer {
  import opened AudioLedger
  import opened Basics

  function Zeros(n: nat): Bytes { seq(n, _ => 0) }

  // The newest cap bytes.
  function Newest(buf: Bytes, cap: nat): (r: Bytes)
    ensures |r| == Min(|buf|, cap)
  {
    if |buf| > cap then buf[|buf| - cap..] else buf
  }

  class AudioRingBuffer {
    const maxBufBytes: nat
    var buf: Bytes
    var underrunDebt: nat
    var streamActive: bool
    var overflowed: bool
    ghost var played: int   // bytes given to the device so far

    constructor (maxBufBytes: nat)
      ensures this.maxBufBytes == maxBufBytes
      ensures buf == [] && underrunDebt == 0 && !streamActive && !overflowed && played == 0
    {
      this.maxBufBytes := maxBufBytes;
      buf, underrunDebt, streamActive, overflowed, played := [], 0, false, false, 0;
    }

    method Push(data: Bytes)
      modifies this`buf, this`streamActive, this`overflowed
      ensures buf == if |data| == 0 then old(buf) else Newest(old(buf) + data, maxBufBytes)
      ensures streamActive == (old(streamActive) || |data| > 0)
      ensures overflowed == (old(overflowed) || (|data| > 0 && |old(buf)| + |data| > maxBufBytes))
    {
      if |data| == 0 { return; }
      buf := buf + data;
      streamActive := true;
      if |buf| > maxBufBytes {
        buf := buf[|buf| - maxBufBytes..];
        overflowed := true;
      }
    }

    method Clear()
      modifies this`buf, this`underrunDebt, this`streamActive, this`overflowed
      ensures buf == [] && underrunDebt == 0 && !streamActive && !overflowed
    {
      buf, underrunDebt, streamActive, overflowed := [], 0, false, false;
    }

    // 240 frames are kept; a frame is two bytes a channel.
    method FadeOutAndClear(bytesPerFrame: nat)
      modifies this`buf, this`underrunDebt, this`streamActive, this`overflowed
      ensures underrunDebt == 0 && !streamActive && !overflowed
      ensures buf == old(buf)[..Min(|old(buf)|, 240 * bytesPerFrame)]
    {
      underrunDebt, streamActive, overflowed := 0, false, false;
      if buf == [] { return; }
      var fadeBytes := 240 * bytesPerFrame;
      if |buf| > fadeBytes {
        buf := buf[..fadeBytes];
      }
    }

    method TakeUnderrunDebt() returns (debt: nat)
      modifies this`underrunDebt
      ensures debt == old(underrunDebt) && underrunDebt == 0
    {
      debt := underrunDebt;
      underrunDebt := 0;
    }

    method AddUnderrunDebt(bytes: int)
      modifies this`underrunDebt
      ensures underrunDebt == if bytes <= 0 then old(underrunDebt) else Min(old(underrunDebt) + bytes, maxBufBytes)
    {
      if bytes <= 0 { return; }
      underrunDebt := underrunDebt + bytes;
      if underrunDebt > maxBufBytes {
        underrunDebt := maxBufBytes;
      }
    }

    method TakeOverflowed() returns (f: bool)
      modifies this`overflowed
      ensures f == old(overflowed) && !overflowed
    {
      f := overflowed;
      overflowed := false;
    }

    /** Always the full request: what is held, then silence, which is owed while a stream is active. */
    method ReadData(maxSize: nat) returns (data: Bytes)
      modifies this`buf, this`underrunDebt, this`played
      ensures var toRead := Min(maxSize, |old(buf)|);
              && data == old(buf)[..toRead] + Zeros(maxSize - toRead)
              && buf == old(buf)[toRead..]
              && underrunDebt == if toRead < maxSize && streamActive
                                 then Min(old(underrunDebt) + maxSize - toRead, maxBufBytes)
                                 else old(underrunDebt)
      ensures played == old(played) + maxSize
    {
      var toRead := Min(maxSize, |buf|);
      data := buf[..toRead] + Zeros(maxSize - toRead);
      buf := buf[toRead..];
      if toRead < maxSize && streamActive {
        underrunDebt := underrunDebt + (maxSize - toRead);
        if underrunDebt > maxBufBytes {
          underrunDebt := maxBufBytes;
        }
      }
      played := played + maxSize;
    }
  }

  // What the ring holds after an undisturbed push: the silence, then the payload less the debt.
  function Pushed(buf: Bytes, payload: Bytes, silence: nat, debt: nat, cap: nat): Bytes {
    Newest(Newest(buf + Zeros(silence), cap) + payload[Min(debt, |payload|)..], cap)
  }

  lemma NothingPushed(buf: Bytes, debt: nat, cap: nat)
    requires |buf| <= cap
    ensures Pushed(buf, [], 0, debt, cap) == buf
  {
    assert buf + Zeros(0) == buf && buf + [] == buf;
  }

  // The ring's new bytes: some silence, then the end of the chunk's whole frames less the debt.
  ghost predicate PushedFrom(data: Bytes, end: int, d: Decision, before: Bytes, after: Bytes, cap: nat)
    requires d.player.debt >= 0
  {
    && 0 <= d.payload <= end <= |data|
    && after == Pushed(before, data[end - d.payload..end], d.silence, d.player.debt, cap)
  }

  /** Of the old bytes, the silence and the payload behind the debt, the ring keeps the end, as much as fits. */
  lemma PushedIsTheEnd(buf: Bytes, payload: Bytes, silence: nat, debt: nat, cap: nat)
    ensures var all := buf + Zeros(silence) + payload[Min(debt, |payload|)..];
            Pushed(buf, payload, silence, debt, cap) == all[Excess(|all|, cap)..]
  {
    var head := buf + Zeros(silence);
    var rest := payload[Min(debt, |payload|)..];
    var lost := Excess(|head|, cap);
    assert head[lost..] + rest == (head + rest)[lost..];
  }

  // How long the ring would be, without a cap, behind a chunk of end bytes whose shift and debt are given in bytes.
  function Length(before: Bytes, end: nat, shift: int, debt: nat): (n: nat)
    ensures n >= |before|
  {
    |before| + Max(0, shift) + Max(0, end - Max(0, -shift) - debt)
  }

  // What a push puts q bytes behind the ring's old head: the old byte, then silence, then byte j of the chunk where
  // shift + j is reached, sooner by the debt, whose bytes are skipped at the head.
  function Laid(before: Bytes, data: Bytes, end: nat, shift: int, debt: nat, q: nat): Byte
    requires end <= |data| && q < Length(before, end, shift, debt)
  {
    if q < |before| then before[q]
    else if q < |before| + Max(0, shift) then 0
    else data[q - |before| - shift + debt]
  }

  // The ring after a push: of all that, the end, as much as the cap allows.
  ghost predicate Lies(before: Bytes, after: Bytes, data: Bytes, end: nat, shift: int, debt: nat, cap: nat)
    requires end <= |data|
  {
    var lost := Excess(Length(before, end, shift, debt), cap);
    && |after| == Length(before, end, shift, debt) - lost
    && forall i :: 0 <= i < |after| ==> after[i] == Laid(before, data, end, shift, debt, lost + i)
  }

  // What is left of the chunk once its head is cut and the debt skipped.
  lemma RestIsTheEnd(data: Bytes, end: nat, shift: int, debt: nat, tail: Bytes, rest: Bytes)
    requires end <= |data|
    requires var payload := Max(0, end + Min(0, shift));
             tail == data[end - payload..end] && rest == tail[Min(debt, payload)..]
    ensures |rest| == Max(0, end - Max(0, -shift) - debt)
    ensures forall k :: 0 <= k < |rest| ==> rest[k] == data[Max(0, -shift) + debt + k]
  {
    var payload := Max(0, end + Min(0, shift));
    forall k | 0 <= k < |rest| ensures rest[k] == data[Max(0, -shift) + debt + k] {
      assert rest[k] == tail[debt + k];
      assert tail[debt + k] == data[end - payload + debt + k];
    }
  }

  // Three parts behind one another, the middle one silent.
  lemma PartsAreLaid(before: Bytes, data: Bytes, end: nat, shift: int, debt: nat, rest: Bytes, q: nat)
    requires end <= |data|
    requires |rest| == Max(0, end - Max(0, -shift) - debt)
    requires forall k :: 0 <= k < |rest| ==> rest[k] == data[Max(0, -shift) + debt + k]
    requires q < |before| + Max(0, shift) + |rest|
    ensures (before + Zeros(Max(0, shift)) + rest)[q] == Laid(before, data, end, shift, debt, q)
  {
    var silence := Zeros(Max(0, shift));
    var head := before + silence;
    if q < |before| {
      assert (head + rest)[q] == head[q] == before[q];
    } else if q < |head| {
      assert (head + rest)[q] == head[q] == silence[q - |before|];
    } else {
      assert (head + rest)[q] == rest[q - |head|];
      assert q - |before| - shift + debt == Max(0, -shift) + debt + (q - |head|);
    }
  }

  lemma EndOfPartsLies(before: Bytes, data: Bytes, end: nat, shift: int, debt: nat, cap: nat, rest: Bytes, all: Bytes,
                       after: Bytes)
    requires end <= |data|
    requires |rest| == Max(0, end - Max(0, -shift) - debt)
    requires forall k :: 0 <= k < |rest| ==> rest[k] == data[Max(0, -shift) + debt + k]
    requires all == before + Zeros(Max(0, shift)) + rest && after == all[Excess(|all|, cap)..]
    ensures Lies(before, after, data, end, shift, debt, cap)
  {
    var lost := Excess(|all|, cap);
    forall i | 0 <= i < |after| ensures after[i] == Laid(before, data, end, shift, debt, lost + i) {
      PartsAreLaid(before, data, end, shift, debt, rest, lost + i);
      assert after[i] == all[lost + i];
    }
  }

  lemma PushedLies(before: Bytes, data: Bytes, end: nat, shift: int, debt: nat, cap: nat, tail: Bytes)
    requires end <= |data| && tail == data[end - Max(0, end + Min(0, shift))..end]
    ensures Lies(before, Pushed(before, tail, Max(0, shift), debt, cap), data, end, shift, debt, cap)
  {
    var rest := tail[Min(debt, |tail|)..];
    var all := before + Zeros(Max(0, shift)) + rest;
    var after := Pushed(before, tail, Max(0, shift), debt, cap);
    PushedIsTheEnd(before, tail, Max(0, shift), debt, cap);
    RestIsTheEnd(data, end, shift, debt, tail, rest);
    EndOfPartsLies(before, data, end, shift, debt, cap, rest, all, after);
  }

  lemma FramesFit(c: Chunk, f: Format)
    requires f.Valid() && c.bytes >= 0
    ensures 0 <= c.Frames(f) * f.bytesPerFrame <= c.bytes
  {
  }

  lemma ScaleMax(shift: int, frames: int, m: nat)
    ensures Max(0, shift) * m == Max(0, shift * m)
    ensures Max(0, frames + Min(0, shift)) * m == Max(0, frames * m + Min(0, shift * m))
  {
    Times(frames, shift, m);
  }

  // The shift of a push in bytes, from the chunk's times, the stream's state and the end of the chunk before it.
  function ShiftBytes(p: Player, c: Chunk, f: Format): int {
    ShiftOf(c, !p.aligned || p.overflowed || Abs(c.pts - c.due) > c.resync, p.expected, f) * f.bytesPerFrame
  }

  /** Every byte a push leaves in the ring is where its chunk's shift puts it. */
  lemma PushLands(p: Player, c: Chunk, f: Format, data: Bytes, before: Bytes, after: Bytes)
    requires f.Valid() && Heard(p, c, f) && p.debt >= 0 && c.bytes == |data|
    requires PushedFrom(data, c.Frames(f) * f.bytesPerFrame, Decide(p, c, f), before, after, f.cap)
    ensures Lies(before, after, data, c.Frames(f) * f.bytesPerFrame, ShiftBytes(p, c, f), p.debt, f.cap)
  {
    var d, end, shift := Decide(p, c, f), c.Frames(f) * f.bytesPerFrame, ShiftBytes(p, c, f);
    PushDecides(p, c, f);
    var tail := data[end - d.payload..end];
    PushedLies(before, data, end, shift, p.debt, f.cap, tail);
  }

  lemma PushDecides(p: Player, c: Chunk, f: Format)
    requires f.Valid() && Heard(p, c, f)
    ensures var d, shift := Decide(p, c, f), ShiftBytes(p, c, f);
            && d.silence == Max(0, shift) && d.player.debt == p.debt
            && d.payload == Max(0, c.Frames(f) * f.bytesPerFrame + Min(0, shift))
  {
    var shift := ShiftOf(c, !p.aligned || p.overflowed || Abs(c.pts - c.due) > c.resync, p.expected, f);
    PushShifts(p, c, f);
    ScaleMax(shift, c.Frames(f), f.bytesPerFrame);
  }

  lemma PlainPush(before: Bytes, payload: Bytes, silence: nat, cap: nat)
    requires |before| + silence + |payload| <= cap
    ensures Pushed(before, payload, silence, 0, cap) == before + Zeros(silence) + payload
  {
    assert payload[0..] == payload;
  }

  lemma PushIsPlain(data: Bytes, end: int, d: Decision, before: Bytes, after: Bytes, cap: nat)
    requires d.player.debt == 0 && PushedFrom(data, end, d, before, after, cap)
    requires |before| + d.silence + d.payload <= cap
    ensures after == before + Zeros(d.silence) + data[end - d.payload..end]
  {
    var tail := data[end - d.payload..end];
    PlainPush(before, tail, d.silence, cap);
  }

  // With room for the shifted chunk there is room for the decision's silence and payload.
  lemma AlignedPushFits(p: Player, c: Chunk, f: Format)
    requires f.Valid() && Heard(p, c, f) && !p.aligned && -c.Frames(f) < c.pts - c.due <= 2 * f.rate
    ensures var end, shift := c.Frames(f) * f.bytesPerFrame, (c.pts - c.due) * f.bytesPerFrame;
            var d := Decide(p, c, f);
            && d.silence == Max(0, shift) && d.payload == end + Min(0, shift)
            && d.silence + d.payload == end + shift == (c.pts - c.due + c.Frames(f)) * f.bytesPerFrame
            && d.player.debt == p.debt
  {
    PushDecides(p, c, f);
    Times(c.pts - c.due, c.Frames(f), f.bytesPerFrame);
    Positive(c.pts - c.due + c.Frames(f), f.bytesPerFrame);
  }

  /** An aligning push with no debt and room enough: behind what the ring holds come exactly the lead in silence and
      the whole chunk, or the chunk without the frames that are past. */
  lemma AlignedPushIsPlain(p: Player, c: Chunk, f: Format, data: Bytes, before: Bytes, after: Bytes)
    requires f.Valid() && Heard(p, c, f) && p.debt == 0 && c.bytes == |data|
    requires !p.aligned && -c.Frames(f) < c.pts - c.due <= 2 * f.rate
    requires |before| + (c.pts - c.due + c.Frames(f)) * f.bytesPerFrame <= f.cap
    requires PushedFrom(data, c.Frames(f) * f.bytesPerFrame, Decide(p, c, f), before, after, f.cap)
    ensures var end, shift := c.Frames(f) * f.bytesPerFrame, (c.pts - c.due) * f.bytesPerFrame;
            && 0 <= Max(0, -shift) <= end <= |data|
            && after == before + Zeros(Max(0, shift)) + data[Max(0, -shift)..end]
  {
    var end := c.Frames(f) * f.bytesPerFrame;
    AlignedPushFits(p, c, f);
    PushIsPlain(data, end, Decide(p, c, f), before, after, f.cap);
  }

  lemma Positive(a: int, b: int)
    requires a >= 0 && b >= 1
    ensures 0 <= a * b && (a > 0 ==> a * b > 0)
  {
  }

  // The player as the program starts it, 48 kHz stereo (uimanager.cpp:386).
  class AudioPlayer {
    const sampleRate := 48000
    const bytesPerFrame := 4
    const ring: AudioRingBuffer
    var muted: bool
    var aligned: bool
    var expectedNextPtsSamples: int
    var sinkLatencyBytes: nat
    var outputLatencyOffsetMs: nat

    const JITTER_TOL_MS := 30
    const RING_CAP_MS := 500
    const RESYNC_HEADROOM_MS := 250

    ghost predicate Valid()
      reads this, ring
    {
      && Layout().Valid() && |ring.buf| <= ring.maxBufBytes && ring.underrunDebt <= ring.maxBufBytes
    }

    function Layout(): (f: Format) {
      Format(sampleRate, bytesPerFrame, ring.maxBufBytes)
    }

    ghost function View(): Player
      reads this, ring
    {
      Player(ring.played, |ring.buf|, ring.underrunDebt, ring.streamActive, ring.overflowed, muted, aligned,
             expectedNextPtsSamples, Idle)
    }

    constructor (sinkLatencyBytes: nat)
      ensures Valid() && fresh(ring) && Initial(State(View(), NO_BOOKS))
      ensures ring.maxBufBytes == sampleRate * bytesPerFrame * RING_CAP_MS / 1000
    {
      this.sinkLatencyBytes := sinkLatencyBytes;
      muted, aligned, expectedNextPtsSamples, outputLatencyOffsetMs := true, false, 0, 0;
      ring := new AudioRingBuffer(96000);
    }

    // What a push computes from its times and the output's latency.
    function ChunkAt(numBytes: int, ptsMs: int, masterTimeMs: int): (c: Chunk)
      requires Layout().Valid()
      reads this
      ensures c.bytes == numBytes && c.pts == 48 * ptsMs
      ensures c.due == 48 * (masterTimeMs + outputLatencyOffsetMs) + sinkLatencyBytes / 4
      ensures c.resync == 48 * (250 + outputLatencyOffsetMs)
    {
      var latencyBytes := sinkLatencyBytes + DivTrunc(outputLatencyOffsetMs * (sampleRate * bytesPerFrame), 1000);
      Chunk(numBytes,
            DivTrunc(ptsMs * sampleRate, 1000),
            DivTrunc(masterTimeMs * sampleRate, 1000) + DivTrunc(latencyBytes, bytesPerFrame),
            DivTrunc((RESYNC_HEADROOM_MS + outputLatencyOffsetMs) * sampleRate, 1000))
    }

    /** A whole push, while the device does not read. */
    method PushSamples(data: Bytes, ptsMs: int, masterTimeMs: int)
      requires Valid()
      modifies this`aligned, this`expectedNextPtsSamples, ring`buf, ring`underrunDebt, ring`streamActive, ring`overflowed
      ensures Valid()
      ensures View() == DoPush(old(View()), old(ChunkAt(|data|, ptsMs, masterTimeMs)), Layout())
      ensures var c := old(ChunkAt(|data|, ptsMs, masterTimeMs));
              PushedFrom(data, c.Frames(Layout()) * bytesPerFrame, Decide(old(View()), c, Layout()),
                         old(ring.buf), ring.buf, ring.maxBufBytes)
      ensures var c := old(ChunkAt(|data|, ptsMs, masterTimeMs));
              Heard(old(View()), c, Layout()) ==>
                Lies(old(ring.buf), ring.buf, data, c.Frames(Layout()) * bytesPerFrame,
                     ShiftBytes(old(View()), c, Layout()), old(ring.underrunDebt), ring.maxBufBytes)
    {
      var c := ChunkAt(|data|, ptsMs, masterTimeMs);
      ghost var p, before := View(), ring.buf;
      ghost var d := PushChunk(data, c);
      FinishIsRepaid(d, Layout());
      if Heard(p, c, Layout()) {
        PushLands(p, c, Layout(), data, before, ring.buf);
      }
    }

    // The decisions, then what they leave to do with the end of the chunk's whole frames.
    method PushChunk(data: Bytes, c: Chunk) returns (ghost d: Decision)
      requires Valid() && c.bytes == |data|
      modifies this`aligned, this`expectedNextPtsSamples, ring`buf, ring`underrunDebt, ring`streamActive, ring`overflowed
      ensures Valid() && d == Decide(old(View()), c, Layout())
      ensures d.player.debt >= 0 && d.player.pc.Idle? && (d.payload == 0 ==> d.silence == 0)
      ensures View() == Finished(d, Layout())
      ensures PushedFrom(data, c.Frames(Layout()) * bytesPerFrame, d, old(ring.buf), ring.buf, ring.maxBufBytes)
    {
      var end := c.Frames(Layout()) * bytesPerFrame;
      FramesFit(c, Layout());
      var silence, payload := BeginPush(c);
      var tail := data[end - payload..end];
      d := Decision(View(), silence, |tail|);
      FinishPush(tail, silence);
    }

    // The decisions of a push: how much silence to put in front, and how much of the chunk's end to carry.
    method BeginPush(c: Chunk) returns (silence: nat, payload: nat)
      requires Valid()
      modifies this`aligned, this`expectedNextPtsSamples, ring`overflowed
      ensures Valid() && Decision(View(), silence, payload) == Decide(old(View()), c, Layout())
      ensures 0 <= payload <= c.Frames(Layout()) * bytesPerFrame && (payload == 0 ==> silence == 0)
    {
      silence, payload := 0, 0;
      if muted || c.bytes <= 0 { return; }
      var overflow := ring.TakeOverflowed();
      if overflow {
        aligned := false;
      }
      var nFrames := c.bytes / bytesPerFrame;
      if nFrames <= 0 { return; }
      if aligned && Abs(c.pts - c.due) > c.resync {
        aligned := false;
      }
      if !aligned {
        silence, payload := Align(c, nFrames);
      } else {
        silence, payload := Continue(c, nFrames);
      }
    }

    method Align(c: Chunk, nFrames: int) returns (silence: nat, payload: nat)
      requires Valid() && nFrames == c.Frames(Layout()) > 0 && !aligned && !ring.overflowed
      modifies this`aligned, this`expectedNextPtsSamples
      ensures Decision(View(), silence, payload) == AudioLedger.Align(old(View()), c, Layout())
      ensures 0 <= payload <= nFrames * bytesPerFrame && (payload == 0 ==> silence == 0)
    {
      silence, payload := 0, 0;
      var lead := c.pts - c.due;
      if lead + nFrames <= 0 { return; }
      Times(nFrames, lead, bytesPerFrame);
      Positive(nFrames, bytesPerFrame);
      payload := nFrames * bytesPerFrame;
      if lead > 0 {
        Positive(Min(lead, 2 * sampleRate), bytesPerFrame);
        silence := Min(lead, 2 * sampleRate) * bytesPerFrame;
      } else if lead < 0 {
        Positive(nFrames + lead, bytesPerFrame);
        Positive(-lead, bytesPerFrame);
        payload := payload - (-lead) * bytesPerFrame;
      }
      aligned := true;
      expectedNextPtsSamples := c.pts + nFrames;
    }

    method Continue(c: Chunk, nFrames: int) returns (silence: nat, payload: nat)
      requires Valid() && nFrames == c.Frames(Layout()) > 0
      modifies this`expectedNextPtsSamples
      ensures Decision(View(), silence, payload) == AudioLedger.Continue(old(View()), c, Layout())
      ensures 0 <= payload <= nFrames * bytesPerFrame && (payload == 0 ==> silence == 0)
    {
      silence := 0;
      Positive(nFrames, bytesPerFrame);
      payload := nFrames * bytesPerFrame;
      var delta := c.pts - expectedNextPtsSamples;
      var jitterTol := JITTER_TOL_MS * sampleRate / 1000;
      if delta > jitterTol {
        Positive(Min(delta, 2 * sampleRate), bytesPerFrame);
        silence := Min(delta, 2 * sampleRate) * bytesPerFrame;
      } else if delta < -jitterTol {
        var trimFrames := Min(-delta, nFrames);
        Times(nFrames, trimFrames, bytesPerFrame);
        Positive(trimFrames, bytesPerFrame);
        if trimFrames < nFrames { Positive(nFrames - trimFrames, bytesPerFrame); }
        payload := payload - trimFrames * bytesPerFrame;
      }
      expectedNextPtsSamples := c.pts + nFrames;
    }

    // The ring's part of a push: the silence, then the payload behind the debt.
    method FinishPush(payload: Bytes, silence: nat)
      requires Valid() && (|payload| == 0 ==> silence == 0)
      modifies ring`buf, ring`underrunDebt, ring`streamActive, ring`overflowed
      ensures Valid()
      ensures View() == Finished(Decision(old(View()), silence, |payload|), Layout())
      ensures ring.buf == Pushed(old(ring.buf), payload, silence, old(ring.underrunDebt), ring.maxBufBytes)
    {
      if |payload| == 0 {
        NothingPushed(ring.buf, ring.underrunDebt, ring.maxBufBytes);
        return;
      }
      PushSilence(silence);
      TakeAndPush(payload);
    }

    method PushSilence(silence: nat)
      requires Valid()
      modifies ring`buf, ring`streamActive, ring`overflowed
      ensures Valid() && View() == DoAppend(old(View()), silence, Layout())
      ensures ring.buf == Newest(old(ring.buf) + Zeros(silence), ring.maxBufBytes)
    {
      if silence > 0 {
        ring.Push(Zeros(silence));
      } else {
        assert ring.buf + Zeros(0) == ring.buf;
      }
    }

    method TakeAndPush(payload: Bytes)
      requires Valid() && |payload| > 0
      modifies ring`buf, ring`underrunDebt, ring`streamActive, ring`overflowed
      ensures Valid() && View() == Repaid(old(View()), |payload|, Layout())
      ensures ring.buf == Newest(old(ring.buf) + payload[Min(old(ring.underrunDebt), |payload|)..], ring.maxBufBytes)
    {
      var debt := ring.TakeUnderrunDebt();
      var drop := Min(debt, |payload|);
      if debt - drop > 0 {
        ring.AddUnderrunDebt(debt - drop);
      }
      var rest := payload[drop..];
      if |rest| == 0 {
        assert ring.buf + rest == ring.buf;
        return;
      }
      ring.Push(rest);
    }

    method Clear()
      requires Valid()
      modifies this`aligned, ring`buf, ring`underrunDebt, ring`streamActive, ring`overflowed
      ensures Valid() && View() == DoClear(old(View()), Layout())
      ensures ring.buf <= old(ring.buf)
    {
      ring.FadeOutAndClear(bytesPerFrame);
      aligned := false;
    }

    method SetMuted(muted: bool)
      requires Valid()
      modifies this`muted, this`aligned, ring`buf, ring`underrunDebt, ring`streamActive, ring`overflowed
      ensures Valid() && View() == DoMute(old(View()), muted, Layout())
      ensures ring.buf <= old(ring.buf)
    {
      var was := this.muted;
      this.muted := muted;
      if muted {
        ring.FadeOutAndClear(bytesPerFrame);
      }
      if was && !muted {
        aligned := false;
        ring.Clear();
      }
    }
  }
}
