// The audio half of a source worker, recorder_engine/streamworker.cpp:673-795: the FIFO as the byte array it
// is, and the cursors the ticks move.
module StreamWorker {
  import opened AudioFifo
  import opened Basics
  import opened StreamAudio

  const BYTES_PER_SAMPLE := 4

  predicate Whole(bytes: Bytes) { |bytes| % BYTES_PER_SAMPLE == 0 }

  function Samples(bytes: Bytes): (s: seq<Sample>)
    requires Whole(bytes)
    ensures BYTES_PER_SAMPLE * |s| == |bytes|
  {
    seq(|bytes| / BYTES_PER_SAMPLE, i requires 0 <= i < |bytes| / BYTES_PER_SAMPLE =>
      Sample(bytes[4 * i], bytes[4 * i + 1], bytes[4 * i + 2], bytes[4 * i + 3]))
  }

  lemma SampleIs(bytes: Bytes, i: nat)
    requires Whole(bytes) && BYTES_PER_SAMPLE * i < |bytes|
    ensures Samples(bytes)[i] == Sample(bytes[4 * i], bytes[4 * i + 1], bytes[4 * i + 2], bytes[4 * i + 3])
  {
  }

  lemma SamplesConcat(a: Bytes, b: Bytes)
    requires Whole(a) && Whole(b)
    ensures Whole(a + b) && Samples(a + b) == Samples(a) + Samples(b)
  {
    forall k | 0 <= k < |Samples(a + b)| ensures Samples(a + b)[k] == (Samples(a) + Samples(b))[k] {
      SampleIs(a + b, k);
      if k < |Samples(a)| { SampleIs(a, k); } else { SampleIs(b, k - |Samples(a)|); }
    }
  }

  lemma SamplesSlice(a: Bytes, from: nat, to: nat)
    requires Whole(a) && from <= to && BYTES_PER_SAMPLE * to <= |a|
    ensures Whole(a[BYTES_PER_SAMPLE * from..BYTES_PER_SAMPLE * to])
    ensures Samples(a[BYTES_PER_SAMPLE * from..BYTES_PER_SAMPLE * to]) == Samples(a)[from..to]
  {
    var slice := a[BYTES_PER_SAMPLE * from..BYTES_PER_SAMPLE * to];
    assert |slice| == BYTES_PER_SAMPLE * (to - from);
    forall k | 0 <= k < to - from ensures Samples(slice)[k] == Samples(a)[from..to][k] {
      SampleIs(slice, k);
      SampleIs(a, from + k);
    }
  }

  lemma SamplesSuffix(a: Bytes, n: nat)
    requires Whole(a) && BYTES_PER_SAMPLE * n <= |a|
    ensures Whole(a[BYTES_PER_SAMPLE * n..]) && Samples(a[BYTES_PER_SAMPLE * n..]) == Samples(a)[n..]
  {
    var count := |a| / BYTES_PER_SAMPLE;
    SamplesSlice(a, n, count);
    assert a[BYTES_PER_SAMPLE * n..BYTES_PER_SAMPLE * count] == a[BYTES_PER_SAMPLE * n..];
    assert Samples(a)[n..count] == Samples(a)[n..];
  }

  lemma SamplesZero(n: nat)
    ensures var z: Bytes := Repeat(BYTES_PER_SAMPLE * n, 0); Whole(z) && Samples(z) == Repeat(n, ZERO)
  {
  }

  lemma ZerosSlice(n: nat, from: nat, to: nat)
    requires from <= to <= n
    ensures var slice := Repeat<Byte>(BYTES_PER_SAMPLE * n, 0)[BYTES_PER_SAMPLE * from..BYTES_PER_SAMPLE * to];
            Whole(slice) && Samples(slice) == Repeat(to - from, ZERO)
  {
    SamplesZero(n);
    SamplesSlice(Repeat(BYTES_PER_SAMPLE * n, 0), from, to);
  }

  // The chunk as the code builds it: a zeroed buffer with n samples, mid copied over the samples from..to.
  function Spliced(n: nat, from: nat, to: nat, mid: Bytes): Bytes
    requires from <= to <= n
  {
    var zeros: Bytes := Repeat(BYTES_PER_SAMPLE * n, 0);
    zeros[BYTES_PER_SAMPLE * 0..BYTES_PER_SAMPLE * from] + mid + zeros[BYTES_PER_SAMPLE * to..BYTES_PER_SAMPLE * n]
  }

  lemma SamplesOfSpliced(n: nat, from: nat, to: nat, mid: Bytes)
    requires from <= to <= n && Whole(mid)
    ensures Whole(Spliced(n, from, to, mid))
    ensures Samples(Spliced(n, from, to, mid)) == Repeat(from, ZERO) + Samples(mid) + Repeat(n - to, ZERO)
  {
    var zeros: Bytes := Repeat(BYTES_PER_SAMPLE * n, 0);
    var head, tail := zeros[BYTES_PER_SAMPLE * 0..BYTES_PER_SAMPLE * from], zeros[BYTES_PER_SAMPLE * to..BYTES_PER_SAMPLE * n];
    ZerosSlice(n, 0, from);
    ZerosSlice(n, to, n);
    SamplesConcat(head, mid);
    SamplesConcat(head + mid, tail);
  }

  lemma OverlapOfSamples(f: Fifo<Sample>, source: int, n: nat, from: int, to: int, mid: seq<Sample>)
    requires f.start >= 0 && from == Max(source, f.start) && to == Min(source + n, f.End()) && from < to
    requires mid == f.items[from - f.start..to - f.start]
    ensures Repeat(from - source, ZERO) + mid + Repeat(n - (to - source), ZERO) == HeardFrom(f, source, n)
  {
    var all := Repeat(from - source, ZERO) + mid + Repeat(n - (to - source), ZERO);
    forall k | 0 <= k < n ensures all[k] == HeardFrom(f, source, n)[k] {
      assert HeardFrom(f, source, n)[k] == Heard(f, source + k);
    }
  }

  lemma SplicedIsHeard(bytes: Bytes, start: int, source: int, n: nat, from: int, to: int, mid: Bytes)
    requires Whole(bytes) && start >= 0 && from == Max(source, start) && from < to
    requires to == Min(source + n, start + |bytes| / BYTES_PER_SAMPLE)
    requires mid == bytes[BYTES_PER_SAMPLE * (from - start)..BYTES_PER_SAMPLE * (to - start)]
    ensures var chunk := Spliced(n, from - source, to - source, mid);
            Whole(chunk) && Samples(chunk) == HeardFrom(Fifo(start, Samples(bytes)), source, n)
  {
    SamplesSlice(bytes, from - start, to - start);
    var samples := Samples(mid);
    OverlapOfSamples(Fifo(start, Samples(bytes)), source, n, from, to, samples);
    SamplesOfSpliced(n, from - source, to - source, mid);
  }

  lemma NothingIsHeard(f: Fifo<Sample>, source: int, n: nat)
    requires f.start < 0 || Min(source + n, f.End()) <= Max(source, f.start)
    ensures HeardFrom(f, source, n) == Repeat(n, ZERO)
  {
    forall k | 0 <= k < n ensures HeardFrom(f, source, n)[k] == ZERO {
      assert HeardFrom(f, source, n)[k] == Heard(f, source + k);
    }
  }

  class StreamWorker {
    const fps: int
    var audioFifo: Bytes
    var audioFifoStartSample: int
    var audioWriteCursor: int
    var audioSourceCursor: int
    var servoTrimSamples: int
    var servoJitterSamples: int

    predicate Valid()
      reads this
    {
      fps >= 1 && Whole(audioFifo) && |audioFifo| <= BYTES_PER_SAMPLE * CAPACITY
    }

    ghost function Buffered(): Fifo<Sample>
      requires Whole(audioFifo)
      reads this
    {
      Fifo(audioFifoStartSample, Samples(audioFifo))
    }

    ghost function View(): Audio
      requires Whole(audioFifo)
      reads this
    {
      Audio(Buffered(), audioWriteCursor, audioSourceCursor, servoTrimSamples, servoJitterSamples)
    }

    constructor (fps: int)
      requires fps >= 1
      ensures Valid() && View() == FRESH && this.fps == fps
    {
      this.fps := fps;
      audioFifo, audioFifoStartSample := [], -1;
      audioWriteCursor, audioSourceCursor := -1, -1;
      servoTrimSamples, servoJitterSamples := 0, 0;
    }

    method EnqueueAudio(startSample: int, data: Bytes, numSamples: int)
      requires Valid() && (numSamples > 0 ==> |data| == BYTES_PER_SAMPLE * numSamples)
      modifies this`audioFifo, this`audioFifoStartSample
      ensures Valid()
      ensures Buffered() == if numSamples <= 0 then old(Buffered())
                            else Enqueue(old(Buffered()), startSample, Samples(data), ZERO)
    {
      if numSamples <= 0 { return; }
      var appended := AppendAudio(startSample, data, numSamples);
      if !appended { return; }
      var maxBytes := SAMPLE_RATE * 10 * BYTES_PER_SAMPLE;
      if |audioFifo| > maxBytes {
        var excess := |audioFifo| - maxBytes;
        SamplesSuffix(audioFifo, excess / BYTES_PER_SAMPLE);
        audioFifo := audioFifo[excess..];
        audioFifoStartSample := audioFifoStartSample + excess / BYTES_PER_SAMPLE;
      }
    }

    // The branches of enqueueAudio up to the cap; false is its early return.
    method AppendAudio(startSample: int, data: Bytes, numSamples: int) returns (appended: bool)
      requires Valid() && numSamples > 0 && |data| == BYTES_PER_SAMPLE * numSamples
      modifies this`audioFifo, this`audioFifoStartSample
      ensures Whole(audioFifo) && Buffered() == Joined(old(Buffered()), startSample, Samples(data), ZERO)
      ensures !appended ==> Buffered() == old(Buffered()) && |audioFifo| == old(|audioFifo|)
    {
      if audioFifoStartSample < 0 || audioFifo == [] {
        if startSample < 0 { return false; }
        SamplesConcat(audioFifo, data);
        audioFifoStartSample := startSample;
        audioFifo := audioFifo + data;
        return true;
      }
      var expected := audioFifoStartSample + |audioFifo| / BYTES_PER_SAMPLE;
      var delta := if startSample < 0 then 0 else startSample - expected;
      var jitterTol := SAMPLE_RATE / 100;
      if -jitterTol <= delta <= jitterTol {
        SamplesConcat(audioFifo, data);
        audioFifo := audioFifo + data;
      } else if delta > 0 {
        var maxFill := SAMPLE_RATE * 10;
        if delta > maxFill {
          audioFifo := [];
          audioFifoStartSample := startSample;
        } else {
          SamplesZero(delta);
          SamplesConcat(audioFifo, Repeat(BYTES_PER_SAMPLE * delta, 0));
          audioFifo := audioFifo + Repeat(BYTES_PER_SAMPLE * delta, 0);
        }
        SamplesConcat(audioFifo, data);
        audioFifo := audioFifo + data;
      } else {
        var drop := -delta;
        if drop >= numSamples { return false; }
        SamplesSuffix(data, drop);
        SamplesConcat(audioFifo, data[drop * BYTES_PER_SAMPLE..]);
        audioFifo := audioFifo + data[drop * BYTES_PER_SAMPLE..];
      }
      return true;
    }

    // Forget the samples before a position, as both kinds of tick do.
    method DropConsumed(to: int)
      requires Valid()
      modifies this`audioFifo, this`audioFifoStartSample
      ensures Valid() && Buffered() == Drop(old(Buffered()), to)
    {
      if audioFifoStartSample >= 0 {
        var dropSamples := to - audioFifoStartSample;
        if dropSamples > 0 {
          var dropBytes := Min(dropSamples * BYTES_PER_SAMPLE, |audioFifo|);
          SamplesSuffix(audioFifo, dropBytes / BYTES_PER_SAMPLE);
          audioFifo := audioFifo[dropBytes..];
          audioFifoStartSample := audioFifoStartSample + dropBytes / BYTES_PER_SAMPLE;
        }
      }
    }

    // The chunk of a mapped tick: zeros, overwritten with what the FIFO has of the stretch.
    method CopyBuffered(srcStart: int, n: nat) returns (chunk: Bytes)
      requires Valid()
      ensures Whole(chunk) && Samples(chunk) == HeardFrom(Buffered(), srcStart, n)
    {
      chunk := Repeat(n * BYTES_PER_SAMPLE, 0);
      SamplesZero(n);
      if audioFifoStartSample >= 0 && audioFifo != [] {
        var fifoStart := audioFifoStartSample;
        var fifoEnd := fifoStart + |audioFifo| / BYTES_PER_SAMPLE;
        var copyFrom := Max(srcStart, fifoStart);
        var copyTo := Min(srcStart + n, fifoEnd);
        if copyTo > copyFrom {
          var mid := audioFifo[BYTES_PER_SAMPLE * (copyFrom - fifoStart)..BYTES_PER_SAMPLE * (copyTo - fifoStart)];
          SplicedIsHeard(audioFifo, fifoStart, srcStart, n, copyFrom, copyTo, mid);
          return Spliced(n, copyFrom - srcStart, copyTo - srcStart, mid);
        }
      }
      NothingIsHeard(Buffered(), srcStart, n);
    }

    /** A tick, with the packet it gives the muxer. */
    method WriteAudioForTick(recordingTimeMs: int, track: int, trimMs: int, jitterMs: int)
      returns (wrote: bool, start: int, chunk: Bytes)
      requires Valid()
      modifies this
      ensures Valid() && Whole(chunk)
      ensures Ticked(View(), if wrote then Some(Packet(start, Samples(chunk))) else None)
              == DoTick(old(View()), Tick(recordingTimeMs, track >= 0, trimMs, jitterMs), fps)
    {
      wrote, start, chunk := false, 0, [];
      var jitterSamples := ToSamples(jitterMs);
      var trimSamples := ToSamples(trimMs);
      var targetEnd := ToSamples(recordingTimeMs);
      if targetEnd <= 0 { return; }

      if track < 0 {
        audioWriteCursor := targetEnd;
        audioSourceCursor := targetEnd - jitterSamples - trimSamples;
        servoTrimSamples := trimSamples;
        servoJitterSamples := jitterSamples;
        DropConsumed(audioSourceCursor);
        return;
      }

      if audioWriteCursor < 0 {
        audioWriteCursor := Max(0, targetEnd - SAMPLE_RATE / fps);
      }
      if targetEnd <= audioWriteCursor { return; }
      start := audioWriteCursor;
      chunk := WriteMapped(Tick(recordingTimeMs, true, trimMs, jitterMs));
      wrote := true;
    }

    // The source position a mapped tick reads from.
    method SyncSource(t: Tick) returns (srcStart: int)
      requires Valid()
      modifies this`audioSourceCursor, this`servoTrimSamples, this`servoJitterSamples
      ensures srcStart == SourceAt(old(View()), t, audioWriteCursor)
      ensures servoTrimSamples == ToSamples(t.trimMs) && servoJitterSamples == ToSamples(t.jitterMs)
    {
      var jitterSamples, trimSamples := ToSamples(t.jitterMs), ToSamples(t.trimMs);
      var nominalSrcStart := audioWriteCursor - jitterSamples - trimSamples;
      if audioSourceCursor < 0 || servoTrimSamples != trimSamples || servoJitterSamples != jitterSamples {
        audioSourceCursor := nominalSrcStart;
        servoTrimSamples := trimSamples;
        servoJitterSamples := jitterSamples;
      }
      srcStart := audioSourceCursor;
    }

    // The rest of a mapped tick, when the write cursor is behind the tick's time.
    method WriteMapped(t: Tick) returns (chunk: Bytes)
      requires Valid() && audioWriteCursor < t.Target()
      modifies this
      ensures Valid() && Whole(chunk)
      ensures View() == DoMux(old(View()), t, old(audioWriteCursor)).audio
      ensures Packet(old(audioWriteCursor), Samples(chunk)) == DoMux(old(View()), t, old(audioWriteCursor)).packet.value
    {
      var n := Min(t.Target() - audioWriteCursor, SAMPLE_RATE);
      var start := audioWriteCursor;
      var srcStart := SyncSource(t);
      chunk := CopyBuffered(srcStart, n);
      DropConsumed(srcStart + n);
      audioSourceCursor := srcStart + n;
      audioWriteCursor := start + n;
    }

    /** One pulse: the operator's trim and the servo's add up, and the tick's time is its frame's. */
    method OnMasterPulse(frameIndex: int, track: int, trimMs: int, servoMs: int, jitterMs: int)
      returns (wrote: bool, start: int, chunk: Bytes)
      requires Valid() && frameIndex >= 0
      modifies this
      ensures Valid() && Whole(chunk)
      ensures Ticked(View(), if wrote then Some(Packet(start, Samples(chunk))) else None)
              == DoTick(old(View()), Tick(frameIndex * 1000 / fps, track >= 0, trimMs + servoMs, jitterMs), fps)
    {
      wrote, start, chunk := WriteAudioForTick(frameIndex * 1000 / fps, track, trimMs + servoMs, jitterMs);
    }
  }
}
