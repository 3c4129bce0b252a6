// Who writes each view's track, and the silence of the views nobody is mapped to,
// recorder_engine/replaymanager.cpp:502-521 and 740-831.
module ViewTracks {
  import AudioFifo
  import opened Basics
  import SlotMap
  import StreamAudio

  const SAMPLE_RATE := AudioFifo.SAMPLE_RATE
  const NONE := -1

  // ------------------------------------------------------------ the view mapping

  // The last view a source is mapped to; every later slot overwrites an earlier one.
  function LastView(slots: seq<int>, source: int): (v: int)
    ensures v == NONE || (0 <= v < |slots| && slots[v] == source)
    ensures forall u :: v < u < |slots| ==> u < 0 || slots[u] != source
    decreases |slots|
  {
    if slots == [] then NONE
    else if slots[|slots| - 1] == source then |slots| - 1
    else LastView(slots[..|slots| - 1], source)
  }

  function Tracks(slots: seq<int>, workers: nat): (t: seq<int>)
    ensures |t| == workers
  {
    seq(workers, s requires 0 <= s < workers => LastView(slots, s))
  }

  predicate Mapped(slots: seq<int>, v: nat) { v < |slots| && slots[v] >= 0 }

  datatype Writer = Blue | Worker(source: nat)

  predicate Writes(slots: seq<int>, workers: nat, w: Writer, v: nat) {
    match w
    case Blue => !Mapped(slots, v)
    case Worker(s) => s < workers && Tracks(slots, workers)[s] == v
  }

  ghost predicate HasOneWriter(slots: seq<int>, workers: nat, v: nat) {
    exists w :: Writes(slots, workers, w, v) && forall u :: Writes(slots, workers, u, v) ==> u == w
  }

  predicate Injective(slots: seq<int>) {
    forall u, v :: 0 <= u < v < |slots| && slots[u] == slots[v] ==> slots[u] < 0
  }

  /** Under a mapping that shows no source twice, a view's track has exactly one writer, if and only if the
      source in its slot has a worker. */
  lemma OneWriterIff(slots: seq<int>, workers: nat, v: nat)
    requires Injective(slots)
    ensures HasOneWriter(slots, workers, v) <==> (v < |slots| ==> slots[v] < workers)
  {
    if Mapped(slots, v) {
      if slots[v] < workers {
        assert LastView(slots, slots[v]) == v;
        assert Writes(slots, workers, Worker(slots[v]), v);
      }
      assert forall w :: Writes(slots, workers, w, v) ==> w == Worker(slots[v]);
    } else {
      assert Writes(slots, workers, Blue, v);
      assert forall w :: Writes(slots, workers, w, v) ==> w == Blue;
    }
  }

  /** So while every source has a worker, the slot maps of the UI give every track exactly one writer. */
  lemma GoodMapHasOneWriter(slots: seq<int>, enabled: seq<bool>, n: nat, workers: nat, v: nat)
    requires SlotMap.Good(slots, enabled, n) && n <= workers
    ensures HasOneWriter(slots, workers, v)
  {
    OneWriterIff(slots, workers, v);
  }

  // ------------------------------------------------------------- silence cursors

  datatype Silence = Silence(at: int, count: int) {
    function End(): int { at + count }
  }

  datatype Step = Step(cursor: int, silence: Option<Silence>)

  // The recording time of a frame, in samples.
  function Target(frame: int, fps: int): int
    requires fps >= 1
  {
    StreamAudio.ToSamples(frame * 1000 / fps)
  }

  function SilenceFrom(cursor: int, target: int, fps: int): int
    requires fps >= 1
  {
    if cursor < 0 then Max(0, target - SAMPLE_RATE / fps) else cursor
  }

  // One pulse of one view: a mapped view forgets its cursor, the others are filled up to the frame's time.
  function SilenceStep(cursor: int, mapped: bool, target: int, fps: int): Step
    requires fps >= 1
  {
    if mapped then Step(NONE, None)
    else if target <= 0 then Step(cursor, None)
    else
      var from := SilenceFrom(cursor, target, fps);
      if target <= from then Step(from, None)
      else
        var n := Min(target - from, SAMPLE_RATE);
        Step(from + n, Some(Silence(from, n)))
  }

  /** From silence to a source that was ticked while unmapped: with the silence caught up, the source's first
      packet starts at the very sample the silence ends at, whatever the source has buffered. */
  lemma SilenceToSourceIsExact(s: StreamAudio.Audio, frame: int, next: int, fps: int,
                               t: StreamAudio.Tick, u: StreamAudio.Tick, fifo: AudioFifo.Fifo<StreamAudio.Sample>,
                               cursor: int)
    requires fps >= 1 && Target(frame, fps) > 0
    requires t.recMs == frame * 1000 / fps && !t.mapped && u.recMs == next * 1000 / fps && u.mapped
    requires SilenceStep(cursor, false, Target(frame, fps), fps).cursor == Target(frame, fps)
    ensures var s1 := StreamAudio.DoTick(s, t, fps).audio.(fifo := fifo);
            var p := StreamAudio.DoTick(s1, u, fps).packet;
            && (p.Some? <==> Target(next, fps) > Target(frame, fps))
            && (p.Some? ==> p.value.at == SilenceStep(cursor, false, Target(frame, fps), fps).cursor)
  {
  }

  // Where silence starts at a frame, less where a source caught up at the frame before has ended.
  function HandoverError(frame: nat, fps: int): int
    requires fps >= 1
  {
    SilenceFrom(NONE, Target(frame + 1, fps), fps) - Target(frame, fps)
  }

  lemma Distribute(r0: int, r1: int, g: int, d: int)
    ensures (48 * r1 - g - 48 * r0) * d == 48 * (r1 * d) - g * d - 48 * (r0 * d)
  {
    assert (48 * r1 - g - 48 * r0) * d == (48 * r1) * d - g * d - (48 * r0) * d;
  }

  // Rounding down three times costs less than 48 samples one way and 49 the other.
  lemma RoundingError(r0: int, r1: int, g: int, a: int, d: int)
    requires d > 0 && r0 * d <= a < r0 * d + d && r1 * d <= a + 1000 < r1 * d + d
    requires g * d <= SAMPLE_RATE < g * d + d
    ensures -48 < 48 * r1 - g - 48 * r0 < 49
  {
    Distribute(r0, r1, g, d);
    MulLess(48 * r1 - g - 48 * r0, 49, d);
    MulLess(-48, 48 * r1 - g - 48 * r0, d);
  }

  /** From a source to silence: never an overlap of more than 47 samples, nor a hole of more than 48, at any
      whole frame rate. */
  lemma SourceToSilenceError(frame: nat, fps: int)
    requires fps >= 1
    ensures -47 <= HandoverError(frame, fps) <= 48
  {
    var r0 := Quotient(frame * 1000, fps);
    var r1 := Quotient((frame + 1) * 1000, fps);
    var g := Quotient(SAMPLE_RATE, fps);
    RoundingError(r0, r1, g, frame * 1000, fps);
    MulLess(-1, r0, fps);
    HandoverIs(frame, fps, r0, r1, g);
  }

  lemma Quotient(a: int, d: int) returns (q: int)
    requires d > 0
    ensures q == a / d && q * d <= a < q * d + d
  {
    q := a / d;
  }

  lemma HandoverIs(frame: nat, fps: int, r0: int, r1: int, g: int)
    requires fps >= 1 && r0 == frame * 1000 / fps && r1 == (frame + 1) * 1000 / fps && g == SAMPLE_RATE / fps
    ensures HandoverError(frame, fps) == Max(0, 48 * r1 - g) - 48 * r0
  {
  }

  /** The same in terms of the steps themselves: a source whose last packet reached its frame's time, and the
      first silence of the next frame. */
  lemma SourceToSilence(s: StreamAudio.Audio, frame: nat, fps: int)
    requires fps >= 1 && s.write == Target(frame, fps) && Target(frame + 1, fps) > 0
    ensures var step := SilenceStep(NONE, false, Target(frame + 1, fps), fps);
            step.silence.Some? ==> -47 <= step.silence.value.at - s.write <= 48
  {
    SourceToSilenceError(frame, fps);
  }

  // An exact hand-over past the start means that the frame's time grows by the length of a frame.
  lemma ExactStep(frame: nat, fps: int, g: int)
    requires fps >= 1 && g == SAMPLE_RATE / fps && g >= 0
    requires HandoverError(frame, fps) == 0 && Target(frame, fps) > 0
    ensures Target(frame + 1, fps) == Target(frame, fps) + g
  {
  }

  lemma {:induction false} ExactSteps(fps: int, k: nat, g: int)
    requires fps >= 1 && g == SAMPLE_RATE / fps && g >= 0
    requires forall frame: nat :: HandoverError(frame, fps) == 0
    ensures Target(fps + k, fps) == SAMPLE_RATE + k * g
  {
    if k == 0 {
      DivExact(1000, fps);
    } else {
      ExactSteps(fps, k - 1, g);
      assert (k - 1) * g >= 0;
      ExactStep(fps + k - 1, fps, g);
      assert k * g == (k - 1) * g + g;
    }
  }

  lemma WholeFrames(fps: int, q: int, frame: nat)
    requires fps >= 1 && fps * q == 1000
    ensures HandoverError(frame, fps) == 0
  {
    assert frame * 1000 == (frame * q) * fps && (frame + 1) * 1000 == ((frame + 1) * q) * fps;
    DivExact(frame * q, fps);
    DivExact((frame + 1) * q, fps);
    assert SAMPLE_RATE == (48 * q) * fps;
    DivExact(48 * q, fps);
    assert (frame + 1) * q == frame * q + q;
    MulLess(-1, q, fps);
    MulMono(0, frame, q);
    HandoverIs(frame, fps, frame * q, (frame + 1) * q, 48 * q);
  }

  // A period of frames after the first lasts exactly a second, so its equal frames divide the second.
  lemma ExactIsWhole(fps: int)
    requires fps >= 1 && forall frame: nat :: HandoverError(frame, fps) == 0
    ensures 1000 % fps == 0
  {
    var g := SAMPLE_RATE / fps;
    DivAtLeast(SAMPLE_RATE, fps, 0);
    ExactSteps(fps, fps, g);
    DivExact(2000, fps);
    assert (fps + fps) * 1000 == 2000 * fps;
    assert fps * g == SAMPLE_RATE;
    ExactSteps(fps, 1, g);
    var x := (fps + 1) * 1000 / fps - 1000;
    assert 48 * x == g;
    assert 48 * (x * fps) == fps * g;
    assert x * fps == 1000;
    DivExact(x, fps);
    assert 1000 == x * fps + 0;
    RemainderIsZero(x, fps);
  }

  lemma RemainderIsZero(x: int, d: int)
    requires d > 0
    ensures x * d % d == 0
  {
    DivExact(x, d);
    assert x * d == x * d / d * d + x * d % d;
  }

  /** That handover is exact at every frame if and only if a frame lasts a whole number of milliseconds. */
  lemma SourceToSilenceIsExactIff(fps: int)
    requires fps >= 1
    ensures (forall frame: nat :: HandoverError(frame, fps) == 0) <==> 1000 % fps == 0
  {
    if forall frame: nat :: HandoverError(frame, fps) == 0 {
      ExactIsWhole(fps);
    }
    if 1000 % fps == 0 {
      var q := 1000 / fps;
      assert fps * q == 1000;
      forall frame: nat ensures HandoverError(frame, fps) == 0 {
        WholeFrames(fps, q, frame);
      }
    }
  }

  /** At 30 frames a second the hand-over both overlaps and leaves a hole. */
  lemma ThirtyFramesASecond()
    ensures HandoverError(1, 30) == -16 && HandoverError(2, 30) == 32
  {
  }

  // --------------------------------------------------------- a view over pulses

  datatype Pulse = Pulse(mapped: bool, target: int)
  datatype SilenceRan = SilenceRan(cursor: int, written: seq<Silence>)

  function SilenceRun(cursor: int, pulses: seq<Pulse>, fps: int): SilenceRan
    requires fps >= 1
    decreases |pulses|
  {
    if pulses == [] then SilenceRan(cursor, [])
    else
      var last := pulses[|pulses| - 1];
      var r := SilenceRun(cursor, pulses[..|pulses| - 1], fps);
      var step := SilenceStep(r.cursor, last.mapped, last.target, fps);
      SilenceRan(step.cursor, if step.silence.Some? then r.written + [step.silence.value] else r.written)
  }

  // The silences fill from..to without a hole, none longer than a second.
  predicate Fill(written: seq<Silence>, from: int, to: int)
    decreases |written|
  {
    if written == [] then from == to
    else
      var last := written[|written| - 1];
      last.End() == to && 0 < last.count <= SAMPLE_RATE && Fill(written[..|written| - 1], from, last.at)
  }

  /** While a view stays unmapped its silences abut, from the cursor it had to the cursor it has, and never pass the
      time of every pulse. */
  lemma {:induction false} SilencesAbut(cursor: nat, pulses: seq<Pulse>, fps: int, latest: int)
    requires fps >= 1 && forall i :: 0 <= i < |pulses| ==> !pulses[i].mapped && pulses[i].target <= latest
    ensures var r := SilenceRun(cursor, pulses, fps);
            cursor <= r.cursor <= Max(cursor, latest) && Fill(r.written, cursor, r.cursor)
    decreases |pulses|
  {
    if pulses != [] {
      var before, last := pulses[..|pulses| - 1], pulses[|pulses| - 1];
      SilencesAbut(cursor, before, fps, latest);
      var r := SilenceRun(cursor, before, fps);
      var step := SilenceStep(r.cursor, false, last.target, fps);
      if step.silence.Some? {
        assert (r.written + [step.silence.value])[..|r.written|] == r.written;
      }
    }
  }

  /** A view behind catches up by exactly a second a pulse, until nothing is left. */
  lemma {:induction false} SilenceCatchesUp(cursor: nat, target: nat, fps: int, n: nat)
    requires fps >= 1 && cursor <= target
    ensures SilenceRun(cursor, seq(n, _ => Pulse(false, target)), fps).cursor == Min(target, cursor + n * SAMPLE_RATE)
    decreases n
  {
    if n > 0 {
      var pulses := seq(n, _ => Pulse(false, target));
      assert pulses[..n - 1] == seq(n - 1, _ => Pulse(false, target));
      SilenceCatchesUp(cursor, target, fps, n - 1);
    }
  }

  /** A mapped pulse writes no silence, and the next one starts a frame before its pulse's time, wherever the last
      ended. */
  lemma MappedPulseForgets(cursor: int, first: int, next: int, fps: int)
    requires fps >= 1
    ensures var mapped := SilenceStep(cursor, true, first, fps);
            var unmapped := SilenceStep(mapped.cursor, false, next, fps);
            && mapped.silence.None?
            && (unmapped.silence.Some? ==>
                  && unmapped.silence.value.at == Max(0, next - SAMPLE_RATE / fps)
                  && unmapped.silence.value.End() == Min(next, unmapped.silence.value.at + SAMPLE_RATE))
            && (unmapped.silence.None? <==> next <= 0 || fps > SAMPLE_RATE)
  {
    DivBounds(SAMPLE_RATE, fps);
    if fps <= SAMPLE_RATE {
      DivAtLeast(SAMPLE_RATE, fps, 1);
    } else {
      DivAtMost(SAMPLE_RATE, fps, 0);
    }
  }

  // ------------------------------------------------------------------ the object

  datatype SilencePacket = SilencePacket(view: nat, silence: Silence)

  // One pulse of the views from v on: the blue pictures and the silence they write, in view order.
  function Pictures(slots: seq<int>, views: nat, v: nat): seq<nat>
    requires v <= views
    decreases views - v
  {
    if v == views then []
    else (if Mapped(slots, v) then [] else [v]) + Pictures(slots, views, v + 1)
  }

  function SilenceOf(slots: seq<int>, cursors: seq<int>, v: nat, target: int, fps: int): seq<SilencePacket>
    requires fps >= 1
  {
    if v >= |cursors| then []
    else
      var s := SilenceStep(cursors[v], Mapped(slots, v), target, fps).silence;
      if s.Some? then [SilencePacket(v, s.value)] else []
  }

  function Silences(slots: seq<int>, cursors: seq<int>, views: nat, v: nat, target: int, fps: int): seq<SilencePacket>
    requires fps >= 1 && v <= views
    decreases views - v
  {
    if v == views then []
    else SilenceOf(slots, cursors, v, target, fps) + Silences(slots, cursors, views, v + 1, target, fps)
  }

  // The cursors once the views before v have had their pulse.
  function CursorsUpTo(slots: seq<int>, cursors: seq<int>, v: nat, target: int, fps: int): (c: seq<int>)
    requires fps >= 1
    ensures |c| == |cursors|
  {
    seq(|cursors|, u requires 0 <= u < |cursors| =>
      if u < v then SilenceStep(cursors[u], Mapped(slots, u), target, fps).cursor else cursors[u])
  }

  lemma PicturesMeans(slots: seq<int>, views: nat, v: nat)
    requires v <= views
    ensures forall u: nat :: u in Pictures(slots, views, v) <==> v <= u < views && !Mapped(slots, u)
    decreases views - v
  {
    if v < views {
      PicturesMeans(slots, views, v + 1);
    }
  }

  lemma AllMappedIsQuiet(slots: seq<int>, cursors: seq<int>, views: nat, v: nat, target: int, fps: int)
    requires fps >= 1 && v <= views && forall u: nat :: v <= u < views ==> Mapped(slots, u)
    ensures Pictures(slots, views, v) == [] && Silences(slots, cursors, views, v, target, fps) == []
    decreases views - v
  {
    if v < views {
      AllMappedIsQuiet(slots, cursors, views, v + 1, target, fps);
    }
  }

  lemma Regroup<T>(a: seq<T>, b: seq<T>, c: seq<T>)
    ensures (a + b) + c == a + (b + c)
  {
  }

  type Rate = r: int | r >= 1 witness 1

  predicate AllMapped(slots: seq<int>, views: nat) {
    forall u: nat :: u < views ==> Mapped(slots, u)
  }

  class ReplayManager {
    const fps: Rate
    var viewCount: nat
    var viewSlotMap: seq<int>
    var workerTracks: seq<int>    // the view track of each source worker
    var blueAudioCursor: seq<int>
    var globalFrameCount: nat

    constructor (fps: Rate, viewCount: nat, workers: nat)
      ensures this.fps == fps && this.viewCount == viewCount
      ensures |workerTracks| == workers && blueAudioCursor == seq(viewCount, _ => NONE)
    {
      this.fps, this.viewCount, viewSlotMap := fps, viewCount, [];
      workerTracks := seq(workers, _ => NONE);
      blueAudioCursor := seq(viewCount, _ => NONE);
      globalFrameCount := 0;
    }

    method UpdateViewMapping(slots: seq<int>)
      modifies this`viewSlotMap, this`workerTracks
      ensures viewSlotMap == slots && workerTracks == Tracks(slots, |old(workerTracks)|)
    {
      viewSlotMap := slots;
      var sourceCount := |workerTracks|;
      var sourceToTrack: seq<int> := seq(sourceCount, _ => NONE);
      var v := 0;
      while v < |slots|
        invariant 0 <= v <= |slots| && |sourceToTrack| == sourceCount
        invariant forall s :: 0 <= s < sourceCount ==> sourceToTrack[s] == LastView(slots[..v], s)
      {
        var src := slots[v];
        assert slots[..v + 1][..v] == slots[..v];
        if 0 <= src < sourceCount {
          sourceToTrack := sourceToTrack[src := v];
        }
        v := v + 1;
      }
      assert slots[..v] == slots;
      workerTracks := sourceToTrack;
    }

    /** One pulse: every unmapped view gets a picture and its silence; ready says the encoders are there. */
    method WriteBlueFrames(ready: bool) returns (pictures: seq<nat>, silences: seq<SilencePacket>)
      modifies this`blueAudioCursor
      ensures var target := Target(globalFrameCount, fps);
              if ready then
                && pictures == Pictures(viewSlotMap, viewCount, 0)
                && silences == Silences(viewSlotMap, old(blueAudioCursor), viewCount, 0, target, fps)
                && blueAudioCursor == CursorsUpTo(viewSlotMap, old(blueAudioCursor), viewCount, target, fps)
              else pictures == [] && silences == [] && blueAudioCursor == old(blueAudioCursor)
    {
      pictures, silences := [], [];
      if !ready { return; }
      var anyUnmapped := ResetMapped();
      var target := Target(globalFrameCount, fps);
      if !anyUnmapped {
        AllMappedIsQuiet(viewSlotMap, old(blueAudioCursor), viewCount, 0, target, fps);
        return;
      }
      pictures, silences := WriteViews(target, old(blueAudioCursor));
    }

    // The second loop, view by view.
    method WriteViews(target: int, ghost before: seq<int>) returns (pictures: seq<nat>, silences: seq<SilencePacket>)
      requires Progress(before, blueAudioCursor, 0, target)
      modifies this`blueAudioCursor
      ensures pictures == Pictures(viewSlotMap, viewCount, 0)
      ensures silences == Silences(viewSlotMap, before, viewCount, 0, target, fps)
      ensures Progress(before, blueAudioCursor, viewCount, target)
    {
      pictures, silences := [], [];
      var v := 0;
      while v < viewCount
        invariant 0 <= v <= viewCount
        invariant pictures + Pictures(viewSlotMap, viewCount, v) == Pictures(viewSlotMap, viewCount, 0)
        invariant silences + Silences(viewSlotMap, before, viewCount, v, target, fps)
                  == Silences(viewSlotMap, before, viewCount, 0, target, fps)
        invariant Progress(before, blueAudioCursor, v, target)
      {
        var picture := if Mapped(viewSlotMap, v) then [] else [v];
        var silence := WriteView(v, target, before);
        Regroup(pictures, picture, Pictures(viewSlotMap, viewCount, v + 1));
        Regroup(silences, silence, Silences(viewSlotMap, before, viewCount, v + 1, target, fps));
        pictures := pictures + picture;
        silences := silences + silence;
        v := v + 1;
      }
      assert pictures + [] == pictures && silences + [] == silences;
    }

    // Between two views of a pulse: those before v have had it, those after have at most been reset.
    ghost predicate Progress(before: seq<int>, cursors: seq<int>, v: nat, target: int)
      reads this`viewSlotMap, this`viewCount
    {
      && |cursors| == |before|
      && forall u :: 0 <= u < |before| ==>
           cursors[u] == if u < v then SilenceStep(before[u], Mapped(viewSlotMap, u), target, fps).cursor
                         else if u < viewCount && Mapped(viewSlotMap, u) then NONE
                         else before[u]
    }

    // The silence of one view, and its cursor.
    method WriteView(v: nat, target: int, ghost before: seq<int>) returns (silences: seq<SilencePacket>)
      requires v < viewCount && Progress(before, blueAudioCursor, v, target)
      modifies this`blueAudioCursor
      ensures silences == SilenceOf(viewSlotMap, before, v, target, fps)
      ensures Progress(before, blueAudioCursor, v + 1, target)
    {
      silences := [];
      if Mapped(viewSlotMap, v) {
        if v < |blueAudioCursor| { blueAudioCursor := blueAudioCursor[v := NONE]; }
        return;
      }
      if target > 0 && v < |blueAudioCursor| {
        var cursor := blueAudioCursor[v];
        if cursor < 0 {
          cursor := Max(0, target - SAMPLE_RATE / fps);
        }
        if target > cursor {
          var n := Min(target - cursor, SAMPLE_RATE);
          silences := [SilencePacket(v, Silence(cursor, n))];
          cursor := cursor + n;
        }
        blueAudioCursor := blueAudioCursor[v := cursor];
      }
    }

    // The first loop: mapped views forget their cursors.
    method ResetMapped() returns (anyUnmapped: bool)
      modifies this`blueAudioCursor
      ensures anyUnmapped <==> !AllMapped(viewSlotMap, viewCount)
      ensures |blueAudioCursor| == |old(blueAudioCursor)|
      ensures forall u :: 0 <= u < |blueAudioCursor| ==>
                blueAudioCursor[u] == if u < viewCount && Mapped(viewSlotMap, u) then NONE else old(blueAudioCursor)[u]
    {
      anyUnmapped := false;
      var v := 0;
      while v < viewCount
        invariant 0 <= v <= viewCount && |blueAudioCursor| == |old(blueAudioCursor)|
        invariant anyUnmapped <==> !AllMapped(viewSlotMap, v)
        invariant forall u :: 0 <= u < |blueAudioCursor| ==>
                    blueAudioCursor[u] == if u < v && Mapped(viewSlotMap, u) then NONE else old(blueAudioCursor)[u]
      {
        if Mapped(viewSlotMap, v) {
          if v < |blueAudioCursor| { blueAudioCursor := blueAudioCursor[v := NONE]; }
        } else {
          anyUnmapped := true;
        }
        v := v + 1;
      }
    }
  }
}
