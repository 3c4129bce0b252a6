// The wall-clock heartbeat: recorder_engine/heartbeat.cpp and the tick loop of replaymanager.cpp.
module Heartbeat {
  import opened Basics

  datatype Span = Span(from: int, to: int)

  // The frame the wall clock calls for.
  function Derived(elapsedMs: int, fps: int): int
    requires fps > 0
  {
    DivTrunc(elapsedMs * fps, 1000)
  }

  function FrameSpan(elapsedMs: int, fps: int, last: int, maxPerTick: int, maxBacklog: int): Span {
    if fps <= 0 then Span(last + 1, last)
    else
      var derived := Derived(elapsedMs, fps);
      if derived <= last then Span(last + 1, last)
      else
        var from := if maxBacklog > 0 && derived - (last + 1) >= maxBacklog then derived - maxBacklog + 1 else last + 1;
        Span(from, Min(derived, from + Max(1, maxPerTick) - 1))
  }

  /** What one tick may emit: new frames only, none ahead of the wall clock, at most the cap; frames are
      skipped exactly when the backlog has reached its limit, and then the resumed one is that far behind. */
  lemma SpanIsSound(elapsedMs: int, fps: int, last: int, maxPerTick: int, maxBacklog: int)
    requires fps > 0
    ensures var s := FrameSpan(elapsedMs, fps, last, maxPerTick, maxBacklog);
            && last < s.from
            && s.to - s.from + 1 <= Max(1, maxPerTick)
            && (s.from <= s.to <==> Derived(elapsedMs, fps) > last)
            && (forall f :: s.from <= f <= s.to ==> f * 1000 <= Max(0, elapsedMs * fps))
            && (s.from > last + 1 <==> maxBacklog > 0 && Derived(elapsedMs, fps) - last > maxBacklog)
            && (s.from > last + 1 ==> Derived(elapsedMs, fps) - s.from + 1 == maxBacklog)
  {
  }

  // The frames a run of ticks emits, in order.
  function Emitted(span: Span): seq<int>
    decreases span.to - span.from
  {
    if span.to < span.from then [] else [span.from] + Emitted(Span(span.from + 1, span.to))
  }

  function LastAfter(last: int, span: Span): int {
    if span.to < span.from then last else span.to
  }

  function RunTicks(times: seq<int>, fps: int, last: int, maxPerTick: int, maxBacklog: int): seq<int>
    decreases |times|
  {
    if times == [] then []
    else
      var span := FrameSpan(times[0], fps, last, maxPerTick, maxBacklog);
      Emitted(span) + RunTicks(times[1..], fps, LastAfter(last, span), maxPerTick, maxBacklog)
  }

  ghost predicate Increasing(s: seq<int>) {
    forall i, j :: 0 <= i < j < |s| ==> s[i] < s[j]
  }

  lemma {:induction false} EmittedIs(span: Span)
    ensures |Emitted(span)| == if span.to < span.from then 0 else span.to - span.from + 1
    ensures forall i :: 0 <= i < |Emitted(span)| ==> Emitted(span)[i] == span.from + i
    decreases span.to - span.from
  {
    if span.from <= span.to { EmittedIs(Span(span.from + 1, span.to)); }
  }

  ghost predicate InRange(s: seq<int>, above: int, upTo: int) {
    forall i :: 0 <= i < |s| ==> above < s[i] <= upTo
  }

  // Thousandths of a frame that the wall clock has reached.
  function Reached(timeMs: int, fps: int): int {
    Max(0, timeMs * fps)
  }

  // No emitted frame is ahead of that.
  ghost predicate Due(s: seq<int>, reached: int) {
    forall i :: 0 <= i < |s| ==> s[i] * 1000 <= reached
  }

  lemma TickEmits(timeMs: int, fps: int, last: int, maxPerTick: int, maxBacklog: int)
    requires fps > 0
    ensures var span := FrameSpan(timeMs, fps, last, maxPerTick, maxBacklog);
            && Increasing(Emitted(span)) && Due(Emitted(span), Reached(timeMs, fps))
            && last <= LastAfter(last, span) && InRange(Emitted(span), last, LastAfter(last, span))
  {
    var span := FrameSpan(timeMs, fps, last, maxPerTick, maxBacklog);
    SpanIsSound(timeMs, fps, last, maxPerTick, maxBacklog);
    EmittedIs(span);
  }

  /** Over any run of ticks, whatever the clock does, the emitted indices only go up. */
  lemma {:induction false} RunIsIncreasing(times: seq<int>, fps: int, last: int, maxPerTick: int, maxBacklog: int)
    requires fps > 0
    ensures var out := RunTicks(times, fps, last, maxPerTick, maxBacklog);
            Increasing(out) && forall i :: 0 <= i < |out| ==> last < out[i]
    decreases |times|
  {
    if times != [] {
      var span := FrameSpan(times[0], fps, last, maxPerTick, maxBacklog);
      var next := LastAfter(last, span);
      TickEmits(times[0], fps, last, maxPerTick, maxBacklog);
      RunIsIncreasing(times[1..], fps, next, maxPerTick, maxBacklog);
      AboveIsAfter(Emitted(span), RunTicks(times[1..], fps, next, maxPerTick, maxBacklog), next);
    }
  }

  /** No emitted frame is ahead of the latest time of the run. */
  lemma {:induction false} RunIsNeverEarly(times: seq<int>, fps: int, last: int, maxPerTick: int, maxBacklog: int, reached: int)
    requires fps > 0 && forall i :: 0 <= i < |times| ==> Reached(times[i], fps) <= reached
    ensures Due(RunTicks(times, fps, last, maxPerTick, maxBacklog), reached)
    decreases |times|
  {
    if times != [] {
      var span := FrameSpan(times[0], fps, last, maxPerTick, maxBacklog);
      var next := LastAfter(last, span);
      TickEmits(times[0], fps, last, maxPerTick, maxBacklog);
      forall i | 0 <= i < |times[1..]| ensures Reached(times[1..][i], fps) <= reached {
        assert times[1..][i] == times[i + 1];
      }
      RunIsNeverEarly(times[1..], fps, next, maxPerTick, maxBacklog, reached);
      DueConcat(Emitted(span), RunTicks(times[1..], fps, next, maxPerTick, maxBacklog), Reached(times[0], fps), reached);
    }
  }

  lemma DueConcat(a: seq<int>, b: seq<int>, r: int, reached: int)
    requires Due(a, r) && r <= reached && Due(b, reached)
    ensures Due(a + b, reached)
  {
  }

  lemma AboveIsAfter(a: seq<int>, b: seq<int>, bar: int)
    requires Increasing(a) && Increasing(b)
    requires forall i :: 0 <= i < |a| ==> a[i] <= bar
    requires forall i :: 0 <= i < |b| ==> bar < b[i]
    ensures Increasing(a + b)
  {
  }

  // The last frame after n ticks at one fixed time.
  function Catching(n: nat, elapsedMs: int, fps: int, last: int, maxPerTick: int, maxBacklog: int): int {
    if n == 0 then last
    else Catching(n - 1, elapsedMs, fps, LastAfter(last, FrameSpan(elapsedMs, fps, last, maxPerTick, maxBacklog)),
                  maxPerTick, maxBacklog)
  }

  lemma OneTickCloses(elapsedMs: int, fps: int, last: int, maxPerTick: int, maxBacklog: int)
    requires fps > 0 && last <= Derived(elapsedMs, fps)
    ensures var next := LastAfter(last, FrameSpan(elapsedMs, fps, last, maxPerTick, maxBacklog));
            Min(Derived(elapsedMs, fps), last + Max(1, maxPerTick)) <= next <= Derived(elapsedMs, fps)
  {
  }

  /** Ticks at a fixed time close the gap by a full cap each until the wall clock is reached. */
  lemma {:induction false} CatchUp(n: nat, elapsedMs: int, fps: int, last: int, maxPerTick: int, maxBacklog: int)
    requires fps > 0 && last <= Derived(elapsedMs, fps)
    ensures var l, d := Catching(n, elapsedMs, fps, last, maxPerTick, maxBacklog), Derived(elapsedMs, fps);
            Min(d, last + n * Max(1, maxPerTick)) <= l <= d
    decreases n
  {
    if n > 0 {
      var next := LastAfter(last, FrameSpan(elapsedMs, fps, last, maxPerTick, maxBacklog));
      var cap := Max(1, maxPerTick);
      OneTickCloses(elapsedMs, fps, last, maxPerTick, maxBacklog);
      CatchUp(n - 1, elapsedMs, fps, next, maxPerTick, maxBacklog);
      MulMono(0, n - 1, cap);
      assert (n - 1) * cap + cap == n * cap;
    }
  }

  /** No backlog survives one call for each cap's worth of the backlog limit, however long the stall was. */
  lemma BacklogDrains(n: nat, elapsedMs: int, fps: int, last: int, maxPerTick: int, maxBacklog: int)
    requires fps > 0 && maxBacklog > 0 && last <= Derived(elapsedMs, fps)
    requires n * Max(1, maxPerTick) >= maxBacklog
    ensures Catching(n, elapsedMs, fps, last, maxPerTick, maxBacklog) == Derived(elapsedMs, fps)
  {
    var next := LastAfter(last, FrameSpan(elapsedMs, fps, last, maxPerTick, maxBacklog));
    var d, cap := Derived(elapsedMs, fps), Max(1, maxPerTick);
    if n > 0 {
      CatchUp(n - 1, elapsedMs, fps, next, maxPerTick, maxBacklog);
      assert (n - 1) * cap + cap == n * cap;
      assert next >= Min(d, d - maxBacklog + cap);
    }
  }

  lemma EmitOne(pulses: seq<int>, f: int, to: int)
    requires f <= to
    ensures pulses + Emitted(Span(f, to)) == (pulses + [f]) + Emitted(Span(f + 1, to))
  {
    assert pulses + ([f] + Emitted(Span(f + 1, to))) == (pulses + [f]) + Emitted(Span(f + 1, to));
  }

  class ReplayManager {
    const fps: int
    var globalFrameCount: int
    var pulses: seq<int>   // the frames pulsed to the sources since the start

    constructor (fps: int)
      ensures this.fps == fps && globalFrameCount == 0 && pulses == []
    {
      this.fps := fps;
      globalFrameCount, pulses := 0, [];
    }

    const MAX_FRAMES_PER_TICK := 8

    method OnTimerTick(elapsedMs: int)
      modifies this`globalFrameCount, this`pulses
      ensures var span := FrameSpan(elapsedMs, fps, old(globalFrameCount), MAX_FRAMES_PER_TICK, fps);
              && pulses == old(pulses) + Emitted(span)
              && globalFrameCount == LastAfter(old(globalFrameCount), span)
    {
      var span := FrameSpan(elapsedMs, fps, globalFrameCount, MAX_FRAMES_PER_TICK, fps);
      var f := span.from;
      while f <= span.to
        invariant span.from <= f
        invariant pulses + Emitted(Span(f, span.to)) == old(pulses) + Emitted(span)
        invariant f <= span.to + 1 || (span.to < span.from && f == span.from)
        invariant globalFrameCount == if f == span.from then old(globalFrameCount) else f - 1
        decreases span.to - f
      {
        EmitOne(pulses, f, span.to);
        globalFrameCount := f;
        pulses := pulses + [f];
        f := f + 1;
      }
    }
  }
}
