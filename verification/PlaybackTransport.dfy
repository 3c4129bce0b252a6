// Frame stepping of playback/playbacktransport.cpp.
module PlaybackTransport {
  import opened Basics
  import opened FrameRate

  ghost predicate IsFirstAtOrAfter(r: FrameRate, ms: int, i: int) {
    i >= 0 && r.IndexToMs(i) >= ms && forall j :: 0 <= j < i ==> r.IndexToMs(j) < ms
  }

  ghost predicate IsFirstAfter(r: FrameRate, ms: int, i: int) {
    i >= 0 && r.IndexToMs(i) > ms && forall j :: 0 <= j < i ==> r.IndexToMs(j) <= ms
  }

  // The least index strictly after ms, in closed form.
  function FirstAfter(r: FrameRate, ms: int): int
    requires r.Valid()
  {
    if ms < 0 then 0 else ((ms + 1) * r.numerator + r.Period() - 1) / r.Period()
  }

  lemma FirstAfterIsFirst(r: FrameRate, ms: int)
    requires r.Valid()
    ensures IsFirstAfter(r, ms, FirstAfter(r, ms))
  {
    if ms >= 0 {
      var a, n := r.Period(), r.numerator;
      var i := FirstAfter(r, ms);
      MulMono(1, ms + 1, n);
      DivBounds((ms + 1) * n + a - 1, a);
      DivAtLeast((ms + 1) * n + a - 1, a, 1);
      assert (i - 1) * a == i * a - a;
      assert (i - 1) * a < (ms + 1) * n <= i * a;
      DivAtLeast(i * a, n, ms + 1);
      forall j | 0 <= j < i ensures r.IndexToMs(j) <= ms {
        if j > 0 {
          MulMono(j, i - 1, a);
          DivAtMost(j * a, n, ms);
        }
      }
    }
  }

  // At or after ms means strictly after the millisecond before; up to 0 that is the first frame.
  function FirstAtOrAfter(r: FrameRate, ms: int): int
    requires r.Valid()
  {
    FirstAfter(r, ms - 1)
  }

  lemma FirstAtOrAfterIsFirst(r: FrameRate, ms: int)
    requires r.Valid()
    ensures IsFirstAtOrAfter(r, ms, FirstAtOrAfter(r, ms))
  {
    FirstAfterIsFirst(r, ms - 1);
    assert forall j :: r.IndexToMs(j) <= ms - 1 <==> r.IndexToMs(j) < ms;
  }

  lemma FirstIsUnique(r: FrameRate, ms: int, i: int, j: int)
    ensures IsFirstAfter(r, ms, i) && IsFirstAfter(r, ms, j) ==> i == j
    ensures IsFirstAtOrAfter(r, ms, i) && IsFirstAtOrAfter(r, ms, j) ==> i == j
  {
  }

  /** The search starts at the answer or one short of it: it corrects its guess at most once, upwards. */
  lemma GuessIsAtMostOneShort(r: FrameRate, ms: int)
    requires r.Valid() && ms > 0
    ensures r.MsToIndex(ms) <= FirstAtOrAfter(r, ms) <= r.MsToIndex(ms) + 1
    ensures FirstAtOrAfter(r, ms) == r.MsToIndex(ms) <==> r.IndexToMs(r.MsToIndex(ms)) == ms
  {
    var i, first := r.MsToIndex(ms), FirstAtOrAfter(r, ms);
    RoundTrip(r, ms);
    FirstAtOrAfterIsFirst(r, ms);
    if first < i { IndexToMsMono(r, first, i - 1); }
  }

  // Where a step of so many frames from a position lands.
  function Step(r: FrameRate, pos: int, frames: int): int
    requires r.Valid()
  {
    if frames == 0 then pos
    else if frames > 0 then r.IndexToMs(FirstAfter(r, pos) + frames - 1)
    else
      var target := FirstAtOrAfter(r, pos) + frames;
      r.IndexToMs(if target < 0 then 0 else target)
  }

  /** A single step goes to the next frame's time, or to the last one before the position, at any rate. */
  lemma SingleStepIsAdjacent(r: FrameRate, pos: int, i: nat)
    requires r.Valid()
    ensures Step(r, pos, 1) > pos && (r.IndexToMs(i) > pos ==> r.IndexToMs(i) >= Step(r, pos, 1))
    ensures pos > 0 ==> Step(r, pos, -1) < pos && (r.IndexToMs(i) < pos ==> r.IndexToMs(i) <= Step(r, pos, -1))
    ensures pos <= 0 ==> Step(r, pos, -1) == 0
    ensures OnLattice(r, Step(r, pos, 1)) && OnLattice(r, Step(r, pos, -1))
  {
    var after, from := FirstAfter(r, pos), FirstAtOrAfter(r, pos);
    FirstAfterIsFirst(r, pos);
    FirstAtOrAfterIsFirst(r, pos);
    StepLandsOnLattice(r, pos, 1);
    StepLandsOnLattice(r, pos, -1);
    if i >= after { IndexToMsMono(r, after, i); }
    if 0 < from && i < from { IndexToMsMono(r, i, from - 1); }
    if from <= i { IndexToMsMono(r, from, i); }
  }

  // So many single steps, forward or back.
  function SingleSteps(r: FrameRate, pos: int, frames: int): int
    requires r.Valid()
    decreases if frames < 0 then -frames else frames
  {
    if frames == 0 then pos
    else if frames > 0 then SingleSteps(r, Step(r, pos, 1), frames - 1)
    else SingleSteps(r, Step(r, pos, -1), frames + 1)
  }

  ghost predicate OnLattice(r: FrameRate, pos: int) {
    exists i :: i >= 0 && r.IndexToMs(i) == pos
  }

  /** One step forward and one back is the identity on the lattice, at any rate. */
  lemma ForwardThenBack(r: FrameRate, pos: int)
    requires r.Valid() && OnLattice(r, pos)
    ensures Step(r, Step(r, pos, 1), -1) == pos
  {
    var i :| i >= 0 && r.IndexToMs(i) == pos;
    IndexToMsMono(r, 0, i);
    var j := FirstAfter(r, pos);
    FirstAfterIsFirst(r, pos);
    assert j > i by { if j <= i { IndexToMsMono(r, j, i); } }
    IndexToMsMono(r, i, j - 1);
    var next := r.IndexToMs(j);
    FirstAtOrAfterIsFirst(r, next);
    assert IsFirstAtOrAfter(r, next, j);
    FirstIsUnique(r, next, j, FirstAtOrAfter(r, next));
  }

  /** One step back and one forward is the identity on the lattice exactly off its first position, at any rate. */
  lemma BackThenForwardIff(r: FrameRate, pos: int)
    requires r.Valid() && OnLattice(r, pos)
    ensures Step(r, Step(r, pos, -1), 1) == pos <==> pos > 0
  {
    var i :| i >= 0 && r.IndexToMs(i) == pos;
    IndexToMsMono(r, 0, i);
    var j := FirstAtOrAfter(r, pos);
    FirstAtOrAfterIsFirst(r, pos);
    assert j <= i;
    IndexToMsMono(r, j, i);
    var before := Step(r, pos, -1);
    FirstAfterIsFirst(r, before);
    if pos > 0 {
      forall k | 0 <= k < j ensures r.IndexToMs(k) <= before { IndexToMsMono(r, k, j - 1); }
      FirstIsUnique(r, before, j, FirstAfter(r, before));
    }
  }

  // Up to 1000 fps a frame time names its frame.
  lemma FrameTimeNamesItsFrame(r: FrameRate, i: int)
    requires r.Valid() && r.AtMostThousandFps() && i >= 0
    ensures FirstAtOrAfter(r, r.IndexToMs(i)) == i
    ensures FirstAfter(r, r.IndexToMs(i)) == i + 1
  {
    var ms := r.IndexToMs(i);
    forall j | 0 <= j < i ensures r.IndexToMs(j) < ms {
      IndexToMsStrict(r, j);
      IndexToMsMono(r, j + 1, i);
    }
    IndexToMsStrict(r, i);
    forall j | 0 <= j < i + 1 ensures r.IndexToMs(j) <= ms {
      IndexToMsMono(r, j, i);
    }
    FirstAtOrAfterIsFirst(r, ms);
    FirstAfterIsFirst(r, ms);
    FirstIsUnique(r, ms, i, FirstAtOrAfter(r, ms));
    FirstIsUnique(r, ms, i + 1, FirstAfter(r, ms));
  }

  lemma {:induction false} SinglesFromFrame(r: FrameRate, i: int, frames: int)
    requires r.Valid() && r.AtMostThousandFps() && i >= 0
    ensures SingleSteps(r, r.IndexToMs(i), frames) == r.IndexToMs(if i + frames < 0 then 0 else i + frames)
    decreases if frames < 0 then -frames else frames
  {
    FrameTimeNamesItsFrame(r, i);
    if frames > 0 {
      SinglesFromFrame(r, i + 1, frames - 1);
    } else if frames < 0 {
      SinglesFromFrame(r, if i == 0 then 0 else i - 1, frames + 1);
    }
  }

  /** Up to 1000 fps a step of n frames is n single steps, from any position. */
  lemma StepIsSingleSteps(r: FrameRate, pos: int, frames: int)
    requires r.Valid() && r.AtMostThousandFps()
    ensures Step(r, pos, frames) == SingleSteps(r, pos, frames)
  {
    if frames > 0 {
      FirstAfterIsFirst(r, pos);
      SinglesFromFrame(r, FirstAfter(r, pos), frames - 1);
    } else if frames < 0 {
      FirstAtOrAfterIsFirst(r, pos);
      var i := FirstAtOrAfter(r, pos);
      SinglesFromFrame(r, if i == 0 then 0 else i - 1, frames + 1);
    }
  }

  /** Up to 1000 fps, from the time of frame i, a step and the opposite step return exactly when the first one
      is not cut short at the start. */
  lemma StepAndBack(r: FrameRate, i: int, frames: int)
    requires r.Valid() && r.AtMostThousandFps() && i >= 0
    ensures Step(r, Step(r, r.IndexToMs(i), frames), -frames) == r.IndexToMs(i) <==> i + frames >= 0
  {
    var landed := if i + frames < 0 then 0 else i + frames;
    FrameTimeNamesItsFrame(r, i);
    FrameTimeNamesItsFrame(r, landed);
    if i + frames < 0 {
      IndexToMsStrict(r, i);
      IndexToMsMono(r, i + 1, -frames);
    }
  }

  /** From any position at all: exactly for the empty step, and on the lattice at or past that many frames. */
  lemma ReturnsIff(r: FrameRate, pos: int, frames: int)
    requires r.Valid() && r.AtMostThousandFps()
    ensures Step(r, Step(r, pos, frames), -frames) == pos <==>
            frames == 0 || (OnLattice(r, pos) && FirstAtOrAfter(r, pos) + frames >= 0)
  {
    if OnLattice(r, pos) {
      var i :| i >= 0 && r.IndexToMs(i) == pos;
      FrameTimeNamesItsFrame(r, i);
      StepAndBack(r, i, frames);
    } else if frames != 0 {
      StepLandsOnLattice(r, Step(r, pos, frames), -frames);
    }
  }

  lemma StepLandsOnLattice(r: FrameRate, pos: int, frames: int)
    requires r.Valid() && frames != 0
    ensures OnLattice(r, Step(r, pos, frames))
  {
    FirstAfterIsFirst(r, pos);
    FirstAtOrAfterIsFirst(r, pos);
  }

  /** At 25 fps three frames back from the second frame and three forward end two frames late. */
  lemma BackFromTheStart()
    ensures var r := FrameRate(25, 1);
            Step(r, 40, -3) == 0 && Step(r, Step(r, 40, -3), 3) == 120
  {
  }

  // Above 1000 fps the frame that ends a full period shares its millisecond with the next one.
  lemma PeriodEndIsCrowded(r: FrameRate)
    requires r.Valid() && !r.AtMostThousandFps()
    ensures r.IndexToMs(r.numerator) == r.Period() == r.IndexToMs(r.numerator + 1)
    ensures r.IndexToMs(r.numerator - 1) == r.Period() - 1
  {
    var a, n := r.Period(), r.numerator;
    assert n * a == a * n;
    DivAtLeast(n * a, n, a);
    DivAtMost(n * a, n, a);
    assert (n + 1) * a == a * n + a;
    DivAtLeast((n + 1) * a, n, a);
    DivAtMost((n + 1) * a, n, a);
    assert (n - 1) * a == a * n - a == (a - 1) * n + (n - a);
    DivAtLeast((n - 1) * a, n, a - 1);
    DivAtMost((n - 1) * a, n, a - 1);
  }

  lemma CrowdedMillisecond(r: FrameRate)
    requires r.Valid() && !r.AtMostThousandFps()
    ensures Step(r, r.Period() - 1, 2) == r.Period() < SingleSteps(r, r.Period() - 1, 2)
  {
    var a, n := r.Period(), r.numerator;
    PeriodEndIsCrowded(r);
    forall j | 0 <= j < n ensures r.IndexToMs(j) <= a - 1 {
      IndexToMsMono(r, j, n - 1);
    }
    FirstAfterIsFirst(r, a - 1);
    FirstIsUnique(r, a - 1, n, FirstAfter(r, a - 1));
    assert Step(r, a - 1, 1) == a;
    FirstAfterIsFirst(r, a);
    assert SingleSteps(r, a - 1, 2) == SingleSteps(r, a, 1) == Step(r, a, 1);
  }

  /** Steps compose exactly when no two frames can share a millisecond. */
  lemma StepsComposeIffAtMostThousandFps(r: FrameRate)
    requires r.Valid()
    ensures (forall pos, frames :: Step(r, pos, frames) == SingleSteps(r, pos, frames)) <==> r.AtMostThousandFps()
  {
    if r.AtMostThousandFps() {
      forall pos, frames ensures Step(r, pos, frames) == SingleSteps(r, pos, frames) {
        StepIsSingleSteps(r, pos, frames);
      }
    } else {
      CrowdedMillisecond(r);
    }
  }

  class Transport {
    var rate: FrameRate
    var currentPos: int

    constructor (rate: FrameRate)
      ensures this.rate == rate && currentPos == 0
    {
      this.rate := rate;
      currentPos := 0;
    }

    static method FirstIndexAtOrAfterMs(r: FrameRate, ms: int) returns (index: int)
      requires r.Valid()
      ensures index == FirstAtOrAfter(r, ms) && IsFirstAtOrAfter(r, ms, index)
    {
      FirstAtOrAfterIsFirst(r, ms);
      if ms <= 0 { return 0; }
      index := r.MsToIndex(ms);
      GuessIsAtMostOneShort(r, ms);
      while r.IndexToMs(index) < ms
        invariant 0 <= index <= FirstAtOrAfter(r, ms)
        decreases FirstAtOrAfter(r, ms) - index
      {
        index := index + 1;
      }
      index := WalkBack(r, ms, index);
      FirstIsUnique(r, ms, index, FirstAtOrAfter(r, ms));
    }

    // The second loop of the search: back to the first index that is late enough.
    static method WalkBack(r: FrameRate, ms: int, start: int) returns (index: int)
      requires r.Valid() && start >= 0 && r.IndexToMs(start) >= ms
      ensures IsFirstAtOrAfter(r, ms, index)
    {
      index := start;
      while index > 0 && r.IndexToMs(index - 1) >= ms
        invariant index >= 0 && r.IndexToMs(index) >= ms
        decreases index
      {
        index := index - 1;
      }
      forall j | 0 <= j < index ensures r.IndexToMs(j) < ms {
        IndexToMsMono(r, j, index - 1);
      }
    }

    static method FirstIndexAfterMs(r: FrameRate, ms: int) returns (index: int)
      requires r.Valid()
      ensures index == FirstAfter(r, ms) && IsFirstAfter(r, ms, index)
    {
      index := FirstIndexAtOrAfterMs(r, ms);
      FirstAfterIsFirst(r, ms);
      ghost var goal := FirstAfter(r, ms);
      assert index <= goal;
      while r.IndexToMs(index) <= ms
        invariant 0 <= index <= goal
        invariant forall j :: 0 <= j < index ==> r.IndexToMs(j) <= ms
        decreases goal - index
      {
        index := index + 1;
      }
    }

    method Seek(posMs: int)
      modifies this`currentPos
      ensures currentPos == if posMs < 0 then 0 else posMs
    {
      currentPos := if posMs > 0 then posMs else 0;
    }

    method StepFrames(frames: int)
      modifies this`currentPos
      ensures currentPos == if rate.Valid() then Step(rate, old(currentPos), frames) else old(currentPos)
    {
      if frames == 0 { return; }
      if !rate.Valid() { return; }
      var targetFrame;
      if frames > 0 {
        var i := FirstIndexAfterMs(rate, currentPos);
        targetFrame := i + frames - 1;
      } else {
        var i := FirstIndexAtOrAfterMs(rate, currentPos);
        targetFrame := if i + frames > 0 then i + frames else 0;
      }
      IndexToMsMono(rate, targetFrame, targetFrame);
      Seek(rate.IndexToMs(targetFrame));
    }
  }
}
