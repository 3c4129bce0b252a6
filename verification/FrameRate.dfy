// The exact frame / millisecond lattice of playback/framerate.h.
module FrameRate {
  import opened Basics

  datatype FrameRate = FrameRate(numerator: int, denominator: int) {
    predicate Valid() {
      numerator > 0 && denominator > 0
    }

    // Milliseconds of a thousand frames' worth of the denominator: A frames of the lattice span numerator ms.
    function Period(): int {
      1000 * denominator
    }

    function IndexToMs(index: int): int {
      if !Valid() || index <= 0 then 0 else index * Period() / numerator
    }

    function MsToIndex(ms: int): int {
      if !Valid() || ms <= 0 then 0 else ms * numerator / Period()
    }

    /** No more than one frame falls in a millisecond. */
    predicate AtMostThousandFps() {
      numerator <= Period()
    }
  }

  /** A frame's time is its exact time rounded down to the millisecond; a time's frame the last one begun by then. */
  lemma FrameTimesAreExact(r: FrameRate, i: nat, ms: nat)
    requires r.Valid()
    ensures r.IndexToMs(i) as real <= i as real * 1000.0 * r.denominator as real / r.numerator as real
    ensures i as real * 1000.0 * r.denominator as real / r.numerator as real < (r.IndexToMs(i) + 1) as real
    ensures r.MsToIndex(ms) * 1000 * r.denominator <= ms * r.numerator
    ensures ms * r.numerator < (r.MsToIndex(ms) + 1) * 1000 * r.denominator
  {
    DivBounds(i * r.Period(), r.numerator);
    DivBounds(ms * r.numerator, r.Period());
  }

  /** Frame times never go back. */
  lemma IndexToMsMono(r: FrameRate, i: int, j: int)
    requires r.Valid() && i <= j
    ensures 0 <= r.IndexToMs(i) <= r.IndexToMs(j)
  {
    if i > 0 {
      MulMono(0, i, r.Period());
      MulMono(i, j, r.Period());
      DivBounds(i * r.Period(), r.numerator);
      DivAtLeast(i * r.Period(), r.numerator, 0);
      DivAtLeast(j * r.Period(), r.numerator, i * r.Period() / r.numerator);
    } else if j > 0 {
      MulMono(0, j, r.Period());
      DivAtLeast(j * r.Period(), r.numerator, 0);
    }
  }

  /** Up to a thousand frames a second, every frame has its own millisecond. */
  lemma IndexToMsStrict(r: FrameRate, i: int)
    requires r.Valid() && r.AtMostThousandFps() && i >= 0
    ensures r.IndexToMs(i) < r.IndexToMs(i + 1)
  {
    var a, n := r.Period(), r.numerator;
    assert (i + 1) * a == i * a + a;
    DivBounds(i * a, n);
    assert (i * a / n + 1) * n == i * a / n * n + n;
    DivAtLeast((i + 1) * a, n, i * a / n + 1);
    if i == 0 { DivExact(0, n); }
  }

  /** Rounding a millisecond down to a frame and back never passes it, and the next frame is not before it. */
  lemma RoundTrip(r: FrameRate, ms: int)
    requires r.Valid() && ms >= 0
    ensures var i := r.MsToIndex(ms);
            0 <= i && r.IndexToMs(i) <= ms <= r.IndexToMs(i + 1)
    ensures var i := r.MsToIndex(ms);
            i > 0 && ms > 0 ==> r.IndexToMs(i - 1) < ms
  {
    var a, n := r.Period(), r.numerator;
    if ms > 0 {
      MulMono(0, ms, n);
      var i := ms * n / a;
      DivBounds(ms * n, a);
      DivAtLeast(ms * n, a, 0);
      assert i * a <= ms * n < (i + 1) * a;
      if i > 0 { DivAtMost(i * a, n, ms); assert i * a < (ms + 1) * n; }
      DivAtLeast((i + 1) * a, n, ms);
      if i > 1 {
        assert (i - 1) * a == i * a - a < ms * n;
        DivAtMost((i - 1) * a, n, ms - 1);
      }
    } else {
      IndexToMsMono(r, 0, 1);
    }
  }
}
