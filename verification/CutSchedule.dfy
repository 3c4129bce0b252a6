// The boundary arithmetic of playback/cutschedule.cpp, over exact reals.
module CutSchedule {

  function Ceil(x: real): int
  {
    -((-x).Floor)
  }

  // A C++ cast from floating point to integer: towards zero.
  function Truncate(x: real): int
  {
    if x >= 0.0 then x.Floor else Ceil(x)
  }

  function OutputFrameForCut(nextIndex: int, leadFrames: int): int
  {
    nextIndex + if leadFrames < 0 then 0 else leadFrames
  }

  function FramesForLeadMs(leadMs: int, fps: real): int
  {
    if leadMs <= 0 || fps <= 0.0 then 0 else Ceil(leadMs as real * fps / 1000.0)
  }

  predicate ShouldFireAt(nextIndex: int, scheduled: int)
  {
    nextIndex >= scheduled
  }

  function PlayheadAfterCut(targetMs: int, fired: int, scheduled: int, fps: real): int
  {
    if fps <= 0.0 || fired <= scheduled then targetMs
    else targetMs + Truncate((fired - scheduled) as real * (1000.0 / fps))
  }

  /** A cut scheduled a lead ahead leaves at least that much wall time: the frame count covers the lead. */
  lemma LeadCoversWallTime(leadMs: int, fps: real)
    requires leadMs > 0 && fps > 0.0
    ensures FramesForLeadMs(leadMs, fps) as real * 1000.0 >= leadMs as real * fps
    ensures (FramesForLeadMs(leadMs, fps) - 1) as real * 1000.0 < leadMs as real * fps
  {
  }

  /** A late dispatcher resumes past the target by the overshoot in clip time, rounded down to the millisecond. */
  lemma OvershootCarriesIntoPlayhead(targetMs: int, fired: int, scheduled: int, fps: real)
    requires fps > 0.0 && scheduled <= fired
    ensures var late := PlayheadAfterCut(targetMs, fired, scheduled, fps) - targetMs;
            late as real * fps <= (fired - scheduled) as real * 1000.0 < (late + 1) as real * fps
  {
  }
}
