// The stateless decisions of playback/commitgate.h.
module CommitGate {

  /** The playhead a snapshot may expose: the live one, or the held one while a seek is outstanding. */
  function VisiblePlayhead(transport: int, committed: int, committedGen: nat, seekGen: nat): int
  {
    if committedGen != seekGen then committed else transport
  }

  /** The held position for the next seek: the newest covered frame that is not ahead of what is shown. */
  function BookmarkedPlayhead(bookmark: int, visible: int, coveredPts: int, covered: bool,
                              committedGen: nat, seekGen: nat): int
  {
    if committedGen != seekGen || !covered then bookmark
    else if coveredPts > visible then bookmark
    else coveredPts
  }

  /** With no seek outstanding and no frame at the playhead, fall back to the bookmark. */
  function CacheGuardedPlayhead(visible: int, bookmark: int, covered: bool,
                                committedGen: nat, seekGen: nat): int
  {
    if committedGen == seekGen && !covered then bookmark else visible
  }

  predicate CanCommit(startedGen: nat, currentGen: nat, supersededSeekPending: bool)
  {
    !supersededSeekPending && startedGen == currentGen
  }
}
