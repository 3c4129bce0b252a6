// What every run of the seek / armed-cut protocol keeps.
module CutProofs {
  import opened Basics
  import opened CutProtocol
  import CutSchedule

  function Last(s: seq<int>): int
    requires s != []
  {
    s[|s| - 1]
  }

  // --------------------------------------------------------------- invariants

  // A worker that holds the target of a seek, or a non-seek reposition, with no newer seek pending.
  predicate InFlight(s: State) {
    match s.pc
    case Entering(_, kind) => kind.Explicit?
    case Started(_, kind, _) => kind.Explicit?
    case Refilling(_, kind, _, _) => kind.Explicit?
    case _ => false
  }

  ghost predicate PcInv(s: State) {
    var g, seeks := s.gate, s.hist.seeks;
    match s.pc
    case Entering(t, kind) =>
      kind.Explicit? && g.seekTarget < 0 ==> seeks != [] && t == Last(seeks)
    case Started(t, kind, started) =>
      && started <= g.seekGen
      && (g.seekTarget < 0 ==> started == g.seekGen)
      && (kind.Explicit? && g.seekTarget < 0 ==> seeks != [] && t == Last(seeks))
    case Refilling(t, kind, started, _) =>
      && started <= g.seekGen
      && (g.seekTarget < 0 ==> started == g.seekGen)
      && (kind.Explicit? && g.seekTarget < 0 ==> seeks != [] && t == Last(seeks))
    case _ => true
  }

  /** While a commit is owed, the latest target is pending or is the one the worker is repositioning to. */
  ghost predicate GateInv(s: State) {
    var g, h := s.gate, s.hist;
    && g.seekGen == h.baseGen + |h.seeks|
    && h.baseGen <= g.committedGen <= g.seekGen
    && g.seekTarget >= -1
    && (g.seekTarget >= 0 ==> h.seeks != [] && g.seekTarget == Last(h.seeks))
    && (g.committedGen != g.seekGen ==> g.seekTarget >= 0 || InFlight(s))
    && PcInv(s)
  }

  ghost predicate CommitOk(c: Commit, h: History, committedGen: nat) {
    && h.baseGen <= c.gen <= committedGen <= h.baseGen + |h.seeks|
    && (c.raised ==> h.baseGen < c.gen && c.target == h.seeks[c.gen - h.baseGen - 1])
  }

  ghost predicate CommitsInv(s: State) {
    forall i :: 0 <= i < |s.hist.commits| ==> CommitOk(s.hist.commits[i], s.hist, s.gate.committedGen)
  }

  predicate IsCall(h: History, i: int) {
    0 <= i < |h.calls|
  }

  // No re-arm was queued after call i and before the n-th call.
  ghost predicate LastQueued(h: History, i: int, n: nat) {
    && IsCall(h, i) && h.calls[i].queued && i < n <= |h.calls|
    && forall j :: i < j < n ==> !h.calls[j].queued
  }

  ghost predicate CallInv(s: State) {
    var c, h := s.cut, s.hist;
    && (forall i :: 0 <= i < |h.calls| ==> h.calls[i].seeksBefore <= |h.seeks|)
    && (c.armed ==> && IsCall(h, h.armedCall)
                    && c.target == Clamp(h.calls[h.armedCall].target)
                    && c.fireAt == h.calls[h.armedCall].fireAt
                    && c.armSeekGen == h.baseGen + h.calls[h.armedCall].seeksBefore)
    && (c.hasPending ==> && LastQueued(h, h.pendingCall, |h.calls|)
                         && c.pendingTarget == Clamp(h.calls[h.pendingCall].target)
                         && c.pendingFireAt == h.calls[h.pendingCall].fireAt
                         && h.calls[h.pendingCall].seeksBefore == |h.seeks|
                         && c.pendingSeekGen == s.gate.seekGen)
  }

  ghost predicate FireOk(f: Fire, h: History) {
    && IsCall(h, f.call)
    && f.target == Clamp(h.calls[f.call].target)
    && f.seeksBefore == h.calls[f.call].seeksBefore
    && StagedBy(f.promoted, f.arm)
    && (f.fileEnded || ReachesPast(f.promoted, f.target + STAGING_SPAN_MS))
  }

  ghost predicate ApplyOk(a: Apply, h: History) {
    LastQueued(h, a.call, a.callsBefore)
  }

  ghost predicate DropOk(d: Drop, h: History) {
    IsCall(h, d.call) && h.calls[d.call].queued && h.calls[d.call].seeksBefore == d.seeksBefore
  }

  ghost predicate LogInv(s: State) {
    var h := s.hist;
    && (forall i :: 0 <= i < |h.fires| ==> FireOk(h.fires[i], h))
    && (forall i :: 0 <= i < |h.applies| ==> ApplyOk(h.applies[i], h))
    && (forall i :: 0 <= i < |h.drops| ==> DropOk(h.drops[i], h))
  }

  /** Every frame of the cache was staged by the given arm. */
  ghost predicate StagedBy(c: Cache, arm: nat) {
    forall k :: k in c ==> c[k] == arm
  }

  /** The reference feed has a frame at or past the position. */
  ghost predicate ReachesPast(c: Cache, ms: int) {
    exists k :: k in c && k.feed == REFERENCE_FEED && k.ptsMs >= ms
  }

  ghost predicate StagingInv(s: State) {
    var c, k := s.cut, s.caches;
    && (c.armed && !c.prerollSeek ==>
          && StagedBy(k.staging, s.hist.arms)
          && (k.newestRef.Some? ==> Key(REFERENCE_FEED, k.newestRef.value) in k.staging))
    && (c.covers ==> && c.armed && !c.prerollSeek
                     && (s.hist.fileEnded || (k.newestRef.Some? && k.newestRef.value >= c.target + STAGING_SPAN_MS)))
  }

  /** A scheduled cut is armed and covered, carries the armed target, and no fill is in progress. */
  ghost predicate ScheduleInv(s: State) {
    var c := s.cut;
    && (c.scheduledFrame >= 0 ==> c.armed && c.covers && !s.pc.Filling? && c.scheduledTarget == c.target)
    && (s.pc.Filling? ==> c.armed && !c.prerollSeek && c.scheduledFrame < 0 && s.pc.target == c.target
                          && s.pc.packets <= PACKETS_PER_TICK)
  }

  ghost predicate CountInv(s: State) {
    && s.hist.arms == |s.hist.fires| + s.hist.aborts + (if s.cut.armed then 1 else 0)
    && s.cut.fired == |s.hist.fires|
  }

  ghost predicate Inv(s: State) {
    GateInv(s) && CommitsInv(s) && CallInv(s) && LogInv(s) && StagingInv(s) && ScheduleInv(s) && CountInv(s)
  }

  // ------------------------------------------------------------- preservation

  // Appending to the history of calls or seeks keeps every past record true.
  lemma LogGrows(h: History, h': History)
    requires h.calls <= h'.calls
    ensures forall f :: FireOk(f, h) ==> FireOk(f, h')
    ensures forall a :: ApplyOk(a, h) ==> ApplyOk(a, h')
    ensures forall d :: DropOk(d, h) ==> DropOk(d, h')
  {
  }

  lemma SeekKeepsInv(s: State, ms: int)
    requires Inv(s)
    ensures Inv(DoSeekTo(s, ms))
  {
    var s' := DoSeekTo(s, ms);
    LogGrows(s.hist, s'.hist);
    assert forall i :: 0 <= i < |s.hist.commits| ==>
      CommitOk(s.hist.commits[i], s.hist, s.gate.committedGen) && CommitOk(s.hist.commits[i], s'.hist, s.gate.committedGen);
  }

  lemma ArmKeepsInv(s: State, target: int, fireAt: int)
    requires Inv(s)
    ensures Inv(DoArmNextCut(s, target, fireAt))
  {
    var s' := DoArmNextCut(s, target, fireAt);
    LogGrows(s.hist, s'.hist);
    if s.cut.hasPending && !s.cut.armed {
      assert LastQueued(s'.hist, s'.hist.pendingCall, |s'.hist.calls|);
    }
    forall i | 0 <= i < |s.hist.commits|
      ensures CommitOk(s.hist.commits[i], s'.hist, s.gate.committedGen)
    {
      assert CommitOk(s.hist.commits[i], s.hist, s.gate.committedGen);
    }
  }

  lemma AbortKeepsInv(s: State)
    requires Inv(s) && s.cut.scheduledFrame >= 0
    ensures Inv(DoAbort(s))
  {
    var s' := DoAbort(s);
    LogGrows(s.hist, s'.hist);
    forall i | 0 <= i < |s.hist.commits|
      ensures CommitOk(s.hist.commits[i], s'.hist, s.gate.committedGen)
    {
      assert CommitOk(s.hist.commits[i], s.hist, s.gate.committedGen);
    }
  }

  lemma FireIsOk(s: State, playhead: int)
    requires Inv(s) && s.cut.scheduledFrame >= 0 && s.gate.seekGen == s.cut.armSeekGen
    ensures var h := DoFire(s, playhead).hist; FireOk(h.fires[|s.hist.fires|], h)
  {
  }

  lemma FireKeepsInv(s: State, playhead: int)
    requires Inv(s) && s.cut.scheduledFrame >= 0 && s.gate.seekGen == s.cut.armSeekGen
    ensures Inv(DoFire(s, playhead))
  {
    var s' := DoFire(s, playhead);
    LogGrows(s.hist, s'.hist);
    FireIsOk(s, playhead);
    forall i | 0 <= i < |s.hist.commits|
      ensures CommitOk(s.hist.commits[i], s'.hist, s.gate.committedGen)
    {
      assert CommitOk(s.hist.commits[i], s.hist, s.gate.committedGen);
    }
  }

  lemma ExposeKeepsInv(s: State, next: nat, covered: Option<int>)
    requires Inv(s)
    ensures Inv(Expose(s.(dispatcher := next), covered))
  {
    var s' := Expose(s.(dispatcher := next), covered);
    LogGrows(s.hist, s'.hist);
    forall i | 0 <= i < |s.hist.commits|
      ensures CommitOk(s.hist.commits[i], s'.hist, s.gate.committedGen)
    {
      assert CommitOk(s.hist.commits[i], s.hist, s.gate.committedGen);
    }
  }

  lemma TickKeepsInv(s: State, next: nat, covered: Option<int>, fps: real)
    requires Inv(s)
    ensures Inv(DoTick(s, next, covered, fps))
  {
    if CutDue(s, next) {
      if s.gate.seekGen != s.cut.armSeekGen {
        AbortKeepsInv(s);
      } else {
        FireKeepsInv(s, CutSchedule.PlayheadAfterCut(s.cut.scheduledTarget, next, s.cut.scheduledFrame, fps));
      }
    }
    ExposeKeepsInv(FireOrAbort(s, next, fps), next, covered);
  }

  lemma CommitKeepsInv(s: State)
    requires Inv(s) && (s.pc.Started? || s.pc.Refilling?)
    ensures Inv(DoTryCommit(s))
  {
    var s' := DoTryCommit(s);
    LogGrows(s.hist, s'.hist);
    forall i | 0 <= i < |s'.hist.commits|
      ensures CommitOk(s'.hist.commits[i], s'.hist, s'.gate.committedGen)
    {
      if i < |s.hist.commits| {
        assert CommitOk(s.hist.commits[i], s.hist, s.gate.committedGen);
      }
    }
  }

  lemma RearmKeepsInv(s: State)
    requires Inv(s) && s.pc.AtRearm?
    ensures Inv(DoApplyRearm(s))
  {
    var s' := DoApplyRearm(s);
    LogGrows(s.hist, s'.hist);
    forall i | 0 <= i < |s.hist.commits|
      ensures CommitOk(s.hist.commits[i], s'.hist, s.gate.committedGen)
    {
      assert CommitOk(s.hist.commits[i], s.hist, s.gate.committedGen);
    }
  }

  lemma {:induction false} StageKeepsTags(c: Caches, keys: seq<Key>, arm: nat)
    requires StagedBy(c.staging, arm)
    requires c.newestRef.Some? ==> Key(REFERENCE_FEED, c.newestRef.value) in c.staging
    ensures var c' := Stage(c, keys, arm);
            && StagedBy(c'.staging, arm)
            && (c'.newestRef.Some? ==> Key(REFERENCE_FEED, c'.newestRef.value) in c'.staging)
            && c'.output == c.output && c'.published == c.published
    decreases |keys|
  {
    if keys != [] {
      var k := keys[0];
      var newest := if k.feed != REFERENCE_FEED then c.newestRef
                    else Some(if c.newestRef.Some? then Max(c.newestRef.value, k.ptsMs) else k.ptsMs);
      StageKeepsTags(c.(staging := c.staging[k := arm], newestRef := newest), keys[1..], arm);
    }
  }

  lemma FillKeepsInv(s: State, read: PacketRead)
    requires Inv(s) && Enabled(s, FillRead(read))
    ensures Inv(DoFillRead(s, read))
  {
    var s' := DoFillRead(s, read);
    LogGrows(s.hist, s'.hist);
    if read.Frames? {
      StageKeepsTags(s.caches, read.keys, s.hist.arms);
    }
    forall i | 0 <= i < |s.hist.commits|
      ensures CommitOk(s.hist.commits[i], s'.hist, s.gate.committedGen)
    {
      assert CommitOk(s.hist.commits[i], s.hist, s.gate.committedGen);
    }
  }

  // The steps by which the worker classifies and starts a reposition move targets, not history.
  lemma ClassifyKeepsInv(s: State, step: Step)
    requires Inv(s) && Enabled(s, step)
    requires step.TakeSeek? || step.TakeFollow? || step.TakeBackJump? || step.ReadGeneration? || step.BeginRefill?
    ensures Inv(Next(s, step))
  {
    assert Next(s, step).hist == s.hist;
  }

  // Decoding into the live cache, trimming and publishing it touch neither the gate nor the cut.
  lemma LiveCacheKeepsInv(s: State, step: Step)
    requires Inv(s) && Enabled(s, step)
    requires step.PrimaryDecode? || step.TrimAndPublish? || step.PublishTail? || step.RefillDecode? || step.MoveTransport?
    ensures Inv(Next(s, step))
  {
    assert Next(s, step).hist == s.hist;
  }

  lemma EnterFillKeepsInv(s: State)
    requires Inv(s) && s.pc.AtFill?
    ensures Inv(DoEnterFill(s))
  {
    assert DoEnterFill(s).hist == s.hist;
  }

  lemma ScheduleKeepsInv(s: State, next: nat, atOut: int, fps: real)
    requires Inv(s) && Enabled(s, ScheduleCut(next, atOut, fps))
    ensures Inv(DoScheduleCut(s, next, atOut, fps))
  {
    assert DoScheduleCut(s, next, atOut, fps).hist == s.hist;
  }

  lemma StepKeepsInv(s: State, step: Step)
    requires Inv(s) && Enabled(s, step)
    ensures Inv(Next(s, step))
  {
    match step
    case SeekTo(ms) => SeekKeepsInv(s, ms);
    case ArmNextCut(target, fireAt) => ArmKeepsInv(s, target, fireAt);
    case Tick(next, covered, fps) => TickKeepsInv(s, next, covered, fps);
    case TryCommit => CommitKeepsInv(s);
    case ApplyRearm => RearmKeepsInv(s);
    case EnterFill => EnterFillKeepsInv(s);
    case FillRead(read) => FillKeepsInv(s, read);
    case ScheduleCut(next, atOut, fps) => ScheduleKeepsInv(s, next, atOut, fps);
    case TakeSeek => ClassifyKeepsInv(s, step);
    case TakeFollow => ClassifyKeepsInv(s, step);
    case TakeBackJump(_) => ClassifyKeepsInv(s, step);
    case ReadGeneration => ClassifyKeepsInv(s, step);
    case BeginRefill => ClassifyKeepsInv(s, step);
    case _ => LiveCacheKeepsInv(s, step);
  }

  lemma {:induction false} RunKeepsInv(s: State, steps: seq<Step>)
    requires Inv(s)
    ensures Inv(Run(s, steps))
    decreases |steps|
  {
    if steps != [] {
      if Enabled(s, steps[0]) {
        StepKeepsInv(s, steps[0]);
        RunKeepsInv(Next(s, steps[0]), steps[1..]);
      } else {
        RunKeepsInv(s, steps[1..]);
      }
    }
  }

  lemma InitialInv(s: State)
    requires Initial(s)
    ensures Inv(s)
  {
  }
}
