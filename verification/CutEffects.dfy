// What the steps of the seek / armed-cut protocol do to what is shown and cached, over every run from the head of
// the run loop: where a cut leaves the playhead, which frames it promotes, which frames a commit leaves live.
module CutEffects {
  import opened Basics
  import opened CutProtocol
  import opened CutProofs
  import CutSchedule

  // ----------------------------------------------------------- the history

  /** The record of seeks and calls is what the UI asked for, and no other thread adds to it. */
  lemma HistoryIsWhatWasAsked(s: State, step: Step)
    requires Enabled(s, step)
    ensures var h, h' := s.hist, Next(s, step).hist;
            && h'.seeks == (if step.SeekTo? then h.seeks + [Max(0, step.ms)] else h.seeks)
            && h'.calls == (if step.ArmNextCut?
                            then h.calls + [Call(step.target, step.fireAt, |h.seeks|, s.cut.armed)] else h.calls)
            && (h'.fires != h.fires ==> step.Tick?)
            && (h'.exposed != h.exposed ==> step.Tick?)
            && (h'.commits != h.commits ==> step.TryCommit?)
  {
  }

  /** A seek is the pending target whatever was pending, takes a waiting follow and a queued recall with it, and holds
      the playhead at the bookmark; the armed cut is left for its own tick to take down. */
  lemma SeekTakesOver(s: State, ms: int)
    ensures var t := Next(s, SeekTo(ms));
            && t.gate == Gate(s.gate.seekGen + 1, s.gate.committedGen, s.gate.bookmark, s.gate.bookmark, Max(0, ms), -1)
            && t.cut == s.cut.(hasPending := false) && t.caches == s.caches && t.pc == s.pc
  {
  }

  /** A recall is armed at once, for its own target and point, if nothing is armed; else it is the queued one, in place
      of any other, and what is armed stays. */
  lemma RecallIsArmedOrQueued(s: State, target: int, fireAt: int)
    ensures var t := Next(s, ArmNextCut(target, fireAt));
            && t.cut.armed && t.gate == s.gate && t.caches == s.caches
            && (if s.cut.armed then
                  && t.hist.armedCall == s.hist.armedCall && t.hist.arms == s.hist.arms
                  && t.cut.hasPending && t.hist.pendingCall == |s.hist.calls|
                  && t.cut == s.cut.(hasPending := true, pendingTarget := Max(0, target), pendingFireAt := fireAt,
                                     pendingSeekGen := s.gate.seekGen)
                else
                  && t.hist.armedCall == |s.hist.calls| && t.hist.arms == s.hist.arms + 1
                  && t.cut.target == Max(0, target) && t.cut.fireAt == fireAt && t.cut.armSeekGen == s.gate.seekGen
                  && !t.cut.covers && t.cut.scheduledFrame < 0 && t.cut.hasPending == s.cut.hasPending)
  {
  }

  /** Only a tick that fires a cut, or the transport's owner, moves the playhead. */
  lemma OnlyAFireMovesThePlayhead(s: State, step: Step)
    requires Enabled(s, step) && !step.MoveTransport?
    ensures var t := Next(s, step);
            t.transport == s.transport || |t.hist.fires| == |s.hist.fires| + 1
  {
  }

  // ------------------------------------------------------------- the tick

  // The playhead after a cut due at one frame and fired at another: the target, past it when late by the late
  // frames in clip time, rounded down to the millisecond.
  ghost predicate Lands(target: int, due: int, fired: int, fps: real, playhead: int) {
    var late := playhead - target;
    && (fps <= 0.0 || fired == due ==> late == 0)
    && (fps > 0.0 ==> late as real * fps <= (fired - due) as real * 1000.0 < (late + 1) as real * fps)
  }

  // What a tick that fired the armed cut leaves behind.
  ghost predicate Cuts(s: State, t: State, next: nat, fps: real) {
    var h, h' := s.hist, t.hist;
    && IsCall(h, h.armedCall)
    && Lands(Max(0, h.calls[h.armedCall].target), s.cut.scheduledFrame, next, fps, t.transport)
    && |h'.fires| == |h.fires| + 1 && h'.fires[..|h.fires|] == h.fires
    && h'.fires[|h.fires|].promoted == s.caches.staging
    && t.caches.output == t.caches.published == s.caches.staging && t.caches.staging == s.caches.output
    && t.gate.follow == (if t.transport < s.transport then t.transport else s.gate.follow)
    && !t.cut.armed && !t.cut.covers && t.cut.scheduledFrame < 0
  }

  // What a tick shows, and the bookmark it leaves: the held playhead while a seek is owed; else the live one if
  // a frame covers it, and the bookmark if none does.
  predicate Shows(s: State, t: State, covered: Option<int>) {
    var open := s.gate.committedGen == s.gate.seekGen;
    var shown := if !open then s.gate.committedPlayhead
                 else if covered.Some? then t.transport
                 else s.gate.bookmark;
    && t.hist.exposed == s.hist.exposed + [shown]
    && t.gate.bookmark == (if open && covered.Some? && covered.value <= t.transport then covered.value
                           else s.gate.bookmark)
  }

  // The scheduled frame of the armed cut has come.
  predicate IsDue(s: State, next: nat) {
    0 <= s.cut.scheduledFrame <= next
  }

  // A seek came after the call that supplied the armed cut.
  predicate Overtaken(h: History)
    requires IsCall(h, h.armedCall)
  {
    h.calls[h.armedCall].seeksBefore < |h.seeks|
  }

  lemma CutLands(target: int, due: int, fired: int, fps: real)
    requires due <= fired
    ensures Lands(target, due, fired, fps, CutSchedule.PlayheadAfterCut(target, fired, due, fps))
    ensures CutSchedule.PlayheadAfterCut(target, fired, due, fps) >= target
  {
    if fps > 0.0 {
      CutSchedule.OvershootCarriesIntoPlayhead(target, fired, due, fps);
    }
  }

  lemma TickFires(s: State, next: nat, covered: Option<int>, fps: real)
    requires CallInv(s) && GateInv(s) && ScheduleInv(s)
    requires IsDue(s, next) && !Overtaken(s.hist)
    ensures Cuts(s, DoTick(s, next, covered, fps), next, fps)
  {
    CutLands(s.cut.scheduledTarget, s.cut.scheduledFrame, next, fps);
  }

  // What any other tick leaves: it takes a due cut down if a seek came after its call, and moves nothing else.
  ghost predicate Spares(s: State, t: State, next: nat) {
    && t.hist.fires == s.hist.fires && t.transport == s.transport && t.caches == s.caches
    && t.cut.armed == (s.cut.armed && !IsDue(s, next))
    && t.gate.follow == (if IsDue(s, next) then -1 else s.gate.follow)
  }

  lemma TickSpares(s: State, next: nat, covered: Option<int>, fps: real)
    requires CallInv(s) && GateInv(s) && ScheduleInv(s)
    requires IsDue(s, next) ==> Overtaken(s.hist)
    ensures Spares(s, DoTick(s, next, covered, fps), next)
  {
  }

  lemma TickShows(s: State, next: nat, covered: Option<int>, fps: real)
    ensures Shows(s, DoTick(s, next, covered, fps), covered)
  {
  }

  /** In every run a tick fires the armed cut exactly when its frame has come and no seek came after its call, and
      then the playhead, the caches and the follow are where the cut puts them; every tick shows what it should. */
  lemma EveryTickShows(s0: State, steps: seq<Step>, next: nat, covered: Option<int>, fps: real)
    requires Initial(s0) && Enabled(Run(s0, steps), Tick(next, covered, fps))
    ensures var s := Run(s0, steps);
            var t := Next(s, Tick(next, covered, fps));
            && Shows(s, t, covered)
            && (IsDue(s, next) ==> s.cut.armed && IsCall(s.hist, s.hist.armedCall))
            && if IsDue(s, next) && !Overtaken(s.hist) then Cuts(s, t, next, fps) else Spares(s, t, next)
  {
    InitialInv(s0);
    RunKeepsInv(s0, steps);
    var s := Run(s0, steps);
    TickShows(s, next, covered, fps);
    if IsDue(s, next) && !Overtaken(s.hist) {
      TickFires(s, next, covered, fps);
    } else {
      TickSpares(s, next, covered, fps);
    }
  }

  /** The follow that waits after a cut is that cut's own, or none, exactly when the cut goes back, or none waited
      before, or the one that waited is where the cut goes. */
  lemma FollowIsTheLastCutsIff(s: State, next: nat, covered: Option<int>, fps: real)
    requires CallInv(s) && GateInv(s) && ScheduleInv(s)
    requires IsDue(s, next) && !Overtaken(s.hist)
    ensures var t := DoTick(s, next, covered, fps);
            t.gate.follow < 0 || t.gate.follow == t.transport <==>
              s.gate.follow < 0 || t.transport < s.transport || s.gate.follow == t.transport
  {
    TickFires(s, next, covered, fps);
  }

  // The playhead a cut left, with no seek since that cut's call.
  predicate LeftBy(f: Fire, follow: int, seeks: seq<int>) {
    f.seeksBefore == |seeks| && f.target <= follow
  }

  // A waiting follow was left by a cut that no seek has overtaken.
  ghost predicate FollowIsFresh(s: State) {
    s.gate.follow >= 0 ==>
      exists i :: 0 <= i < |s.hist.fires| && LeftBy(s.hist.fires[i], s.gate.follow, s.hist.seeks)
  }

  lemma TickKeepsFollowFresh(s: State, next: nat, covered: Option<int>, fps: real)
    requires FollowIsFresh(s)
    ensures FollowIsFresh(DoTick(s, next, covered, fps))
  {
    var t, n := DoTick(s, next, covered, fps), |s.hist.fires|;
    if CutDue(s, next) {
      CutLands(s.cut.scheduledTarget, s.cut.scheduledFrame, next, fps);
    }
    if t.gate.follow >= 0 {
      if t.gate.follow == s.gate.follow {
        var i :| 0 <= i < n && LeftBy(s.hist.fires[i], s.gate.follow, s.hist.seeks);
        assert t.hist.fires[i] == s.hist.fires[i];
      } else {
        assert LeftBy(t.hist.fires[n], t.gate.follow, t.hist.seeks);
      }
    }
  }

  lemma StepKeepsFollowFresh(s: State, step: Step)
    requires Enabled(s, step) && FollowIsFresh(s)
    ensures FollowIsFresh(Next(s, step))
  {
    match step
    case Tick(next, covered, fps) => TickKeepsFollowFresh(s, next, covered, fps);
    case _ =>
  }

  /** In every run the worker only ever follows a backward cut that no seek has overtaken. A forward cut after it leaves
      its follow waiting. */
  lemma {:induction false} FollowIsAlwaysFresh(s: State, steps: seq<Step>)
    requires FollowIsFresh(s)
    ensures FollowIsFresh(Run(s, steps))
    decreases |steps|
  {
    if steps != [] {
      if Enabled(s, steps[0]) {
        StepKeepsFollowFresh(s, steps[0]);
        FollowIsAlwaysFresh(Next(s, steps[0]), steps[1..]);
      } else {
        FollowIsAlwaysFresh(s, steps[1..]);
      }
    }
  }

  /** A follow left by a backward cut waits for the worker, until a seek or another cut. */
  lemma FollowWaits(s: State, step: Step)
    requires Enabled(s, step) && s.gate.follow >= 0 && !step.SeekTo? && !step.TakeFollow?
    requires Next(s, step).hist.fires == s.hist.fires && Next(s, step).hist.aborts == s.hist.aborts
    ensures Next(s, step).gate.follow == s.gate.follow
  {
  }

  /** Whatever the worker has taken, a seek, a follow or a backward jump, two more steps commit it if no seek comes. */
  lemma EnteredTargetIsServed(s: State)
    requires GateInv(s) && s.pc.Entering? && s.gate.seekTarget < 0
    ensures var t := Run(s, [ReadGeneration, TryCommit]);
            && t.hist.commits == s.hist.commits
                 + [Commit(s.gate.seekGen, s.pc.target, s.gate.seekGen > s.gate.committedGen)]
            && t.gate == s.gate.(committedPlayhead := s.pc.target, bookmark := s.pc.target,
                                 committedGen := s.gate.seekGen)
            && t.pc.LoopHead?
  {
    var s1 := Next(s, ReadGeneration);
    assert [ReadGeneration, TryCommit][1..] == [TryCommit];
    assert Run(s1, [TryCommit]) == Run(Next(s1, TryCommit), [TryCommit][1..]);
  }

  /** So a follow is taken and the decoder brought to it, and so is a backward jump of the playhead. */
  lemma FollowIsServed(s0: State, steps: seq<Step>, playhead: int)
    requires Initial(s0) && Run(s0, steps).gate.seekTarget < 0
    ensures var s := Run(s0, steps);
            && (s.pc.NoSeekSeen? && s.gate.follow >= 0 ==>
                  && Enabled(s, TakeFollow)
                  && Run(Next(s, TakeFollow), [ReadGeneration, TryCommit]).gate
                     == s.gate.(follow := -1, committedPlayhead := s.gate.follow, bookmark := s.gate.follow,
                                committedGen := s.gate.seekGen))
            && (s.pc.NoFollowSeen? ==>
                  && Enabled(s, TakeBackJump(playhead))
                  && Run(Next(s, TakeBackJump(playhead)), [ReadGeneration, TryCommit]).gate
                     == s.gate.(committedPlayhead := playhead, bookmark := playhead, committedGen := s.gate.seekGen))
  {
    InitialInv(s0);
    RunKeepsInv(s0, steps);
    var s := Run(s0, steps);
    if s.pc.NoSeekSeen? && s.gate.follow >= 0 {
      ClassifyKeepsInv(s, TakeFollow);
      EnteredTargetIsServed(Next(s, TakeFollow));
    }
    if s.pc.NoFollowSeen? {
      ClassifyKeepsInv(s, TakeBackJump(playhead));
      EnteredTargetIsServed(Next(s, TakeBackJump(playhead)));
    }
  }

  // ------------------------------------------------------------- schedule

  // A frame at which the cut may fire: the lead in wall time past the dispatcher, and not before the frame of its
  // fire-at point if it has one.
  ghost predicate MayFireAt(frame: int, next: nat, fireAt: int, atOut: int, fps: real) {
    && frame >= next
    && (fps > 0.0 ==> (frame - next) as real * 1000.0 >= CUT_LEAD_MS as real * fps)
    && (fireAt >= 0 ==> frame >= atOut)
  }

  /** A covered cut is scheduled at the least frame its lead and its call's fire-at point allow. */
  lemma CutIsScheduledAtTheLeastFrame(s0: State, steps: seq<Step>, next: nat, atOut: int, fps: real, earlier: int)
    requires Initial(s0) && Enabled(Run(s0, steps), ScheduleCut(next, atOut, fps))
    requires Run(s0, steps).cut.covers
    ensures var s := Run(s0, steps);
            var c := Next(s, ScheduleCut(next, atOut, fps)).cut;
            && s.cut.armed && IsCall(s.hist, s.hist.armedCall)
            && var call := s.hist.calls[s.hist.armedCall];
               && c.scheduledTarget == Max(0, call.target)
               && MayFireAt(c.scheduledFrame, next, call.fireAt, atOut, fps)
               && (earlier < c.scheduledFrame ==> !MayFireAt(earlier, next, call.fireAt, atOut, fps))
  {
    InitialInv(s0);
    RunKeepsInv(s0, steps);
    if fps > 0.0 {
      CutSchedule.LeadCoversWallTime(CUT_LEAD_MS, fps);
      if earlier - next < CutSchedule.FramesForLeadMs(CUT_LEAD_MS, fps) {
        assert (earlier - next) as real <= (CutSchedule.FramesForLeadMs(CUT_LEAD_MS, fps) - 1) as real;
      }
    }
  }

  predicate TicksBefore(steps: seq<Step>, frame: int) {
    forall i :: 0 <= i < |steps| ==> steps[i].Tick? ==> steps[i].next < frame
  }

  lemma StepKeepsSchedule(s: State, step: Step)
    requires ScheduleInv(s) && Enabled(s, step) && s.cut.scheduledFrame >= 0
    requires step.Tick? ==> step.next < s.cut.scheduledFrame
    ensures var t := Next(s, step);
            && t.cut.scheduledFrame == s.cut.scheduledFrame && t.hist.fires == s.hist.fires
            && t.hist.aborts == s.hist.aborts
  {
  }

  /** Until a tick of that frame nothing moves the schedule: the cut neither fires nor goes away. */
  lemma {:induction false} ScheduledCutWaits(s: State, more: seq<Step>)
    requires Inv(s) && s.cut.scheduledFrame >= 0 && TicksBefore(more, s.cut.scheduledFrame)
    ensures var t := Run(s, more);
            && t.cut.scheduledFrame == s.cut.scheduledFrame && t.hist.fires == s.hist.fires
            && t.hist.aborts == s.hist.aborts
    decreases |more|
  {
    if more != [] {
      if Enabled(s, more[0]) {
        StepKeepsInv(s, more[0]);
        StepKeepsSchedule(s, more[0]);
        ScheduledCutWaits(Next(s, more[0]), more[1..]);
      } else {
        ScheduledCutWaits(s, more[1..]);
      }
    }
  }

  // -------------------------------------------------------------- staging

  /** A packet's frames join what is staged, under their arm, and nothing else does. */
  lemma {:induction false} StageHoldsEveryFrame(c: Caches, keys: seq<Key>, arm: nat, k: Key)
    ensures var staged := Stage(c, keys, arm).staging;
            && (k in staged <==> k in keys || k in c.staging)
            && (k in keys ==> staged[k] == arm)
            && (k in c.staging && k !in keys ==> staged[k] == c.staging[k])
    ensures Stage(c, keys, arm).output == c.output && Stage(c, keys, arm).published == c.published
    decreases |keys|
  {
    if keys != [] {
      var first := keys[0];
      var newest := if first.feed != REFERENCE_FEED then c.newestRef
                    else Some(if c.newestRef.Some? then Max(c.newestRef.value, first.ptsMs) else first.ptsMs);
      StageHoldsEveryFrame(c.(staging := c.staging[first := arm], newestRef := newest), keys[1..], arm, k);
      assert k in keys <==> k == first || k in keys[1..];
    }
  }

  // The newest reference frame is the newest one staged.
  ghost predicate NewestKnown(c: Caches) {
    && (c.newestRef.Some? ==> Key(REFERENCE_FEED, c.newestRef.value) in c.staging)
    && forall k :: k in c.staging && k.feed == REFERENCE_FEED ==> c.newestRef.Some? && k.ptsMs <= c.newestRef.value
  }

  lemma {:induction false} StageKeepsNewest(c: Caches, keys: seq<Key>, arm: nat)
    requires NewestKnown(c)
    ensures NewestKnown(Stage(c, keys, arm))
    decreases |keys|
  {
    if keys != [] {
      var k := keys[0];
      var newest := if k.feed != REFERENCE_FEED then c.newestRef
                    else Some(if c.newestRef.Some? then Max(c.newestRef.value, k.ptsMs) else k.ptsMs);
      StageKeepsNewest(c.(staging := c.staging[k := arm], newestRef := newest), keys[1..], arm);
    }
  }

  ghost predicate Known(s: State) {
    s.cut.armed && !s.cut.prerollSeek ==> NewestKnown(s.caches)
  }

  lemma StepKeepsKnown(s: State, step: Step)
    requires ScheduleInv(s) && Enabled(s, step) && Known(s)
    ensures Known(Next(s, step))
  {
    if step.FillRead? && step.read.Frames? {
      StageKeepsNewest(s.caches, step.read.keys, s.hist.arms);
    }
  }

  lemma {:induction false} RunKeepsKnown(s: State, steps: seq<Step>)
    requires Inv(s) && Known(s)
    ensures Known(Run(s, steps))
    decreases |steps|
  {
    if steps != [] {
      if Enabled(s, steps[0]) {
        StepKeepsInv(s, steps[0]);
        StepKeepsKnown(s, steps[0]);
        RunKeepsKnown(Next(s, steps[0]), steps[1..]);
      } else {
        RunKeepsKnown(s, steps[1..]);
      }
    }
  }

  /** A packet completes the window exactly when it is the end of the file or the staged reference feed then reaches
      800 ms past the call's target. */
  lemma CoveredIff(s0: State, steps: seq<Step>, read: PacketRead)
    requires Initial(s0) && Enabled(Run(s0, steps), FillRead(read))
    ensures var s := Run(s0, steps);
            var t := Next(s, FillRead(read));
            && IsCall(s.hist, s.hist.armedCall)
            && (t.cut.covers <==>
                  read.EndOrError?
                  || ReachesPast(t.caches.staging, Max(0, s.hist.calls[s.hist.armedCall].target) + 800))
  {
    InitialInv(s0);
    RunKeepsInv(s0, steps);
    RunKeepsKnown(s0, steps);
    var s := Run(s0, steps);
    if read.Frames? {
      StageKeepsNewest(s.caches, read.keys, s.hist.arms);
    }
  }

  // While its arm lasts the frame is staged; a cut of that arm fired since the n-th promoted it.
  ghost predicate KeptFor(s: State, arm: nat, n: nat, k: Key) {
    && arm <= s.hist.arms && n <= |s.hist.fires|
    && (s.hist.arms == arm && s.cut.armed ==> !s.cut.prerollSeek && k in s.caches.staging)
    && forall i :: n <= i < |s.hist.fires| && s.hist.fires[i].arm == arm ==> k in s.hist.fires[i].promoted
  }

  lemma FillKeepsFrame(s: State, read: PacketRead, arm: nat, n: nat, k: Key)
    requires Enabled(s, FillRead(read)) && KeptFor(s, arm, n, k)
    ensures KeptFor(Next(s, FillRead(read)), arm, n, k)
  {
    if read.Frames? {
      StageHoldsEveryFrame(s.caches, read.keys, s.hist.arms, k);
    }
  }

  lemma TickKeepsFrame(s: State, next: nat, covered: Option<int>, fps: real, arm: nat, n: nat, k: Key)
    requires ScheduleInv(s) && KeptFor(s, arm, n, k)
    ensures KeptFor(DoTick(s, next, covered, fps), arm, n, k)
  {
  }

  lemma StepKeepsFrame(s: State, step: Step, arm: nat, n: nat, k: Key)
    requires ScheduleInv(s) && Enabled(s, step) && KeptFor(s, arm, n, k)
    ensures KeptFor(Next(s, step), arm, n, k)
  {
    match step
    case Tick(next, covered, fps) => TickKeepsFrame(s, next, covered, fps, arm, n, k);
    case FillRead(read) => FillKeepsFrame(s, read, arm, n, k);
    case _ =>
  }

  lemma {:induction false} RunKeepsFrame(s: State, steps: seq<Step>, arm: nat, n: nat, k: Key)
    requires Inv(s) && KeptFor(s, arm, n, k)
    ensures KeptFor(Run(s, steps), arm, n, k)
    decreases |steps|
  {
    if steps != [] {
      if Enabled(s, steps[0]) {
        StepKeepsInv(s, steps[0]);
        StepKeepsFrame(s, steps[0], arm, n, k);
        RunKeepsFrame(Next(s, steps[0]), steps[1..], arm, n, k);
      } else {
        RunKeepsFrame(s, steps[1..], arm, n, k);
      }
    }
  }

  /** Every frame the pre-roll decodes for an arm is in the cache its cut promotes, however the run goes on. */
  lemma EveryStagedFrameIsPromoted(s0: State, steps: seq<Step>, keys: seq<Key>, k: Key, more: seq<Step>, i: nat)
    requires Initial(s0) && Enabled(Run(s0, steps), FillRead(Frames(keys))) && k in keys
    requires var s := Run(s0, steps);
             var h := Run(Next(s, FillRead(Frames(keys))), more).hist;
             |s.hist.fires| <= i < |h.fires| && h.fires[i].arm == s.hist.arms
    ensures var h := Run(Next(Run(s0, steps), FillRead(Frames(keys))), more).hist;
            k in h.fires[i].promoted
  {
    InitialInv(s0);
    RunKeepsInv(s0, steps);
    var s := Run(s0, steps);
    StepKeepsInv(s, FillRead(Frames(keys)));
    StageHoldsEveryFrame(s.caches, keys, s.hist.arms, k);
    RunKeepsFrame(Next(s, FillRead(Frames(keys))), more, s.hist.arms, |s.hist.fires|, k);
  }

  // --------------------------------------------------------------- commit

  // The live cache holds of the frames of two others those at or past the cutoff and, of each feed, the newest
  // older one; nothing else. A frame of the second hides one of the first.
  ghost predicate HoldsFrom(live: Cache, first: Cache, second: Cache, cutoff: int) {
    && (forall k :: k in live ==> k in second || k in first)
    && (forall k :: k in live ==> live[k] == (if k in second then second[k] else first[k]))
    && (forall k :: (k in first || k in second) && k.ptsMs >= cutoff ==> k in live)
    && (forall k, l :: k in live && (l in first || l in second) && l.feed == k.feed && k.ptsMs < l.ptsMs
                       ==> l.ptsMs >= cutoff)
    && (forall k :: (k in first || k in second) && k.ptsMs < cutoff ==> HasNewestOlder(live, k, cutoff))
  }

  // A frame of the same feed, at or past the given one, is the one kept from before the cutoff.
  ghost predicate HasNewestOlder(live: Cache, k: Key, cutoff: int) {
    exists l :: l in live && l.feed == k.feed && k.ptsMs <= l.ptsMs < cutoff
  }

  // The feed's newest frame before the cutoff survives the trim.
  lemma {:induction false} NewestOlderIsKept(c: Cache, k: Key, cutoff: int)
    requires k in c && k.ptsMs < cutoff
    ensures HasNewestOlder(TrimBefore(c, cutoff), k, cutoff)
    decreases cutoff - k.ptsMs
  {
    if l :| l in c && l.feed == k.feed && k.ptsMs < l.ptsMs < cutoff {
      NewestOlderIsKept(c, l, cutoff);
    } else {
      assert k in TrimBefore(c, cutoff);
    }
  }

  lemma TrimHolds(first: Cache, second: Cache, cutoff: int)
    ensures HoldsFrom(TrimBefore(first + second, cutoff), first, second, cutoff)
  {
    forall k | (k in first || k in second) && k.ptsMs < cutoff
      ensures HasNewestOlder(TrimBefore(first + second, cutoff), k, cutoff)
    {
      NewestOlderIsKept(first + second, k, cutoff);
    }
  }

  // The current reposition is the latest thing asked for.
  predicate MayCommit(s: State)
    requires Enabled(s, TryCommit)
  {
    s.pc.startedGen == s.gate.seekGen && s.gate.seekTarget < 0
  }

  /** A commit makes its target the committed playhead and the bookmark and closes the gap of the generations; a
      reposition over frames already live leaves the caches as they are. */
  lemma CommitServes(s: State)
    requires Enabled(s, TryCommit) && MayCommit(s)
    ensures var t := Next(s, TryCommit);
            && t.gate == s.gate.(committedPlayhead := s.pc.target, bookmark := s.pc.target,
                                 committedGen := s.gate.seekGen)
            && t.hist.commits == s.hist.commits
                 + [Commit(s.gate.seekGen, s.pc.target, s.gate.seekGen > s.gate.committedGen)]
            && (s.pc.Started? ==> t.caches == s.caches)
  {
  }

  lemma CommitTrims(s: State)
    requires s.pc.Refilling? && MayCommit(s)
    ensures var live := TrimBefore(s.pc.saved + s.caches.output, s.pc.target - LEAD_MS);
            Next(s, TryCommit).caches == s.caches.(output := live, published := live)
  {
  }

  /** After a refill the live and the published cache are the saved frames with the refilled ones, from half a
      second before the target on. */
  lemma CommitHolds(s: State)
    requires s.pc.Refilling? && MayCommit(s)
    ensures var c := Next(s, TryCommit).caches;
            && HoldsFrom(c.output, s.pc.saved, s.caches.output, s.pc.target - LEAD_MS)
            && c.published == c.output && c.staging == s.caches.staging
  {
    CommitTrims(s);
    TrimHolds(s.pc.saved, s.caches.output, s.pc.target - LEAD_MS);
  }

  // The steps that publish the live cache: the worker's own, a cut, and the commit of a refill.
  predicate Publishes(s: State, t: State, step: Step) {
    || step.PublishTail? || step.TrimAndPublish?
    || |t.hist.fires| > |s.hist.fires|
    || (s.pc.Refilling? && |t.hist.commits| > |s.hist.commits|)
  }

  lemma TickPublishes(s: State, next: nat, covered: Option<int>, fps: real)
    ensures var t := DoTick(s, next, covered, fps);
            t.caches.published == (if |t.hist.fires| > |s.hist.fires| then t.caches.output else s.caches.published)
    ensures DoTick(s, next, covered, fps).hist.commits == s.hist.commits
  {
  }

  /** What is published is always a whole live cache as it stood at one step; a decoded frame joins the live cache and
      takes nothing out of it. */
  lemma PublishedIsAWholeLiveCache(s: State, step: Step)
    requires Enabled(s, step)
    ensures var t := Next(s, step);
            && t.caches.published == (if Publishes(s, t, step) then t.caches.output else s.caches.published)
            && (step.PublishTail? ==> t.caches.output == s.caches.output)
            && (step.PrimaryDecode? || step.RefillDecode? ==>
                  forall k :: k in t.caches.output <==> k == step.key || k in s.caches.output)
  {
    match step
    case Tick(next, covered, fps) => TickPublishes(s, next, covered, fps);
    case FillRead(read) =>
      if read.Frames? { StageHoldsEveryFrame(s.caches, read.keys, s.hist.arms, Key(0, 0)); }
    case _ =>
  }

  /** A superseded reposition leaves the gate, and puts the saved cache back. */
  lemma SupersededLeavesTheGate(s: State)
    requires Enabled(s, TryCommit) && !MayCommit(s)
    ensures var t := Next(s, TryCommit);
            && t.gate == s.gate && t.hist == s.hist
            && t.caches == s.caches.(output := if s.pc.Refilling? then s.pc.saved else s.caches.output)
  {
  }

  lemma PlusNothing(c: Cache, none: Cache)
    requires none == map[]
    ensures c + none == c
  {
  }

  lemma TrimAloneHolds(c: Cache, none: Cache, cutoff: int)
    requires c + none == c
    ensures HoldsFrom(TrimBefore(c, cutoff), c, none, cutoff)
  {
    TrimHolds(c, none, cutoff);
  }

  /** The forward trim keeps by the same rule, and publishes what it keeps. */
  lemma TrimAndPublishHolds(s: State, keepFrom: int)
    requires Enabled(s, TrimAndPublish(keepFrom))
    ensures var c := Next(s, TrimAndPublish(keepFrom)).caches;
            HoldsFrom(c.output, s.caches.output, map[], keepFrom) && c.published == c.output
  {
    PlusNothing(s.caches.output, map[]);
    TrimAloneHolds(s.caches.output, map[], keepFrom);
    var kept := TrimBefore(s.caches.output, keepFrom);
    assert Next(s, TrimAndPublish(keepFrom)).caches == s.caches.(output := kept, published := kept);
  }

  lemma StepKeepsRefill(s: State, step: Step)
    requires Enabled(s, step) && s.pc.Refilling? && !step.TryCommit?
    ensures var t := Next(s, step);
            && t.pc == s.pc && s.hist.fires <= t.hist.fires
            && (t.hist.fires == s.hist.fires ==> forall k :: k in s.caches.output ==> k in t.caches.output)
  {
  }

  lemma {:induction false} RunKeepsRefill(s: State, steps: seq<Step>)
    requires s.pc.Refilling? && forall i :: 0 <= i < |steps| ==> !steps[i].TryCommit?
    ensures var t := Run(s, steps);
            && t.pc == s.pc && s.hist.fires <= t.hist.fires
            && (t.hist.fires == s.hist.fires ==> forall k :: k in s.caches.output ==> k in t.caches.output)
    decreases |steps|
  {
    if steps != [] {
      if Enabled(s, steps[0]) {
        StepKeepsRefill(s, steps[0]);
        RunKeepsRefill(Next(s, steps[0]), steps[1..]);
      } else {
        RunKeepsRefill(s, steps[1..]);
      }
    }
  }

  /** A frame decoded by a refill, at or past half a second before its target, is live and published after the
      commit of that reposition, whatever else the threads do before it, unless a cut fires in between. */
  lemma RefilledFrameIsLive(s: State, k: Key, more: seq<Step>)
    requires s.pc.Refilling? && k.ptsMs >= s.pc.target - LEAD_MS
    requires forall i :: 0 <= i < |more| ==> !more[i].TryCommit?
    requires var t := Run(Next(s, RefillDecode(k)), more);
             t.hist.fires == s.hist.fires && t.gate.seekGen == s.pc.startedGen && t.gate.seekTarget < 0
    ensures var t := Run(Next(s, RefillDecode(k)), more);
            && Enabled(t, TryCommit)
            && var c := Next(t, TryCommit).caches;
               k in c.output && k in c.published
  {
    var s1 := Next(s, RefillDecode(k));
    RunKeepsRefill(s1, more);
    CommitHolds(Run(s1, more));
  }

  /** A reposition that is superseded leaves the live cache it began with, whatever was refilled or cut meanwhile. */
  lemma SupersededRepositionRestores(s: State, more: seq<Step>)
    requires s.pc.Started? && forall i :: 0 <= i < |more| ==> !more[i].TryCommit?
    requires var t := Run(Next(s, BeginRefill), more);
             t.gate.seekGen != s.pc.startedGen || t.gate.seekTarget >= 0
    ensures var t := Run(Next(s, BeginRefill), more);
            && Enabled(t, TryCommit)
            && Next(t, TryCommit).caches.output == s.caches.output
            && Next(t, TryCommit).gate == t.gate
  {
    var s1 := Next(s, BeginRefill);
    RunKeepsRefill(s1, more);
    SupersededLeavesTheGate(Run(s1, more));
  }
}
