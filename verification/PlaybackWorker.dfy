// The worker object of playback/playbackworker.cpp: one method for each critical section, each tied to
// its step of CutProtocol, so that what is proved of every run holds of every use of the object. The
// atomics are grouped in the records of the protocol; the history records what happened and is read by
// nothing else.
module PlaybackWorker {
  import opened Basics
  import opened CommitGate
  import opened CutProtocol
  import CutSchedule

  class Worker {
    var gate: Gate
    var cut: Cut
    var caches: Caches
    var pc: Pc
    var transportMs: int
    var dispatcherIndex: nat
    var hist: History
    const prerollAvailable: bool

    ghost function View(): State
      reads this
    {
      State(gate, cut, caches, pc, transportMs, dispatcherIndex, hist)
    }

    constructor (prerollAvailable: bool)
      ensures Initial(View()) && this.prerollAvailable == prerollAvailable
    {
      this.prerollAvailable := prerollAvailable;
      gate := Gate(0, 0, 0, 0, -1, -1);
      cut := Cut(false, -1, -1, false, false, -1, -1, 0, false, -1, -1, 0, 0);
      caches := Caches(map[], map[], map[], None);
      pc, transportMs, dispatcherIndex := LoopHead, 0, 0;
      hist := History(0, [], [], [], -1, -1, [], [], 0, 0, [], false, []);
    }

    // ------------------------------------------------------------- UI thread

    method SeekTo(timestampMs: int)
      modifies this`gate, this`cut, this`hist
      ensures View() == DoSeekTo(old(View()), timestampMs)
    {
      var clamped := if timestampMs > 0 then timestampMs else 0;
      gate := gate.(seekTarget := clamped);
      gate := gate.(follow := -1);
      cut := cut.(hasPending := false);
      gate := gate.(committedPlayhead := gate.bookmark);
      gate := gate.(seekGen := gate.seekGen + 1);
      hist := hist.(seeks := hist.seeks + [clamped]);
    }

    method ArmNextCut(targetMs: int, fireAtPlayheadMs: int) returns (accepted: bool)
      modifies this`cut, this`hist
      ensures accepted == prerollAvailable
      ensures View() == if accepted then DoArmNextCut(old(View()), targetMs, fireAtPlayheadMs) else old(View())
    {
      if !prerollAvailable { return false; }
      var id := |hist.calls|;
      hist := hist.(calls := hist.calls + [Call(targetMs, fireAtPlayheadMs, |hist.seeks|, cut.armed)]);
      if cut.armed {
        cut := cut.(pendingTarget := if targetMs < 0 then 0 else targetMs);
        cut := cut.(pendingFireAt := fireAtPlayheadMs);
        cut := cut.(pendingSeekGen := gate.seekGen);
        cut := cut.(hasPending := true);
        hist := hist.(pendingCall := id);
        return true;
      }
      ArmCutInternal(targetMs, gate.seekGen, fireAtPlayheadMs);
      hist := hist.(armedCall := id, arms := hist.arms + 1, fileEnded := false);
      return true;
    }

    method ArmCutInternal(targetMs: int, baselineSeekGen: nat, fireAtPlayheadMs: int)
      modifies this`cut
      ensures cut == ArmInternal(old(cut), targetMs, baselineSeekGen, fireAtPlayheadMs)
    {
      cut := cut.(target := if targetMs < 0 then 0 else targetMs);
      cut := cut.(fireAt := fireAtPlayheadMs);
      cut := cut.(prerollSeek := true);
      cut := cut.(covers := false);
      cut := cut.(scheduledFrame := -1);
      cut := cut.(armSeekGen := baselineSeekGen);
      cut := cut.(armed := true);
    }

    // --------------------------------------------------------- output thread

    method MaybeFireScheduledCut(next: nat, fps: real)
      modifies this`gate, this`cut, this`caches, this`transportMs, this`hist
      ensures View() == FireOrAbort(old(View()), next, fps)
    {
      var scheduled := cut.scheduledFrame;
      if scheduled < 0 { return; }
      if !CutSchedule.ShouldFireAt(next, scheduled) { return; }
      if gate.seekGen != cut.armSeekGen {
        AbortScheduledCut();
        return;
      }
      PromoteStaging(CutSchedule.PlayheadAfterCut(cut.scheduledTarget, next, scheduled, fps));
    }

    method AbortScheduledCut()
      modifies this`gate, this`cut, this`hist
      ensures View() == DoAbort(old(View()))
    {
      cut := cut.(scheduledFrame := -1, covers := false);
      gate := gate.(follow := -1);
      cut := cut.(target := -1, fireAt := -1, prerollSeek := false);
      cut := cut.(armed := false);
      hist := hist.(aborts := hist.aborts + 1);
    }

    method PromoteStaging(newPlayhead: int)
      modifies this`gate, this`cut, this`caches, this`transportMs, this`hist
      ensures View() == DoFire(old(View()), newPlayhead)
    {
      var target := cut.scheduledTarget;
      var prePlayhead := transportMs;
      caches := caches.(output := caches.staging, staging := caches.output);
      caches := caches.(published := caches.output);
      if newPlayhead < prePlayhead { gate := gate.(follow := newPlayhead); }
      transportMs := if newPlayhead > 0 then newPlayhead else 0;
      cut := cut.(covers := false, scheduledFrame := -1);
      cut := cut.(fired := cut.fired + 1);
      cut := cut.(armed := false);
      hist := hist.(fires := hist.fires + [Fire(hist.armedCall, target, |hist.seeks|, hist.arms,
                                                caches.output, hist.fileEnded)]);
    }

    method MakeOutputSnapshot(next: nat, covered: Option<int>, fps: real) returns (playheadMs: int)
      requires next >= dispatcherIndex
      modifies this
      ensures View() == DoTick(old(View()), next, covered, fps)
      ensures hist.exposed == old(hist.exposed) + [playheadMs]
    {
      MaybeFireScheduledCut(next, fps);
      dispatcherIndex := next;
      var g := gate;
      playheadMs := VisiblePlayhead(transportMs, g.committedPlayhead, g.committedGen, g.seekGen);
      if g.committedGen == g.seekGen {
        var coveredPts := if covered.Some? then covered.value else playheadMs;
        playheadMs := CacheGuardedPlayhead(playheadMs, g.bookmark, covered.Some?, g.committedGen, g.seekGen);
        gate := g.(bookmark := BookmarkedPlayhead(g.bookmark, playheadMs, coveredPts, covered.Some?,
                                                  g.committedGen, g.seekGen));
      }
      hist := hist.(exposed := hist.exposed + [playheadMs]);
    }

    // --------------------------------------------------------- worker thread

    method TakeSeekTarget()
      requires pc.LoopHead?
      modifies this`gate, this`pc
      ensures View() == DoTakeSeek(old(View()))
    {
      if gate.seekTarget >= 0 {
        pc := Entering(gate.seekTarget, Explicit);
        gate := gate.(seekTarget := -1);
      } else {
        pc := NoSeekSeen;
      }
    }

    method TakeDecoderFollow()
      requires pc.NoSeekSeen?
      modifies this`gate, this`pc
      ensures View() == DoTakeFollow(old(View()))
    {
      var follow := gate.follow;
      gate := gate.(follow := -1);
      pc := if follow >= 0 then Entering(follow, Follow) else NoFollowSeen;
    }

    method ReadSeekGeneration()
      requires pc.Entering?
      modifies this`pc
      ensures View() == DoReadGeneration(old(View()))
    {
      pc := Started(pc.target, pc.kind, gate.seekGen);
    }

    method SetLiveCacheAside()
      requires pc.Started?
      modifies this`pc, this`caches
      ensures View() == DoBeginRefill(old(View()))
    {
      pc := Refilling(pc.target, pc.kind, pc.startedGen, caches.output);
      caches := caches.(output := map[]);
    }

    method CommitOrAbort() returns (committed: bool)
      requires pc.Started? || pc.Refilling?
      modifies this`gate, this`caches, this`pc, this`hist
      ensures View() == DoTryCommit(old(View()))
      ensures committed == CanCommit(old(pc.startedGen), old(gate.seekGen), old(gate.seekTarget >= 0))
    {
      committed := CanCommit(pc.startedGen, gate.seekGen, gate.seekTarget >= 0);
      if committed {
        CommitReposition();
      } else {
        if pc.Refilling? {
          caches := caches.(output := pc.saved);
        }
        pc := LoopHead;
      }
    }

    method CommitReposition()
      requires pc.Started? || pc.Refilling?
      modifies this`gate, this`caches, this`pc, this`hist
      ensures View() == DoCommit(old(View()))
    {
      var target, started := pc.target, pc.startedGen;
      hist := hist.(commits := hist.commits + [Commit(started, target, started > gate.committedGen)]);
      if pc.Refilling? {
        caches := caches.(output := TrimBefore(pc.saved + caches.output, target - LEAD_MS));
        caches := caches.(published := caches.output);
      }
      gate := gate.(committedPlayhead := target, bookmark := target);
      gate := gate.(committedGen := started);
      pc := LoopHead;
    }

    method ApplyQueuedRearm()
      requires pc.AtRearm?
      modifies this`cut, this`pc, this`hist
      ensures View() == DoApplyRearm(old(View()))
    {
      if !cut.armed && cut.hasPending {
        cut := cut.(hasPending := false);
        var qgen := cut.pendingSeekGen;
        if gate.seekTarget < 0 && gate.seekGen == qgen {
          ArmCutInternal(cut.pendingTarget, qgen, cut.pendingFireAt);
          hist := hist.(applies := hist.applies + [Apply(hist.pendingCall, |hist.calls|)],
                        armedCall := hist.pendingCall, arms := hist.arms + 1, fileEnded := false);
        } else {
          hist := hist.(drops := hist.drops + [Drop(hist.pendingCall, |hist.seeks|)]);
        }
      }
      pc := AtFill;
    }

    method EnterFillStaging()
      requires pc.AtFill?
      modifies this`cut, this`caches, this`pc
      ensures View() == DoEnterFill(old(View()))
    {
      if !cut.armed || cut.covers || cut.target < 0 {
        pc := LoopHead;
        return;
      }
      if cut.prerollSeek {
        cut := cut.(prerollSeek := false);
        caches := caches.(staging := map[], newestRef := None);
      }
      pc := Filling(cut.target, 0);
    }

    // The frames one packet decodes to go into the staging cache one by one.
    method StageFrames(keys: seq<Key>)
      modifies this`caches
      ensures caches == Stage(old(caches), keys, hist.arms)
    {
      var i := 0;
      while i < |keys|
        invariant 0 <= i <= |keys|
        invariant Stage(caches, keys[i..], hist.arms) == Stage(old(caches), keys, hist.arms)
      {
        var k := keys[i];
        assert keys[i..][0] == k && keys[i..][1..] == keys[i + 1..];
        caches := caches.(staging := caches.staging[k := hist.arms]);
        if k.feed == REFERENCE_FEED {
          var newest := if caches.newestRef.Some? then Max(caches.newestRef.value, k.ptsMs) else k.ptsMs;
          caches := caches.(newestRef := Some(newest));
        }
        i := i + 1;
      }
    }

    method ReadPrerollPacket(read: PacketRead)
      requires Enabled(View(), FillRead(read))
      modifies this`cut, this`caches, this`pc, this`hist
      ensures View() == DoFillRead(old(View()), read)
    {
      match read {
        case EndOrError =>
          cut := cut.(covers := true);
          hist := hist.(fileEnded := true);
        case Frames(keys) =>
          StageFrames(keys);
          var coverTo := pc.target + STAGING_SPAN_MS;
          pc := Filling(pc.target, pc.packets + 1);
          if caches.newestRef.Some? && caches.newestRef.value >= coverTo {
            cut := cut.(covers := true);
          }
      }
    }

    // The end of fillStaging: schedule a covered cut a lead ahead, or at its fire-at frame if that is later.
    method ScheduleCoveredCut(next: nat, atOut: int, fps: real)
      requires Enabled(View(), ScheduleCut(next, atOut, fps))
      modifies this`cut, this`pc
      ensures View() == DoScheduleCut(old(View()), next, atOut, fps)
    {
      if cut.armed && cut.covers && cut.scheduledFrame < 0 {
        var lead := CutSchedule.FramesForLeadMs(CUT_LEAD_MS, fps);
        var asapFrame := CutSchedule.OutputFrameForCut(next, lead);
        var fireFrame := asapFrame;
        if cut.fireAt >= 0 && atOut > asapFrame { fireFrame := atOut; }
        cut := cut.(scheduledTarget := cut.target);
        cut := cut.(scheduledFrame := fireFrame);
      }
      pc := LoopHead;
    }
  }
}
