// The promises of the seek / armed-cut protocol, over every run from the head of the run loop.
module CutTheorems {
  import opened Basics
  import opened CutProtocol
  import opened CutProofs
  import CutSchedule

  /** A fired cut jumps to the target of the call that supplied it, and no seek came after that call. */
  lemma FiredCutWasNotOvertaken(s0: State, steps: seq<Step>, i: nat)
    requires Initial(s0) && i < |Run(s0, steps).hist.fires|
    ensures var h := Run(s0, steps).hist;
            var f := h.fires[i];
            && IsCall(h, f.call)
            && f.target == Clamp(h.calls[f.call].target)
            && f.seeksBefore == h.calls[f.call].seeksBefore
  {
    InitialInv(s0);
    RunKeepsInv(s0, steps);
    assert FireOk(Run(s0, steps).hist.fires[i], Run(s0, steps).hist);
  }

  /** The cache a cut promotes was filled after that arm's own clear, and reaches the end of the
      staging window unless the file ended first. */
  lemma PromotedCacheIsThisArmsWindow(s0: State, steps: seq<Step>, i: nat)
    requires Initial(s0) && i < |Run(s0, steps).hist.fires|
    ensures var f := Run(s0, steps).hist.fires[i];
            && StagedBy(f.promoted, f.arm)
            && (f.fileEnded || ReachesPast(f.promoted, f.target + STAGING_SPAN_MS))
  {
    InitialInv(s0);
    RunKeepsInv(s0, steps);
    assert FireOk(Run(s0, steps).hist.fires[i], Run(s0, steps).hist);
  }

  /** A queued re-arm that is applied is the last one queued, and carries its own target and baseline. */
  lemma AppliedRearmIsTheLastQueued(s0: State, steps: seq<Step>)
    requires Initial(s0) && Run(s0, steps).pc.AtRearm?
    ensures var s := Run(s0, steps);
            var s' := DoApplyRearm(s);
            (s'.hist.applies != s.hist.applies ==>
               var i := s'.hist.armedCall;
               && LastQueued(s.hist, i, |s.hist.calls|)
               && s'.cut.armed && s'.cut.target == Clamp(s.hist.calls[i].target)
               && s'.cut.armSeekGen == s.hist.baseGen + s.hist.calls[i].seeksBefore)
  {
    InitialInv(s0);
    RunKeepsInv(s0, steps);
  }

  /** The drop branch never sees what its comment describes: whenever it drops a queued re-arm, no seek
      was issued after that recall. It drops one exactly when an older seek is still waiting. */
  lemma DroppedRearmIsNewerThanTheSeek(s0: State, steps: seq<Step>)
    requires Initial(s0) && Run(s0, steps).pc.AtRearm?
    requires !Run(s0, steps).cut.armed && Run(s0, steps).cut.hasPending
    ensures var s := Run(s0, steps);
            && IsCall(s.hist, s.hist.pendingCall)
            && s.hist.calls[s.hist.pendingCall].seeksBefore == |s.hist.seeks|
            && (DoApplyRearm(s).hist.drops != s.hist.drops <==> s.gate.seekTarget >= 0)
            && (DoApplyRearm(s).cut.armed <==> s.gate.seekTarget < 0)
  {
    InitialInv(s0);
    RunKeepsInv(s0, steps);
  }

  /** The first commit that raises the committed generation to g carries the target of the g-th seek. */
  lemma RaisingCommitServesItsSeek(s0: State, steps: seq<Step>, i: nat)
    requires Initial(s0) && i < |Run(s0, steps).hist.commits|
    ensures var s := Run(s0, steps);
            var c := s.hist.commits[i];
            && s.gate.committedGen <= s.gate.seekGen
            && (c.raised ==> s.hist.baseGen < c.gen <= s.hist.baseGen + |s.hist.seeks|
                             && c.target == s.hist.seeks[c.gen - s.hist.baseGen - 1])
  {
    InitialInv(s0);
    RunKeepsInv(s0, steps);
    assert CommitOk(Run(s0, steps).hist.commits[i], Run(s0, steps).hist, Run(s0, steps).gate.committedGen);
  }

  /** While the generations differ, the latest target is pending or is the one the worker is at. */
  lemma LatestTargetIsNeverLost(s0: State, steps: seq<Step>)
    requires Initial(s0)
    ensures var s := Run(s0, steps);
            s.gate.committedGen != s.gate.seekGen ==>
              && s.hist.seeks != []
              && (s.gate.seekTarget == Last(s.hist.seeks)
                  || (InFlight(s) && s.pc.target == Last(s.hist.seeks)))
  {
    InitialInv(s0);
    RunKeepsInv(s0, steps);
  }

  /** Only a commit of the latest target reopens the gate; a superseded reposition leaves it alone. */
  lemma OnlyTheLatestTargetReopensTheGate(s0: State, steps: seq<Step>, step: Step)
    requires Initial(s0)
    requires var s := Run(s0, steps);
             Enabled(s, step) && s.gate.committedGen != s.gate.seekGen
    ensures var s := Run(s0, steps);
            var s' := Next(s, step);
            && (s'.gate.committedGen == s'.gate.seekGen ==>
                  && step.TryCommit? && s.hist.seeks != []
                  && s.pc.target == Last(s.hist.seeks) == s'.gate.committedPlayhead)
            && (step.TryCommit? ==>
                  (s.gate.seekTarget >= 0 || s.pc.startedGen != s.gate.seekGen) ==> s'.gate == s.gate)
  {
    InitialInv(s0);
    RunKeepsInv(s0, steps);
  }

  /** In every reachable state, committing an explicit reposition that no newer target has superseded reopens
      the gate at the last seek. */
  lemma ExplicitCommitServesTheLastSeek(s0: State, steps: seq<Step>)
    requires Initial(s0)
    requires var s := Run(s0, steps);
             (s.pc.Started? || s.pc.Refilling?) && s.pc.kind.Explicit? && s.gate.seekTarget < 0
    ensures var s := Run(s0, steps);
            var t := Next(s, TryCommit);
            && s.hist.seeks != [] && Last(s.hist.seeks) == s.pc.target
            && t.gate.committedGen == t.gate.seekGen && t.gate.committedPlayhead == Last(s.hist.seeks)
            && |t.hist.commits| == |s.hist.commits| + 1
  {
    InitialInv(s0);
    RunKeepsInv(s0, steps);
  }

  // Nothing has been committed since s, and the last seek is pending or being served; or the first thing
  // that was committed is the last seek, and the gate is open.
  ghost predicate Served(s: State, t: State) {
    && t.hist.seeks == s.hist.seeks && s.hist.commits <= t.hist.commits && s.hist.seeks != []
    && if t.hist.commits == s.hist.commits then
         && t.gate.committedGen != t.gate.seekGen
         && (t.gate.seekTarget == Last(s.hist.seeks) || (InFlight(t) && t.pc.target == Last(s.hist.seeks)))
       else
         && t.gate.committedGen == t.gate.seekGen
         && t.hist.commits[|s.hist.commits|] == Commit(t.gate.seekGen, Last(s.hist.seeks), true)
  }

  lemma OwedStepServes(s: State, step: Step)
    requires GateInv(s) && Enabled(s, step) && !step.SeekTo? && s.gate.committedGen != s.gate.seekGen
    requires GateInv(Next(s, step))
    ensures Served(s, Next(s, step))
  {
  }

  // With the gate open and no seek, it stays open and only more is committed.
  lemma OpenStepStaysOpen(s: State, step: Step)
    requires GateInv(s) && Enabled(s, step) && !step.SeekTo? && s.gate.committedGen == s.gate.seekGen
    ensures var t := Next(s, step);
            && t.gate.committedGen == t.gate.seekGen == s.gate.seekGen
            && t.hist.seeks == s.hist.seeks && s.hist.commits <= t.hist.commits
  {
  }

  lemma {:induction false} OpenRunStaysOpen(s: State, more: seq<Step>)
    requires Inv(s) && s.gate.committedGen == s.gate.seekGen
    requires forall i :: 0 <= i < |more| ==> !more[i].SeekTo?
    ensures var t := Run(s, more);
            && t.gate.committedGen == t.gate.seekGen == s.gate.seekGen
            && t.hist.seeks == s.hist.seeks && s.hist.commits <= t.hist.commits
    decreases |more|
  {
    if more != [] {
      if Enabled(s, more[0]) {
        StepKeepsInv(s, more[0]);
        OpenStepStaysOpen(s, more[0]);
        OpenRunStaysOpen(Next(s, more[0]), more[1..]);
      } else {
        OpenRunStaysOpen(s, more[1..]);
      }
    }
  }

  lemma {:induction false} QuietRunServes(s: State, more: seq<Step>)
    requires Inv(s) && s.gate.committedGen != s.gate.seekGen
    requires forall i :: 0 <= i < |more| ==> !more[i].SeekTo?
    ensures Served(s, Run(s, more))
    decreases |more|
  {
    if more != [] {
      if Enabled(s, more[0]) {
        var next := Next(s, more[0]);
        StepKeepsInv(s, more[0]);
        OwedStepServes(s, more[0]);
        if next.gate.committedGen == next.gate.seekGen {
          OpenRunStaysOpen(next, more[1..]);
        } else {
          QuietRunServes(next, more[1..]);
        }
      } else {
        QuietRunServes(s, more[1..]);
      }
    }
  }

  /** Once the UI stops seeking, over any run of the three threads the last seek stays owed until the first
      commit, which serves it and reopens the gate for good. */
  lemma WorkerServesTheLastSeek(s0: State, steps: seq<Step>, more: seq<Step>)
    requires Initial(s0) && Run(s0, steps).gate.committedGen != Run(s0, steps).gate.seekGen
    requires forall i :: 0 <= i < |more| ==> !more[i].SeekTo?
    ensures Served(Run(s0, steps), Run(Run(s0, steps), more))
  {
    InitialInv(s0);
    RunKeepsInv(s0, steps);
    QuietRunServes(Run(s0, steps), more);
  }

  /** And three steps of the worker are enough to serve it. */
  lemma ThreeStepsServeTheLastSeek(s0: State, steps: seq<Step>)
    requires Initial(s0)
    requires Run(s0, steps).pc.LoopHead? && Run(s0, steps).gate.seekTarget >= 0
    ensures var s := Run(s0, steps);
            var s3 := Run(s, [TakeSeek, ReadGeneration, TryCommit]);
            && s.hist.seeks != []
            && s3.gate.committedGen == s3.gate.seekGen
            && s3.gate.committedPlayhead == Last(s.hist.seeks)
            && s3.gate.seekTarget < 0
  {
    InitialInv(s0);
    RunKeepsInv(s0, steps);
    var s := Run(s0, steps);
    var s1 := Next(s, TakeSeek);
    var s2 := Next(s1, ReadGeneration);
    var s3 := Next(s2, TryCommit);
    assert [TakeSeek, ReadGeneration, TryCommit][1..] == [ReadGeneration, TryCommit];
    assert [ReadGeneration, TryCommit][1..] == [TryCommit];
    assert Run(s2, [TryCommit]) == Run(s3, [TryCommit][1..]) == s3;
  }

  /** Arms, fires and aborts balance, and a scheduled cut is armed, covered and no longer being filled. */
  lemma ArmsAreFiredAbortedOrLive(s0: State, steps: seq<Step>)
    requires Initial(s0)
    ensures var s := Run(s0, steps);
            && s.hist.arms == s.cut.fired + s.hist.aborts + (if s.cut.armed then 1 else 0)
            && (s.cut.scheduledFrame >= 0 ==> s.cut.armed && s.cut.covers && !s.pc.Filling?)
  {
    InitialInv(s0);
    RunKeepsInv(s0, steps);
  }

  // -------------------------------------------------------------- seek bursts

  ghost predicate Holding(s: State, bookmark: int) {
    && s.gate.committedGen < s.gate.seekGen
    && s.gate.committedPlayhead == bookmark == s.gate.bookmark
  }

  lemma StepHolds(s: State, step: Step, bookmark: int)
    requires Holding(s, bookmark) && Enabled(s, step)
    requires Next(s, step).hist.commits == s.hist.commits
    ensures Holding(Next(s, step), bookmark)
    ensures var e, e' := s.hist.exposed, Next(s, step).hist.exposed;
            e' == e || e' == e + [bookmark]
  {
  }

  lemma StepKeepsCommits(s: State, step: Step)
    requires Enabled(s, step)
    ensures s.hist.commits <= Next(s, step).hist.commits
    ensures s.hist.exposed <= Next(s, step).hist.exposed
  {
  }

  lemma {:induction false} RunKeepsCommits(s: State, steps: seq<Step>)
    ensures s.hist.commits <= Run(s, steps).hist.commits
    ensures s.hist.exposed <= Run(s, steps).hist.exposed
    decreases |steps|
  {
    if steps != [] {
      var s1 := if Enabled(s, steps[0]) then Next(s, steps[0]) else s;
      if Enabled(s, steps[0]) { StepKeepsCommits(s, steps[0]); }
      RunKeepsCommits(s1, steps[1..]);
    }
  }

  lemma {:induction false} HoldingRun(s: State, steps: seq<Step>, bookmark: int)
    requires Holding(s, bookmark)
    requires Run(s, steps).hist.commits == s.hist.commits
    ensures Holding(Run(s, steps), bookmark)
    ensures var e, e' := s.hist.exposed, Run(s, steps).hist.exposed;
            e <= e' && forall i :: |e| <= i < |e'| ==> e'[i] == bookmark
    decreases |steps|
  {
    if steps != [] {
      if Enabled(s, steps[0]) {
        StepKeepsCommits(s, steps[0]);
        RunKeepsCommits(Next(s, steps[0]), steps[1..]);
        StepHolds(s, steps[0], bookmark);
        HoldingRun(Next(s, steps[0]), steps[1..], bookmark);
      } else {
        HoldingRun(s, steps[1..], bookmark);
      }
    }
  }

  /** From the seek that closes the gate until the next commit, through any further seeks, every tick
      shows the bookmark of that moment. */
  lemma BurstShowsOnePlayhead(s: State, ms: int, steps: seq<Step>)
    requires s.gate.committedGen == s.gate.seekGen
    requires Run(DoSeekTo(s, ms), steps).hist.commits == s.hist.commits
    ensures var e, e' := s.hist.exposed, Run(DoSeekTo(s, ms), steps).hist.exposed;
            e <= e' && forall i :: |e| <= i < |e'| ==> e'[i] == s.gate.bookmark
  {
    HoldingRun(DoSeekTo(s, ms), steps, s.gate.bookmark);
  }

  // --------------------------------------------------------- two concrete runs

  lemma {:induction false} RunAppend(s: State, a: seq<Step>, b: seq<Step>)
    ensures Run(s, a + b) == Run(Run(s, a), b)
    decreases |a|
  {
    if a == [] {
      assert a + b == b;
    } else {
      assert (a + b)[1..] == a[1..] + b;
      RunAppend(if Enabled(s, a[0]) then Next(s, a[0]) else s, a[1..], b);
    }
  }

  lemma RunOne(s: State, step: Step)
    requires Enabled(s, step)
    ensures Run(s, [step]) == Next(s, step)
  {
  }

  // One pass of the run loop on a file that has ended, followed by an output tick.
  const TICK: Step := Tick(0, None, 0.0)
  const SCHEDULE: seq<Step> := [EnterFill, FillRead(EndOrError), ScheduleCut(0, -1, 0.0)]
  const FILL: seq<Step> := SCHEDULE + [TICK]
  const PASS: seq<Step> := [TakeSeek, TakeFollow, TrimAndPublish(0), ApplyRearm] + FILL

  // A worker at its loop head with a cut to fire: the armed one, or else the queued one.
  ghost predicate Ready(s: State) {
    && s.pc.LoopHead? && s.gate.seekTarget < 0 && s.gate.follow < 0
    && s.dispatcher == 0 && s.transport == 0 && !s.cut.covers && s.cut.scheduledFrame < 0
    && (s.cut.armed ==> s.cut.target >= 0 && s.cut.armSeekGen == s.gate.seekGen)
    && (s.cut.hasPending ==> s.cut.pendingTarget >= 0 && s.cut.pendingSeekGen == s.gate.seekGen)
  }

  lemma FillSchedules(s: State) returns (t: State)
    requires Ready(s.(pc := LoopHead)) && s.pc.AtFill? && s.cut.armed
    ensures t == Run(s, SCHEDULE)
    ensures && t.pc.LoopHead? && t.gate == s.gate && t.dispatcher == 0 && t.transport == 0
            && t.cut == s.cut.(prerollSeek := false, covers := true, scheduledTarget := s.cut.target, scheduledFrame := 0)
            && t.hist == s.hist.(fileEnded := true)
  {
    var s1 := Next(s, EnterFill);
    var s2 := Next(s1, FillRead(EndOrError));
    RunTwo(s, EnterFill, FillRead(EndOrError));
    t := Next(s2, ScheduleCut(0, -1, 0.0));
    RunOne(s2, ScheduleCut(0, -1, 0.0));
    assert SCHEDULE == [EnterFill, FillRead(EndOrError)] + [ScheduleCut(0, -1, 0.0)];
    RunAppend(s, [EnterFill, FillRead(EndOrError)], [ScheduleCut(0, -1, 0.0)]);
  }

  // A scheduled cut that no seek overtook fires at the next tick.
  lemma TickFires(t: State)
    requires t.pc.LoopHead? && t.dispatcher == 0 && t.transport == 0 && t.gate.seekTarget < 0 && t.gate.follow < 0
    requires t.cut.armed && t.cut.scheduledFrame == 0 && t.cut.armSeekGen == t.gate.seekGen
    requires t.cut.scheduledTarget >= 0
    ensures Enabled(t, TICK)
    ensures var u := Next(t, TICK);
            && u.pc.LoopHead? && u.dispatcher == 0 && u.gate.seekTarget < 0 && u.gate.follow < 0
            && u.gate.seekGen == t.gate.seekGen
            && u.cut == t.cut.(covers := false, scheduledFrame := -1, fired := t.cut.fired + 1, armed := false)
            && u.hist.pendingCall == t.hist.pendingCall && u.hist.calls == t.hist.calls
            && |u.hist.fires| == |t.hist.fires| + 1 && t.hist.fires <= u.hist.fires
            && u.hist.fires[|t.hist.fires|].call == t.hist.armedCall
  {
    assert CutSchedule.PlayheadAfterCut(t.cut.scheduledTarget, 0, t.cut.scheduledFrame, 0.0) == t.cut.scheduledTarget;
  }

  lemma FillFires(s: State)
    requires Ready(s.(pc := LoopHead)) && s.pc.AtFill? && s.cut.armed
    ensures var s' := Run(s, FILL).(transport := 0);
            && Ready(s') && !s'.cut.armed
            && s'.cut.hasPending == s.cut.hasPending && s'.hist.pendingCall == s.hist.pendingCall
            && s'.hist.calls == s.hist.calls
            && |s'.hist.fires| == |s.hist.fires| + 1 && s.hist.fires <= s'.hist.fires
            && s'.hist.fires[|s.hist.fires|].call == s.hist.armedCall
  {
    var t := FillSchedules(s);
    TickFires(t);
    RunOne(t, TICK);
    RunAppend(s, SCHEDULE, [TICK]);
  }

  lemma PassReachesFill(s: State)
    requires s.pc.LoopHead? && s.gate.seekTarget < 0 && s.gate.follow < 0
    ensures var kept := TrimBefore(s.caches.output, 0);
            var t := s.(gate := s.gate.(follow := -1), pc := AtRearm,
                        caches := s.caches.(output := kept, published := kept));
            Run(s, PASS) == Run(DoApplyRearm(t), FILL)
  {
    var head := [TakeSeek, TakeFollow, TrimAndPublish(0), ApplyRearm];
    assert head == [TakeSeek] + TO_FILL;
    RunOne(s, TakeSeek);
    ReachFill(Next(s, TakeSeek));
    RunAppend(s, [TakeSeek], TO_FILL);
    RunAppend(s, head, FILL);
  }

  /** One pass fires the armed cut, or the queued one when none is armed. */
  lemma PassFires(s: State)
    requires Ready(s) && (s.cut.armed || s.cut.hasPending)
    ensures var s' := Run(s, PASS + [MoveTransport(0)]);
            && Ready(s') && !s'.cut.armed
            && s'.cut.hasPending == (s.cut.armed && s.cut.hasPending)
            && s'.hist.pendingCall == s.hist.pendingCall && s'.hist.calls == s.hist.calls
            && |s'.hist.fires| == |s.hist.fires| + 1 && s.hist.fires <= s'.hist.fires
            && s'.hist.fires[|s.hist.fires|].call == (if s.cut.armed then s.hist.armedCall else s.hist.pendingCall)
  {
    var kept := TrimBefore(s.caches.output, 0);
    var t := s.(gate := s.gate.(follow := -1), pc := AtRearm,
                caches := s.caches.(output := kept, published := kept));
    PassReachesFill(s);
    FillFires(DoApplyRearm(t));
    RunOne(Run(s, PASS), MoveTransport(0));
    RunAppend(s, PASS, [MoveTransport(0)]);
  }

  /** A fresh arm does not clear a re-arm already queued: of three recalls the second fires last. */
  lemma FreshArmLeavesQueuedRearm(s0: State) returns (steps: seq<Step>)
    requires Initial(s0) && s0.dispatcher == 0 && s0.transport == 0
    ensures var h := Run(s0, steps).hist;
            && |h.calls| == 3 && h.calls[1].target == 200 && h.calls[2].target == 300
            && |h.fires| == 3 && h.fires[1].call == 2 && h.fires[2].call == 1
  {
    var p := PASS + [MoveTransport(0)];
    var a: seq<Step> := [ArmNextCut(100, -1)];
    var b: seq<Step> := [ArmNextCut(200, -1)];
    var c: seq<Step> := [ArmNextCut(300, -1)];
    RunOne(s0, a[0]);
    var s1 := Run(s0, a);
    RunOne(s1, b[0]);
    var s2 := Run(s1, b);
    PassFires(s2);
    var s3 := Run(s2, p);
    RunOne(s3, c[0]);
    var s4 := Run(s3, c);
    PassFires(s4);
    var s5 := Run(s4, p);
    PassFires(s5);
    var s6 := Run(s5, p);
    RunAppend(s0, a, b);
    RunAppend(s0, a + b, p);
    RunAppend(s0, a + b + p, c);
    RunAppend(s0, a + b + p + c, p);
    RunAppend(s0, a + b + p + c + p, p);
    steps := a + b + p + c + p + p;
  }

  const TO_FILL: seq<Step> := [TakeFollow, TrimAndPublish(0), ApplyRearm]

  // The worker has found no seek; then the UI seeks and recalls, and a tick aborts the scheduled cut.
  const SEEK_AND_RECALL: seq<Step> := [TakeSeek, SeekTo(50), ArmNextCut(200, -1)]
  const RACE: seq<Step> := SEEK_AND_RECALL + [TICK]

  lemma SeekAndRecall(s: State) returns (t: State)
    requires s.pc.LoopHead? && s.gate.seekTarget < 0 && s.gate.follow < 0 && s.cut.armed
    ensures t == Run(s, SEEK_AND_RECALL)
    ensures && t.pc.NoSeekSeen? && t.gate.seekTarget == 50 && t.gate.follow < 0 && t.dispatcher == s.dispatcher
            && t.gate.seekGen == s.gate.seekGen + 1 && t.cut.armed && t.cut.hasPending
            && t.cut.scheduledFrame == s.cut.scheduledFrame && t.cut.armSeekGen == s.cut.armSeekGen
            && t.hist == s.hist.(seeks := s.hist.seeks + [50], pendingCall := |s.hist.calls|,
                                 calls := s.hist.calls + [Call(200, -1, |s.hist.seeks| + 1, true)])
  {
    var s1 := Next(s, TakeSeek);
    var s2 := Next(s1, SeekTo(50));
    RunTwo(s, TakeSeek, SeekTo(50));
    t := Next(s2, ArmNextCut(200, -1));
    RunOne(s2, ArmNextCut(200, -1));
    assert SEEK_AND_RECALL == [TakeSeek, SeekTo(50)] + [ArmNextCut(200, -1)];
    RunAppend(s, [TakeSeek, SeekTo(50)], [ArmNextCut(200, -1)]);
  }

  lemma TickAborts(t: State)
    requires t.dispatcher == 0 && t.cut.scheduledFrame == 0 && t.gate.seekGen != t.cut.armSeekGen
    ensures Enabled(t, TICK)
    ensures var u := Next(t, TICK);
            && u.pc == t.pc && u.gate.seekTarget == t.gate.seekTarget && u.gate.follow == -1
            && !u.cut.armed && u.cut.hasPending == t.cut.hasPending
            && u.hist == t.hist.(aborts := t.hist.aborts + 1, exposed := u.hist.exposed)
  {
  }

  lemma RaceQueuesBehindTheSeek(s: State) returns (t: State)
    requires s.pc.LoopHead? && s.gate.seekTarget < 0 && s.gate.follow < 0 && s.dispatcher == 0
    requires s.cut.armed && s.cut.scheduledFrame == 0 && s.cut.armSeekGen == s.gate.seekGen
    ensures t == Run(s, RACE)
    ensures && t.pc.NoSeekSeen? && t.gate.seekTarget == 50 && t.gate.follow < 0
            && !t.cut.armed && t.cut.hasPending && t.hist.drops == s.hist.drops
            && t.hist.seeks == s.hist.seeks + [50] && t.hist.pendingCall == |s.hist.calls|
            && t.hist.calls == s.hist.calls + [Call(200, -1, |s.hist.seeks| + 1, true)]
  {
    var r := SeekAndRecall(s);
    TickAborts(r);
    RunOne(r, TICK);
    RunAppend(s, SEEK_AND_RECALL, [TICK]);
    t := Next(r, TICK);
  }

  // A cut armed, staged to the end of the file and scheduled for the next tick.
  lemma ScheduledCut(s0: State) returns (steps: seq<Step>, s: State)
    requires Initial(s0) && s0.dispatcher == 0 && s0.transport == 0
    ensures s == Run(s0, steps)
    ensures && s.pc.LoopHead? && s.gate.seekTarget < 0 && s.gate.follow < 0 && s.dispatcher == 0
            && s.cut.armed && s.cut.scheduledFrame == 0 && s.cut.armSeekGen == s.gate.seekGen
            && s.cut.scheduledTarget == 100 && !s.cut.hasPending
            && s.hist.seeks == [] && s.hist.drops == [] && |s.hist.calls| == 1 && s.hist.fires == []
  {
    var a: seq<Step> := [ArmNextCut(100, -1), TakeSeek];
    RunTwo(s0, a[0], a[1]);
    var s1 := Run(s0, a);
    ReachFill(s1);
    s := FillSchedules(Run(s1, TO_FILL));
    RunAppend(s0, a, TO_FILL);
    RunAppend(s0, a + TO_FILL, SCHEDULE);
    steps := a + TO_FILL + SCHEDULE;
  }

  /** A recall issued after a seek is lost when the worker reaches the queue before it takes that seek. */
  lemma NewerRecallIsDropped(s0: State) returns (steps: seq<Step>)
    requires Initial(s0) && s0.dispatcher == 0 && s0.transport == 0
    ensures var s := Run(s0, steps);
            && |s.hist.seeks| == 1 && |s.hist.calls| == 2 && s.hist.calls[1].seeksBefore == 1
            && s.hist.drops == [Drop(1, 1)] && !s.cut.armed && !s.cut.hasPending
  {
    var scheduled;
    steps, scheduled := ScheduledCut(s0);
    var raced := RaceQueuesBehindTheSeek(scheduled);
    ReachFill(raced);
    RunAppend(s0, steps, RACE);
    RunAppend(s0, steps + RACE, TO_FILL);
    steps := steps + RACE + TO_FILL;
  }

  // The playhead has moved on past the target; the worker has looked for a follow when the tick fires.
  const MOVE_ON: seq<Step> := [MoveTransport(1000), TakeSeek]
  const GO_BACK: seq<Step> := MOVE_ON + TO_FILL + [TICK]

  lemma CutGoesBack(s: State) returns (t: State)
    requires s.pc.LoopHead? && s.gate.seekTarget < 0 && s.gate.follow < 0 && s.dispatcher == 0
    requires s.cut.armed && s.cut.scheduledFrame == 0 && s.cut.armSeekGen == s.gate.seekGen
    requires s.cut.scheduledTarget == 100
    ensures t == Run(s, GO_BACK)
    ensures && t.pc.AtFill? && t.gate.seekTarget < 0 && t.gate.follow == 100 && t.transport == 100 && t.dispatcher == 0
            && t.gate.seekGen == s.gate.seekGen && !t.cut.armed && !t.cut.covers
            && |t.hist.fires| == |s.hist.fires| + 1 && t.hist.fires[|s.hist.fires|].target == 100
            && t.hist.seeks == s.hist.seeks
  {
    RunTwo(s, MoveTransport(1000), TakeSeek);
    var s2 := Run(s, MOVE_ON);
    ReachFill(s2);
    var s3 := Run(s2, TO_FILL);
    RunAppend(s, MOVE_ON, TO_FILL);
    assert CutSchedule.PlayheadAfterCut(100, 0, 0, 0.0) == 100;
    RunOne(s3, TICK);
    RunAppend(s, MOVE_ON + TO_FILL, [TICK]);
    t := Next(s3, TICK);
  }

  // In the same pass a cut further on is armed, staged to the end of the file and scheduled.
  const ARM_AHEAD: seq<Step> := [ArmNextCut(5000, -1), EnterFill]
  const FILL_AHEAD: seq<Step> := [FillRead(EndOrError), ScheduleCut(0, -1, 0.0)]

  lemma CutAheadIsScheduled(s: State) returns (t: State)
    requires s.pc.AtFill? && !s.cut.armed
    ensures t == Run(s, ARM_AHEAD + FILL_AHEAD)
    ensures && t.pc.LoopHead? && t.gate == s.gate && t.transport == s.transport && t.dispatcher == s.dispatcher
            && t.cut.armed && t.cut.scheduledFrame == 0 && t.cut.scheduledTarget == 5000
            && t.cut.armSeekGen == s.gate.seekGen && t.hist.fires == s.hist.fires && t.hist.seeks == s.hist.seeks
  {
    RunTwo(s, ArmNextCut(5000, -1), EnterFill);
    var s2 := Run(s, ARM_AHEAD);
    RunTwo(s2, FillRead(EndOrError), ScheduleCut(0, -1, 0.0));
    RunAppend(s, ARM_AHEAD, FILL_AHEAD);
    t := Run(s2, FILL_AHEAD);
  }

  const FIRE_AHEAD: seq<Step> := [TICK]
  const TAKE: seq<Step> := [TakeSeek, TakeFollow]

  lemma StaleFollowIsTaken(s: State) returns (t: State)
    requires s.pc.LoopHead? && s.dispatcher == 0 && s.gate.seekTarget < 0 && s.gate.follow == 100 && s.transport == 100
    requires s.cut.armed && s.cut.scheduledFrame == 0 && s.cut.scheduledTarget == 5000
    requires s.cut.armSeekGen == s.gate.seekGen
    ensures t == Run(s, FIRE_AHEAD + TAKE)
    ensures && t.transport == 5000 && t.pc == Entering(100, Follow) && t.hist.seeks == s.hist.seeks
            && |t.hist.fires| == |s.hist.fires| + 1 && t.hist.fires[..|s.hist.fires|] == s.hist.fires
            && t.hist.fires[|s.hist.fires|].target == 5000
  {
    assert CutSchedule.PlayheadAfterCut(5000, 0, 0, 0.0) == 5000;
    RunOne(s, TICK);
    var s1 := Next(s, TICK);
    RunTwo(s1, TakeSeek, TakeFollow);
    RunAppend(s, FIRE_AHEAD, TAKE);
    t := Run(s1, TAKE);
  }

  /** A forward cut leaves the follow of a backward cut before it: with two cuts in one pass, the playhead is at the
      second one's target while the worker sets out for the first one's. */
  lemma ForwardCutLeavesTheFollow(s0: State) returns (steps: seq<Step>)
    requires Initial(s0) && s0.dispatcher == 0 && s0.transport == 0
    ensures var s := Run(s0, steps);
            && s.hist.seeks == [] && |s.hist.fires| == 2
            && s.hist.fires[0].target == 100 && s.hist.fires[1].target == 5000
            && s.transport == 5000 && s.pc == Entering(100, Follow)
  {
    var scheduled;
    steps, scheduled := ScheduledCut(s0);
    var back := CutGoesBack(scheduled);
    var ahead := CutAheadIsScheduled(back);
    var taken := StaleFollowIsTaken(ahead);
    RunAppend(s0, steps, GO_BACK);
    RunAppend(s0, steps + GO_BACK, ARM_AHEAD + FILL_AHEAD);
    RunAppend(s0, steps + GO_BACK + (ARM_AHEAD + FILL_AHEAD), FIRE_AHEAD + TAKE);
    steps := steps + GO_BACK + (ARM_AHEAD + FILL_AHEAD) + (FIRE_AHEAD + TAKE);
  }

  lemma RunTwo(s: State, x: Step, y: Step)
    requires Enabled(s, x) && Enabled(Next(s, x), y)
    ensures Run(s, [x, y]) == Next(Next(s, x), y)
  {
    assert [x, y][1..] == [y];
    RunOne(Next(s, x), y);
  }

  lemma ReachFill(s: State)
    requires s.pc.NoSeekSeen? && s.gate.follow < 0
    ensures var kept := TrimBefore(s.caches.output, 0);
            var t := s.(gate := s.gate.(follow := -1), pc := AtRearm,
                        caches := s.caches.(output := kept, published := kept));
            Run(s, TO_FILL) == DoApplyRearm(t)
  {
    var s1 := Next(s, TakeFollow);
    var s2 := Next(s1, TrimAndPublish(0));
    RunTwo(s1, TrimAndPublish(0), ApplyRearm);
    assert TO_FILL[1..] == [TrimAndPublish(0), ApplyRearm];
  }
}
