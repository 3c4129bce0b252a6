// When recalls fire in the order they were made. A queued recall waits for the armed cut to be gone; a recall
// that arrives after that, before the worker has looked at the queue, is armed ahead of it.
module CutOrder {
  import opened Basics
  import opened CutProtocol
  import opened CutProofs

  ghost predicate FiresBefore(fires: seq<Fire>, call: int) {
    forall i :: 0 <= i < |fires| ==> fires[i].call < call
  }

  ghost predicate FiresIncrease(fires: seq<Fire>) {
    forall i, j :: 0 <= i < j < |fires| ==> fires[i].call < fires[j].call
  }

  // Fires in the order of their calls; what is armed or queued comes after them, in that order.
  ghost predicate InTurn(fires: seq<Fire>, calls: nat, armed: Option<int>, queued: Option<int>) {
    && FiresIncrease(fires) && FiresBefore(fires, calls)
    && (armed.Some? ==> FiresBefore(fires, armed.value))
    && (queued.Some? ==> FiresBefore(fires, queued.value))
    && (armed.Some? && queued.Some? ==> armed.value < queued.value)
  }

  function ArmedCall(s: State): Option<int> {
    if s.cut.armed then Some(s.hist.armedCall) else None
  }

  function QueuedCall(s: State): Option<int> {
    if s.cut.hasPending then Some(s.hist.pendingCall) else None
  }

  /** Cuts have fired in the order of their calls, and what is armed or queued comes after them, in that order. */
  ghost predicate CallsInTurn(s: State) {
    InTurn(s.hist.fires, |s.hist.calls|, ArmedCall(s), QueuedCall(s))
  }

  // A recall made while an older one is queued and nothing is armed.
  predicate JumpsTheQueue(s: State, step: Step) {
    step.ArmNextCut? && !s.cut.armed && s.cut.hasPending
  }

  lemma FiringKeepsTurn(fires: seq<Fire>, calls: nat, armed: int, queued: Option<int>, f: Fire)
    requires InTurn(fires, calls, Some(armed), queued) && f.call == armed < calls
    ensures InTurn(fires + [f], calls, None, queued)
  {
  }

  lemma FireOrAbortKeepsTurn(s: State, next: nat, fps: real)
    requires CallInv(s) && ScheduleInv(s) && CallsInTurn(s)
    ensures CallsInTurn(FireOrAbort(s, next, fps))
  {
    var t := FireOrAbort(s, next, fps);
    if t.hist.fires != s.hist.fires {
      FiringKeepsTurn(s.hist.fires, |s.hist.calls|, s.hist.armedCall, QueuedCall(s), t.hist.fires[|s.hist.fires|]);
    }
  }

  lemma ExposeKeepsTurn(s: State, next: nat, covered: Option<int>)
    requires CallsInTurn(s)
    ensures CallsInTurn(Expose(s.(dispatcher := next), covered))
  {
    var t := Expose(s.(dispatcher := next), covered);
    assert t.hist.fires == s.hist.fires && t.hist.calls == s.hist.calls;
    assert ArmedCall(t) == ArmedCall(s) && QueuedCall(t) == QueuedCall(s);
  }

  lemma TickKeepsTurn(s: State, next: nat, covered: Option<int>, fps: real)
    requires CallInv(s) && ScheduleInv(s) && CallsInTurn(s)
    ensures CallsInTurn(DoTick(s, next, covered, fps))
  {
    FireOrAbortKeepsTurn(s, next, fps);
    ExposeKeepsTurn(FireOrAbort(s, next, fps), next, covered);
  }

  lemma ArmKeepsTurnIff(s: State, target: int, fireAt: int)
    requires CallInv(s) && CallsInTurn(s)
    ensures CallsInTurn(DoArmNextCut(s, target, fireAt)) <==> !(!s.cut.armed && s.cut.hasPending)
  {
  }

  lemma RearmKeepsTurn(s: State)
    requires CallsInTurn(s)
    ensures CallsInTurn(DoApplyRearm(s))
  {
  }

  /** A step keeps the turn if and only if it is not a recall that jumps the queue. */
  lemma StepKeepsTurnIff(s: State, step: Step)
    requires Inv(s) && CallsInTurn(s) && Enabled(s, step)
    ensures CallsInTurn(Next(s, step)) <==> !JumpsTheQueue(s, step)
  {
    match step
    case ArmNextCut(target, fireAt) => ArmKeepsTurnIff(s, target, fireAt);
    case Tick(next, covered, fps) => TickKeepsTurn(s, next, covered, fps);
    case ApplyRearm => RearmKeepsTurn(s);
    case _ => SameCalls(s, step);
  }

  lemma SameCalls(s: State, step: Step)
    requires CallsInTurn(s) && Enabled(s, step)
    requires !step.ArmNextCut? && !step.Tick? && !step.ApplyRearm?
    ensures CallsInTurn(Next(s, step))
  {
    var t := Next(s, step);
    assert t.hist.fires == s.hist.fires && t.hist.calls == s.hist.calls && ArmedCall(t) == ArmedCall(s);
    assert QueuedCall(t) == if step.SeekTo? then None else QueuedCall(s);
  }

  ghost predicate NoneJumps(s: State, steps: seq<Step>)
    decreases |steps|
  {
    steps == []
    || (if Enabled(s, steps[0]) then !JumpsTheQueue(s, steps[0]) && NoneJumps(Next(s, steps[0]), steps[1..])
        else NoneJumps(s, steps[1..]))
  }

  lemma {:induction false} RunKeepsTurn(s: State, steps: seq<Step>)
    requires Inv(s) && CallsInTurn(s) && NoneJumps(s, steps)
    ensures CallsInTurn(Run(s, steps))
    decreases |steps|
  {
    if steps != [] {
      if Enabled(s, steps[0]) {
        StepKeepsInv(s, steps[0]);
        StepKeepsTurnIff(s, steps[0]);
        RunKeepsTurn(Next(s, steps[0]), steps[1..]);
      } else {
        RunKeepsTurn(s, steps[1..]);
      }
    }
  }

  /** In every run in which no recall jumps the queue, recalls fire in the order they were made. */
  lemma RecallsFireInOrder(s0: State, steps: seq<Step>, i: nat, j: nat)
    requires Initial(s0) && NoneJumps(s0, steps) && i < j < |Run(s0, steps).hist.fires|
    ensures Run(s0, steps).hist.fires[i].call < Run(s0, steps).hist.fires[j].call
  {
    InitialInv(s0);
    RunKeepsTurn(s0, steps);
  }
}
