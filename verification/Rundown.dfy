// Automatic rundown playout: playPlaylist and onPlayoutTick of uimanager.cpp driving the armed cut.
module Rundown {
  import opened Basics
  import opened CutProtocol
  import opened CutEffects
  import opened CutProofs
  import opened CutTheorems
  import opened PlaylistPlayout

  const PLAYOUT_ARM_LEAD_MS := 1500

  // The protocol, the playout it drives, and where the rundown began: the entries and the first index,
  // and how many seeks, calls and fires there had been when its start seek was done.
  datatype Show = Show(s: State, playout: Playout, baseline: nat, baselineRead: bool,
                       entries: seq<Entry>, from: nat, seeks0: nat, calls0: nat, fires0: nat)

  datatype ShowStep =
    | Protocol(step: Step)   // any step of the worker or the output, or a seek by the UI
    | ReadBaseline
    | AbsorbFires            // the baseline loop of a monitor tick, and the stop on the last entry
    | ArmBoundary(playheadMs: int, speed: real)

  /** What playPlaylist demands of its entries before it starts. */
  predicate Playable(entries: seq<Entry>, from: int) {
    && 0 <= from < |entries|
    && forall i :: from <= i && i + 1 < |entries| ==> entries[i].outMs >= entries[i].inMs
  }

  // The start of playPlaylist: the transport moves to the first in-point, then the worker is asked to seek there.
  // Other threads may step in between. It does not go through seekPlayback, which would end the playout.
  function Start(s: State, entries: seq<Entry>, from: nat, between: seq<Step>): Show
    requires Playable(entries, from)
  {
    var first := entries[from].inMs;
    var s' := DoSeekTo(Run(s.(transport := Clamp(first)), between), first);
    Show(s', StartedAt(entries, from), 0, false, entries, from,
         |s'.hist.seeks|, |s'.hist.calls|, |s'.hist.fires|)
  }

  // A Recall ends the rundown, so the only calls during one are its own.
  predicate ShowEnabled(r: Show, step: ShowStep) {
    match step
    case Protocol(st) => Enabled(r.s, st) && !st.ArmNextCut?
    case ReadBaseline => !r.baselineRead
    case AbsorbFires => r.baselineRead && r.playout.active && r.baseline <= r.s.cut.fired
    case ArmBoundary(playhead, speed) => r.baselineRead && r.playout.Valid()
  }

  function ShowNext(r: Show, step: ShowStep): Show
    requires ShowEnabled(r, step)
  {
    match step
    case Protocol(st) => r.(s := Next(r.s, st))
    case ReadBaseline => r.(baseline := r.s.cut.fired, baselineRead := true)
    case AbsorbFires =>
      var p := Reconcile(r.playout, r.s.cut.fired - r.baseline);
      r.(playout := if p.OnFinalEntry() then STOPPED else p, baseline := r.s.cut.fired)
    case ArmBoundary(playhead, speed) =>
      if r.playout.Due(playhead, speed, PLAYOUT_ARM_LEAD_MS) then
        var b := r.playout.NextBoundary();
        r.(playout := r.playout.AfterEvaluate(playhead, speed, PLAYOUT_ARM_LEAD_MS),
           s := DoArmNextCut(r.s, b.targetMs, b.fireAtMs))
      else r
  }

  function RunShow(r: Show, steps: seq<ShowStep>): Show
    decreases |steps|
  {
    if steps == [] then r
    else RunShow(if ShowEnabled(r, steps[0]) then ShowNext(r, steps[0]) else r, steps[1..])
  }

  // ---------------------------------------------------------------- invariant

  // Boundaries armed and cuts fired since the start.
  function Armed(r: Show): int {
    |r.s.hist.calls| - r.calls0
  }

  function Fired(r: Show): int {
    |r.s.hist.fires| - r.fires0
  }

  // The i-th call, as the one for the next entry in order.
  predicate NextInOrder(calls: seq<Call>, calls0: nat, entries: seq<Entry>, from: nat, i: int)
    requires calls0 <= i < |calls|
  {
    var next := from + 1 + (i - calls0);
    next < |entries| && calls[i].target == entries[next].inMs && calls[i].fireAt == entries[next - 1].outMs
  }

  /** Every call since the start is the next boundary in order; every older call was made before the
      start seek. */
  ghost predicate CallsInOrder(r: Show) {
    var h := r.s.hist;
    && r.calls0 <= |h.calls| && r.seeks0 <= |h.seeks|
    && (forall i :: 0 <= i < r.calls0 ==> h.calls[i].seeksBefore < r.seeks0)
    && (forall i :: r.calls0 <= i < |h.calls| ==> NextInOrder(h.calls, r.calls0, r.entries, r.from, i))
  }

  /** The k-th cut since the start was the k-th boundary. */
  ghost predicate FiresInOrder(r: Show) {
    var h := r.s.hist;
    && r.fires0 <= |h.fires| && Fired(r) <= Armed(r)
    && forall i :: r.fires0 <= i < |h.fires| ==> h.fires[i].call == r.calls0 + (i - r.fires0)
  }

  /** At most one boundary is outstanding, armed or queued but not both; anything else armed is a Recall
      from before the start. */
  ghost predicate OneOutstanding(r: Show) {
    var c, h := r.s.cut, r.s.hist;
    && Armed(r) <= Fired(r) + 1
    && (c.hasPending ==> h.pendingCall == r.calls0 + Fired(r))
    && (c.armed ==> h.armedCall < r.calls0 || (h.armedCall == r.calls0 + Fired(r) && !c.hasPending))
    && (Armed(r) == Fired(r) ==> !c.hasPending && (c.armed ==> h.armedCall < r.calls0))
  }

  ghost predicate PlayoutInv(r: Show) {
    && (!r.baselineRead ==> Armed(r) == Fired(r) == 0 && r.playout == StartedAt(r.entries, r.from))
    && (r.baselineRead ==> r.fires0 <= r.baseline <= |r.s.hist.fires|)
    && (r.playout.active ==>
          var seen := if r.baselineRead then r.baseline - r.fires0 else 0;
          && r.playout.entries == r.entries
          && r.playout.index == r.from + seen < |r.entries|
          && Armed(r) == seen + (if r.playout.armedCurrent then 1 else 0))
  }

  ghost predicate Shape(r: Show) {
    r.from < |r.entries| && CallsInOrder(r) && FiresInOrder(r) && OneOutstanding(r) && PlayoutInv(r)
  }

  ghost predicate ShowInv(r: Show) {
    Inv(r.s) && Shape(r)
  }

  // What a protocol step that is no call does to calls and cuts: it fires at most the armed one, and that
  // only if no seek came after its call; it arms at most the queued one.
  ghost predicate Follows(s: State, s': State) {
    var h, h' := s.hist, s'.hist;
    && h'.calls == h.calls && h.seeks <= h'.seeks
    && (h'.fires == h.fires || FiresTheArmed(s, s'))
    && s'.cut.fired == |h'.fires| && s.cut.fired == |h.fires|
    && (s'.cut.hasPending ==> s.cut.hasPending && h'.pendingCall == h.pendingCall)
    && (s'.cut.armed ==> (s.cut.armed && h'.armedCall == h.armedCall)
                         || (s.cut.hasPending && h'.armedCall == h.pendingCall && !s'.cut.hasPending))
  }

  ghost predicate FiresTheArmed(s: State, s': State) {
    var h, h' := s.hist, s'.hist;
    && |h'.fires| == |h.fires| + 1 && h.fires <= h'.fires
    && h'.fires[|h.fires|].call == h.armedCall
    && s.cut.armed && IsCall(h, h.armedCall) && h.calls[h.armedCall].seeksBefore == |h.seeks|
    && !s'.cut.armed && s'.cut.hasPending == s.cut.hasPending
  }

  lemma TickFollows(s: State, next: nat, covered: Option<int>, fps: real)
    requires GateInv(s) && CallInv(s) && ScheduleInv(s) && CountInv(s)
    ensures Follows(s, DoTick(s, next, covered, fps))
  {
  }

  lemma StepFollows(s: State, step: Step)
    requires Inv(s) && Enabled(s, step) && !step.ArmNextCut?
    ensures Follows(s, Next(s, step))
  {
    match step
    case Tick(next, covered, fps) => TickFollows(s, next, covered, fps);
    case _ =>
  }

  lemma FollowingKeepsShape(r: Show, s': State)
    requires Shape(r) && Follows(r.s, s')
    ensures Shape(r.(s := s'))
  {
  }

  lemma ProtocolStepKeepsShow(r: Show, step: Step)
    requires ShowInv(r) && Enabled(r.s, step) && !step.ArmNextCut?
    ensures ShowInv(r.(s := Next(r.s, step)))
  {
    StepKeepsInv(r.s, step);
    StepFollows(r.s, step);
    FollowingKeepsShape(r, Next(r.s, step));
  }

  lemma AbsorbKeepsShape(r: Show)
    requires Shape(r) && ShowEnabled(r, AbsorbFires) && r.s.cut.fired == |r.s.hist.fires|
    ensures var r' := ShowNext(r, AbsorbFires);
            && Shape(r')
            && (r'.playout.active ==> r'.playout.index == r.from + Fired(r))
            && (!r'.playout.active ==> r.from + Fired(r) == |r.entries| - 1)
  {
    ReconcileAdvances(r.playout, r.s.cut.fired - r.baseline);
    if Fired(r) > 0 {
      assert NextInOrder(r.s.hist.calls, r.calls0, r.entries, r.from, r.calls0 + Fired(r) - 1);
    }
  }

  lemma AbsorbKeepsShow(r: Show)
    requires ShowInv(r) && ShowEnabled(r, AbsorbFires)
    ensures var r' := ShowNext(r, AbsorbFires);
            && ShowInv(r')
            && (r'.playout.active ==> r'.playout.index == r.from + Fired(r))
            && (!r'.playout.active ==> r.from + Fired(r) == |r.entries| - 1)
  {
    AbsorbKeepsShape(r);
  }

  // Arming the next boundary is one more call, for the next entry in order.
  lemma ArmKeepsShape(r: Show, playhead: int, speed: real)
    requires Shape(r) && ShowEnabled(r, ArmBoundary(playhead, speed))
    requires r.s.cut.fired == |r.s.hist.fires|
    ensures Shape(ShowNext(r, ArmBoundary(playhead, speed)))
  {
    var r' := ShowNext(r, ArmBoundary(playhead, speed));
    forall i | r.calls0 <= i < |r.s.hist.calls|
      ensures NextInOrder(r'.s.hist.calls, r.calls0, r.entries, r.from, i)
    {
      assert NextInOrder(r.s.hist.calls, r.calls0, r.entries, r.from, i);
    }
  }

  lemma ArmKeepsShow(r: Show, playhead: int, speed: real)
    requires ShowInv(r) && ShowEnabled(r, ArmBoundary(playhead, speed))
    ensures ShowInv(ShowNext(r, ArmBoundary(playhead, speed)))
  {
    ArmKeepsShape(r, playhead, speed);
    if r.playout.Due(playhead, speed, PLAYOUT_ARM_LEAD_MS) {
      var b := r.playout.NextBoundary();
      ArmKeepsInv(r.s, b.targetMs, b.fireAtMs);
    }
  }

  lemma ShowStepKeepsShow(r: Show, step: ShowStep)
    requires ShowInv(r) && ShowEnabled(r, step)
    ensures ShowInv(ShowNext(r, step))
    ensures ShowNext(r, step).entries == r.entries && ShowNext(r, step).from == r.from
    ensures ShowNext(r, step).fires0 == r.fires0
  {
    match step
    case Protocol(st) => ProtocolStepKeepsShow(r, st);
    case ReadBaseline =>
    case AbsorbFires => AbsorbKeepsShow(r);
    case ArmBoundary(playhead, speed) => ArmKeepsShow(r, playhead, speed);
  }

  lemma {:induction false} RunKeepsShow(r: Show, steps: seq<ShowStep>)
    requires ShowInv(r)
    ensures ShowInv(RunShow(r, steps))
    ensures RunShow(r, steps).entries == r.entries && RunShow(r, steps).from == r.from
    ensures RunShow(r, steps).fires0 == r.fires0
    decreases |steps|
  {
    if steps != [] {
      if ShowEnabled(r, steps[0]) {
        ShowStepKeepsShow(r, steps[0]);
        RunKeepsShow(ShowNext(r, steps[0]), steps[1..]);
      } else {
        RunKeepsShow(r, steps[1..]);
      }
    }
  }

  lemma StartInv(s: State, entries: seq<Entry>, from: nat, between: seq<Step>)
    requires Inv(s) && Playable(entries, from)
    ensures ShowInv(Start(s, entries, from, between))
  {
    var moved := s.(transport := Clamp(entries[from].inMs));
    LiveCacheKeepsInv(s, MoveTransport(Clamp(entries[from].inMs)));
    RunKeepsInv(moved, between);
    SeekKeepsInv(Run(moved, between), entries[from].inMs);
  }

  // ------------------------------------------------------------ main theorems

  lemma ShowIsReached(s0: State, before: seq<Step>, entries: seq<Entry>, from: nat, between: seq<Step>,
                      steps: seq<ShowStep>)
    requires Initial(s0) && Playable(entries, from)
    ensures var r := RunShow(Start(Run(s0, before), entries, from, between), steps);
            ShowInv(r) && r.entries == entries && r.from == from
  {
    InitialInv(s0);
    RunKeepsInv(s0, before);
    StartInv(Run(s0, before), entries, from, between);
    RunKeepsShow(Start(Run(s0, before), entries, from, between), steps);
  }

  lemma {:induction false} TransportRests(s: State, steps: seq<Step>)
    requires forall i :: 0 <= i < |steps| ==> !steps[i].MoveTransport?
    ensures s.hist.fires <= Run(s, steps).hist.fires
    ensures Run(s, steps).hist.fires == s.hist.fires ==> Run(s, steps).transport == s.transport
    decreases |steps|
  {
    if steps != [] {
      if Enabled(s, steps[0]) {
        OnlyAFireMovesThePlayhead(s, steps[0]);
        TransportRests(Next(s, steps[0]), steps[1..]);
      } else {
        TransportRests(s, steps[1..]);
      }
    }
  }

  lemma SeekIsOwed(s: State, ms: int)
    requires GateInv(s)
    ensures var t := DoSeekTo(s, ms);
            && t.gate.committedGen != t.gate.seekGen
            && t.hist.seeks != [] && Last(t.hist.seeks) == t.gate.seekTarget == Max(0, ms)
            && t.hist.fires == s.hist.fires && t.transport == s.transport
  {
  }

  lemma SeekIsServed(s: State, ms: int, more: seq<Step>)
    requires Inv(s) && forall i :: 0 <= i < |more| ==> !more[i].SeekTo?
    ensures Served(DoSeekTo(s, ms), Run(DoSeekTo(s, ms), more))
  {
    SeekIsOwed(s, ms);
    SeekKeepsInv(s, ms);
    QuietRunServes(DoSeekTo(s, ms), more);
  }

  /** A start asks for the first entry's in-point and holds the gate until the worker is there; once the UI stops
      seeking, the first commit serves it. The playhead is there too unless a cut fired in between. */
  lemma StartSeeksTheFirstEntry(s0: State, before: seq<Step>, entries: seq<Entry>, from: nat, between: seq<Step>,
                                more: seq<Step>)
    requires Initial(s0) && Playable(entries, from)
    requires forall i :: 0 <= i < |more| ==> !more[i].SeekTo?
    requires forall i :: 0 <= i < |between| ==> !between[i].MoveTransport?
    ensures var first := Max(0, entries[from].inMs);
            var s := Run(s0, before);
            var r := Start(s, entries, from, between).s;
            && r.hist.seeks != [] && Last(r.hist.seeks) == r.gate.seekTarget == first
            && Served(r, Run(r, more))
            && (r.hist.fires == s.hist.fires ==> r.transport == first)
  {
    InitialInv(s0);
    RunKeepsInv(s0, before);
    var s := Run(s0, before);
    var moved := s.(transport := Clamp(entries[from].inMs));
    LiveCacheKeepsInv(s, MoveTransport(Clamp(entries[from].inMs)));
    RunKeepsInv(moved, between);
    TransportRests(moved, between);
    var met := Run(moved, between);
    SeekIsOwed(met, entries[from].inMs);
    SeekIsServed(met, entries[from].inMs, more);
  }

  lemma CutIsInOrder(r: Show, k: nat)
    requires LogInv(r.s) && Shape(r) && k < Fired(r)
    ensures r.from + 1 + k < |r.entries|
    ensures r.s.hist.fires[r.fires0 + k].target == Clamp(r.entries[r.from + 1 + k].inMs)
  {
    var f := r.s.hist.fires[r.fires0 + k];
    assert FireOk(f, r.s.hist);
    assert f.call == r.calls0 + k;
    assert NextInOrder(r.s.hist.calls, r.calls0, r.entries, r.from, f.call);
  }

  /** From any reachable state, whatever Recall was in flight and however the threads interleave, the
      k-th cut fired after playPlaylist goes to the in-point of the k-th entry after the first. */
  lemma CutsFollowTheRundown(s0: State, before: seq<Step>, entries: seq<Entry>, from: nat, between: seq<Step>,
                             steps: seq<ShowStep>, k: nat)
    requires Initial(s0) && Playable(entries, from)
    requires k < Fired(RunShow(Start(Run(s0, before), entries, from, between), steps))
    ensures var r := RunShow(Start(Run(s0, before), entries, from, between), steps);
            && from + 1 + k < |entries|
            && r.s.hist.fires[r.fires0 + k].target == Clamp(entries[from + 1 + k].inMs)
  {
    ShowIsReached(s0, before, entries, from, between, steps);
    CutIsInOrder(RunShow(Start(Run(s0, before), entries, from, between), steps), k);
  }

  /** Each boundary is armed at most once: the i-th call since the start is from the out-point of an
      entry to the in-point of the next, the i-th after the first. */
  lemma EachBoundaryIsArmedOnce(s0: State, before: seq<Step>, entries: seq<Entry>, from: nat, between: seq<Step>,
                                steps: seq<ShowStep>, i: nat)
    requires Initial(s0) && Playable(entries, from)
    requires i < Armed(RunShow(Start(Run(s0, before), entries, from, between), steps))
    ensures var r := RunShow(Start(Run(s0, before), entries, from, between), steps);
            && r.calls0 + i < |r.s.hist.calls| && from + 1 + i < |entries|
            && r.s.hist.calls[r.calls0 + i].target == entries[from + 1 + i].inMs
            && r.s.hist.calls[r.calls0 + i].fireAt == entries[from + i].outMs
            && Fired(r) <= Armed(r) <= Fired(r) + 1
  {
    ShowIsReached(s0, before, entries, from, between, steps);
    var r := RunShow(Start(Run(s0, before), entries, from, between), steps);
    assert NextInOrder(r.s.hist.calls, r.calls0, r.entries, r.from, r.calls0 + i);
  }

  /** A monitor tick arms the boundary of the current entry, from its out-point to the next in-point, exactly when it is
      marked, not armed yet and within the lead in wall time; otherwise it changes nothing. */
  lemma BoundaryIsArmedWhenDue(r: Show, playheadMs: int, speed: real)
    requires ShowEnabled(r, ArmBoundary(playheadMs, speed))
    ensures var p, r' := r.playout, ShowNext(r, ArmBoundary(playheadMs, speed));
            if p.active && !p.armedCurrent && p.index < |p.entries| - 1 && p.entries[p.index].outMs >= 0
               && (p.entries[p.index].outMs - playheadMs) as real <= 1500.0 * (if speed > 0.0 then speed else 1.0)
            then
              && r'.s.hist.calls == r.s.hist.calls + [Call(p.entries[p.index + 1].inMs, p.entries[p.index].outMs,
                                                           |r.s.hist.seeks|, r.s.cut.armed)]
              && r'.playout == p.(armedCurrent := true)
            else r' == r
  {
    DueIff(r.playout, playheadMs, speed, PLAYOUT_ARM_LEAD_MS);
  }

  /** After the baseline loop of a monitor tick, the playout stands at the first entry plus the cuts
      fired, or it has stopped because that is the last entry. */
  lemma IndexFollowsTheCuts(s0: State, before: seq<Step>, entries: seq<Entry>, from: nat, between: seq<Step>,
                            steps: seq<ShowStep>)
    requires Initial(s0) && Playable(entries, from)
    requires ShowEnabled(RunShow(Start(Run(s0, before), entries, from, between), steps), AbsorbFires)
    ensures var r := RunShow(Start(Run(s0, before), entries, from, between), steps);
            var r' := ShowNext(r, AbsorbFires);
            && (if r'.playout.active then r'.playout.index == from + Fired(r) else from + Fired(r) == |entries| - 1)
            && Fired(r) <= Armed(r) <= Fired(r) + 1
  {
    ShowIsReached(s0, before, entries, from, between, steps);
    AbsorbKeepsShow(RunShow(Start(Run(s0, before), entries, from, between), steps));
  }

  // ------------------------------------------------------- the monitor's loop

  class Monitor {
    const playout: PlayoutDriver
    var cutBaseline: nat

    constructor (playout: PlayoutDriver)
      ensures this.playout == playout && cutBaseline == 0
    {
      this.playout := playout;
      cutBaseline := 0;
    }

    /** The baseline loop of onPlayoutTick, and the stop on the final entry. */
    method AbsorbFires(cuts: nat)
      requires playout.View().Valid() && playout.active && cutBaseline <= cuts
      modifies this, playout
      ensures cutBaseline == cuts
      ensures var p := Reconcile(old(playout.View()), cuts - old(cutBaseline));
              playout.View() == if p.OnFinalEntry() then STOPPED else p
    {
      ghost var p0, b0 := playout.View(), cutBaseline;
      while cutBaseline < cuts
        invariant b0 <= cutBaseline <= cuts && playout.View().Valid()
        invariant Reconcile(playout.View(), cuts - cutBaseline) == Reconcile(p0, cuts - b0)
      {
        cutBaseline := cutBaseline + 1;
        var advanced, cur := playout.OnBoundaryFired();
      }
      if playout.active && !(playout.index >= 0 && playout.index + 1 < |playout.entries|) {
        playout.Stop();
      }
    }
  }
}
