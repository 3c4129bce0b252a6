// The seek / reposition / armed-cut protocol of playback/playbackworker.cpp as a transition system.
//
// Three threads share the state: the UI thread (SeekTo, ArmNextCut), the decode worker (the steps that
// carry a program counter) and the output thread (Tick). One Step is one critical section of the source.
// Between the steps of one thread any other thread may take any number of steps.
module CutProtocol {
  import opened Basics
  import opened CommitGate
  import CutSchedule

  const STAGING_SPAN_MS := 800
  const PACKETS_PER_TICK := 8
  const CUT_LEAD_MS := 120
  const LEAD_MS := 500
  const REFERENCE_FEED: nat := 0

  // A video frame of a cache. The value a cache stores is the number of the arm whose pre-roll
  // staged the frame, 0 for a frame of the primary decoder bank.
  datatype Key = Key(feed: nat, ptsMs: int)
  type Cache = map<Key, nat>

  datatype Gate = Gate(
    seekGen: nat, committedGen: nat, committedPlayhead: int, bookmark: int,
    seekTarget: int,   // -1: nothing pending
    follow: int)       // -1: no decoder-follow pending

  datatype Cut = Cut(
    armed: bool, target: int, fireAt: int, prerollSeek: bool, covers: bool,
    scheduledFrame: int, scheduledTarget: int, armSeekGen: nat,
    hasPending: bool, pendingTarget: int, pendingFireAt: int, pendingSeekGen: nat,
    fired: nat)

  datatype Caches = Caches(output: Cache, staging: Cache, published: Cache, newestRef: Option<int>)

  datatype RepositionKind = Explicit | Follow | BackJump

  // Where the worker's run loop stands.
  datatype Pc =
    | LoopHead
    | NoSeekSeen
    | NoFollowSeen
    | Entering(target: int, kind: RepositionKind)
    | Started(target: int, kind: RepositionKind, startedGen: nat)
    | Refilling(target: int, kind: RepositionKind, startedGen: nat, saved: Cache)
    | AtRearm
    | AtFill
    | Filling(target: int, packets: nat)

  // History: never read by a step, only written.
  datatype Call = Call(target: int, fireAt: int, seeksBefore: nat, queued: bool)
  datatype Commit = Commit(gen: nat, target: int, raised: bool)
  datatype Fire = Fire(call: int, target: int, seeksBefore: nat, arm: nat, promoted: Cache, fileEnded: bool)
  datatype Apply = Apply(call: int, callsBefore: nat)
  datatype Drop = Drop(call: int, seeksBefore: nat)
  datatype History = History(
    baseGen: nat, seeks: seq<int>, commits: seq<Commit>,
    calls: seq<Call>, armedCall: int, pendingCall: int,
    applies: seq<Apply>, drops: seq<Drop>,
    arms: nat, aborts: nat, fires: seq<Fire>,
    fileEnded: bool, exposed: seq<int>)

  datatype State = State(gate: Gate, cut: Cut, caches: Caches, pc: Pc,
                         transport: int, dispatcher: nat, hist: History)

  datatype PacketRead = EndOrError | Frames(keys: seq<Key>)

  datatype Step =
    // UI thread
    | SeekTo(ms: int)
    | ArmNextCut(target: int, fireAt: int)
    | MoveTransport(pos: int)
    // output thread: the dispatcher index, the PTS of a cached frame at the playhead if there is one, the rate
    | Tick(next: nat, covered: Option<int>, fps: real)
    // worker thread
    | TakeSeek
    | TakeFollow
    | TakeBackJump(playhead: int)
    | PrimaryDecode(key: Key)
    | TrimAndPublish(keepFrom: int)
    | PublishTail
    | ReadGeneration
    | BeginRefill
    | RefillDecode(key: Key)
    | TryCommit
    | ApplyRearm
    | EnterFill
    | FillRead(read: PacketRead)
    | ScheduleCut(next: nat, atOut: int, fps: real)

  function Clamp(ms: int): int {
    if ms < 0 then 0 else ms
  }

  // ---------------------------------------------------------------- UI thread

  function DoSeekTo(s: State, ms: int): State {
    var h := s.hist;
    s.(gate := s.gate.(seekTarget := Clamp(ms), follow := -1, committedPlayhead := s.gate.bookmark,
                       seekGen := s.gate.seekGen + 1),
       cut := s.cut.(hasPending := false),
       hist := h.(seeks := h.seeks + [Clamp(ms)]))
  }

  function DoArmNextCut(s: State, target: int, fireAt: int): State {
    var h := s.hist;
    var id := |h.calls|;
    if s.cut.armed then
      s.(cut := s.cut.(pendingTarget := Clamp(target), pendingFireAt := fireAt,
                       pendingSeekGen := s.gate.seekGen, hasPending := true),
         hist := h.(calls := h.calls + [Call(target, fireAt, |h.seeks|, true)], pendingCall := id))
    else
      s.(cut := ArmInternal(s.cut, target, s.gate.seekGen, fireAt),
         hist := h.(calls := h.calls + [Call(target, fireAt, |h.seeks|, false)], armedCall := id,
                    arms := h.arms + 1, fileEnded := false))
  }

  function ArmInternal(c: Cut, target: int, baseline: nat, fireAt: int): Cut {
    c.(target := Clamp(target), fireAt := fireAt, prerollSeek := true, covers := false,
       scheduledFrame := -1, armSeekGen := baseline, armed := true)
  }

  // ------------------------------------------------------------ output thread

  function DoTick(s: State, next: nat, covered: Option<int>, fps: real): State {
    Expose(FireOrAbort(s, next, fps).(dispatcher := next), covered)
  }

  predicate CutDue(s: State, next: nat) {
    s.cut.scheduledFrame >= 0 && CutSchedule.ShouldFireAt(next, s.cut.scheduledFrame)
  }

  // A seek came after the arm: the cut is taken down without touching cache or playhead.
  function DoAbort(s: State): State {
    s.(cut := s.cut.(scheduledFrame := -1, covers := false, target := -1, fireAt := -1,
                     prerollSeek := false, armed := false),
       gate := s.gate.(follow := -1),
       hist := s.hist.(aborts := s.hist.aborts + 1))
  }

  // The staged window becomes the live cache and the playhead moves to the target.
  function DoFire(s: State, playhead: int): State {
    var h := s.hist;
    s.(cut := s.cut.(covers := false, scheduledFrame := -1, fired := s.cut.fired + 1, armed := false),
       caches := s.caches.(output := s.caches.staging, staging := s.caches.output,
                           published := s.caches.staging),
       gate := if playhead < s.transport then s.gate.(follow := playhead) else s.gate,
       transport := Clamp(playhead),
       hist := h.(fires := h.fires + [Fire(h.armedCall, s.cut.scheduledTarget, |h.seeks|, h.arms,
                                           s.caches.staging, h.fileEnded)]))
  }

  function FireOrAbort(s: State, next: nat, fps: real): State {
    if !CutDue(s, next) then s
    else if s.gate.seekGen != s.cut.armSeekGen then DoAbort(s)
    else DoFire(s, CutSchedule.PlayheadAfterCut(s.cut.scheduledTarget, next, s.cut.scheduledFrame, fps))
  }

  // The playhead a tick shows and the bookmark it leaves behind.
  function Expose(s: State, covered: Option<int>): State {
    var g := s.gate;
    var visible := VisiblePlayhead(s.transport, g.committedPlayhead, g.committedGen, g.seekGen);
    if g.committedGen == g.seekGen then
      var shown := CacheGuardedPlayhead(visible, g.bookmark, covered.Some?, g.committedGen, g.seekGen);
      var coveredPts := if covered.Some? then covered.value else visible;
      s.(gate := g.(bookmark := BookmarkedPlayhead(g.bookmark, shown, coveredPts, covered.Some?,
                                                   g.committedGen, g.seekGen)),
         hist := s.hist.(exposed := s.hist.exposed + [shown]))
    else
      s.(hist := s.hist.(exposed := s.hist.exposed + [visible]))
  }

  // ------------------------------------------------------------ worker thread

  function DoTakeSeek(s: State): State {
    if s.gate.seekTarget >= 0 then
      s.(gate := s.gate.(seekTarget := -1), pc := Entering(s.gate.seekTarget, Explicit))
    else s.(pc := NoSeekSeen)
  }

  function DoTakeFollow(s: State): State {
    if s.gate.follow >= 0 then s.(gate := s.gate.(follow := -1), pc := Entering(s.gate.follow, Follow))
    else s.(gate := s.gate.(follow := -1), pc := NoFollowSeen)
  }

  // trimBefore: drop what is older than the cutoff, except the newest such frame of each feed.
  function TrimBefore(c: Cache, cutoff: int): Cache {
    map k | k in c && (k.ptsMs >= cutoff
                       || !exists l :: l in c && l.feed == k.feed && k.ptsMs < l.ptsMs < cutoff) :: c[k]
  }

  function DoReadGeneration(s: State): State
    requires s.pc.Entering?
  {
    s.(pc := Started(s.pc.target, s.pc.kind, s.gate.seekGen))
  }

  // The live cache is put aside; the refill decodes into an empty one.
  function DoBeginRefill(s: State): State
    requires s.pc.Started?
  {
    s.(pc := Refilling(s.pc.target, s.pc.kind, s.pc.startedGen, s.caches.output),
       caches := s.caches.(output := map[]))
  }

  // The refilled frames join the live cache, and the target becomes the committed playhead.
  function DoCommit(s: State): State
    requires s.pc.Started? || s.pc.Refilling?
  {
    var g, h := s.gate, s.hist;
    s.(gate := g.(committedPlayhead := s.pc.target, bookmark := s.pc.target, committedGen := s.pc.startedGen),
       caches := if s.pc.Started? then s.caches
                 else var live := TrimBefore(s.pc.saved + s.caches.output, s.pc.target - LEAD_MS);
                   s.caches.(output := live, published := live),
       hist := h.(commits := h.commits + [Commit(s.pc.startedGen, s.pc.target, s.pc.startedGen > g.committedGen)]),
       pc := LoopHead)
  }

  // A superseded reposition puts the live cache back and leaves the gate alone.
  function DoGiveUp(s: State): State
    requires s.pc.Started? || s.pc.Refilling?
  {
    s.(caches := if s.pc.Started? then s.caches else s.caches.(output := s.pc.saved), pc := LoopHead)
  }

  function DoTryCommit(s: State): State
    requires s.pc.Started? || s.pc.Refilling?
  {
    if CanCommit(s.pc.startedGen, s.gate.seekGen, s.gate.seekTarget >= 0) then DoCommit(s) else DoGiveUp(s)
  }

  function DoApplyRearm(s: State): State {
    var c, h := s.cut, s.hist;
    if c.armed || !c.hasPending then s.(pc := AtFill)
    else if s.gate.seekTarget >= 0 || s.gate.seekGen != c.pendingSeekGen then
      s.(cut := c.(hasPending := false), pc := AtFill,
         hist := h.(drops := h.drops + [Drop(h.pendingCall, |h.seeks|)]))
    else
      s.(cut := ArmInternal(c.(hasPending := false), c.pendingTarget, c.pendingSeekGen, c.pendingFireAt),
         pc := AtFill,
         hist := h.(applies := h.applies + [Apply(h.pendingCall, |h.calls|)], armedCall := h.pendingCall,
                    arms := h.arms + 1, fileEnded := false))
  }

  // The guard of the fill and the first part of fillStaging.
  function DoEnterFill(s: State): State {
    if !s.cut.armed || s.cut.covers || s.cut.target < 0 then s.(pc := LoopHead)
    else
      s.(cut := s.cut.(prerollSeek := false),
         caches := if s.cut.prerollSeek then s.caches.(staging := map[], newestRef := None) else s.caches,
         pc := Filling(s.cut.target, 0))
  }

  function Stage(c: Caches, keys: seq<Key>, arm: nat): Caches
    decreases |keys|
  {
    if keys == [] then c
    else
      var k := keys[0];
      var newest := if k.feed != REFERENCE_FEED then c.newestRef
                    else Some(if c.newestRef.Some? then Max(c.newestRef.value, k.ptsMs) else k.ptsMs);
      Stage(c.(staging := c.staging[k := arm], newestRef := newest), keys[1..], arm)
  }

  function DoFillRead(s: State, read: PacketRead): State
    requires s.pc.Filling?
  {
    match read
    case EndOrError => s.(cut := s.cut.(covers := true), hist := s.hist.(fileEnded := true))
    case Frames(keys) =>
      var caches := Stage(s.caches, keys, s.hist.arms);
      var reached := caches.newestRef.Some? && caches.newestRef.value >= s.pc.target + STAGING_SPAN_MS;
      s.(caches := caches, cut := if reached then s.cut.(covers := true) else s.cut,
         pc := Filling(s.pc.target, s.pc.packets + 1))
  }

  function DoScheduleCut(s: State, next: nat, atOut: int, fps: real): State {
    if s.cut.armed && s.cut.covers && s.cut.scheduledFrame < 0 then
      var asap := CutSchedule.OutputFrameForCut(next, CutSchedule.FramesForLeadMs(CUT_LEAD_MS, fps));
      var frame := if s.cut.fireAt >= 0 && atOut > asap then atOut else asap;
      s.(cut := s.cut.(scheduledTarget := s.cut.target, scheduledFrame := frame), pc := LoopHead)
    else s.(pc := LoopHead)
  }

  // --------------------------------------------------------------- the system

  predicate Enabled(s: State, step: Step) {
    match step
    case SeekTo(_) => true
    case ArmNextCut(_, _) => true
    case MoveTransport(_) => true
    case Tick(next, _, _) => next >= s.dispatcher
    case TakeSeek => s.pc.LoopHead?
    case TakeFollow => s.pc.NoSeekSeen?
    case TakeBackJump(_) => s.pc.NoFollowSeen?
    case PrimaryDecode(_) => s.pc.NoFollowSeen? || s.pc.LoopHead?
    case TrimAndPublish(_) => s.pc.NoFollowSeen?
    case PublishTail => s.pc.LoopHead?
    case ReadGeneration => s.pc.Entering?
    case BeginRefill => s.pc.Started?
    case RefillDecode(_) => s.pc.Refilling?
    case TryCommit => s.pc.Started? || s.pc.Refilling?
    case ApplyRearm => s.pc.AtRearm?
    case EnterFill => s.pc.AtFill?
    case FillRead(_) => s.pc.Filling? && s.pc.packets < PACKETS_PER_TICK && !s.cut.covers
    case ScheduleCut(_, _, _) => s.pc.Filling? && (s.pc.packets >= PACKETS_PER_TICK || s.cut.covers)
  }

  function Next(s: State, step: Step): State
    requires Enabled(s, step)
  {
    match step
    case SeekTo(ms) => DoSeekTo(s, ms)
    case ArmNextCut(target, fireAt) => DoArmNextCut(s, target, fireAt)
    case MoveTransport(pos) => s.(transport := pos)
    case Tick(next, covered, fps) => DoTick(s, next, covered, fps)
    case TakeSeek => DoTakeSeek(s)
    case TakeFollow => DoTakeFollow(s)
    case TakeBackJump(playhead) => s.(pc := Entering(playhead, BackJump))
    case PrimaryDecode(key) => s.(caches := s.caches.(output := s.caches.output[key := 0]))
    case TrimAndPublish(keepFrom) =>
      var kept := TrimBefore(s.caches.output, keepFrom);
      s.(caches := s.caches.(output := kept, published := kept), pc := AtRearm)
    case PublishTail => s.(caches := s.caches.(published := s.caches.output))
    case ReadGeneration => DoReadGeneration(s)
    case BeginRefill => DoBeginRefill(s)
    case RefillDecode(key) => s.(caches := s.caches.(output := s.caches.output[key := 0]))
    case TryCommit => DoTryCommit(s)
    case ApplyRearm => DoApplyRearm(s)
    case EnterFill => DoEnterFill(s)
    case FillRead(read) => DoFillRead(s, read)
    case ScheduleCut(next, atOut, fps) => DoScheduleCut(s, next, atOut, fps)
  }

  // A run takes the enabled steps of a schedule in order; a step that is not enabled waits its turn for ever.
  function Run(s: State, steps: seq<Step>): State
    decreases |steps|
  {
    if steps == [] then s
    else Run(if Enabled(s, steps[0]) then Next(s, steps[0]) else s, steps[1..])
  }

  /** The state at the head of the run loop: no seek outstanding, nothing armed. */
  ghost predicate Initial(s: State) {
    && s.gate.seekGen == s.gate.committedGen == s.hist.baseGen
    && s.gate.seekTarget == -1 && s.gate.follow == -1
    && !s.cut.armed && !s.cut.covers && s.cut.scheduledFrame == -1 && !s.cut.hasPending
    && !s.cut.prerollSeek && s.cut.fired == 0
    && s.pc.LoopHead?
    && s.hist == History(s.hist.baseGen, [], [], [], -1, -1, [], [], 0, 0, [], false, [])
  }
}
