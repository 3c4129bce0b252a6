// What a source's audio ticks put into the file, recorder_engine/streamworker.cpp:720-795, as a function of
// what is buffered and of the cursors.
module StreamAudio {
  import opened AudioFifo
  import opened Basics

  // One stereo sample of 16 bits a channel, as the four bytes it is stored in.
  datatype Sample = Sample(b0: Byte, b1: Byte, b2: Byte, b3: Byte)

  const ZERO := Sample(0, 0, 0, 0)

  // The write cursor runs on the file's timeline, the source cursor on the source's; both in samples.
  datatype Audio = Audio(fifo: Fifo<Sample>, write: int, source: int, trim: int, jitter: int)

  const FRESH := Audio(Fifo(-1, []), -1, -1, 0, 0)

  datatype Packet = Packet(at: int, samples: seq<Sample>) {
    function End(): int { at + |samples| }
  }

  // The values onMasterPulse reads once a pulse.
  datatype Tick = Tick(recMs: int, mapped: bool, trimMs: int, jitterMs: int) {
    function Target(): int { ToSamples(recMs) }
    function Offset(): int { ToSamples(jitterMs) + ToSamples(trimMs) }
  }

  datatype Ticked = Ticked(audio: Audio, packet: Option<Packet>)

  function ToSamples(ms: int): (n: int)
    ensures n == 48 * ms
  {
    ms * SAMPLE_RATE / 1000
  }

  // What the FIFO has for a position of the source's timeline.
  function Heard(f: Fifo<Sample>, p: int): Sample {
    if f.Holds(p) then f.At(p) else ZERO
  }

  function HeardFrom(f: Fifo<Sample>, p: int, n: nat): seq<Sample> {
    seq(n, k => Heard(f, p + k))
  }

  // Where the write cursor is once a mapped tick has looked at it.
  function WriteAt(s: Audio, target: int, fps: int): int
    requires fps >= 1
  {
    if s.write < 0 then Max(0, target - SAMPLE_RATE / fps) else s.write
  }

  predicate Resets(s: Audio, t: Tick) {
    s.source < 0 || s.trim != ToSamples(t.trimMs) || s.jitter != ToSamples(t.jitterMs)
  }

  function DoUnmapped(s: Audio, t: Tick): Audio {
    var source := t.Target() - t.Offset();
    Audio(Drop(s.fifo, source), t.Target(), source, ToSamples(t.trimMs), ToSamples(t.jitterMs))
  }

  // Where a mapped tick reads from: the carried cursor, unless it has to be set anew.
  function SourceAt(s: Audio, t: Tick, write: int): int {
    if Resets(s, t) then write - t.Offset() else s.source
  }

  function MuxLength(t: Tick, write: int): (n: nat)
    requires write < t.Target()
    ensures 0 < n <= SAMPLE_RATE
  {
    Min(t.Target() - write, SAMPLE_RATE)
  }

  function DoMux(s: Audio, t: Tick, write: int): Ticked
    requires write < t.Target()
  {
    var n, source := MuxLength(t, write), SourceAt(s, t, write);
    Ticked(Audio(Drop(s.fifo, source + n), write + n, source + n, ToSamples(t.trimMs), ToSamples(t.jitterMs)),
           Some(Packet(write, HeardFrom(s.fifo, source, n))))
  }

  function DoTick(s: Audio, t: Tick, fps: int): Ticked
    requires fps >= 1
  {
    if t.Target() <= 0 then Ticked(s, None)
    else if !t.mapped then Ticked(DoUnmapped(s, t), None)
    else
      var write := WriteAt(s, t.Target(), fps);
      if t.Target() <= write then Ticked(s.(write := write), None) else DoMux(s, t, write)
  }

  datatype Op = Chunk(stamp: int, samples: seq<Sample>) | Pulse(tick: Tick)

  function DoOp(s: Audio, op: Op, fps: int): Ticked
    requires fps >= 1
  {
    match op
    case Chunk(stamp, samples) => Ticked(s.(fifo := Enqueue(s.fifo, stamp, samples, ZERO)), None)
    case Pulse(tick) => DoTick(s, tick, fps)
  }

  datatype Ran = Ran(audio: Audio, packets: seq<Packet>)

  // Any interleaving of chunks from the capture thread and ticks of the heartbeat.
  function Run(from: Audio, ops: seq<Op>, fps: int): Ran
    requires fps >= 1
    decreases |ops|
  {
    if ops == [] then Ran(from, [])
    else
      var r := Run(from, ops[..|ops| - 1], fps);
      var t := DoOp(r.audio, ops[|ops| - 1], fps);
      Ran(t.audio, if t.packet.Some? then r.packets + [t.packet.value] else r.packets)
  }

  // ------------------------------------------------------------- the two cursors

  // The source cursor is the write cursor less the jitter and trim last applied. The exception is a frame
  // shorter than one sample, where a first tick can set the write cursor alone.
  predicate CursorsAgree(s: Audio, fps: int) {
    s.write >= 0 ==> s.source == s.write - s.jitter - s.trim || (fps > SAMPLE_RATE && s.source < 0)
  }

  // Both cursors unset, or together.
  predicate CursorsValid(s: Audio, fps: int) {
    CursorsAgree(s, fps) && (s.write < 0 ==> s.source < 0)
  }

  lemma FrameHoldsASample(fps: int)
    requires 1 <= fps <= SAMPLE_RATE
    ensures SAMPLE_RATE / fps >= 1
  {
  }

  lemma MuxKeepsCursors(s: Audio, t: Tick, write: int, fps: int)
    requires CursorsValid(s, fps) && 0 <= write < t.Target() && (s.write >= 0 ==> write == s.write)
    ensures CursorsValid(DoMux(s, t, write).audio, fps)
  {
  }

  lemma OpKeepsCursors(s: Audio, op: Op, fps: int)
    requires fps >= 1 && CursorsValid(s, fps)
    ensures CursorsValid(DoOp(s, op, fps).audio, fps)
  {
    if op.Pulse? && op.tick.Target() > 0 && op.tick.mapped {
      var t := op.tick;
      var write := WriteAt(s, t.Target(), fps);
      if t.Target() > write {
        MuxKeepsCursors(s, t, write, fps);
      } else if fps <= SAMPLE_RATE {
        FrameHoldsASample(fps);
      }
    }
  }

  /** Under any interleaving of chunks with mapped, unmapped, trim-changing and jitter-changing ticks. */
  lemma {:induction false} CursorsStayTogether(ops: seq<Op>, fps: int)
    requires fps >= 1
    ensures CursorsValid(Run(FRESH, ops, fps).audio, fps)
    decreases |ops|
  {
    if ops != [] {
      CursorsStayTogether(ops[..|ops| - 1], fps);
      OpKeepsCursors(Run(FRESH, ops[..|ops| - 1], fps).audio, ops[|ops| - 1], fps);
    }
  }

  // A tick's packet in terms of its own jitter and trim, whatever cursor the code carried over.
  lemma TickMuxesBuffered(s: Audio, t: Tick, fps: int, k: nat)
    requires fps >= 1 && CursorsValid(s, fps)
    requires DoTick(s, t, fps).packet.Some? && k < |DoTick(s, t, fps).packet.value.samples|
    ensures var p := DoTick(s, t, fps).packet.value;
            p.samples[k] == Heard(s.fifo, p.at + k - t.Offset())
  {
  }

  /** Every sample muxed in any run, at file position p, is the one buffered for p - jitter - trim at that
      moment, and zero when none is. */
  lemma MuxedSampleIsTheBufferedOne(ops: seq<Op>, i: nat, fps: int, k: nat)
    requires fps >= 1 && i < |ops| && ops[i].Pulse?
    requires var t := DoTick(Run(FRESH, ops[..i], fps).audio, ops[i].tick, fps).packet;
             t.Some? && k < |t.value.samples|
    ensures var s := Run(FRESH, ops[..i], fps).audio;
            var p := DoTick(s, ops[i].tick, fps).packet.value;
            p.samples[k] == Heard(s.fifo, p.at + k - ops[i].tick.Offset())
  {
    CursorsStayTogether(ops[..i], fps);
    TickMuxesBuffered(Run(FRESH, ops[..i], fps).audio, ops[i].tick, fps, k);
  }

  // ------------------------------------------------- the FIFO over a run

  // What a step does to the FIFO alone.
  function ActionOf(s: Audio, op: Op, fps: int): Action<Sample>
    requires fps >= 1
  {
    match op
    case Chunk(stamp, samples) => Enqueued(stamp, samples)
    case Pulse(t) =>
      if t.Target() <= 0 then Dropped(s.fifo.start)
      else if !t.mapped then Dropped(t.Target() - t.Offset())
      else
        var write := WriteAt(s, t.Target(), fps);
        if t.Target() <= write then Dropped(s.fifo.start) else Dropped(DoMux(s, t, write).audio.source)
  }

  function Actions(ops: seq<Op>, fps: int): seq<Action<Sample>>
    requires fps >= 1
    decreases |ops|
  {
    if ops == [] then []
    else
      var before := ops[..|ops| - 1];
      Actions(before, fps) + [ActionOf(Run(FRESH, before, fps).audio, ops[|ops| - 1], fps)]
  }

  lemma StepActsOnTheFifo(s: Audio, op: Op, fps: int)
    requires fps >= 1
    ensures DoOp(s, op, fps).audio.fifo == Act(s.fifo, ActionOf(s, op, fps), ZERO)
  {
  }

  lemma ActAllStep(f: Fifo<Sample>, before: seq<Action<Sample>>, a: Action<Sample>)
    ensures ActAll(f, before + [a], ZERO) == Act(ActAll(f, before, ZERO), a, ZERO)
  {
  }

  lemma {:induction false} RunActsOnTheFifo(ops: seq<Op>, fps: int)
    requires fps >= 1
    ensures Run(FRESH, ops, fps).audio.fifo == ActAll(Fifo(-1, []), Actions(ops, fps), ZERO)
    decreases |ops|
  {
    if ops != [] {
      var before := ops[..|ops| - 1];
      var s := Run(FRESH, before, fps).audio;
      RunActsOnTheFifo(before, fps);
      StepActsOnTheFifo(s, ops[|ops| - 1], fps);
      ActAllStep(Fifo(-1, []), Actions(before, fps), ActionOf(s, ops[|ops| - 1], fps));
    }
  }

  /** In any run at most ten seconds are ever held, and each sample of a stamped chunk is held, and so muxed
      from, within 10 ms of its stamp. */
  lemma RunSamplesSitAtTheirStamps(ops: seq<Op>, fps: int)
    requires fps >= 1
    ensures var f := Run(FRESH, ops, fps).audio.fifo;
            var labelled := ActAllLabelled(Actions(ops, fps), ZERO);
            && f == Plain(labelled) && f.Valid() && InPlace(labelled.start, labelled.items)
  {
    RunActsOnTheFifo(ops, fps);
    SamplesSitAtTheirStamps(Actions(ops, fps), ZERO);
  }

  // ------------------------------------------------ from a chunk to the file

  lemma KeptInPlace(s: Audio, op: Op, fps: int, p: int)
    requires fps >= 1 && s.fifo.Valid() && s.fifo.Holds(p) && DoOp(s, op, fps).audio.fifo.Holds(p)
    ensures DoOp(s, op, fps).audio.fifo.At(p) == s.fifo.At(p)
  {
    StepActsOnTheFifo(s, op, fps);
    match ActionOf(s, op, fps)
    case Enqueued(stamp, chunk) => EnqueueMovesNothing(s.fifo, stamp, chunk, ZERO, p);
    case Dropped(to) => DropMovesNothing(s.fifo, to, p);
  }

  function FifoAt(ops: seq<Op>, i: nat, fps: int): Fifo<Sample>
    requires fps >= 1 && i <= |ops|
  {
    Run(FRESH, ops[..i], fps).audio.fifo
  }

  // The n-th sample of the i-th step's chunk gets the position p, and p is held from then until the j-th step.
  ghost predicate BufferedUntil(ops: seq<Op>, i: nat, j: nat, fps: int, n: nat, p: int) {
    && fps >= 1 && i < j <= |ops| && ops[i].Chunk? && n < |ops[i].samples|
    && var f, stamp := FifoAt(ops, i, fps), ops[i].stamp;
       && !Ignored(f, stamp) && p == PlaceOf(f, stamp) + n && (StartsAnew(f, stamp) || p >= f.End())
       && forall m :: i < m <= j ==> FifoAt(ops, m, fps).Holds(p)
  }

  lemma RunStep(ops: seq<Op>, m: nat, fps: int)
    requires fps >= 1 && m < |ops|
    ensures FifoAt(ops, m + 1, fps) == DoOp(Run(FRESH, ops[..m], fps).audio, ops[m], fps).audio.fifo
    ensures FifoAt(ops, m, fps).Valid()
  {
    assert ops[..m + 1][..m] == ops[..m];
    RunSamplesSitAtTheirStamps(ops[..m], fps);
  }

  lemma ChunkArrives(s: Audio, op: Op, fps: int, n: nat, p: int)
    requires fps >= 1 && s.fifo.Valid() && op.Chunk? && n < |op.samples|
    requires !Ignored(s.fifo, op.stamp) && p == PlaceOf(s.fifo, op.stamp) + n
    requires StartsAnew(s.fifo, op.stamp) || p >= s.fifo.End()
    requires DoOp(s, op, fps).audio.fifo.Holds(p)
    ensures DoOp(s, op, fps).audio.fifo.At(p) == op.samples[n]
  {
    ChunkHasItsPlace(s.fifo, op.stamp, op.samples, ZERO, n);
  }

  lemma StepKeepsSample(ops: seq<Op>, m: nat, fps: int, p: int)
    requires fps >= 1 && m < |ops| && FifoAt(ops, m, fps).Holds(p) && FifoAt(ops, m + 1, fps).Holds(p)
    ensures FifoAt(ops, m + 1, fps).At(p) == FifoAt(ops, m, fps).At(p)
  {
    RunStep(ops, m, fps);
    KeptInPlace(Run(FRESH, ops[..m], fps).audio, ops[m], fps, p);
  }

  lemma {:induction false} ChunkStays(ops: seq<Op>, i: nat, j: nat, fps: int, n: nat, p: int)
    requires BufferedUntil(ops, i, j, fps, n, p)
    ensures FifoAt(ops, j, fps).At(p) == ops[i].samples[n]
    decreases j
  {
    if j == i + 1 {
      RunStep(ops, i, fps);
      ChunkArrives(Run(FRESH, ops[..i], fps).audio, ops[i], fps, n, p);
    } else {
      ChunkStays(ops, i, j - 1, fps, n, p);
      StepKeepsSample(ops, j - 1, fps, p);
    }
  }

  /** In any run, the sample a chunk brought for a position is the one muxed for it, jitter and trim later in the
      file, as long as the position stays buffered until the tick that reads it. */
  lemma ChunkIsMuxed(ops: seq<Op>, i: nat, j: nat, fps: int, n: nat, k: nat)
    requires fps >= 1 && j < |ops| && ops[j].Pulse?
    requires var t := DoTick(Run(FRESH, ops[..j], fps).audio, ops[j].tick, fps).packet;
             && t.Some? && k < |t.value.samples|
             && BufferedUntil(ops, i, j, fps, n, t.value.at + k - ops[j].tick.Offset())
    ensures DoTick(Run(FRESH, ops[..j], fps).audio, ops[j].tick, fps).packet.value.samples[k] == ops[i].samples[n]
  {
    var p := DoTick(Run(FRESH, ops[..j], fps).audio, ops[j].tick, fps).packet.value;
    MuxedSampleIsTheBufferedOne(ops, j, fps, k);
    ChunkStays(ops, i, j, fps, n, p.at + k - ops[j].tick.Offset());
  }

  // --------------------------------------------------------- what a tick takes

  /** A tick that finds time to write moves its source to it, a second at most, and forgets what is then behind the
      source cursor; one that finds none changes no more than an unset write cursor. */
  lemma TickAdvances(s: Audio, t: Tick, fps: int, p: int)
    requires fps >= 1 && CursorsValid(s, fps) && s.fifo.Valid()
    ensures var r := DoTick(s, t, fps);
            var from := if s.write >= 0 then s.write else Max(0, 48 * t.recMs - SAMPLE_RATE / fps);
            if t.recMs <= 0 then r == Ticked(s, None)
            else if !t.mapped then
              && r.packet.None? && r.audio.write == 48 * t.recMs
              && r.audio.source == 48 * (t.recMs - t.jitterMs - t.trimMs)
              && (r.audio.fifo.Holds(p) <==> s.fifo.Holds(p) && p >= r.audio.source)
            else if from < 48 * t.recMs then
              && r.packet.Some? && r.packet.value.at == from
              && r.packet.value.End() == r.audio.write == Min(48 * t.recMs, from + SAMPLE_RATE)
              && r.audio.source == r.audio.write - 48 * (t.jitterMs + t.trimMs)
              && (r.audio.fifo.Holds(p) <==> s.fifo.Holds(p) && p >= r.audio.source)
            else r.packet.None? && r.audio == s.(write := from)
  {
    if t.recMs <= 0 {
    } else if !t.mapped {
      DropMovesNothing(s.fifo, t.Target() - t.Offset(), p);
    } else if WriteAt(s, t.Target(), fps) < t.Target() {
      DropMovesNothing(s.fifo, DoMux(s, t, WriteAt(s, t.Target(), fps)).audio.source, p);
    }
  }

  // ------------------------------------------------------------------- tiling

  // One after the other, without overlap, all before end, none longer than a second.
  ghost predicate Ordered(packets: seq<Packet>, end: int) {
    && (forall i :: 0 <= i < |packets| ==>
          0 <= packets[i].at < packets[i].End() <= end && |packets[i].samples| <= SAMPLE_RATE)
    && (forall i, j :: 0 <= i < j < |packets| ==> packets[i].End() <= packets[j].at)
  }

  // The recording time of the ticks never goes back.
  predicate InOrder(ops: seq<Op>) {
    forall i, j :: 0 <= i < j < |ops| && ops[i].Pulse? && ops[j].Pulse? ==> ops[i].tick.recMs <= ops[j].tick.recMs
  }

  // No tick has been asked for more than this.
  predicate NoneLater(ops: seq<Op>, target: int) {
    forall i :: 0 <= i < |ops| && ops[i].Pulse? ==> ops[i].tick.Target() <= target
  }

  lemma OpMovesOn(s: Audio, op: Op, fps: int)
    requires fps >= 1 && (op.Pulse? ==> s.write <= Max(op.tick.Target(), 0))
    ensures var t := DoOp(s, op, fps);
            && s.write <= t.audio.write
            && (op.Chunk? ==> t.audio.write == s.write)
            && (op.Pulse? ==> t.audio.write <= Max(op.tick.Target(), 0))
            && (t.packet.Some? ==> var p := t.packet.value;
                  s.write <= p.at && 0 <= p.at < p.End() == t.audio.write && |p.samples| <= SAMPLE_RATE)
  {
  }

  lemma {:induction false} WriteIsNotAhead(ops: seq<Op>, fps: int, target: int)
    requires fps >= 1 && InOrder(ops) && NoneLater(ops, target)
    ensures Run(FRESH, ops, fps).audio.write <= Max(target, 0)
    decreases |ops|
  {
    if ops != [] {
      var last := ops[|ops| - 1];
      var before := ops[..|ops| - 1];
      var bound := if last.Pulse? then last.tick.Target() else target;
      WriteIsNotAhead(before, fps, bound);
      OpMovesOn(Run(FRESH, before, fps).audio, last, fps);
    }
  }

  /** Over a whole run with non-decreasing recording time, the packets are in order, disjoint, and at most one
      second long each. */
  lemma {:induction false} PacketsAreDisjoint(ops: seq<Op>, fps: int)
    requires fps >= 1 && InOrder(ops)
    ensures var r := Run(FRESH, ops, fps); Ordered(r.packets, r.audio.write)
    decreases |ops|
  {
    if ops != [] {
      var last := ops[|ops| - 1];
      var before := ops[..|ops| - 1];
      PacketsAreDisjoint(before, fps);
      if last.Pulse? {
        WriteIsNotAhead(before, fps, last.tick.Target());
      }
      OpMovesOn(Run(FRESH, before, fps).audio, last, fps);
    }
  }

  // The packets fill from..to without a hole.
  predicate Tiles(packets: seq<Packet>, from: int, to: int)
    decreases |packets|
  {
    if packets == [] then from == to
    else packets[|packets| - 1].End() == to && Tiles(packets[..|packets| - 1], from, packets[|packets| - 1].at)
  }

  /** While a source stays mapped its packets abut exactly, whatever the tick times, trims and jitter. */
  lemma {:induction false} MappedPacketsAbut(s: Audio, ops: seq<Op>, fps: int)
    requires fps >= 1 && s.write >= 0
    requires forall i :: 0 <= i < |ops| && ops[i].Pulse? ==> ops[i].tick.mapped
    ensures var r := Run(s, ops, fps); r.audio.write >= s.write && Tiles(r.packets, s.write, r.audio.write)
    decreases |ops|
  {
    if ops != [] {
      var before := ops[..|ops| - 1];
      MappedPacketsAbut(s, before, fps);
      var r := Run(s, before, fps);
      var t := DoOp(r.audio, ops[|ops| - 1], fps);
      if t.packet.Some? {
        assert (r.packets + [t.packet.value])[..|r.packets|] == r.packets;
      }
    }
  }

  function TickTimes(s: Audio, t: Tick, fps: int, n: nat): Audio
    requires fps >= 1
  {
    if n == 0 then s else DoTick(TickTimes(s, t, fps, n - 1), t, fps).audio
  }

  /** A backlog drains by exactly one second a tick until nothing is left of it. */
  lemma {:induction false} BacklogDrains(s: Audio, t: Tick, fps: int, n: nat)
    requires fps >= 1 && t.mapped && 0 <= s.write <= t.Target()
    ensures TickTimes(s, t, fps, n).write == Min(t.Target(), s.write + n * SAMPLE_RATE)
  {
    if n > 0 {
      BacklogDrains(s, t, fps, n - 1);
    }
  }
}
