// Where pushed audio plays, playback/audioplayer.cpp:14-123 and 210-393. The player's pushes and the device
// thread's reads meet in the ring buffer, whose mutex makes each of its calls one step; between the steps of
// a push the device may read any number of times. Positions are byte counts of the device's own clock.
module AudioLedger {
  import opened Basics

  // What a push still holds on its way: nothing, a silence prefix and a payload, a payload before the debt
  // is taken, a debt to give back, a payload to append.
  datatype Pc = Idle | Silence(silence: nat, next: nat) | Take(payload: nat) | AddBack(rest: nat) | Append(bytes: nat)

  // The format, and the ring's cap in bytes.
  datatype Format = Format(rate: int, bytesPerFrame: int, cap: int) {
    predicate Valid() { rate >= 1 && bytesPerFrame >= 1 && cap >= 1 }
    function JitterTol(): int { 30 * rate / 1000 }
    function MaxGap(): int { 2 * rate }
    function FadeTail(): int { 240 * bytesPerFrame }
  }

  datatype Player = Player(
    device: int,       // bytes the device has been given
    buffered: int,     // bytes in the ring
    debt: int,         // silence played in place of due data
    active: bool,      // data has flowed since the last clear
    overflowed: bool,
    muted: bool,
    aligned: bool,
    expected: int,     // where the next chunk should start, in frames
    pc: Pc)

  // What a push is given: the chunk's size in bytes, and in frames its stamp, the position due now and how
  // far off is too far.
  datatype Chunk = Chunk(bytes: int, pts: int, due: int, resync: int) {
    function Frames(f: Format): int
      requires f.Valid()
    {
      if bytes <= 0 then 0 else bytes / f.bytesPerFrame
    }
  }

  // ------------------------------------------------------------------ the steps

  function DoRead(p: Player, size: nat, f: Format): Player {
    var got := Min(size, p.buffered);
    var debt := if p.active then Min(p.debt + size - got, f.cap) else p.debt;
    p.(device := p.device + size, buffered := p.buffered - got, debt := if got < size then debt else p.debt)
  }

  function DoAppend(p: Player, bytes: nat, f: Format): Player {
    if bytes == 0 then p
    else
      var all := p.buffered + bytes;
      p.(buffered := Min(all, f.cap), active := true, overflowed := p.overflowed || all > f.cap)
  }

  // Whether this push has to find its place on the timeline again.
  predicate Realigns(p: Player, c: Chunk) {
    !p.aligned || p.overflowed || Abs(c.pts - c.due) > c.resync
  }

  // What a push decides before it touches the ring's bytes: the silence to put in front, and how much of
  // the chunk's end to carry in.
  datatype Decision = Decision(player: Player, silence: nat, payload: nat) {
    function Begun(): Player {
      player.(pc := if silence > 0 then Silence(silence, payload) else if payload > 0 then Take(payload) else Idle)
    }
  }

  function Align(p: Player, c: Chunk, f: Format): Decision
    requires f.Valid() && c.Frames(f) > 0
  {
    var lead, frames := c.pts - c.due, c.Frames(f);
    if lead + frames <= 0 then Decision(p.(aligned := false, overflowed := false), 0, 0)
    else
      Decision(p.(aligned := true, overflowed := false, expected := c.pts + frames),
               if lead > 0 then Min(lead, f.MaxGap()) * f.bytesPerFrame else 0,
               (if lead < 0 then frames + lead else frames) * f.bytesPerFrame)
  }

  function Continue(p: Player, c: Chunk, f: Format): Decision
    requires f.Valid() && c.Frames(f) > 0
  {
    var delta, frames := c.pts - p.expected, c.Frames(f);
    var next := p.(expected := c.pts + frames);
    if delta > f.JitterTol() then
      Decision(next, Min(delta, f.MaxGap()) * f.bytesPerFrame, frames * f.bytesPerFrame)
    else if delta < -f.JitterTol() then
      Decision(next, 0, if -delta >= frames then 0 else (frames + delta) * f.bytesPerFrame)
    else Decision(next, 0, frames * f.bytesPerFrame)
  }

  function Decide(p: Player, c: Chunk, f: Format): Decision
    requires f.Valid()
  {
    if p.muted || c.bytes <= 0 then Decision(p, 0, 0)
    else if c.Frames(f) == 0 then Decision(p.(aligned := p.aligned && !p.overflowed, overflowed := false), 0, 0)
    else if Realigns(p, c) then Align(p, c, f)
    else Continue(p, c, f)
  }

  function DoBegin(p: Player, c: Chunk, f: Format): Player
    requires f.Valid()
  {
    Decide(p, c, f).Begun()
  }

  function DoSilence(p: Player, f: Format): Player
    requires p.pc.Silence?
  {
    DoAppend(p, p.pc.silence, f).(pc := Take(p.pc.next))
  }

  function DoTake(p: Player): Player
    requires p.pc.Take? && p.debt >= 0
  {
    var payload := p.pc.payload;
    var drop := Min(p.debt, payload);
    p.(debt := 0, pc := if p.debt > drop then AddBack(p.debt - drop)
                        else if payload > drop then Append(payload - drop)
                        else Idle)
  }

  function DoAddBack(p: Player, f: Format): Player
    requires p.pc.AddBack?
  {
    p.(debt := Min(p.debt + p.pc.rest, f.cap), pc := Idle)
  }

  function DoPayload(p: Player, f: Format): Player
    requires p.pc.Append?
  {
    DoAppend(p, p.pc.bytes, f).(pc := Idle)
  }

  // clear(): a short tail stays to be played while the ramp takes it to zero.
  function DoClear(p: Player, f: Format): Player {
    p.(debt := 0, active := false, overflowed := false, aligned := false,
       buffered := Min(p.buffered, f.FadeTail()))
  }

  function DoMute(p: Player, muted: bool, f: Format): Player {
    if muted then
      p.(muted := true, debt := 0, active := false, overflowed := false, buffered := Min(p.buffered, f.FadeTail()))
    else if p.muted then
      p.(muted := false, debt := 0, active := false, overflowed := false, aligned := false, buffered := 0)
    else p
  }

  datatype Step = Read(size: nat) | Begin(chunk: Chunk) | PushSilence | TakeDebt | AddBackDebt | PushPayload
                | Clear | SetMuted(muted: bool)

  // The player's mutex keeps its own calls apart; only the device's reads come between the steps of a push.
  predicate Enabled(p: Player, step: Step) {
    match step
    case Read(_) => true
    case Begin(_) => p.pc.Idle?
    case PushSilence => p.pc.Silence?
    case TakeDebt => p.pc.Take? && p.debt >= 0
    case AddBackDebt => p.pc.AddBack?
    case PushPayload => p.pc.Append?
    case Clear => p.pc.Idle?
    case SetMuted(_) => p.pc.Idle?
  }

  function Next(p: Player, step: Step, f: Format): Player
    requires f.Valid() && Enabled(p, step)
  {
    match step
    case Read(size) => DoRead(p, size, f)
    case Begin(chunk) => DoBegin(p, chunk, f)
    case PushSilence => DoSilence(p, f)
    case TakeDebt => DoTake(p)
    case AddBackDebt => DoAddBack(p, f)
    case PushPayload => DoPayload(p, f)
    case Clear => DoClear(p, f)
    case SetMuted(muted) => DoMute(p, muted, f)
  }

  // The steps of a push with no read between them.
  function DoTakeAndPush(p: Player, f: Format): Player
    requires p.pc.Take? && p.debt >= 0
  {
    var q := DoTake(p);
    if q.pc.AddBack? then DoAddBack(q, f) else if q.pc.Append? then DoPayload(q, f) else q
  }

  function DoFinish(d: Decision, f: Format): Player
    requires d.player.debt >= 0
  {
    var q := d.Begun();
    if q.pc.Silence? then DoTakeAndPush(DoSilence(q, f), f)
    else if q.pc.Take? then DoTakeAndPush(q, f)
    else q
  }

  // What a payload leaves, in closed form: the debt comes off its head, what the debt exceeds it by stays owed.
  function Repaid(p: Player, payload: nat, f: Format): Player
    requires p.debt >= 0
  {
    if p.debt > payload then p.(debt := Min(p.debt - payload, f.cap))
    else DoAppend(p.(debt := 0), payload - p.debt, f)
  }

  lemma TakeIsRepaid(p: Player, payload: nat, f: Format)
    requires p.debt >= 0 && p.pc.Idle? && payload > 0
    ensures DoTakeAndPush(p.(pc := Take(payload)), f) == Repaid(p, payload, f)
  {
  }

  function Finished(d: Decision, f: Format): Player
    requires d.player.debt >= 0
  {
    if d.payload == 0 then d.player else Repaid(DoAppend(d.player, d.silence, f), d.payload, f)
  }

  /** The steps of a push one after the other amount to the closed form. */
  lemma FinishIsRepaid(d: Decision, f: Format)
    requires d.player.debt >= 0 && d.player.pc.Idle? && (d.payload == 0 ==> d.silence == 0)
    ensures DoFinish(d, f) == Finished(d, f)
  {
    if d.payload > 0 {
      TakeIsRepaid(DoAppend(d.player, d.silence, f), d.payload, f);
      if d.silence > 0 {
        assert DoSilence(d.Begun(), f) == DoAppend(d.player, d.silence, f).(pc := Take(d.payload));
      }
    }
  }

  function DoPush(p: Player, c: Chunk, f: Format): Player
    requires f.Valid() && p.debt >= 0 && p.pc.Idle?
  {
    DoFinish(Decide(p, c, f), f)
  }

  // ----------------------------------------------------------------- the ledger

  // Bytes and debt a push holds in its hands.
  function InHand(pc: Pc): int {
    match pc
    case Idle => 0
    case Silence(silence, next) => silence + next
    case Take(payload) => payload
    case AddBack(rest) => -(rest as int)
    case Append(bytes) => bytes
  }

  // How far the device's clock is ahead of the timeline, once everything under way has arrived.
  function Ledger(p: Player, f: Format): int {
    p.device + p.buffered + InHand(p.pc) - p.debt - p.expected * f.bytesPerFrame
  }

  // What has moved the ledger since the stream was last aligned.
  datatype Books = Books(
    base: int,       // the ledger when it was aligned
    accepted: int,   // stamps off by no more than the tolerance, summed, in frames
    clipped: int,    // frames of gaps beyond two seconds, not bridged
    rewound: int,    // frames by which chunks ended before the expected position
    trimmed: int,    // due bytes the ring's cap threw away
    forgiven: int,   // debt beyond the cap
    idle: int)       // silence played before the stream's first byte, which is no debt

  function Balance(b: Books, f: Format): int {
    b.base + (b.rewound - b.accepted - b.clipped) * f.bytesPerFrame - b.trimmed + b.forgiven + b.idle
  }

  function Excess(x: int, cap: int): int { if x > cap then x - cap else 0 }

  function BookBegin(b: Books, p: Player, c: Chunk, f: Format): Books
    requires f.Valid()
  {
    if p.muted || c.bytes <= 0 || c.Frames(f) == 0 then b
    else if Realigns(p, c) then Books(Ledger(Align(p, c, f).Begun(), f), 0, 0, 0, 0, 0, 0)
    else
      var delta := c.pts - p.expected;
      if delta > f.JitterTol() then b.(clipped := b.clipped + Excess(delta, f.MaxGap()))
      else if delta < -f.JitterTol() then b.(rewound := b.rewound + Excess(-delta, c.Frames(f)))
      else b.(accepted := b.accepted + delta)
  }

  function Book(b: Books, p: Player, step: Step, f: Format): Books
    requires f.Valid() && Enabled(p, step)
  {
    match step
    case Read(size) =>
      var under := size - Min(size, p.buffered);
      if !p.active then b.(idle := b.idle + under)
      else if under > 0 then b.(forgiven := b.forgiven + Excess(p.debt + under, f.cap))
      else b
    case Begin(chunk) => BookBegin(b, p, chunk, f)
    case PushSilence => b.(trimmed := b.trimmed + Excess(p.buffered + p.pc.silence, f.cap))
    case AddBackDebt => b.(forgiven := b.forgiven + Excess(p.debt + p.pc.rest, f.cap))
    case PushPayload => b.(trimmed := b.trimmed + Excess(p.buffered + p.pc.bytes, f.cap))
    case _ => b
  }

  datatype State = State(player: Player, books: Books)

  const NO_BOOKS := Books(0, 0, 0, 0, 0, 0, 0)

  ghost predicate Initial(s: State) {
    s.books == NO_BOOKS && s.player.pc.Idle? && !s.player.aligned && s.player.muted
    && s.player.buffered == 0 && s.player.debt == 0 && !s.player.active && !s.player.overflowed
  }

  predicate Runs(s: State, steps: seq<Step>, f: Format)
    requires f.Valid()
    decreases |steps|
  {
    steps == [] || (Enabled(s.player, steps[0]) && Runs(After(s, steps[0], f), steps[1..], f))
  }

  function After(s: State, step: Step, f: Format): State
    requires f.Valid() && Enabled(s.player, step)
  {
    State(Next(s.player, step, f), Book(s.books, s.player, step, f))
  }

  function Run(s: State, steps: seq<Step>, f: Format): State
    requires f.Valid() && Runs(s, steps, f)
    decreases |steps|
  {
    if steps == [] then s else Run(After(s, steps[0], f), steps[1..], f)
  }

  // While the stream is aligned and heard, every byte of its offset from the device's clock is booked, and
  // bytes the cap threw away have the next push align again.
  ghost predicate Booked(s: State, f: Format) {
    s.player.aligned && !s.player.muted ==>
      && Ledger(s.player, f) == Balance(s.books, f)
      && (s.books.trimmed != 0 ==> s.player.overflowed)
  }

  // A debt is only ever owed by a stream that has started; a push under way belongs to an aligned one.
  ghost predicate Sane(p: Player, f: Format) {
    && 0 <= p.buffered <= f.cap && 0 <= p.debt <= f.cap
    && (!p.active ==> p.debt == 0)
    && (!p.pc.Idle? ==> p.aligned && !p.muted)
    && (p.pc.AddBack? ==> p.active)
    && (p.pc.Silence? ==> p.pc.silence > 0)
  }

  ghost predicate Inv(s: State, f: Format) {
    Sane(s.player, f) && Booked(s, f)
  }

  lemma StepStaysSane(p: Player, step: Step, f: Format)
    requires f.Valid() && Enabled(p, step) && Sane(p, f)
    ensures Sane(Next(p, step, f), f)
  {
  }

  // Multiplying out a frame count.
  lemma Times(a: int, b: int, m: int)
    ensures (a + b) * m == a * m + b * m && (a - b) * m == a * m - b * m && (0 - a) * m == -(a * m)
  {
  }

  lemma ContinueIsBooked(s: State, c: Chunk, f: Format)
    requires f.Valid() && Inv(s, f) && s.player.pc.Idle? && !s.player.muted && c.Frames(f) > 0
    requires !Realigns(s.player, c)
    ensures Ledger(Continue(s.player, c, f).Begun(), f) == Balance(BookBegin(s.books, s.player, c, f), f)
  {
    var p, b, m, frames := s.player, s.books, f.bytesPerFrame, c.Frames(f);
    var delta := c.pts - p.expected;
    Times(p.expected + delta, frames, m);
    Times(p.expected, delta, m);
    Times(frames, delta, m);
    var kept := b.rewound - b.accepted - b.clipped;
    if delta > f.JitterTol() {
      Times(kept, Excess(delta, f.MaxGap()), m);
      Times(delta, f.MaxGap(), m);
    } else if delta < -f.JitterTol() {
      Times(kept, Excess(-delta, frames), m);
      Times(-delta, frames, m);
      Times(delta, 0, m);
    } else {
      Times(kept, delta, m);
    }
  }

  lemma BeginIsBooked(s: State, c: Chunk, f: Format)
    requires f.Valid() && Inv(s, f) && s.player.pc.Idle?
    ensures Booked(After(s, Begin(c), f), f)
  {
    if !s.player.muted && c.Frames(f) > 0 && !Realigns(s.player, c) {
      ContinueIsBooked(s, c, f);
    }
  }

  lemma StepIsBooked(s: State, step: Step, f: Format)
    requires f.Valid() && Enabled(s.player, step) && Inv(s, f)
    ensures Booked(After(s, step, f), f)
  {
    if step.Begin? {
      BeginIsBooked(s, step.chunk, f);
    }
  }

  /** Under every interleaving of device reads with the steps of pushes, clears and mutes, the stream's offset
      from the device's clock is its offset when it was aligned, less the stamps accepted within the
      tolerance, and plus or minus nothing that is not booked. */
  lemma {:induction false} EveryByteIsBooked(s: State, steps: seq<Step>, f: Format)
    requires f.Valid() && Inv(s, f) && Runs(s, steps, f)
    ensures Inv(Run(s, steps, f), f)
    decreases |steps|
  {
    if steps != [] {
      StepStaysSane(s.player, steps[0], f);
      StepIsBooked(s, steps[0], f);
      EveryByteIsBooked(After(s, steps[0], f), steps[1..], f);
    }
  }

  /** So from a player that has just been started on, in every run. */
  lemma EveryRunIsBooked(s: State, steps: seq<Step>, f: Format)
    requires f.Valid() && Initial(s) && Runs(s, steps, f)
    ensures Booked(Run(s, steps, f), f)
  {
    EveryByteIsBooked(s, steps, f);
  }

  /** Aligning makes the position that is due now play at the end of what the ring holds, up to the two
      seconds of silence it is willing to put in front. A clear's fade tail still held is in the way. */
  lemma AlignmentMeetsTheClock(p: Player, c: Chunk, f: Format)
    requires f.Valid() && c.Frames(f) > 0 && p.pc.Idle? && Align(p, c, f).player.aligned
    ensures Ledger(Align(p, c, f).Begun(), f)
            == p.device + p.buffered - p.debt - (c.due + Excess(c.pts - c.due, f.MaxGap())) * f.bytesPerFrame
  {
  }

  /** The head of a payload about to be appended plays at its own position on the timeline plus the booked
      offset, late only by the debt the device has run up since the push took the last one. */
  lemma PayloadLandsAtItsPosition(s: State, f: Format)
    requires f.Valid() && Inv(s, f) && s.player.pc.Append?
    ensures var p := s.player;
            p.device + p.buffered == (p.expected * f.bytesPerFrame - p.pc.bytes) + Balance(s.books, f) + p.debt
  {
  }

  // ---------------------------------------------------- where a chunk is put

  // How far, in frames, a chunk is held back behind what the ring holds, or cut short at its head if negative: by
  // its lead over the position due now when the stream is aligned, by a gap or overlap too big to let pass otherwise.
  function ShiftOf(c: Chunk, aligning: bool, previousEnd: int, f: Format): int {
    var off := if aligning then c.pts - c.due else c.pts - previousEnd;
    if aligning || Abs(off) > 30 * f.rate / 1000 then Min(off, 2 * f.rate) else 0
  }

  predicate Heard(p: Player, c: Chunk, f: Format)
    requires f.Valid()
  {
    !p.muted && c.bytes >= f.bytesPerFrame
  }

  lemma HeardHasFrames(p: Player, c: Chunk, f: Format)
    requires f.Valid() && Heard(p, c, f)
    ensures c.Frames(f) > 0
  {
  }

  /** A push aligns when the stream has no place yet, has lost it to the cap or is too far off its time. It puts as
      much silence in front, or cuts as much off the head, as the chunk is shifted; a chunk all in the past leaves the
      stream unaligned, and otherwise the stream goes on where the chunk ends. */
  lemma PushShifts(p: Player, c: Chunk, f: Format)
    requires f.Valid() && Heard(p, c, f)
    ensures var d, frames := Decide(p, c, f), c.Frames(f);
            var aligning := !p.aligned || p.overflowed || Abs(c.pts - c.due) > c.resync;
            var shift := ShiftOf(c, aligning, p.expected, f);
            && d.silence == Max(0, shift) * f.bytesPerFrame
            && d.payload == Max(0, frames + Min(0, shift)) * f.bytesPerFrame
            && d.player == p.(aligned := d.player.aligned, overflowed := false, expected := d.player.expected)
            && d.player.aligned == (!aligning || shift + frames > 0)
            && (d.player.aligned ==> d.player.expected == c.pts + frames)
  {
    HeardHasFrames(p, c, f);
  }

  lemma StepKeepsPlace(p: Player, step: Step, f: Format)
    requires f.Valid() && Enabled(p, step) && !step.Begin?
    ensures var q := Next(p, step, f);
            q.expected == p.expected && (q.aligned ==> p.aligned)
  {
  }

  lemma {:induction false} RunKeepsPlace(s: State, steps: seq<Step>, f: Format)
    requires f.Valid() && Runs(s, steps, f)
    requires forall i :: 0 <= i < |steps| ==> !steps[i].Begin?
    ensures var p := Run(s, steps, f).player;
            p.expected == s.player.expected && (p.aligned ==> s.player.aligned)
    decreases |steps|
  {
    if steps != [] {
      StepKeepsPlace(s.player, steps[0], f);
      RunKeepsPlace(After(s, steps[0], f), steps[1..], f);
    }
  }

  /** In terms of stamps alone: a chunk that needs no alignment is shifted against the end of the chunk heard before
      it, whatever the device has read in between. One that abuts it is carried whole, with no silence in front. */
  lemma NextChunkFollows(s: State, first: Chunk, between: seq<Step>, second: Chunk, f: Format)
    requires f.Valid() && s.player.pc.Idle? && Heard(s.player, first, f)
    requires Runs(After(s, Begin(first), f), between, f)
    requires forall i :: 0 <= i < |between| ==> !between[i].Begin?
    requires var p := Run(After(s, Begin(first), f), between, f).player;
             p.aligned && !p.overflowed && Abs(second.pts - second.due) <= second.resync && Heard(p, second, f)
    ensures var d := Decide(Run(After(s, Begin(first), f), between, f).player, second, f);
            var frames, shift := second.Frames(f), ShiftOf(second, false, first.pts + first.Frames(f), f);
            && d.silence == Max(0, shift) * f.bytesPerFrame
            && d.payload == Max(0, frames + Min(0, shift)) * f.bytesPerFrame
            && (second.pts == first.pts + first.Frames(f) ==> d.silence == 0 && d.payload == frames * f.bytesPerFrame)
  {
    PushShifts(s.player, first, f);
    RunKeepsPlace(After(s, Begin(first), f), between, f);
    PushShifts(Run(After(s, Begin(first), f), between, f).player, second, f);
  }

  // ------------------------------------------------------- when nothing is lost

  // No cap hit, no alignment, no chunk that ends before the expected position, no gap over two seconds, and
  // before the stream's first byte no read that finds the ring short.
  predicate Smooth(p: Player, step: Step, f: Format)
    requires f.Valid() && Enabled(p, step)
  {
    match step
    case Read(size) => if p.active then p.debt + size - Min(size, p.buffered) <= f.cap else size <= p.buffered
    case Begin(c) =>
      c.Frames(f) > 0 && !p.muted && !Realigns(p, c)
      && p.expected <= c.pts + c.Frames(f) && c.pts - p.expected <= f.MaxGap()
    case PushSilence => p.buffered + p.pc.silence <= f.cap
    case AddBackDebt => p.debt + p.pc.rest <= f.cap
    case PushPayload => p.buffered + p.pc.bytes <= f.cap
    case TakeDebt => true
    case _ => false
  }

  predicate AllSmooth(s: State, steps: seq<Step>, f: Format)
    requires f.Valid() && Runs(s, steps, f)
    decreases |steps|
  {
    steps == [] || (Smooth(s.player, steps[0], f) && AllSmooth(After(s, steps[0], f), steps[1..], f))
  }

  // How far a step's stamp is off, when it is let through as it is.
  function Let(p: Player, step: Step, f: Format): int {
    if step.Begin? && Abs(step.chunk.pts - p.expected) <= f.JitterTol() then step.chunk.pts - p.expected else 0
  }

  function LetAll(s: State, steps: seq<Step>, f: Format): int
    requires f.Valid() && Runs(s, steps, f)
    decreases |steps|
  {
    if steps == [] then 0 else Let(s.player, steps[0], f) + LetAll(After(s, steps[0], f), steps[1..], f)
  }

  lemma SmoothStepKeepsLedger(s: State, step: Step, f: Format)
    requires f.Valid() && Enabled(s.player, step) && Inv(s, f) && Smooth(s.player, step, f)
    requires s.player.aligned && !s.player.muted
    ensures var p := Next(s.player, step, f);
            && p.aligned && !p.muted
            && Ledger(p, f) == Ledger(s.player, f) - Let(s.player, step, f) * f.bytesPerFrame
  {
    StepIsBooked(s, step, f);
    if step.Begin? {
      var b, delta := s.books, step.chunk.pts - s.player.expected;
      Times(b.rewound - b.accepted - b.clipped, delta, f.bytesPerFrame);
    }
  }

  /** Between alignments, with no cap hit and nothing skipped, the offset changes only by the stamps accepted
      within the tolerance, whatever the device reads in between. */
  lemma {:induction false} SmoothRunKeepsTheOffset(s: State, steps: seq<Step>, f: Format)
    requires f.Valid() && Inv(s, f) && Runs(s, steps, f) && AllSmooth(s, steps, f)
    requires s.player.aligned && !s.player.muted
    ensures Ledger(Run(s, steps, f).player, f) == Ledger(s.player, f) - LetAll(s, steps, f) * f.bytesPerFrame
    decreases |steps|
  {
    if steps != [] {
      var next := After(s, steps[0], f);
      SmoothStepKeepsLedger(s, steps[0], f);
      StepStaysSane(s.player, steps[0], f);
      StepIsBooked(s, steps[0], f);
      SmoothRunKeepsTheOffset(next, steps[1..], f);
      Times(Let(s.player, steps[0], f), LetAll(next, steps[1..], f), f.bytesPerFrame);
    }
  }

  // ------------------------------------------------------------ an undisturbed push

  // The steps an undisturbed push takes.
  function PushSteps(p: Player, c: Chunk, f: Format): seq<Step>
    requires f.Valid() && p.debt >= 0 && p.pc.Idle?
  {
    var q := DoBegin(p, c, f);
    var r := if q.pc.Silence? then DoSilence(q, f) else q;
    [Begin(c)] + (if q.pc.Silence? then [PushSilence] else [])
    + (if r.pc.Take? then [TakeDebt] + LastStep(DoTake(r).pc) else [])
  }

  function LastStep(pc: Pc): seq<Step> {
    if pc.AddBack? then [AddBackDebt] else if pc.Append? then [PushPayload] else []
  }

  lemma RunStep(s: State, step: Step, rest: seq<Step>, f: Format)
    requires f.Valid() && Enabled(s.player, step) && Runs(After(s, step, f), rest, f)
    ensures Runs(s, [step] + rest, f) && Run(s, [step] + rest, f) == Run(After(s, step, f), rest, f)
  {
  }

  lemma TakeAndPushRuns(s: State, f: Format)
    requires f.Valid() && s.player.pc.Take? && s.player.debt >= 0
    ensures var steps := [TakeDebt] + LastStep(DoTake(s.player).pc);
            Runs(s, steps, f) && Run(s, steps, f).player == DoTakeAndPush(s.player, f)
  {
    var t := After(s, TakeDebt, f);
    var last := LastStep(t.player.pc);
    if last != [] {
      RunStep(t, last[0], [], f);
      assert last == [last[0]] + [];
    }
    RunStep(s, TakeDebt, last, f);
  }

  /** A push nobody interrupts is one of the runs, so what holds of every run holds across it. */
  lemma PushIsARun(s: State, c: Chunk, f: Format)
    requires f.Valid() && s.player.debt >= 0 && s.player.pc.Idle?
    ensures Runs(s, PushSteps(s.player, c, f), f)
    ensures Run(s, PushSteps(s.player, c, f), f).player == DoPush(s.player, c, f)
  {
    var b := After(s, Begin(c), f);
    var tail := PushSteps(s.player, c, f)[1..];
    assert PushSteps(s.player, c, f) == [Begin(c)] + tail;
    if b.player.pc.Silence? {
      var r := After(b, PushSilence, f);
      TakeAndPushRuns(r, f);
      RunStep(b, PushSilence, [TakeDebt] + LastStep(DoTake(r.player).pc), f);
      assert tail == [PushSilence] + ([TakeDebt] + LastStep(DoTake(r.player).pc));
    } else if b.player.pc.Take? {
      TakeAndPushRuns(b, f);
      assert tail == [TakeDebt] + LastStep(DoTake(b.player).pc);
    }
    RunStep(s, Begin(c), tail, f);
  }
}
