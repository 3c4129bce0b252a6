// The writer of recorder_engine/muxer.cpp: any number of producers, one writer thread, a deferred header
// and an orderly close. A step is one critical section; the object below refines the steps.
module Muxer {
  import opened DtsBump

  const MAX_QUEUED: nat := 4096
  const FATAL_WRITE_THRESHOLD: nat := 3

  // "HH:MM:SS:FF" with ':' or ';' before the frames; the pattern's '$' also matches before a final newline.
  predicate IsWellFormedTimecode(tc: string) {
    var s := if |tc| == 12 && tc[11] == '\n' then tc[..11] else tc;
    && |s| == 11
    && (forall i :: 0 <= i < 11 && i % 3 != 2 ==> '0' <= s[i] <= '9')
    && s[2] == ':' && s[5] == ':' && (s[8] == ':' || s[8] == ';')
  }

  datatype Event =
    | Header(tag: string)           // an empty tag writes none
    | Written(packet: Packet)       // handed to av_write_frame
    | Trailer

  // The write outcomes so far (true: failed), how many have failed in a row, and the latch.
  datatype Errors = Errors(consecutive: nat, fatal: bool, outcomes: seq<bool>)

  datatype Pc = Idle | Popped(p: Packet) | Ready(p: Packet) | AfterWrite | Exited

  datatype State = State(
    queue: seq<Packet>, running: bool, pc: Pc,
    headerWritten: bool, candidate: string, graceMs: int,
    lastDts: map<int, int>, file: seq<Event>, closed: bool,
    errors: Errors,
    // history
    pushed: seq<Packet>, lost: seq<Packet>, kept: seq<Packet>, offered: seq<string>)

  datatype Step =
    | Push(p: Packet)               // a producer's writePacket
    | Offer(tc: string)             // setStartTimecodeCandidate
    | Pop(elapsedMs: int)
    | Exit
    | EnsureHeader(ok: bool)
    | WriteFrame(ok: bool)
    | Flush(due: bool, ok: bool)
    | StopWriter                    // close() begins
    | FinishClose(ok: bool)         // after the join

  function Candidate(current: string, headerWritten: bool, tc: string): string {
    if !headerWritten && current == "" && IsWellFormedTimecode(tc) then tc else current
  }

  predicate Deferred(s: State, elapsedMs: int) {
    !s.headerWritten && s.graceMs > 0 && s.candidate == "" && elapsedMs < s.graceMs
  }

  function Tag(candidate: string): string {
    if IsWellFormedTimecode(candidate) then candidate else ""
  }

  function Record(e: Errors, failed: bool): Errors {
    var n := if failed then e.consecutive + 1 else 0;
    Errors(n, e.fatal || n >= FATAL_WRITE_THRESHOLD, e.outcomes + [failed])
  }

  function DoHeader(s: State, ok: bool): State {
    if s.headerWritten || !ok then s
    else s.(headerWritten := true, file := s.file + [Header(Tag(s.candidate))])
  }

  predicate Enabled(s: State, step: Step) {
    match step
    case Push(_) => s.running ==> |s.queue| < MAX_QUEUED   // a full queue blocks the producer
    case Offer(_) => true
    case Pop(elapsedMs) => s.pc.Idle? && s.queue != [] && !(s.running && Deferred(s, elapsedMs))
    case Exit => s.pc.Idle? && s.queue == [] && !s.running
    case EnsureHeader(_) => s.pc.Popped?
    case WriteFrame(_) => s.pc.Ready?
    case Flush(_, _) => s.pc.AfterWrite?
    case StopWriter => true
    case FinishClose(_) => s.pc.Exited? && !s.closed
  }

  function DoPush(s: State, p: Packet): State {
    if s.running then s.(queue := s.queue + [p], pushed := s.pushed + [p]) else s
  }

  function DoOffer(s: State, tc: string): State {
    s.(candidate := Candidate(s.candidate, s.headerWritten, tc),
       offered := if s.headerWritten then s.offered else s.offered + [tc])
  }

  function DoPop(s: State): State
    requires s.queue != []
  {
    s.(queue := s.queue[1..], pc := Popped(s.queue[0]))
  }

  function DoEnsureHeader(s: State, ok: bool): State
    requires s.pc.Popped?
  {
    var t := DoHeader(s, ok);
    if t.headerWritten then t.(pc := Ready(s.pc.p))
    else t.(pc := Idle, lost := s.lost + [s.pc.p], errors := Record(s.errors, true))
  }

  function DoWriteFrame(s: State, ok: bool): State
    requires s.pc.Ready?
  {
    s.(lastDts := LastAfter(s.lastDts, s.pc.p), file := s.file + [Written(Bump(s.lastDts, s.pc.p))],
       kept := s.kept + [s.pc.p], pc := AfterWrite, errors := Record(s.errors, !ok))
  }

  function DoFlush(s: State, due: bool, ok: bool): State {
    s.(pc := Idle, errors := if due && !ok then Record(s.errors, true) else s.errors)
  }

  function DoFinish(s: State, ok: bool): State {
    var t := DoHeader(s, ok);
    t.(file := if t.headerWritten then t.file + [Trailer] else t.file, closed := true)
  }

  function Next(s: State, step: Step): State
    requires Enabled(s, step)
  {
    match step
    case Push(p) => DoPush(s, p)
    case Offer(tc) => DoOffer(s, tc)
    case Pop(_) => DoPop(s)
    case Exit => s.(pc := Exited)
    case EnsureHeader(ok) => DoEnsureHeader(s, ok)
    case WriteFrame(ok) => DoWriteFrame(s, ok)
    case Flush(due, ok) => DoFlush(s, due, ok)
    case StopWriter => s.(running := false)
    case FinishClose(ok) => DoFinish(s, ok)
  }

  function Run(s: State, steps: seq<Step>): State
    decreases |steps|
  {
    if steps == [] then s
    else Run(if Enabled(s, steps[0]) then Next(s, steps[0]) else s, steps[1..])
  }

  // init(): an up-front candidate is taken when it is well formed; otherwise the grace window opens.
  function Initial(upFront: string, graceMs: int): State {
    var candidate := Tag(upFront);
    State([], true, Idle, false, candidate, if candidate == "" then graceMs else 0, map[], [], false,
          Errors(0, false, []), [], [], [], [upFront])
  }

  // ---------------------------------------------------------------- invariant

  function FirstWellFormed(offers: seq<string>): string {
    if offers == [] then ""
    else if IsWellFormedTimecode(offers[0]) then offers[0]
    else FirstWellFormed(offers[1..])
  }

  function InHand(pc: Pc): seq<Packet> {
    if pc.Popped? || pc.Ready? then [pc.p] else []
  }

  function Writes(ps: seq<Packet>): seq<Event> {
    seq(|ps|, i requires 0 <= i < |ps| => Written(ps[i]))
  }

  /** What the file holds: nothing, or the header, every kept packet in order, and at the end the trailer. */
  ghost predicate FileIs(s: State, trailer: bool) {
    s.file == (if s.headerWritten then [Header(FirstWellFormed(s.offered))] else [])
              + Writes(BumpAll(map[], s.kept))
              + (if trailer then [Trailer] else [])
  }

  ghost predicate Inv(s: State) {
    && |s.queue| <= MAX_QUEUED
    && s.pushed == s.lost + s.kept + InHand(s.pc) + s.queue
    && (!s.headerWritten ==> s.kept == [] && !s.pc.Ready? && s.candidate == FirstWellFormed(s.offered))
    && (s.pc.Exited? ==> s.queue == [] && !s.running)
    && (s.closed ==> s.pc.Exited?)
    && s.lastDts == LastAll(map[], s.kept)
    && FileIs(s, s.closed && s.headerWritten)
  }

  lemma {:induction false} FirstAppend(offers: seq<string>, tc: string)
    ensures FirstWellFormed(offers + [tc]) ==
            if FirstWellFormed(offers) != "" then FirstWellFormed(offers)
            else if IsWellFormedTimecode(tc) then tc else ""
    decreases |offers|
  {
    if offers == [] {
      assert [tc][1..] == [];
    } else {
      assert (offers + [tc])[1..] == offers[1..] + [tc];
      FirstAppend(offers[1..], tc);
    }
  }

  lemma {:induction false} FirstIsWellFormed(offers: seq<string>)
    ensures FirstWellFormed(offers) == "" || IsWellFormedTimecode(FirstWellFormed(offers))
    decreases |offers|
  {
    if offers != [] { FirstIsWellFormed(offers[1..]); }
  }

  lemma WritesAppend(ps: seq<Packet>, p: Packet)
    ensures Writes(ps + [p]) == Writes(ps) + [Written(p)]
  {
  }

  lemma HeaderKeepsFile(s: State, ok: bool)
    requires Inv(s) && !s.closed
    ensures var t := DoHeader(s, ok); FileIs(t, false) && (s.headerWritten ==> t == s)
  {
    FirstIsWellFormed(s.offered);
    if !s.headerWritten { assert Writes(BumpAll(map[], s.kept)) == []; }
  }

  lemma WriteKeepsInv(s: State, ok: bool)
    requires Inv(s) && s.pc.Ready?
    ensures Inv(DoWriteFrame(s, ok))
  {
    BumpAppend(map[], s.kept, s.pc.p);
    WritesAppend(BumpAll(map[], s.kept), Bump(s.lastDts, s.pc.p));
    assert s.pushed == s.lost + (s.kept + [s.pc.p]) + [] + s.queue;
  }

  lemma HeaderStepKeepsInv(s: State, ok: bool)
    requires Inv(s) && s.pc.Popped?
    ensures Inv(DoEnsureHeader(s, ok))
  {
    HeaderKeepsFile(s, ok);
    if !s.headerWritten && !ok {
      assert s.pushed == (s.lost + [s.pc.p]) + s.kept + [] + s.queue;
    }
  }

  lemma PushKeepsInv(s: State, p: Packet)
    requires Inv(s) && Enabled(s, Push(p))
    ensures Inv(DoPush(s, p))
  {
  }

  lemma PopKeepsInv(s: State)
    requires Inv(s) && s.pc.Idle? && s.queue != []
    ensures Inv(DoPop(s))
  {
  }

  lemma FlushKeepsInv(s: State, due: bool, ok: bool)
    requires Inv(s) && s.pc.AfterWrite?
    ensures Inv(DoFlush(s, due, ok))
  {
  }

  lemma OfferKeepsInv(s: State, tc: string)
    requires Inv(s)
    ensures Inv(DoOffer(s, tc))
  {
    FirstAppend(s.offered, tc);
  }

  lemma FinishKeepsInv(s: State, ok: bool)
    requires Inv(s) && Enabled(s, FinishClose(ok))
    ensures Inv(DoFinish(s, ok))
  {
    HeaderKeepsFile(s, ok);
  }

  lemma StepKeepsInv(s: State, step: Step)
    requires Inv(s) && Enabled(s, step)
    ensures Inv(Next(s, step))
  {
    match step {
      case Push(p) => PushKeepsInv(s, p);
      case Pop(_) => PopKeepsInv(s);
      case Offer(tc) => OfferKeepsInv(s, tc);
      case EnsureHeader(ok) => HeaderStepKeepsInv(s, ok);
      case WriteFrame(ok) => WriteKeepsInv(s, ok);
      case FinishClose(ok) => FinishKeepsInv(s, ok);
      case Flush(due, ok) => FlushKeepsInv(s, due, ok);
      case _ =>
        var t := Next(s, step);
        assert t.(running := s.running, pc := s.pc, errors := s.errors) == s;
    }
  }

  lemma InitialInv(upFront: string, graceMs: int)
    ensures Inv(Initial(upFront, graceMs))
  {
  }

  lemma {:induction false} RunKeepsInv(s: State, steps: seq<Step>)
    requires Inv(s)
    ensures Inv(Run(s, steps))
    decreases |steps|
  {
    if steps != [] {
      if Enabled(s, steps[0]) {
        StepKeepsInv(s, steps[0]);
        RunKeepsInv(Next(s, steps[0]), steps[1..]);
      } else {
        RunKeepsInv(s, steps[1..]);
      }
    }
  }

  // ------------------------------------------------------------ main theorems

  /** At every moment of every run the packets written are the ones pushed, in queue order and DTS-bumped,
      less what is still queued or in hand and what a failed header dropped; no packet precedes the header,
      the header is written once with the first well-formed candidate offered before it, and the queue
      stays within its bound. */
  lemma FileFollowsTheQueue(upFront: string, graceMs: int, steps: seq<Step>)
    ensures var s := Run(Initial(upFront, graceMs), steps);
            && |s.queue| <= MAX_QUEUED
            && s.pushed == s.lost + s.kept + InHand(s.pc) + s.queue
            && s.file == (if s.headerWritten then [Header(FirstWellFormed(s.offered))] else [])
                         + Writes(BumpAll(map[], s.kept))
                         + (if s.closed && s.headerWritten then [Trailer] else [])
            && (s.kept != [] ==> s.headerWritten)
  {
    InitialInv(upFront, graceMs);
    RunKeepsInv(Initial(upFront, graceMs), steps);
  }

  lemma CompleteWhenClosed(s: State)
    requires Inv(s) && s.closed
    ensures s.pushed == s.lost + s.kept
    ensures s.headerWritten && s.lost == [] ==>
              s.file == [Header(FirstWellFormed(s.offered))] + Writes(BumpAll(map[], s.pushed)) + [Trailer]
  {
    assert s.pushed == s.lost + s.kept + [] + [];
    if s.lost == [] { assert s.pushed == s.kept; }
  }

  // A step that has to write the header gets it written.
  predicate HeaderOk(s: State, step: Step) {
    match step
    case EnsureHeader(ok) => s.headerWritten || ok
    case FinishClose(ok) => s.headerWritten || ok
    case _ => true
  }

  /** No header write of the run fails. */
  ghost predicate HeadersSucceed(s: State, steps: seq<Step>)
    decreases |steps|
  {
    steps == []
    || (if Enabled(s, steps[0]) then HeaderOk(s, steps[0]) && HeadersSucceed(Next(s, steps[0]), steps[1..])
        else HeadersSucceed(s, steps[1..]))
  }

  predicate NothingMissing(s: State) {
    s.lost == [] && (s.closed ==> s.headerWritten)
  }

  lemma StepMissesNothingIff(s: State, step: Step)
    requires Inv(s) && Enabled(s, step)
    ensures NothingMissing(Next(s, step)) <==> NothingMissing(s) && HeaderOk(s, step)
  {
  }

  lemma {:induction false} RunMissesNothingIff(s: State, steps: seq<Step>)
    requires Inv(s)
    ensures NothingMissing(Run(s, steps)) <==> NothingMissing(s) && HeadersSucceed(s, steps)
    decreases |steps|
  {
    if steps != [] {
      if Enabled(s, steps[0]) {
        StepKeepsInv(s, steps[0]);
        StepMissesNothingIff(s, steps[0]);
        RunMissesNothingIff(Next(s, steps[0]), steps[1..]);
      } else {
        RunMissesNothingIff(s, steps[1..]);
      }
    }
  }

  // The file as it should be in the end.
  ghost function Complete(s: State): seq<Event> {
    [Header(FirstWellFormed(s.offered))] + Writes(BumpAll(map[], s.pushed)) + [Trailer]
  }

  lemma {:induction false} BumpAllLength(last: map<int, int>, ps: seq<Packet>)
    ensures |BumpAll(last, ps)| == |ps|
    decreases |ps|
  {
    if ps != [] { BumpAllLength(LastAfter(last, ps[0]), ps[1..]); }
  }

  lemma CompleteIffNothingMissing(s: State)
    requires Inv(s) && s.closed
    ensures s.file == Complete(s) <==> NothingMissing(s)
  {
    CompleteWhenClosed(s);
    BumpAllLength(map[], s.kept);
    BumpAllLength(map[], s.pushed);
    if s.file == Complete(s) {
      assert |s.file| == |s.pushed| + 2;
    }
  }

  /** A closed file is complete - header, every pushed packet exactly once in order, trailer - if and only if no
      header write of the run failed. */
  lemma ClosedFileIsComplete(upFront: string, graceMs: int, steps: seq<Step>)
    requires Run(Initial(upFront, graceMs), steps).closed
    ensures var s := Run(Initial(upFront, graceMs), steps);
            s.file == [Header(FirstWellFormed(s.offered))] + Writes(BumpAll(map[], s.pushed)) + [Trailer]
            <==> HeadersSucceed(Initial(upFront, graceMs), steps)
  {
    InitialInv(upFront, graceMs);
    RunKeepsInv(Initial(upFront, graceMs), steps);
    RunMissesNothingIff(Initial(upFront, graceMs), steps);
    CompleteIffNothingMissing(Run(Initial(upFront, graceMs), steps));
  }

  // ------------------------------------------------------------ what was asked

  // A packet pushed while the writer runs, and a candidate offered before the header is out.
  function PushedBy(s: State, step: Step): seq<Packet> {
    if Enabled(s, step) && step.Push? && s.running then [step.p] else []
  }

  function OfferedBy(s: State, step: Step): seq<string> {
    if step.Offer? && !s.headerWritten then [step.tc] else []
  }

  function After(s: State, step: Step): State {
    if Enabled(s, step) then Next(s, step) else s
  }

  function PacketsPushed(s: State, steps: seq<Step>): seq<Packet>
    decreases |steps|
  {
    if steps == [] then [] else PushedBy(s, steps[0]) + PacketsPushed(After(s, steps[0]), steps[1..])
  }

  function CandidatesOffered(s: State, steps: seq<Step>): seq<string>
    decreases |steps|
  {
    if steps == [] then [] else OfferedBy(s, steps[0]) + CandidatesOffered(After(s, steps[0]), steps[1..])
  }

  lemma StepRecordsWhatWasAsked(s: State, step: Step)
    ensures After(s, step).pushed == s.pushed + PushedBy(s, step)
    ensures After(s, step).offered == s.offered + OfferedBy(s, step)
  {
    assert s.pushed + [] == s.pushed && s.offered + [] == s.offered;
  }

  lemma Assoc<T>(a: seq<T>, b: seq<T>, c: seq<T>)
    ensures (a + b) + c == a + (b + c)
  {
  }

  /** What the file is measured against, the packets pushed and the candidates offered, is what the steps of the run
      bring. */
  lemma {:induction false} HistoryIsWhatWasAsked(s: State, steps: seq<Step>)
    ensures Run(s, steps).pushed == s.pushed + PacketsPushed(s, steps)
    ensures Run(s, steps).offered == s.offered + CandidatesOffered(s, steps)
    decreases |steps|
  {
    if |steps| > 0 {
      var t, rest := After(s, steps[0]), steps[1..];
      StepRecordsWhatWasAsked(s, steps[0]);
      HistoryIsWhatWasAsked(t, rest);
      Assoc(s.pushed, PushedBy(s, steps[0]), PacketsPushed(t, rest));
      Assoc(s.offered, OfferedBy(s, steps[0]), CandidatesOffered(t, rest));
    }
  }

  // ---------------------------------------------------------- the grace window

  // The window stays as it was opened, and every candidate offered before the header is remembered.
  predicate Opened(s: State, upFront: string, graceMs: int) {
    && s.graceMs == (if IsWellFormedTimecode(upFront) then 0 else graceMs)
    && |s.offered| > 0 && s.offered[0] == upFront
  }

  lemma {:induction false} RunStaysOpened(s: State, steps: seq<Step>, upFront: string, graceMs: int)
    requires Opened(s, upFront, graceMs)
    ensures Opened(Run(s, steps), upFront, graceMs)
    decreases |steps|
  {
    if steps != [] {
      RunStaysOpened(if Enabled(s, steps[0]) then Next(s, steps[0]) else s, steps[1..], upFront, graceMs);
    }
  }

  /** In every run, an idle writer with a packet queued takes it exactly when it is told to stop, the header is out, a
      well-formed candidate has been offered, or the grace is over. */
  lemma PacketWaitsExactlyForTheGrace(upFront: string, graceMs: int, steps: seq<Step>, elapsedMs: nat)
    requires var s := Run(Initial(upFront, graceMs), steps); s.pc.Idle? && s.queue != []
    ensures var s := Run(Initial(upFront, graceMs), steps);
            Enabled(s, Pop(elapsedMs)) <==>
              !s.running || s.headerWritten || FirstWellFormed(s.offered) != "" || elapsedMs >= graceMs
  {
    InitialInv(upFront, graceMs);
    RunKeepsInv(Initial(upFront, graceMs), steps);
    RunStaysOpened(Initial(upFront, graceMs), steps, upFront, graceMs);
  }

  // A step that neither stops the writer nor offers a candidate nor comes after the grace.
  predicate WithinGrace(step: Step, graceMs: int) {
    match step
    case StopWriter => false
    case Offer(tc) => !IsWellFormedTimecode(tc)
    case Pop(elapsedMs) => 0 <= elapsedMs < graceMs
    case _ => true
  }

  ghost predicate Waiting(s: State, graceMs: int) {
    && s.running && s.pc.Idle? && !s.headerWritten && s.candidate == "" && s.graceMs == graceMs
    && s.file == [] && s.lost == [] && s.queue == s.pushed
  }

  lemma {:induction false} WaitingRun(s: State, steps: seq<Step>, graceMs: nat)
    requires Waiting(s, graceMs) && forall i :: 0 <= i < |steps| ==> WithinGrace(steps[i], graceMs)
    ensures Waiting(Run(s, steps), graceMs)
    decreases |steps|
  {
    if steps != [] {
      WaitingRun(if Enabled(s, steps[0]) then Next(s, steps[0]) else s, steps[1..], graceMs);
    }
  }

  /** Until then nothing is written and nothing dropped: every packet pushed is still queued, in order. */
  lemma NothingIsWrittenWithinTheGrace(upFront: string, graceMs: nat, steps: seq<Step>)
    requires !IsWellFormedTimecode(upFront) && forall i :: 0 <= i < |steps| ==> WithinGrace(steps[i], graceMs)
    ensures var s := Run(Initial(upFront, graceMs), steps);
            s.file == [] && s.lost == [] && s.queue == s.pushed && !s.headerWritten
  {
    WaitingRun(Initial(upFront, graceMs), steps, graceMs);
  }

  // ---------------------------------------------------------- the error latch

  // What a step adds to the outcomes: every frame's own, and the failures of headers and flushes.
  function Answer(s: State, step: Step): seq<bool> {
    match step
    case EnsureHeader(ok) => if !s.headerWritten && !ok then [true] else []
    case WriteFrame(ok) => [!ok]
    case Flush(due, ok) => if due && !ok then [true] else []
    case _ => []
  }

  function Answers(s: State, steps: seq<Step>): seq<bool>
    decreases |steps|
  {
    if steps == [] then []
    else if Enabled(s, steps[0]) then Answer(s, steps[0]) + Answers(Next(s, steps[0]), steps[1..])
    else Answers(s, steps[1..])
  }

  lemma StepRecordsItsAnswer(s: State, step: Step)
    requires Enabled(s, step)
    ensures Next(s, step).errors.outcomes == s.errors.outcomes + Answer(s, step)
  {
  }

  lemma {:induction false} OutcomesAreTheAnswers(s: State, steps: seq<Step>)
    ensures Run(s, steps).errors.outcomes == s.errors.outcomes + Answers(s, steps)
    decreases |steps|
  {
    if steps != [] {
      if Enabled(s, steps[0]) {
        StepRecordsItsAnswer(s, steps[0]);
        OutcomesAreTheAnswers(Next(s, steps[0]), steps[1..]);
      } else {
        OutcomesAreTheAnswers(s, steps[1..]);
      }
    }
  }

  predicate ThreeAt(outcomes: seq<bool>, i: int) {
    0 <= i && i + 2 < |outcomes| && outcomes[i] && outcomes[i + 1] && outcomes[i + 2]
  }

  ghost predicate ThreeInARow(outcomes: seq<bool>) {
    exists i :: ThreeAt(outcomes, i)
  }

  ghost predicate ErrorInv(e: Errors) {
    var n := |e.outcomes|;
    && e.consecutive <= n
    && (forall i :: n - e.consecutive <= i < n ==> e.outcomes[i])
    && (e.consecutive < n ==> !e.outcomes[n - 1 - e.consecutive])
    && (e.fatal <==> ThreeInARow(e.outcomes))
  }

  lemma RecordKeepsErrorInv(e: Errors, failed: bool)
    requires ErrorInv(e)
    ensures ErrorInv(Record(e, failed))
  {
    var f := Record(e, failed);
    var n := |e.outcomes|;
    forall i | ThreeAt(e.outcomes, i) ensures ThreeAt(f.outcomes, i) {
    }
    forall i | ThreeAt(f.outcomes, i) ensures ThreeAt(e.outcomes, i) || (i == n - 2 && failed && e.consecutive >= 2) {
    }
    if failed && e.consecutive >= 2 {
      assert ThreeAt(f.outcomes, n - 2);
    }
  }

  lemma {:induction false} RunKeepsErrorInv(s: State, steps: seq<Step>)
    requires ErrorInv(s.errors)
    ensures ErrorInv(Run(s, steps).errors)
    decreases |steps|
  {
    if steps != [] {
      RecordKeepsErrorInv(s.errors, true);
      RecordKeepsErrorInv(s.errors, false);
      RunKeepsErrorInv(if Enabled(s, steps[0]) then Next(s, steps[0]) else s, steps[1..]);
    }
  }

  /** The fatal error is latched exactly when three of the device's answers in a row have been failures, at any time
      so far: every frame written counts, and the failures of headers and of due flushes. */
  lemma FatalIffThreeInARow(upFront: string, graceMs: int, steps: seq<Step>)
    ensures var e := Run(Initial(upFront, graceMs), steps).errors;
            && e.outcomes == Answers(Initial(upFront, graceMs), steps)
            && (e.fatal <==> ThreeInARow(e.outcomes))
  {
    RunKeepsErrorInv(Initial(upFront, graceMs), steps);
    OutcomesAreTheAnswers(Initial(upFront, graceMs), steps);
    assert [] + Answers(Initial(upFront, graceMs), steps) == Answers(Initial(upFront, graceMs), steps);
  }

  // --------------------------------------------------------------- the object

  class Writer {
    var queue: seq<Packet>
    var running: bool
    var pc: Pc
    var headerWritten: bool
    var startTimecodeCandidate: string
    const headerGraceMs: int
    var lastDts: map<int, int>
    var file: seq<Event>
    var closed: bool
    var errors: Errors
    ghost var pushed: seq<Packet>
    ghost var lost: seq<Packet>
    ghost var kept: seq<Packet>
    ghost var offered: seq<string>

    ghost function View(): State
      reads this
    {
      State(queue, running, pc, headerWritten, startTimecodeCandidate, headerGraceMs, lastDts, file, closed,
            errors, pushed, lost, kept, offered)
    }

    constructor (upFront: string, graceMs: int)
      ensures View() == Initial(upFront, graceMs)
    {
      var candidate := if IsWellFormedTimecode(upFront) then upFront else "";
      queue, running, pc, headerWritten, startTimecodeCandidate := [], true, Idle, false, candidate;
      headerGraceMs := if candidate == "" then graceMs else 0;
      lastDts, file, closed, errors := map[], [], false, Errors(0, false, []);
      pushed, lost, kept, offered := [], [], [], [upFront];
    }

    // Enqueue only. A full queue blocks the caller: nothing happens, and it has to come again.
    method WritePacket(p: Packet) returns (blocked: bool)
      modifies this`queue, this`pushed
      ensures blocked <==> !Enabled(old(View()), Push(p))
      ensures View() == if blocked then old(View()) else DoPush(old(View()), p)
    {
      if !running { return false; }
      if |queue| >= MAX_QUEUED { return true; }
      queue := queue + [p];
      pushed := pushed + [p];
      return false;
    }

    method SetStartTimecodeCandidate(tc: string)
      modifies this`startTimecodeCandidate, this`offered
      ensures View() == DoOffer(old(View()), tc)
    {
      if !headerWritten { offered := offered + [tc]; }
      if !headerWritten && startTimecodeCandidate == "" && IsWellFormedTimecode(tc) {
        startTimecodeCandidate := tc;
      }
    }

    method RecordWriteOutcome(failed: bool)
      modifies this`errors
      ensures errors == Record(old(errors), failed)
    {
      var n, fatal := errors.consecutive, errors.fatal;
      if failed {
        n := n + 1;
        if n >= FATAL_WRITE_THRESHOLD && !fatal { fatal := true; }
      } else {
        n := 0;
      }
      errors := Errors(n, fatal, errors.outcomes + [failed]);
    }

    // The writer's front half: wait for work, hold the first packets through the grace window, pop.
    method TryPop(elapsedMs: int) returns (popped: bool)
      requires pc.Idle?
      modifies this`queue, this`pc
      ensures popped <==> Enabled(old(View()), Pop(elapsedMs))
      ensures View() == if popped then DoPop(old(View())) else old(View())
    {
      if queue == [] { return false; }
      var deferred := !headerWritten && headerGraceMs > 0 && startTimecodeCandidate == "" && elapsedMs < headerGraceMs;
      if running && deferred { return false; }
      pc := Popped(queue[0]);
      queue := queue[1..];
      return true;
    }

    method EnsureHeaderWritten(deviceOk: bool) returns (written: bool)
      modifies this`headerWritten, this`file
      ensures written == headerWritten && View() == DoHeader(old(View()), deviceOk)
    {
      if headerWritten { return true; }
      if deviceOk {
        file := file + [Header(if IsWellFormedTimecode(startTimecodeCandidate) then startTimecodeCandidate else "")];
        headerWritten := true;
      }
      return deviceOk;
    }

    // The header, just before the first write; when it cannot be written the packet is dropped.
    method CommitHeader(deviceOk: bool)
      requires pc.Popped?
      modifies this`headerWritten, this`file, this`pc, this`lost, this`errors
      ensures View() == DoEnsureHeader(old(View()), deviceOk)
    {
      var p := pc.p;
      var written := EnsureHeaderWritten(deviceOk);
      if written {
        pc := Ready(p);
      } else {
        pc := Idle;
        lost := lost + [p];
        RecordWriteOutcome(true);
      }
    }

    method BumpDts(p: Packet) returns (q: Packet)
      modifies this`lastDts
      ensures q == Bump(old(lastDts), p) && lastDts == LastAfter(old(lastDts), p)
    {
      q := p;
      if p.stream in lastDts && p.dts <= lastDts[p.stream] {
        q := q.(dts := lastDts[p.stream] + 1);
        if q.pts < q.dts { q := q.(pts := q.dts); }
      }
      lastDts := lastDts[p.stream := q.dts];
    }

    method WriteBumped(deviceOk: bool)
      requires pc.Ready?
      modifies this`lastDts, this`file, this`kept, this`pc, this`errors
      ensures View() == DoWriteFrame(old(View()), deviceOk)
    {
      var p := pc.p;
      var q := BumpDts(p);
      file := file + [Written(q)];
      kept := kept + [p];
      pc := AfterWrite;
      RecordWriteOutcome(!deviceOk);
    }

    method FlushIfDue(due: bool, deviceOk: bool)
      requires pc.AfterWrite?
      modifies this`pc, this`errors
      ensures View() == DoFlush(old(View()), due, deviceOk)
    {
      if due && !deviceOk { RecordWriteOutcome(true); }
      pc := Idle;
    }

    // The rest of a turn of the writer's loop, from wherever it stands, whatever the device answers.
    method FinishTurn()
      requires Inv(View()) && !closed && !pc.Exited?
      modifies this
      ensures Inv(View()) && pc.Idle? && queue == old(queue) && pushed == old(pushed)
      ensures running == old(running) && !closed
    {
      if pc.Popped? {
        var headerOk: bool := *;
        HeaderStepKeepsInv(View(), headerOk);
        CommitHeader(headerOk);
      }
      if pc.Ready? {
        var frameOk: bool := *;
        WriteKeepsInv(View(), frameOk);
        WriteBumped(frameOk);
      }
      if pc.AfterWrite? {
        var flushDue: bool, flushOk: bool := *, *;
        FlushKeepsInv(View(), flushDue, flushOk);
        FlushIfDue(flushDue, flushOk);
      }
    }

    // One turn of the writer's loop once a packet is queued and the writer no longer waits for a candidate.
    method DrainOne()
      requires Inv(View()) && pc.Idle? && !running && !closed && queue != []
      modifies this
      ensures Inv(View()) && pc.Idle? && !running && !closed && |queue| < |old(queue)| && pushed == old(pushed)
    {
      ghost var s0 := View();
      var popped := TryPop(0);
      PopKeepsInv(s0);
      FinishTurn();
    }

    // The writer thread from the moment it is told to stop until it is joined.
    method DrainAll()
      requires Inv(View()) && !running && !closed
      modifies this
      ensures Inv(View()) && pc.Exited? && !closed && queue == [] && pushed == old(pushed)
    {
      if pc.Exited? { return; }
      FinishTurn();
      while queue != []
        invariant Inv(View()) && pc.Idle? && !running && !closed && pushed == old(pushed)
        decreases |queue|
      {
        DrainOne();
      }
      StepKeepsInv(View(), Exit);
      pc := Exited;
    }

    /** close(): no new packets, the writer finishes its turn and drains all that is queued, then the trailer.
        Whatever the device answers, every packet is either written or was dropped for want of a header, and
        the trailer is last. A second close() does nothing. */
    method Close()
      requires Inv(View())
      modifies this
      ensures Inv(View()) && closed && queue == [] && pushed == old(pushed)
      ensures pushed == lost + kept
      ensures headerWritten && lost == [] ==>
                file == [Header(FirstWellFormed(offered))] + Writes(BumpAll(map[], pushed)) + [Trailer]
    {
      if closed {
        CompleteWhenClosed(View());
        return;
      }
      StepKeepsInv(View(), StopWriter);
      running := false;
      DrainAll();
      var headerOk: bool := *;
      FinishKeepsInv(View(), headerOk);
      Finish(headerOk);
      CompleteWhenClosed(View());
    }

    method Finish(deviceOk: bool)
      requires pc.Exited? && !closed
      modifies this`headerWritten, this`file, this`closed
      ensures View() == DoFinish(old(View()), deviceOk)
    {
      var written := EnsureHeaderWritten(deviceOk);
      if written { file := file + [Trailer]; }
      closed := true;
    }
  }
}
