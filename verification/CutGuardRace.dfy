// What the one-step guard of the pre-roll fill rests on. playback/playbackworker.cpp:2751 reads m_cutArmed and
// then m_stagingCovers; the protocol takes the two reads and the entry of the fill as one step. Here a cut
// fires between the reads, and the promise about the promoted window is lost.
module CutGuardRace {
  import opened Basics
  import opened CutProtocol
  import opened CutProofs
  import opened CutTheorems

  // The fill entered on an older read of m_cutArmed: only what fillStaging itself checks is checked now.
  function EnterFillLate(s: State): State
    requires s.pc.AtFill?
  {
    if s.cut.covers || s.cut.target < 0 then s.(pc := LoopHead)
    else
      s.(cut := s.cut.(prerollSeek := false),
         caches := if s.cut.prerollSeek then s.caches.(staging := map[], newestRef := None) else s.caches,
         pc := Filling(s.cut.target, 0))
  }

  // What CutTheorems.PromotedCacheIsThisArmsWindow promises of every fire.
  ghost predicate WindowOk(f: Fire) {
    StagedBy(f.promoted, f.arm) && (f.fileEnded || ReachesPast(f.promoted, f.target + STAGING_SPAN_MS))
  }

  ghost predicate WindowsKept(h: History) {
    forall i :: 0 <= i < |h.fires| ==> WindowOk(h.fires[i])
  }

  /** While the cut is still armed a late entry is the entry of the protocol, and without a target it is none. */
  lemma LateEntryOfAnArmedCut(s: State)
    requires s.pc.AtFill? && (s.cut.armed || (s.cut.target < 0 && !s.cut.covers))
    ensures EnterFillLate(s) == DoEnterFill(s)
  {
  }

  lemma InvKeepsWindows(s: State)
    requires Inv(s)
    ensures WindowsKept(s.hist)
  {
    forall i | 0 <= i < |s.hist.fires| ensures WindowOk(s.hist.fires[i]) {
      assert FireOk(s.hist.fires[i], s.hist);
    }
  }

  lemma SafeEntryKeepsWindows(s: State, after: seq<Step>)
    requires Inv(s) && s.pc.AtFill? && (s.cut.armed || s.cut.target < 0)
    ensures WindowsKept(Run(EnterFillLate(s), after).hist)
  {
    LateEntryOfAnArmedCut(s);
    EnterFillKeepsInv(s);
    RunKeepsInv(DoEnterFill(s), after);
    InvKeepsWindows(Run(DoEnterFill(s), after));
  }

  // A frame that another arm's fill leaves behind.
  const LEFTOVER := Key(REFERENCE_FEED + 1, 0)

  function Edge(s: State): Key {
    Key(REFERENCE_FEED, s.cut.target + STAGING_SPAN_MS)
  }

  // One more packet for the old target, a fresh recall, and the packet that covers the old window.
  function StrayRun(s: State): seq<Step> {
    [FillRead(Frames([LEFTOVER])), ArmNextCut(0, -1), FillRead(Frames([Edge(s)])),
     ScheduleCut(s.dispatcher, -1, 0.0), Tick(s.dispatcher, None, 0.0)]
  }

  lemma RunCons(s: State, step: Step, rest: seq<Step>)
    requires Enabled(s, step)
    ensures Run(s, [step] + rest) == Run(Next(s, step), rest)
  {
    assert ([step] + rest)[1..] == rest;
  }

  lemma StageOne(c: Caches, key: Key, arm: nat)
    ensures var staged := Stage(c, [key], arm);
            && staged.staging == c.staging[key := arm]
            && (key.feed == REFERENCE_FEED ==> staged.newestRef.Some? && staged.newestRef.value >= key.ptsMs)
  {
    assert [key][1..] == [];
  }

  // The first two steps leave a frame of an older arm where the new arm's window should be.
  lemma LeftoverThenRecall(s: State) returns (t: State)
    requires s.pc.Filling? && s.pc.packets == 0 && !s.cut.armed && !s.cut.covers
    ensures t == Run(s, [FillRead(Frames([LEFTOVER])), ArmNextCut(0, -1)])
    ensures && t.pc == Filling(s.pc.target, 1) && t.dispatcher == s.dispatcher && t.gate == s.gate
            && t.cut.armed && !t.cut.covers && t.cut.scheduledFrame == -1 && t.cut.armSeekGen == t.gate.seekGen
            && t.cut.fireAt == -1 && t.hist.arms == s.hist.arms + 1 && t.hist.fires == s.hist.fires
            && LEFTOVER in t.caches.staging && t.caches.staging[LEFTOVER] == s.hist.arms
  {
    StageOne(s.caches, LEFTOVER, s.hist.arms);
    var filled := Next(s, FillRead(Frames([LEFTOVER])));
    RunTwo(s, FillRead(Frames([LEFTOVER])), ArmNextCut(0, -1));
    t := Next(filled, ArmNextCut(0, -1));
  }

  // The packet at the edge of the old window covers the new arm, which fires what is there.
  lemma EdgeThenFire(s: State, edge: Key) returns (t: State)
    requires s.pc.Filling? && s.pc.packets == 1 && s.cut.armed && !s.cut.covers && s.cut.scheduledFrame == -1
    requires s.cut.armSeekGen == s.gate.seekGen && s.cut.fireAt == -1
    requires edge == Key(REFERENCE_FEED, s.pc.target + STAGING_SPAN_MS) && LEFTOVER in s.caches.staging
    ensures t == Run(s, [FillRead(Frames([edge])), ScheduleCut(s.dispatcher, -1, 0.0), Tick(s.dispatcher, None, 0.0)])
    ensures |t.hist.fires| == |s.hist.fires| + 1
    ensures var f := t.hist.fires[|s.hist.fires|];
            && f.arm == s.hist.arms && LEFTOVER in f.promoted && f.promoted[LEFTOVER] == s.caches.staging[LEFTOVER]
  {
    StageOne(s.caches, edge, s.hist.arms);
    var filled := Next(s, FillRead(Frames([edge])));
    var scheduled := Next(filled, ScheduleCut(s.dispatcher, -1, 0.0));
    RunTwo(filled, ScheduleCut(s.dispatcher, -1, 0.0), Tick(s.dispatcher, None, 0.0));
    t := Next(scheduled, Tick(s.dispatcher, None, 0.0));
    var rest := [ScheduleCut(s.dispatcher, -1, 0.0), Tick(s.dispatcher, None, 0.0)];
    RunCons(s, FillRead(Frames([edge])), rest);
    assert [FillRead(Frames([edge]))] + rest
        == [FillRead(Frames([edge])), ScheduleCut(s.dispatcher, -1, 0.0), Tick(s.dispatcher, None, 0.0)];
  }

  lemma StrayRunBreaksTheWindow(s: State)
    requires Inv(s) && s.pc.AtFill? && !s.cut.armed && s.cut.target >= 0
    ensures !WindowsKept(Run(EnterFillLate(s), StrayRun(s)).hist)
  {
    var late := EnterFillLate(s);
    var t := LeftoverThenRecall(late);
    var u := EdgeThenFire(t, Edge(s));
    var head := [FillRead(Frames([LEFTOVER])), ArmNextCut(0, -1)];
    var tail := [FillRead(Frames([Edge(s)])), ScheduleCut(s.dispatcher, -1, 0.0), Tick(s.dispatcher, None, 0.0)];
    assert StrayRun(s) == head + tail;
    Extend(late, head, tail, t);
    assert !WindowOk(u.hist.fires[|t.hist.fires|]);
  }

  /** Entered late, the fill keeps the promise about every window that is ever promoted if and only if the cut
      is still armed, or has no target, when it is entered. */
  lemma LateEntryKeepsWindowsIff(s: State)
    requires Inv(s) && s.pc.AtFill?
    ensures (forall after :: WindowsKept(Run(EnterFillLate(s), after).hist)) <==> s.cut.armed || s.cut.target < 0
  {
    if s.cut.armed || s.cut.target < 0 {
      forall after ensures WindowsKept(Run(EnterFillLate(s), after).hist) {
        SafeEntryKeepsWindows(s, after);
      }
    } else {
      StrayRunBreaksTheWindow(s);
    }
  }

  const LIVE := Key(1, 50)
  const OLD_EDGE := Key(REFERENCE_FEED, 900)
  const STRAY := Key(REFERENCE_FEED, 901)

  lemma Extend(s0: State, steps: seq<Step>, more: seq<Step>, s: State)
    requires s == Run(s0, steps)
    ensures Run(s0, steps + more) == Run(s, more)
  {
    RunAppend(s0, steps, more);
  }

  // One pass of the loop from its head to the fill, with only LIVE in the output cache.
  lemma PassToFill(s: State) returns (t: State)
    requires s.pc.LoopHead? && s.gate.seekTarget < 0 && s.gate.follow == -1 && !s.cut.hasPending
    requires s.caches.output == map[LIVE := 0]
    ensures t == Run(s, [TakeSeek] + TO_FILL)
    ensures t == s.(pc := AtFill, caches := s.caches.(published := map[LIVE := 0]))
  {
    RunOne(s, TakeSeek);
    var kept := TrimBefore(s.caches.output, 0);
    assert kept == map[LIVE := 0];
    ReachFill(Next(s, TakeSeek));
    Extend(s, [TakeSeek], TO_FILL, Next(s, TakeSeek));
    t := Run(s, [TakeSeek] + TO_FILL);
  }

  // A fill that covers its window with one packet, and the schedule at once.
  lemma FillOnce(s: State, key: Key) returns (t: State)
    requires s.pc.Filling? && s.pc.packets == 0 && !s.cut.covers && s.cut.armed && s.cut.scheduledFrame < 0
    requires s.cut.fireAt == -1 && key.feed == REFERENCE_FEED && key.ptsMs >= s.pc.target + STAGING_SPAN_MS
    requires s.caches.newestRef.Some? ==> s.caches.newestRef.value <= key.ptsMs
    ensures t == Run(s, [FillRead(Frames([key])), ScheduleCut(0, -1, 0.0)])
    ensures t == s.(pc := LoopHead,
                    cut := s.cut.(covers := true, scheduledTarget := s.cut.target, scheduledFrame := 0),
                    caches := s.caches.(staging := s.caches.staging[key := s.hist.arms], newestRef := Some(key.ptsMs)))
  {
    var c := s.caches.(staging := s.caches.staging[key := s.hist.arms], newestRef := Some(key.ptsMs));
    assert [key][1..] == [];
    assert Stage(s.caches, [key], s.hist.arms) == Stage(c, [], s.hist.arms) == c;
    RunTwo(s, FillRead(Frames([key])), ScheduleCut(0, -1, 0.0));
    t := Run(s, [FillRead(Frames([key])), ScheduleCut(0, -1, 0.0)]);
  }

  // The armed cut scheduled, and the worker back at the guard of the fill.
  lemma BackAtTheGuard(s0: State) returns (before: seq<Step>, s: State)
    requires Initial(s0) && s0.dispatcher == 0 && s0.caches.output == map[]
    ensures s == Run(s0, before)
    ensures && s.pc.AtFill? && s.gate == s0.gate && s.dispatcher == 0 && s.transport == s0.transport
            && s.cut == s0.cut.(armed := true, target := 100, fireAt := -1, covers := true, scheduledTarget := 100,
                                scheduledFrame := 0, armSeekGen := s0.gate.seekGen)
            && s.caches == Caches(map[LIVE := 0], map[OLD_EDGE := 1], map[LIVE := 0], Some(900))
            && s.hist.arms == 1 && s.hist.fires == [] && !s.hist.fileEnded
  {
    var a := [PrimaryDecode(LIVE), ArmNextCut(100, -1)];
    RunTwo(s0, a[0], a[1]);
    var s1 := Run(s0, a);
    var s2 := PassToFill(s1);
    var s3 := Next(s2, EnterFill);
    RunOne(s2, EnterFill);
    var s4 := FillOnce(s3, OLD_EDGE);
    var fill := [FillRead(Frames([OLD_EDGE])), ScheduleCut(0, -1, 0.0)];
    s := PassToFill(s4);
    Extend(s0, a, [TakeSeek] + TO_FILL, s1);
    Extend(s0, a + ([TakeSeek] + TO_FILL), [EnterFill], s2);
    Extend(s0, a + ([TakeSeek] + TO_FILL) + [EnterFill], fill, s3);
    before := a + ([TakeSeek] + TO_FILL) + [EnterFill] + fill;
    Extend(s0, before, [TakeSeek] + TO_FILL, s4);
    before := before + ([TakeSeek] + TO_FILL);
  }

  /** With the reads of the guard apart, a cut that fires between them and a recall that follows make the next
      cut promote the old live cache: not staged by its arm, short of its window, and no end of file. */
  lemma LateEntryPromotesTheWrongWindow(s0: State) returns (before: seq<Step>, after: seq<Step>)
    requires Initial(s0) && s0.dispatcher == 0 && s0.caches.output == map[]
    ensures var s := Run(s0, before);
            && s.pc.AtFill? && s.cut.armed && Enabled(s, TICK) && Next(s, TICK).pc.AtFill?
            && var t := Run(EnterFillLate(Next(s, TICK)), after);
               && |t.hist.fires| == 2 && t.hist.fires[1].target == 5000
               && !StagedBy(t.hist.fires[1].promoted, t.hist.fires[1].arm)
               && !ReachesPast(t.hist.fires[1].promoted, 5000 + STAGING_SPAN_MS)
               && !t.hist.fires[1].fileEnded
  {
    var s: State;
    before, s := BackAtTheGuard(s0);
    var fired := FireAtTheGuard(s);
    after := StrayFillFires(EnterFillLate(fired));
  }

  lemma FireAtTheGuard(s: State) returns (fired: State)
    requires s.pc.AtFill? && s.dispatcher == 0 && s.cut.armed && s.cut.covers && s.cut.target == 100
    requires s.cut.scheduledFrame == 0 && s.cut.armSeekGen == s.gate.seekGen
    requires s.caches == Caches(map[LIVE := 0], map[OLD_EDGE := 1], map[LIVE := 0], Some(900))
    requires s.hist.arms == 1 && s.hist.fires == [] && !s.hist.fileEnded && !s.cut.prerollSeek
    ensures Enabled(s, TICK) && fired == Next(s, TICK) && fired.pc.AtFill? && fired.cut.target == 100
    ensures !fired.cut.armed && !fired.cut.covers && fired.cut.scheduledFrame == -1 && !fired.cut.prerollSeek
    ensures fired.dispatcher == 0 && fired.hist.arms == 1 && |fired.hist.fires| == 1 && !fired.hist.fileEnded
    ensures fired.caches == Caches(map[OLD_EDGE := 1], map[LIVE := 0], map[OLD_EDGE := 1], Some(900))
  {
    fired := Next(s, TICK);
  }

  lemma StrayFillFires(late: State) returns (after: seq<Step>)
    requires late.pc == Filling(100, 0) && !late.cut.armed && !late.cut.covers && late.cut.scheduledFrame == -1
    requires late.dispatcher == 0 && late.hist.arms == 1 && |late.hist.fires| == 1 && !late.hist.fileEnded
    requires late.caches == Caches(map[OLD_EDGE := 1], map[LIVE := 0], map[OLD_EDGE := 1], Some(900))
    ensures var t := Run(late, after);
            && |t.hist.fires| == 2 && t.hist.fires[1].target == 5000
            && !StagedBy(t.hist.fires[1].promoted, t.hist.fires[1].arm)
            && !ReachesPast(t.hist.fires[1].promoted, 5000 + STAGING_SPAN_MS)
            && !t.hist.fires[1].fileEnded
  {
    RunOne(late, ArmNextCut(5000, -1));
    var armed := Next(late, ArmNextCut(5000, -1));
    var filled := FillOnce(armed, STRAY);
    RunOne(filled, TICK);
    var fill := [FillRead(Frames([STRAY])), ScheduleCut(0, -1, 0.0)];
    after := [ArmNextCut(5000, -1)] + fill + [TICK];
    Extend(late, [ArmNextCut(5000, -1)], fill, armed);
    Extend(late, [ArmNextCut(5000, -1)] + fill, [TICK], filled);
    var promoted := filled.caches.staging;
    assert promoted == map[LIVE := 0, STRAY := 2];
    assert LIVE in promoted && promoted[LIVE] == 0;
  }
}
