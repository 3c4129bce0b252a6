# OpenLiveReplay: a verified model of its timing and playback core

OpenLiveReplay records several cameras into one growing file and replays from it while it grows. This project
models the parts where correctness hangs on order and arithmetic and proves what they promise.
`dafny verify dfyconfig.toml` checks the whole project (Dafny 4.11).

## What is modelled

* **Seek, reposition and armed cut** (`CommitGate`, `CutSchedule`, `CutProtocol`, `CutProofs`, `CutEffects`,
  `CutTheorems`, `CutOrder`, `CutGuardRace`, `PlaybackWorker`). Three threads - UI, decode worker, output - share
  generation counters, a pending seek, a queued recall, a staging cache and a scheduled cut. `CutProtocol` is a
  transition system with a history that no step reads; a run is any interleaving of any length. `CutEffects` says what
  the steps leave to be seen and cached: where a cut puts the playhead, what a tick shows, which frames are live.
  `PlaybackWorker.Worker` is the object with its fields, one method for each critical section, each tied to its step.
* **Rundown playout** (`PlaylistPlayout`, `Rundown`): the boundary driver, and the monitor that drives the armed
  cut through a playlist on top of every interleaving of the protocol.
* **Recorder timeline** (`Heartbeat`, `AudioFifo`, `StreamAudio`, `StreamWorker`, `ViewTracks`, `SlotMap`, `DtsBump`,
  `Muxer`): the frame span of a heartbeat, the audio FIFO and the cursors that put it into the file, the silence of
  unmapped views, who writes which track, the slot map, and the writer with its deferred header and DTS bump.
* **Playback structures** (`TrackBuffer`, `FrameRate`, `PlaybackTransport`, `AudioLedger`, `AudioPlayer`): the capped
  frame window, frame stepping, and the underrun-debt account of the audio ring under a concurrent device.
* **Event stream** (`SseFraming`, `SseParser`, `SseEvents`): the incremental parser, its independence of chunking, and what
  the lines of a block mean, told from the lines a sender writes.

`Basics` holds what they share.

Each imperative part is a class whose methods are proved against a specification function; the laws are lemmas about
those functions, over every input, every run or every interleaving.

## Assumptions

* One step of the protocol is one critical section of the source: `seekTo`, `armNextCut`, applying the queued recall,
  taking a seek, the commit block, and one output tick with the cut inside it. The fill takes one step per packet and
  one to schedule; a reposition reads the generation, refills packet by packet, then tries to commit. C++ memory order
  inside a step is not modelled.
* The two reads of the guard `m_cutArmed && !m_stagingCovers` and the entry of `fillStaging` are one step.
  `CutGuardRace.LateEntryKeepsWindowsIff` says exactly what is lost without this, and when nothing is.
* A run starts at the head of the run loop with equal generations and nothing armed.
* Recording times given to the ticks never go back where a statement says so; the dispatcher's index never goes back.
* `playPlaylist` moves the transport and asks the worker to seek in two steps; other threads may step in between.
* During a rundown the UI may seek without leaving playout; a recall or a seek through `seekPlayback` ends it, so the
  only calls are the rundown's own. Arming does not fail, which `playPlaylist` has made sure of (uimanager.cpp:2192-2195).
* Audio is pushed by one thread at a time, as the player's mutex makes sure; only the device's reads come between the
  steps of a push.
* Integers are mathematical; speeds, frame rates of the output and leads are real numbers without rounding.

## Where code and comments disagree

The model follows the code in each case.

* playback/playbackworker.cpp:1735-1737 says the latest queued target wins. It does among queued recalls, but a fresh arm
  does not clear one already queued, and is then fired ahead of it: `CutOrder.StepKeepsTurnIff` says exactly when recalls
  get out of turn, `CutTheorems.FreshArmLeavesQueuedRearm` is a run in which they do.
* playback/playbackworker.cpp:2739-2743 drops a queued recall as older than a seek. A seek clears the queue itself, so
  what this branch drops is always newer: `CutTheorems.DroppedRearmIsNewerThanTheSeek`, `CutTheorems.NewerRecallIsDropped`.
* playback/playbackworker.cpp:1541-1544 says the fill no longer runs after a cut. With the guard's two reads apart it can,
  once: `CutGuardRace.LateEntryKeepsWindowsIff`, with the run `CutGuardRace.LateEntryPromotesTheWrongWindow`.
* playback/playbackworker.cpp:2116-2131 queues a follow for a backward cut and says a forward cut leaves none. It leaves one
  that still waits: `CutEffects.FollowIsTheLastCutsIff`, with the run `CutTheorems.ForwardCutLeavesTheFollow`.
* playback/trackbuffer.h:20-22 says a protected frame is never evicted. It is, exactly when all are protected:
  `TrackBuffer.ProtectedVictimIff`.
* recorder_engine/replaymanager.cpp:762-764 says silence and source audio tile seamlessly. From silence to source they
  do; the other way they do at every frame only if a frame lasts whole milliseconds: `ViewTracks.SourceToSilenceIsExactIff`.
* recorder_engine/muxer.cpp:248-254 says the header is written by the thread that enqueues; it is written by the writer.
* The timecode pattern of recorder_engine/muxer.cpp:17-20 also accepts one line feed at the end, because `$` matches
  before it; `Muxer.IsWellFormedTimecode` says so.
* uimanager.cpp:1045 admits an index of no source when the enabled flags are longer than the source list; switching it on
  can put it into a slot: `SlotMap.ToggleIsGoodIff`.
* Frame stepping composes only up to 1000 frames a second: `PlaybackTransport.StepsComposeIffAtMostThousandFps`.

## Model

| member | source | states |
|---|---|---|
| CutSchedule.LeadCoversWallTime | playback/cutschedule.cpp:12-18 | the lead in frames is the least whole number of frames that lasts at least the lead in wall time |
| CutSchedule.OvershootCarriesIntoPlayhead | playback/cutschedule.cpp:24-32 | a cut fired late resumes past its target by the late frames in clip time, rounded down to the millisecond and no further |
| CutProofs.SeekKeepsInv | playback/playbackworker.cpp:89-121 | a seek keeps the invariant: it is the latest target, cancels the queued recall and dooms the armed cut |
| CutProofs.ArmKeepsInv | playback/playbackworker.cpp:1727-1776 | a recall, fresh or queued, keeps the invariant |
| CutProofs.AbortKeepsInv | playback/playbackworker.cpp:2087-2108 | an abort keeps the invariant: nothing is armed, covered or scheduled after it |
| CutProofs.FireIsOk | playback/playbackworker.cpp:2110-2165 | the record of a fire carries its own call, a target no seek overtook, and the window its own arm staged |
| CutProofs.FireKeepsInv | playback/playbackworker.cpp:2110-2165 | a fire keeps the invariant |
| CutProofs.ExposeKeepsInv | playback/playbackworker.cpp:700-740 | the choice of the visible playhead and of the bookmark keeps the invariant |
| CutProofs.TickKeepsInv | playback/playbackworker.cpp:675-740 | an output tick, with the cut it may fire or abort, keeps the invariant |
| CutProofs.CommitKeepsInv | playback/playbackworker.cpp:1446-1521 | the commit block of a reposition, both outcomes, keeps the invariant |
| CutProofs.RearmKeepsInv | playback/playbackworker.cpp:2731-2747 | applying or dropping the queued recall keeps the invariant |
| CutProofs.ClassifyKeepsInv | playback/playbackworker.cpp:2492-2530 | taking a seek, a follow or a backward jump, and the start of a reposition, keep the invariant |
| CutProofs.LiveCacheKeepsInv | playback/playbackworker.cpp:2680-2700 | decoding into, trimming and publishing the live cache keep the invariant |
| CutProofs.EnterFillKeepsInv | playback/playbackworker.cpp:1784-1814 | entering the pre-roll fill keeps the invariant: the first entry of an arm clears what was staged before |
| CutProofs.FillKeepsInv | playback/playbackworker.cpp:1825-2000 | each packet of the fill keeps the invariant: coverage is only declared at the end of the window or of the file |
| CutProofs.ScheduleKeepsInv | playback/playbackworker.cpp:2008-2051 | scheduling keeps the invariant: only an armed and covered cut is scheduled, for its own target |
| CutProofs.StepKeepsInv | playback/playbackworker.cpp:2436-2751 | every step of the three threads keeps the invariant |
| CutProofs.RunKeepsInv | playback/playbackworker.cpp:2436-2751 | every interleaving of any length keeps the invariant |
| CutTheorems.FiredCutWasNotOvertaken | playback/playbackworker.cpp:2087-2111 | in every run a fired cut jumps to the target of the recall that supplied it, and no seek came after that recall |
| CutTheorems.PromotedCacheIsThisArmsWindow | playback/playbackworker.cpp:1784-2051 | the cache a cut promotes was staged by its own arm alone and reaches 800 ms past the target on the reference feed, unless the file ended |
| CutTheorems.AppliedRearmIsTheLastQueued | playback/playbackworker.cpp:1727-1753 | a queued recall that is applied is the last one queued, with its own target and its own seek baseline |
| CutTheorems.DroppedRearmIsNewerThanTheSeek | playback/playbackworker.cpp:2738-2747 | a queued recall is dropped exactly when a seek is still pending, and then it is always newer than that seek, against the comment |
| CutTheorems.RaisingCommitServesItsSeek | playback/commitgate.h:33-49 | the commit that first raises the committed generation to g carries the target of the g-th seek; committed never passes the seek generation |
| CutTheorems.LatestTargetIsNeverLost | playback/playbackworker.cpp:2494-2509 | while the generations differ, the latest target is pending or is the one the worker repositions to |
| CutTheorems.OnlyTheLatestTargetReopensTheGate | playback/playbackworker.cpp:1261-1300 | only the commit of the latest target closes the difference of the generations; a superseded reposition leaves the gate as it was |
| CutTheorems.ExplicitCommitServesTheLastSeek | playback/playbackworker.cpp:1446-1521 | in every reachable state, committing an explicit reposition with no target pending reopens the gate at the last seek |
| CutTheorems.OwedStepServes | playback/playbackworker.cpp:2494-2509 | a step without a seek keeps the last seek owed, or is the commit that serves it |
| CutTheorems.WorkerServesTheLastSeek | playback/playbackworker.cpp:2494-2509 | once seeking stops, over any run of the three threads the last seek stays owed until the first commit, which serves it and reopens the gate for good |
| CutTheorems.ThreeStepsServeTheLastSeek | playback/playbackworker.cpp:2494-2509 | from the loop head, taking, reading the generation and committing are enough to serve it |
| CutTheorems.ArmsAreFiredAbortedOrLive | playback/playbackworker.cpp:2097-2165 | arms = fires + aborts + one if armed; a scheduled cut is armed, covered and not being filled |
| CutTheorems.StepHolds | playback/commitgate.h:12-31 | with the gate closed no step but a commit changes the held playhead, and a tick shows it |
| CutTheorems.HoldingRun | playback/commitgate.h:12-31 | the same over any run without a commit |
| CutTheorems.BurstShowsOnePlayhead | playback/playbackworker.cpp:683-737 | from the seek that closes the gate to the next commit, through any further seeks, every tick shows the bookmark of that moment |
| CutOrder.ArmKeepsTurnIff | playback/playbackworker.cpp:1727-1753 | a recall comes after all that has fired, is armed or is queued, exactly when it does not find an older one queued and nothing armed |
| CutOrder.StepKeepsTurnIff | playback/playbackworker.cpp:1727-1753 | a step keeps fires in the order of their recalls, with the armed and the queued one to come in that order, if and only if it is not a fresh arm while a recall is queued |
| CutOrder.RunKeepsTurn | playback/playbackworker.cpp:2731-2747 | so does any run without such an arm |
| CutOrder.RecallsFireInOrder | playback/playbackworker.cpp:1727-1753 | in every run without such an arm recalls fire in the order they were made |
| CutTheorems.FreshArmLeavesQueuedRearm | playback/playbackworker.cpp:1750-1753 | a witness with one such arm: of three recalls the second fires last |
| CutTheorems.NewerRecallIsDropped | playback/playbackworker.cpp:2731-2747 | a concrete run: a recall issued after a seek is lost when the worker meets the queue before it takes that seek |
| CutGuardRace.LateEntryOfAnArmedCut | playback/playbackworker.cpp:2751 | on a cut that is still armed, or has no target, entering the fill on an older read of the flag is the entry of the protocol |
| CutGuardRace.SafeEntryKeepsWindows | playback/playbackworker.cpp:2751 | so every window promoted in any run after it is the arm's own |
| CutGuardRace.StrayRunBreaksTheWindow | playback/playbackworker.cpp:2748-2751 | from any other state five steps promote a window with a frame of another arm |
| CutGuardRace.LateEntryKeepsWindowsIff | playback/playbackworker.cpp:2748-2751 | from every state that keeps the invariant, a late entry keeps the promise of every later window in every run if and only if the cut is still armed, or has no target, at the entry |
| CutGuardRace.LateEntryPromotesTheWrongWindow | playback/playbackworker.cpp:2748-2751 | a witness from an initial state: a cut fires between the two reads, and the next cut promotes a window its arm never staged |
| CutEffects.HistoryIsWhatWasAsked | playback/playbackworker.cpp:89-121 | the record of seeks and calls that the laws are measured against is what the UI asked for, and no other thread adds to it |
| CutEffects.SeekTakesOver | playback/playbackworker.cpp:89-121 | a seek replaces the pending target, drops a waiting follow and a queued recall, and holds the playhead at the bookmark |
| CutEffects.RecallIsArmedOrQueued | playback/playbackworker.cpp:1727-1776 | a recall is armed at once for its own target and fire-at point, or queued in place of any other while what is armed stays |
| CutEffects.OnlyAFireMovesThePlayhead | playback/playbackworker.cpp:2134-2136 | no step but a fired cut moves the transport's playhead |
| CutEffects.CutLands | playback/cutschedule.cpp:24-32 | on its frame a cut lands on its target; late, past it by the late frames in clip time rounded down, and never before it |
| CutEffects.TickFires | playback/playbackworker.cpp:2110-2165 | a due cut that no seek overtook puts the playhead on its call's target, makes the staged window live and published, swaps the old cache away, and leaves a follow exactly when the playhead went back |
| CutEffects.TickSpares | playback/playbackworker.cpp:2077-2108 | any other tick moves neither playhead nor caches; it takes a due cut down if a seek came after its call |
| CutEffects.TickShows | playback/playbackworker.cpp:675-740 | a tick shows the held playhead while a seek is owed, else the live one if a frame covers it and the bookmark if none does; the bookmark moves to a covered frame that is not ahead |
| CutEffects.EveryTickShows | playback/playbackworker.cpp:650-741 | in every run all of this at once: a tick fires exactly when the cut is due and not overtaken, and what it exposes is the playhead it left |
| CutEffects.FollowIsTheLastCutsIff | playback/playbackworker.cpp:2116-2131 | the follow waiting after a cut is that cut's own, or none, exactly when the cut goes back, none waited before, or it goes where the waiting one was |
| CutEffects.StepKeepsFollowFresh | playback/playbackworker.cpp:2116-2131 | a step keeps every waiting follow one that a cut left and no seek has overtaken |
| CutEffects.FollowIsAlwaysFresh | playback/playbackworker.cpp:2511-2526 | so does any run: the worker never follows a cut that a seek has overtaken |
| CutEffects.FollowWaits | playback/playbackworker.cpp:2511-2526 | a follow waits for the worker until a seek or another cut |
| CutEffects.EnteredTargetIsServed | playback/playbackworker.cpp:1250-1521 | what the worker has taken, seek, follow or backward jump, is committed two steps later if no seek comes |
| CutEffects.FollowIsServed | playback/playbackworker.cpp:2511-2540 | so the decoder is brought to a follow and to a backward jump, with the gate left open |
| CutTheorems.ForwardCutLeavesTheFollow | playback/playbackworker.cpp:2116-2131 | a witness: with a backward and a forward cut in one pass the playhead is at the second target while the worker sets out for the first |
| CutEffects.CutIsScheduledAtTheLeastFrame | playback/playbackworker.cpp:2008-2051 | a covered cut is scheduled for its call's target at the least frame that leaves the lead in wall time and is not before the call's fire-at frame |
| CutEffects.StepKeepsSchedule | playback/playbackworker.cpp:2077-2084 | a step that is no tick of that frame leaves the schedule |
| CutEffects.ScheduledCutWaits | playback/playbackworker.cpp:2077-2084 | over any run, until a tick of that frame the cut neither fires nor goes away |
| CutEffects.StageHoldsEveryFrame | playback/playbackworker.cpp:1837-1990 | a packet's frames are all staged under their arm, and nothing else is |
| CutEffects.CoveredIff | playback/playbackworker.cpp:1823-2000 | in every run a packet completes the window exactly when it is the end of the file or the staged reference feed then reaches 800 ms past the call's target |
| CutEffects.StepKeepsFrame | playback/playbackworker.cpp:1784-2051 | a step keeps a staged frame staged while its arm lasts, and in what its cut promotes |
| CutEffects.EveryStagedFrameIsPromoted | playback/playbackworker.cpp:1784-2166 | every frame decoded for an arm is in the cache its cut promotes, however the run goes on |
| CutEffects.NewestOlderIsKept | playback/playbackworker.cpp:1466-1471 | of each feed a trim keeps the newest frame before the cutoff |
| CutEffects.TrimHolds | playback/playbackworker.cpp:1462-1471 | a trim of two caches keeps every frame at or past the cutoff, of each feed the newest older one, and nothing else; refilled frames win |
| CutEffects.CommitServes | playback/playbackworker.cpp:1452-1461 | a commit makes its target the committed playhead and the bookmark, and closes the gap of the generations |
| CutEffects.CommitHolds | playback/playbackworker.cpp:1462-1482 | after a refill the live and the published cache are the saved and the refilled frames from half a second before the target, with the newest older one of each feed |
| CutEffects.TrimAndPublishHolds | playback/playbackworker.cpp:2680-2700 | the forward trim keeps by the same rule and publishes what it keeps |
| CutEffects.PublishedIsAWholeLiveCache | playback/playbackworker.cpp:1462-1482 | what is published is always a whole live cache; a decoded frame joins the live cache and takes nothing out of it |
| CutEffects.SupersededLeavesTheGate | playback/playbackworker.cpp:1509-1521 | a superseded reposition leaves the gate and puts the saved cache back |
| CutEffects.RefilledFrameIsLive | playback/playbackworker.cpp:1418-1482 | a frame refilled at or past half a second before the target is live and published after that reposition commits, whatever else the threads do, unless a cut fires in between |
| CutEffects.SupersededRepositionRestores | playback/playbackworker.cpp:1418-1521 | a superseded reposition ends with the live cache it began with, whatever was refilled or cut meanwhile |
| PlaybackWorker.Worker.constructor | playback/playbackworker.cpp:2430-2436 | a worker at the head of its loop is an initial state of the protocol |
| PlaybackWorker.Worker.SeekTo | playback/playbackworker.cpp:89-121 | a seek is its protocol step |
| PlaybackWorker.Worker.ArmNextCut | playback/playbackworker.cpp:1727-1753 | refused without a pre-roll; else the protocol step, armed or queued |
| PlaybackWorker.Worker.ArmCutInternal | playback/playbackworker.cpp:1760-1776 | arms with the given target and seek baseline |
| PlaybackWorker.Worker.MaybeFireScheduledCut | playback/playbackworker.cpp:2077-2166 | nothing, abort or fire, exactly as the protocol decides |
| PlaybackWorker.Worker.AbortScheduledCut | playback/playbackworker.cpp:2097-2107 | takes the cut down and leaves cache and playhead |
| PlaybackWorker.Worker.PromoteStaging | playback/playbackworker.cpp:2110-2165 | is the fire of the protocol: the caches swapped, the playhead on the target, the follow of a backward cut; CutEffects.TickFires says what that leaves |
| PlaybackWorker.Worker.MakeOutputSnapshot | playback/playbackworker.cpp:650-741 | is the tick of the protocol, and returns the playhead it exposes, which CutEffects.EveryTickShows determines |
| PlaybackWorker.Worker.TakeSeekTarget | playback/playbackworker.cpp:2494-2509 | takes the pending target and clears it |
| PlaybackWorker.Worker.TakeDecoderFollow | playback/playbackworker.cpp:2511-2526 | takes the follow of a backward cut and clears it |
| PlaybackWorker.Worker.ReadSeekGeneration | playback/playbackworker.cpp:1250 | the generation a reposition started at |
| PlaybackWorker.Worker.SetLiveCacheAside | playback/playbackworker.cpp:1418-1422 | the refill decodes into an empty cache, the live one is kept |
| PlaybackWorker.Worker.CommitOrAbort | playback/playbackworker.cpp:1446-1521 | commits exactly when no newer seek came, else gives the live cache back; CutEffects.CommitHolds and SupersededLeavesTheGate say what is then live |
| PlaybackWorker.Worker.CommitReposition | playback/playbackworker.cpp:1452-1482 | is the commit of the protocol: merges, trims, publishes, opens the gate; CutEffects.CommitServes and CommitHolds say what that leaves |
| PlaybackWorker.Worker.ApplyQueuedRearm | playback/playbackworker.cpp:2731-2747 | applies or drops the queued recall as the protocol does |
| PlaybackWorker.Worker.EnterFillStaging | playback/playbackworker.cpp:1784-1814 | clears what an earlier arm staged, once per arm |
| PlaybackWorker.Worker.StageFrames | playback/playbackworker.cpp:1837-1990 | a packet's frames enter the staging cache one by one, and the newest reference frame is kept |
| PlaybackWorker.Worker.ReadPrerollPacket | playback/playbackworker.cpp:1827-2000 | a packet or the end of the file; coverage at 800 ms past the target |
| PlaybackWorker.Worker.ScheduleCoveredCut | playback/playbackworker.cpp:2008-2051 | schedules a covered cut a lead ahead, or at its fire-at frame if later |
| PlaylistPlayout.ReconcileAdvances | uimanager.cpp:2245-2251 | however many cuts fired since the last tick, the index moves by exactly that many, up to the last entry |
| PlaylistPlayout.DueIff | playback/playlistplayout.cpp:24-36 | a boundary is due exactly when the current entry is marked, has a next one, is not armed yet, and the wall time left to its out-point at the current speed is within the lead |
| PlaylistPlayout.PlayoutDriver.Start | playback/playlistplayout.cpp:5-10 | starts on an entry of the list or stays stopped |
| PlaylistPlayout.PlayoutDriver.Stop | playback/playlistplayout.cpp:12-17 | forgets the rundown |
| PlaylistPlayout.PlayoutDriver.Evaluate | playback/playlistplayout.cpp:24-42 | a boundary is returned once per entry, exactly when the playhead is within the lead of a marked out-point |
| PlaylistPlayout.PlayoutDriver.OnBoundaryFired | playback/playlistplayout.cpp:44-49 | advances exactly when there is a next entry, and returns it |
| Rundown.StepFollows | playback/playbackworker.cpp:2077-2166 | any protocol step but a call fires at most the armed cut, and only if no seek came after its call |
| Rundown.FollowingKeepsShape | uimanager.cpp:2234-2265 | whatever the threads do between two monitor ticks, the calls stay in rundown order and at most one is outstanding |
| Rundown.AbsorbKeepsShow | uimanager.cpp:2245-2258 | the baseline loop brings the index to the first entry plus the cuts fired, and stops on the last entry |
| Rundown.ArmKeepsShow | uimanager.cpp:2262-2264 | arming the next boundary keeps the rundown invariant: it is the next entry in order |
| Rundown.RunKeepsShow | uimanager.cpp:2183-2265 | every interleaving of the protocol and the monitor keeps the rundown invariant |
| Rundown.StartInv | uimanager.cpp:2199-2215 | the start, with anything between its two moves, establishes the rundown invariant from any reachable state, whatever recall is in flight |
| Rundown.StartSeeksTheFirstEntry | uimanager.cpp:2207-2214 | a start asks for the first entry's in-point; once seeking stops the first commit serves it, and the playhead is there unless a cut fired in between |
| Rundown.CutsFollowTheRundown | uimanager.cpp:2183-2265 | the k-th cut fired after the start goes to the in-point of the k-th entry after the first |
| Rundown.EachBoundaryIsArmedOnce | uimanager.cpp:2262-2264 | the i-th call since the start is from the out-point of an entry to the in-point of the next, the i-th after the first, so no boundary is armed twice; at most one is outstanding |
| Rundown.BoundaryIsArmedWhenDue | uimanager.cpp:2262-2264 | a monitor tick arms the next boundary exactly when the current entry is marked, not armed yet and within 1500 ms of wall time of its out-point, and otherwise changes nothing |
| Rundown.IndexFollowsTheCuts | uimanager.cpp:2236-2265 | after a monitor tick the index is the first entry plus the cuts fired, or playout has stopped on the last |
| Rundown.Monitor.AbsorbFires | uimanager.cpp:2245-2258 | the loop reconciles the full difference between the baseline and the cut counter |
| AudioFifo.EnqueueKeepsValid | recorder_engine/streamworker.cpp:711-717 | at most ten seconds are held after any chunk |
| AudioFifo.EnqueueMovesNothing | recorder_engine/streamworker.cpp:673-718 | a sample that stays buffered keeps its position through append, zero-fill, restart, overlap and cap |
| AudioFifo.DropMovesNothing | recorder_engine/streamworker.cpp:740-747 | dropping forgets exactly the positions before the cut-off and moves nothing |
| AudioFifo.EnqueueExtends | recorder_engine/streamworker.cpp:673-718 | every chunk with a place reaches the buffer: the end moves to the later of the old end and the chunk's own, a first or restarting chunk starts at its stamp, and exactly the newest ten seconds are held |
| AudioFifo.EnqueuePlaces | recorder_engine/streamworker.cpp:673-718 | every position held after a chunk has its old sample, or silence up to the chunk's place, or the chunk's own sample at the index its place gives |
| AudioFifo.ChunkIsHeld | recorder_engine/streamworker.cpp:673-718 | each new sample among the newest ten seconds is held at its place: its stamp, or the old end when within 10 ms or unstamped |
| AudioFifo.JoinedInPlace | recorder_engine/streamworker.cpp:678-709 | each branch puts a stamped chunk within 480 samples of its stamp; gap and overlap exactly at it |
| AudioFifo.JoinedExtends | recorder_engine/streamworker.cpp:678-709 | before the cap: from which position to which the FIFO then reaches |
| AudioFifo.JoinedPlaces | recorder_engine/streamworker.cpp:678-709 | before the cap: which sample each position has |
| AudioFifo.CapKeepsNewest | recorder_engine/streamworker.cpp:711-717 | the cap keeps the end and the newest ten seconds, each sample at its position |
| AudioFifo.EnqueueLabelled | recorder_engine/streamworker.cpp:673-718 | the same with the cap, and labels change nothing of what is held |
| AudioFifo.SamplesSitAtTheirStamps | recorder_engine/streamworker.cpp:673-718 | after any run of chunks and drops every sample of a stamped chunk still held is within 10 ms of its stamp |
| StreamAudio.OpKeepsCursors | recorder_engine/streamworker.cpp:729-795 | every chunk and every tick, mapped or not, keeps the source cursor at the write cursor less the applied jitter and trim |
| StreamAudio.CursorsStayTogether | recorder_engine/streamworker.cpp:720-795 | so does any interleaving of chunks and mapped, unmapped, trim- and jitter-changing ticks |
| StreamAudio.TickMuxesBuffered | recorder_engine/streamworker.cpp:757-795 | the samples a tick muxes are those of its own jitter and trim, although it carries a cursor over |
| StreamAudio.MuxedSampleIsTheBufferedOne | recorder_engine/streamworker.cpp:720-795 | in any run the sample muxed at file position p is the one buffered for p - jitter - trim at that moment, and zero if none is |
| StreamAudio.RunActsOnTheFifo | recorder_engine/streamworker.cpp:673-795 | a run treats its FIFO as a run of chunks and drops |
| StreamAudio.RunSamplesSitAtTheirStamps | recorder_engine/streamworker.cpp:673-795 | in any run at most ten seconds are held, each stamped sample within 10 ms of its stamp |
| StreamAudio.PacketsAreDisjoint | recorder_engine/streamworker.cpp:729-760 | over a run with non-decreasing time packets are in order, disjoint and at most a second long |
| StreamAudio.MappedPacketsAbut | recorder_engine/streamworker.cpp:757-795 | while a source stays mapped its packets abut exactly, from the cursor it had to the cursor it has |
| StreamAudio.TickAdvances | recorder_engine/streamworker.cpp:720-795 | a tick moves the cursors to its own time, jitter and trim, a second at most, its packet spans what they moved over, and the FIFO then holds exactly what is at or past the source cursor |
| StreamAudio.ChunkStays | recorder_engine/streamworker.cpp:673-795 | a chunk's sample stays at its place through any run that keeps it buffered |
| StreamAudio.ChunkIsMuxed | recorder_engine/streamworker.cpp:673-795 | in any run the sample a chunk brought for a position is the one muxed for it, jitter and trim later in the file, while it stays buffered |
| StreamAudio.BacklogDrains | recorder_engine/streamworker.cpp:757-760 | a backlog drains by exactly 48000 samples a tick until it is gone |
| StreamWorker.SplicedIsHeard | recorder_engine/streamworker.cpp:771-783 | a zeroed buffer with the overlap copied in holds the buffered sample at every position that has one and zero elsewhere |
| StreamWorker.StreamWorker.constructor | recorder_engine/streamworker.h:209-214 | nothing buffered, cursors unset |
| StreamWorker.StreamWorker.EnqueueAudio | recorder_engine/streamworker.cpp:673-718 | the bytes of the FIFO are the samples AudioFifo.EnqueueExtends and EnqueuePlaces determine, through every branch, whole samples only |
| StreamWorker.StreamWorker.AppendAudio | recorder_engine/streamworker.cpp:678-709 | the branches up to the cap; false leaves the FIFO as it is, and AudioFifo.JoinedExtends and JoinedPlaces say when and what else |
| StreamWorker.StreamWorker.DropConsumed | recorder_engine/streamworker.cpp:786-792 | drops whole samples before a position and moves the start with them |
| StreamWorker.StreamWorker.CopyBuffered | recorder_engine/streamworker.cpp:771-783 | the chunk of a mapped tick |
| StreamWorker.StreamWorker.SyncSource | recorder_engine/streamworker.cpp:761-768 | the cursor is reset when it is unset or the offsets changed, else carried over |
| StreamWorker.StreamWorker.WriteMapped | recorder_engine/streamworker.cpp:757-795 | the packet and the new cursors of a mapped tick |
| StreamWorker.StreamWorker.WriteAudioForTick | recorder_engine/streamworker.cpp:720-795 | a whole tick follows the specification, early returns included |
| StreamWorker.StreamWorker.OnMasterPulse | recorder_engine/streamworker.cpp:121-173 | the tick of a frame with the sum of the operator's and the servo's trims |
| ViewTracks.OneWriterIff | recorder_engine/replaymanager.cpp:502-521 | under a mapping without repeats a track has exactly one writer if and only if the source in its slot has a worker |
| ViewTracks.GoodMapHasOneWriter | recorder_engine/replaymanager.cpp:502-521 | the slot maps of the UI give each track one writer while every source has a worker |
| ViewTracks.SilenceToSourceIsExact | recorder_engine/replaymanager.cpp:762-832 | from caught-up silence to a source ticked while unmapped, the first packet starts at the sample the silence ends at |
| ViewTracks.SourceToSilenceError | recorder_engine/replaymanager.cpp:804-811 | from a caught-up source to silence the seam is off by at most 48 samples, at any whole frame rate |
| ViewTracks.SourceToSilence | recorder_engine/replaymanager.cpp:762-815 | the same for the steps themselves |
| ViewTracks.SourceToSilenceIsExactIff | recorder_engine/replaymanager.cpp:762-764 | that seam is exact at every frame if and only if a frame lasts a whole number of milliseconds, against the comment |
| ViewTracks.ThirtyFramesASecond | recorder_engine/replaymanager.cpp:762-811 | at 30 frames a second it overlaps by 16 samples at one frame and leaves 32 out at the next |
| ViewTracks.PicturesMeans | recorder_engine/replaymanager.cpp:768-801 | the views that get a blue picture are exactly the unmapped ones |
| ViewTracks.AllMappedIsQuiet | recorder_engine/replaymanager.cpp:744-755 | leaving early when all views are mapped writes what the loop would: nothing |
| ViewTracks.SilencesAbut | recorder_engine/replaymanager.cpp:804-832 | while a view stays unmapped its silences abut, a second long at most, from the cursor it had to the cursor it has, and never pass the latest pulse |
| ViewTracks.SilenceCatchesUp | recorder_engine/replaymanager.cpp:804-832 | a view behind catches up by exactly 48000 samples a pulse until nothing is left |
| ViewTracks.MappedPulseForgets | recorder_engine/replaymanager.cpp:746-811 | a mapped pulse writes no silence, and the next silence starts a frame before its pulse's time |
| ViewTracks.ReplayManager.UpdateViewMapping | recorder_engine/replaymanager.cpp:502-521 | each worker gets the last slot that shows its source, or none |
| ViewTracks.ReplayManager.ResetMapped | recorder_engine/replaymanager.cpp:746-754 | mapped views forget their silence cursor |
| ViewTracks.ReplayManager.WriteView | recorder_engine/replaymanager.cpp:804-832 | one view's silence up to the frame's time, at most a second of it |
| ViewTracks.ReplayManager.WriteViews | recorder_engine/replaymanager.cpp:768-832 | the loop over the views gives each its step, in view order |
| ViewTracks.ReplayManager.WriteBlueFrames | recorder_engine/replaymanager.cpp:739-832 | one pulse: pictures, silence and cursors of every view |
| SlotMap.SettledIsGood | uimanager.cpp:942-954 | filling empty slots keeps the map without repeats and disabled sources, moves nothing, and leaves a slot empty only if nobody waits |
| SlotMap.SettledTakesTheLowest | uimanager.cpp:943-954 | a source left waiting comes after every source put in |
| SlotMap.SettledIsInOrder | uimanager.cpp:943-954 | the sources put in appear in order and fill the empty slots from the first |
| SlotMap.RebuildIsGood | uimanager.cpp:924-957 | a rebuild gives a good map and moves no source that is still shown |
| SlotMap.RebuildIsStable | uimanager.cpp:924-957 | a rebuild of a good map with the same views and sources changes nothing |
| SlotMap.SwitchOffIsGood | uimanager.cpp:1052-1081 | switching a source off keeps the map good and moves no other |
| SlotMap.SwitchOnIsGood | uimanager.cpp:1082-1090 | switching a source on keeps the map good and moves none |
| SlotMap.ToggleIsGoodIff | uimanager.cpp:1043-1090 | a switch keeps the map good if and only if it is not switching on an index of no source while a slot is empty |
| SlotMap.EveryRunIsGood | uimanager.cpp:924-1090 | so does any run of switches and rebuilds over the existing sources |
| SlotMap.UIManager.EnsureSourceEnabledSize | uimanager.cpp:918-922 | the flags there are stay, and new sources start enabled |
| SlotMap.UIManager.RebuildSlotMap | uimanager.cpp:924-957 | the two passes compute the rebuilt map |
| SlotMap.UIManager.KeepAssigned | uimanager.cpp:930-940 | the first pass keeps exactly the enabled sources in range |
| SlotMap.UIManager.FillEmpty | uimanager.cpp:942-954 | the second pass, source by source, settles the map |
| SlotMap.UIManager.NextEmpty | uimanager.cpp:947-950 | the next empty slot |
| SlotMap.UIManager.ToggleSourceEnabled | uimanager.cpp:1043-1090 | a switch computes the toggled map, and an index out of range does nothing |
| SlotMap.UIManager.ReplaceFirst | uimanager.cpp:1054-1059 | the first slot that holds a value is overwritten |
| SlotMap.UIManager.AutoFill | uimanager.cpp:1065-1081 | the fill of a switch, slot by slot, settles the map to the same result as the rebuild's, source by source |
| SlotMap.UIManager.FindFree | uimanager.cpp:1067-1080 | the first enabled source shown nowhere |
| Heartbeat.SpanIsSound | recorder_engine/heartbeat.cpp:5-25 | a span starts after the last frame, ends by wall clock, holds at most the cap, and skips only a backlog at the limit |
| Heartbeat.TickEmits | recorder_engine/replaymanager.cpp:558-564 | what one tick emits is increasing, after the last frame and not ahead of time |
| Heartbeat.RunIsIncreasing | recorder_engine/replaymanager.cpp:545-572 | over any run of ticks the frames emitted are strictly increasing |
| Heartbeat.RunIsNeverEarly | recorder_engine/replaymanager.cpp:545-572 | no frame is ahead of the latest time of the run |
| Heartbeat.CatchUp | recorder_engine/heartbeat.cpp:21-24 | ticks at a fixed time close the gap by a full cap each |
| Heartbeat.BacklogDrains | recorder_engine/heartbeat.cpp:17-24 | a stall of any length is caught up in the backlog limit's worth of caps |
| Heartbeat.ReplayManager.OnTimerTick | recorder_engine/replaymanager.cpp:545-572 | the loop pulses exactly the span, and leaves the frame count at its end |
| DtsBump.BumpAppend | recorder_engine/muxer.cpp:415-421 | bumping a stream of packets one more at a time |
| DtsBump.ChainIsSound | recorder_engine/muxer.cpp:415-421 | the chain of one stream is strictly increasing, starts above the floor and dominates the input |
| DtsBump.ChainIsLeast | recorder_engine/muxer.cpp:415-421 | and it is below every sequence that does both |
| DtsBump.StreamIsChain | recorder_engine/muxer.cpp:415-421 | what is written for a stream is the chain of its own packets |
| DtsBump.WrittenDtsIsLeast | recorder_engine/muxer.cpp:411-421 | the written DTS of each stream is the least strictly increasing sequence that dominates the incoming one |
| DtsBump.InterleavingDoesNotMatter | recorder_engine/muxer.cpp:411-421 | it depends on no other stream |
| DtsBump.BumpOnlyRaises | recorder_engine/muxer.cpp:417-420 | a bump only raises, and keeps PTS at or after DTS |
| Muxer.StepKeepsInv | recorder_engine/muxer.cpp:314-447 | every step of producers, writer and close keeps the account of the packets |
| Muxer.RunKeepsInv | recorder_engine/muxer.cpp:314-447 | so does every run |
| Muxer.FileFollowsTheQueue | recorder_engine/muxer.cpp:314-447 | at every moment the file is the header, the packets pushed so far in order and bumped less those queued, in hand or dropped for want of a header, and the trailer; the queue holds at most 4096 |
| Muxer.CompleteWhenClosed | recorder_engine/muxer.cpp:515-563 | with the writer joined, every packet is written or was dropped for want of a header |
| Muxer.RunMissesNothingIff | recorder_engine/muxer.cpp:399-407 | nothing is dropped and a closed file has its header if and only if no header write of the run failed |
| Muxer.ClosedFileIsComplete | recorder_engine/muxer.cpp:515-563 | a closed file is header, every pushed packet once in order and trailer if and only if no header write of the run failed; the tag is the first well-formed candidate |
| Muxer.FirstIsWellFormed | recorder_engine/muxer.cpp:305-312 | the tag is empty or well-formed |
| Muxer.RecordKeepsErrorInv | recorder_engine/muxer.cpp:349-363 | one outcome keeps the meaning of the counter |
| Muxer.FatalIffThreeInARow | recorder_engine/muxer.cpp:349-363 | the fatal error is latched exactly when three of the device's answers in a row have been failures |
| Muxer.OutcomesAreTheAnswers | recorder_engine/muxer.cpp:399-447 | over any run the outcomes counted are the device's answers: every frame's, and the failures of headers and of due flushes |
| Muxer.HistoryIsWhatWasAsked | recorder_engine/muxer.cpp:305-347 | the packets and candidates the file is measured against are those the steps of the run bring |
| Muxer.PacketWaitsExactlyForTheGrace | recorder_engine/muxer.cpp:262-269 | in every run an idle writer takes a queued packet exactly when it is told to stop, the header is out, a well-formed candidate has been offered, or the grace is over |
| Muxer.NothingIsWrittenWithinTheGrace | recorder_engine/muxer.cpp:366-395 | until then nothing is written and nothing dropped, and every packet pushed is queued in order |
| Muxer.Writer.constructor | recorder_engine/muxer.cpp:63-90 | the candidate given up front, if well-formed, and no grace then |
| Muxer.Writer.WritePacket | recorder_engine/muxer.cpp:314-347 | enqueues at the end of the queue while running; a full queue blocks, and nothing happens |
| Muxer.Writer.SetStartTimecodeCandidate | recorder_engine/muxer.cpp:305-312 | the first well-formed candidate before the header wins |
| Muxer.Writer.RecordWriteOutcome | recorder_engine/muxer.cpp:349-363 | counts failures in a row and latches at three |
| Muxer.Writer.TryPop | recorder_engine/muxer.cpp:366-395 | pops the oldest packet unless the header is deferred and the writer runs |
| Muxer.Writer.EnsureHeaderWritten | recorder_engine/muxer.cpp:271-303 | the header once, with the tag |
| Muxer.Writer.CommitHeader | recorder_engine/muxer.cpp:399-407 | the header before the first packet; without it the packet is dropped |
| Muxer.Writer.BumpDts | recorder_engine/muxer.cpp:411-421 | the bump and its memory |
| Muxer.Writer.WriteBumped | recorder_engine/muxer.cpp:411-437 | one packet written and its outcome recorded |
| Muxer.Writer.FlushIfDue | recorder_engine/muxer.cpp:439-447 | a failed flush counts, a good one resets nothing |
| Muxer.Writer.FinishTurn | recorder_engine/muxer.cpp:399-447 | the rest of a turn, from wherever the writer stands, loses no packet |
| Muxer.Writer.DrainOne | recorder_engine/muxer.cpp:366-447 | one turn of the loop loses no packet |
| Muxer.Writer.DrainAll | recorder_engine/muxer.cpp:366-381 | the writer drains the whole queue before it ends |
| Muxer.Writer.Close | recorder_engine/muxer.cpp:515-563 | from any state of the writer, every packet pushed is in the file before the trailer, or was dropped for want of a header; a second close does nothing |
| Muxer.Writer.Finish | recorder_engine/muxer.cpp:545-562 | the trailer only behind a header |
| TrackBuffer.ProtectedVictimIff | playback/trackbuffer.cpp:33-58 | a protected frame is evicted exactly when all are protected, against the header's comment; never while at most cap frames are |
| TrackBuffer.VictimIsUnique | playback/trackbuffer.cpp:38-57 | the frame to evict is determined |
| TrackBuffer.MapDeterminesVector | playback/trackbuffer.cpp:10-29 | two sorted vectors for the same map are equal |
| TrackBuffer.PlacedRepresents | playback/trackbuffer.cpp:28-29 | insertion at the lower bound is insertion into the map |
| TrackBuffer.RemovalRepresents | playback/trackbuffer.cpp:64-66 | eviction is removal from the map |
| TrackBuffer.ReplacedRepresents | playback/trackbuffer.cpp:21-26 | an equal PTS is overwritten in the map |
| TrackBuffer.DroppingFrontIsFilter | playback/trackbuffer.cpp:125-129 | dropping the frames before a position is the filter of the map |
| TrackBuffer.DroppingBackIsFilter | playback/trackbuffer.cpp:131-135 | and so is dropping those behind one |
| TrackBuffer.BackwardsMultiset | playback/trackbuffer.cpp:131-135 | what the back loop hands over, last frame first, is exactly what it drops |
| TrackBuffer.Buffer.constructor | playback/trackbuffer.h:43-45 | an empty map |
| TrackBuffer.Buffer.LowerBound | playback/trackbuffer.cpp:10-19 | the first index at or after a PTS |
| TrackBuffer.Buffer.Farthest | playback/trackbuffer.cpp:35-57 | the first farthest of all frames, or of the unprotected ones |
| TrackBuffer.Buffer.FindVictim | playback/trackbuffer.cpp:33-58 | the frame the cap takes |
| TrackBuffer.Buffer.Evict | playback/trackbuffer.cpp:31-69 | one frame goes, the rest stays sorted; the result says whether the new one stayed |
| TrackBuffer.Buffer.ReplaceAt | playback/trackbuffer.cpp:21-26 | an equal PTS hands the old picture over |
| TrackBuffer.Buffer.PlaceAt | playback/trackbuffer.cpp:28-29 | a new PTS goes where it belongs |
| TrackBuffer.Buffer.Insert | playback/trackbuffer.cpp:8-72 | sorted and unique, old + new = buffer + evicted, the size bound, and false exactly when the new frame was the one evicted |
| TrackBuffer.Buffer.FrameAt | playback/trackbuffer.cpp:77-97 | the largest PTS at or below the playhead, or none |
| TrackBuffer.Buffer.TrimFront | playback/trackbuffer.cpp:125-129 | drops exactly the frames before the range |
| TrackBuffer.Buffer.TrimBack | playback/trackbuffer.cpp:131-135 | drops exactly the frames behind the range |
| TrackBuffer.Buffer.DropBack | playback/trackbuffer.cpp:131-135 | the loop of it |
| TrackBuffer.Buffer.Trim | playback/trackbuffer.cpp:124-136 | the range filter, and what it dropped |
| TrackBuffer.Buffer.Clear | playback/trackbuffer.cpp:138-141 | empties and hands everything over |
| FrameRate.RoundTrip | playback/framerate.h:24-32 | time to index and back is at most the time, the frame before is strictly earlier, and the next frame is not before it |
| FrameRate.FrameTimesAreExact | playback/framerate.h:24-32 | a frame's time is its exact time rounded down to the millisecond, and a time's frame the last one begun by then |
| FrameRate.IndexToMsMono | playback/framerate.h:24-27 | frame times never decrease |
| FrameRate.IndexToMsStrict | playback/framerate.h:24-27 | up to 1000 frames a second they strictly increase |
| PlaybackTransport.FirstAfterIsFirst | playback/playbacktransport.cpp:17-22 | the closed form is the least index strictly after a time |
| PlaybackTransport.FirstAtOrAfterIsFirst | playback/playbacktransport.cpp:6-15 | the closed form is the least index at or after a time |
| PlaybackTransport.GuessIsAtMostOneShort | playback/playbacktransport.cpp:9-11 | the search starts at most one frame short, and is right exactly on a frame's time |
| PlaybackTransport.ForwardThenBack | playback/playbacktransport.cpp:131-141 | on a frame's time one step forward and one back is where it was, at any rate |
| PlaybackTransport.SingleStepIsAdjacent | playback/playbacktransport.cpp:131-141 | at any rate a single step goes to the next frame's time, or to the last one before the position |
| PlaybackTransport.StepIsSingleSteps | playback/playbacktransport.cpp:131-141 | up to 1000 frames a second a step of n is n single steps |
| PlaybackTransport.StepAndBack | playback/playbacktransport.cpp:131-141 | up to 1000 frames a second, from the time of frame i, any step and the opposite step return exactly when the first one is not cut short at the start |
| PlaybackTransport.ReturnsIff | playback/playbacktransport.cpp:131-141 | the same from any position: exactly for the empty step, and on a frame's time at or past that many frames |
| PlaybackTransport.BackThenForwardIff | playback/playbacktransport.cpp:131-141 | at any rate one step back and one forward return to a frame's time exactly when it is not the first position |
| PlaybackTransport.BackFromTheStart | playback/playbacktransport.cpp:138-140 | at 25 frames a second three frames back from the second frame and three forward end two frames late |
| PlaybackTransport.CrowdedMillisecond | playback/playbacktransport.cpp:131-141 | above that rate a position where two steps at once and two single steps differ |
| PlaybackTransport.StepsComposeIffAtMostThousandFps | playback/playbacktransport.cpp:131-141 | steps compose at all positions if and only if the rate is at most 1000 |
| PlaybackTransport.Transport.FirstIndexAtOrAfterMs | playback/playbacktransport.cpp:6-15 | the loops end at the least index at or after the time |
| PlaybackTransport.Transport.WalkBack | playback/playbacktransport.cpp:12-13 | the second loop takes crowded frames back to the first |
| PlaybackTransport.Transport.FirstIndexAfterMs | playback/playbacktransport.cpp:17-22 | the loop ends at the least index after the time |
| PlaybackTransport.Transport.Seek | playback/playbacktransport.cpp:117-129 | no position is below zero |
| PlaybackTransport.Transport.StepFrames | playback/playbacktransport.cpp:131-141 | a step goes to the time of the frame it should |
| AudioLedger.StepStaysSane | playback/audioplayer.cpp:14-123 | no debt is owed by a stream that has not started; debt and ring stay within the cap |
| AudioLedger.ContinueIsBooked | playback/audioplayer.cpp:272-290 | a chunk on an aligned stream moves the ledger by its accepted offset, its clipped gap or its rewind, and nothing else |
| AudioLedger.StepIsBooked | playback/audioplayer.cpp:14-360 | every step of a push and every read, clear and mute moves the ledger by what is booked for it |
| AudioLedger.EveryByteIsBooked | playback/audioplayer.cpp:210-360 | under every interleaving of device reads with the steps of pushes the offset from the device's clock is the aligned one plus what is booked |
| AudioLedger.EveryRunIsBooked | playback/audioplayer.cpp:146-360 | the same from a player just started, over every run |
| AudioLedger.AlignmentMeetsTheClock | playback/audioplayer.cpp:256-271 | aligning makes the position due now play behind what the ring still holds, a clear's fade tail included |
| AudioLedger.PayloadLandsAtItsPosition | playback/audioplayer.cpp:297-360 | the head of a payload plays at its timeline position plus the booked offset, late only by debt run up since the take |
| AudioLedger.FinishIsRepaid | playback/audioplayer.cpp:292-358 | the ring's part of a push in closed form: silence, then the payload less the debt, and what the debt exceeds it by stays owed |
| AudioLedger.PushShifts | playback/audioplayer.cpp:213-290 | a push aligns when the stream has no place, has lost it or is too far off; silence in front and frames cut off the head are its lead, gap or overlap; the stream then goes on where the chunk ends |
| AudioLedger.NextChunkFollows | playback/audioplayer.cpp:272-290 | in stamps alone: a chunk that needs no alignment is shifted against the end of the one heard before, whatever is read in between; one that abuts is carried whole with no silence |
| AudioPlayer.PushedIsTheEnd | playback/audioplayer.cpp:14-33 | the ring keeps the end of the old bytes, the silence and the payload behind the debt |
| AudioPlayer.PushedLies | playback/audioplayer.cpp:292-358 | each byte of it is the old one, silence, or the chunk's own, at the place the shift and the debt give |
| AudioPlayer.PushLands | playback/audioplayer.cpp:210-358 | so after any push that is heard, with the shift its times give |
| AudioPlayer.AlignedPushIsPlain | playback/audioplayer.cpp:256-271 | an aligning push with no debt and room enough: behind what was held come exactly the lead in silence and the whole chunk, or the chunk without the frames that are past |
| AudioLedger.SmoothRunKeepsTheOffset | playback/audioplayer.cpp:14-360 | between alignments, with no cap hit, nothing skipped and no read that finds the ring short before the stream's first byte, the offset changes only by minus the accepted stamps |
| AudioLedger.PushIsARun | playback/audioplayer.cpp:210-360 | a push nobody interrupts is one of the runs |
| AudioPlayer.AudioRingBuffer.Push | playback/audioplayer.cpp:14-33 | appends, keeps the newest bytes within the cap and says so |
| AudioPlayer.AudioRingBuffer.Clear | playback/audioplayer.cpp:35-41 | forgets everything |
| AudioPlayer.AudioRingBuffer.FadeOutAndClear | playback/audioplayer.cpp:43-68 | keeps at most 5 ms and forgets the debt |
| AudioPlayer.AudioRingBuffer.TakeUnderrunDebt | playback/audioplayer.cpp:70-75 | hands the debt over once |
| AudioPlayer.AudioRingBuffer.AddUnderrunDebt | playback/audioplayer.cpp:77-86 | adds within the cap |
| AudioPlayer.AudioRingBuffer.TakeOverflowed | playback/audioplayer.cpp:88-93 | reports an overflow once |
| AudioPlayer.AudioRingBuffer.ReadData | playback/audioplayer.cpp:100-123 | the full request: what is held, then silence, owed while a stream is active |
| AudioPlayer.AudioPlayer.constructor | playback/audioplayer.cpp:146-194 | a started player, muted, nothing aligned, half a second of ring |
| AudioPlayer.AudioPlayer.PushSamples | playback/audioplayer.cpp:210-360 | a push is its specification, and every byte of the ring lies where the chunk's own times put it |
| AudioPlayer.AudioPlayer.BeginPush | playback/audioplayer.cpp:213-290 | the decisions of a push |
| AudioPlayer.AudioPlayer.Align | playback/audioplayer.cpp:256-271 | the aligning decision, which AudioLedger.PushShifts determines: lead becomes silence, lateness is cut off the head |
| AudioPlayer.AudioPlayer.Continue | playback/audioplayer.cpp:272-290 | gap, overlap or neither |
| AudioPlayer.AudioPlayer.FinishPush | playback/audioplayer.cpp:292-358 | silence, debt, payload |
| AudioPlayer.AudioPlayer.PushSilence | playback/audioplayer.cpp:292-295 | a silence prefix is pushed if there is one |
| AudioPlayer.AudioPlayer.TakeAndPush | playback/audioplayer.cpp:305-358 | the debt comes off the head; what it exceeds the payload by is given back |
| AudioPlayer.AudioPlayer.Clear | playback/audioplayer.cpp:362-373 | drops all but the tail and aligns anew |
| AudioPlayer.AudioPlayer.SetMuted | playback/audioplayer.cpp:375-393 | muting empties, unmuting aligns anew |
| SseFraming.IndexIsFirst | telemetry/sseparser.cpp:33-35 | the search finds the first occurrence, or none when there is none |
| SseFraming.FirstSeparatorIff | telemetry/sseparser.cpp:33-40 | the separator found is exactly the earliest blank line of either kind |
| SseFraming.SeparatorIsStable | telemetry/sseparser.cpp:33-40 | the first separator of a prefix stays the first in every extension |
| SseFraming.DrainLeavesNoBlock | telemetry/sseparser.cpp:32-49 | a drained buffer holds no complete block |
| SseFraming.DrainExtends | telemetry/sseparser.cpp:26-49 | draining an extension is draining the prefix, then what it left with the extension |
| SseParser.SplitIsLines | telemetry/sseparser.cpp:62 | splitting loses nothing and no piece holds a line feed |
| SseParser.FeedIsDrain | telemetry/sseparser.cpp:17-55 | feeding chunks one by one is draining all their bytes at once |
| SseParser.ChunkingDoesNotMatter | telemetry/sseparser.cpp:17-55 | two chunkings of the same bytes that never hit the limit give equal events, leftover and last event id |
| SseParser.ShortStreamNeverOverflows | telemetry/sseparser.cpp:20-24 | a stream within the limit never hits it, whatever its chunks |
| SseParser.NoBlockIsKept | telemetry/sseparser.cpp:30-55 | between pushes no complete block is held |
| SseParser.FrameRoundTrip | telemetry/sseparser.cpp:30-49 | blocks framed with blank lines are each parsed, in order, with nothing left |
| SseParser.OverflowDropsTheBuffer | telemetry/sseparser.cpp:17-24 | a chunk that would take what is held past a mebibyte is dropped with it, and the last event id stays |
| SseEvents.LineMeans | telemetry/sseparser.cpp:63-81 | a line of a field sets that field to its value, with or without the space and the carriage return; comments, blank lines and other fields change nothing |
| SseEvents.SplitJoin | telemetry/sseparser.cpp:62 | lines joined by line feeds are split into the same lines |
| SseEvents.BlockMeans | telemetry/sseparser.cpp:57-113 | parsing a block gives what its lines mean: the last type and the last id win, data lines are joined by line feeds, and without data there is no event but the id moves |
| SseEvents.LineIsWritten | telemetry/sseparser.cpp:63-71 | every line without a line feed is written by exactly what it reads as |
| SseEvents.EveryBlockMeans | telemetry/sseparser.cpp:57-113 | so every block of bytes gives the meaning of some lines that write it |
| SseEvents.SolidIsFramable | telemetry/sseparser.cpp:30-41 | a block without a blank line ends at the blank line put behind it |
| SseEvents.StreamRoundTrip | telemetry/sseparser.cpp:17-113 | a stream of written events, cut into chunks anyhow within the limit, gives exactly the events told, in order, with nothing left over |
| SseEvents.PlainEventRoundTrip | telemetry/sseparser.cpp:57-113 | an event written with a type, an id and data lines comes back as that event, its payload the data joined by line feeds, decoded |
| SseParser.SseParser.constructor | telemetry/sseparser.h:20-22 | nothing held |
| SseParser.SseParser.Reset | telemetry/sseparser.cpp:11-15 | nothing held |
| SseParser.SseParser.Push | telemetry/sseparser.cpp:17-28 | a chunk over the limit is dropped with the buffer; else everything held is drained |
| SseParser.SseParser.ParseBufferedEvents | telemetry/sseparser.cpp:30-55 | the loop drains every complete block, in order |
| SseParser.SseParser.NextEvent | telemetry/sseparser.cpp:42-48 | one block is taken and parsed unless too long |
| SseParser.SseParser.ParseEventBlock | telemetry/sseparser.cpp:57-113 | a block gives the outcome SseEvents.BlockMeans tells from its lines, and each error is reported |
| SseParser.SseParser.ParseLine | telemetry/sseparser.cpp:63-81 | one line does to the fields what SseEvents.LineMeans says |
| SseParser.SseParser.FinishBlock | telemetry/sseparser.cpp:83-112 | the event of the fields, or the error that stands for it |

## Left out

- FFmpeg, VideoToolbox, Media Foundation, QRhi, D3D, NDI, SRT and MIDI calls: a packet read is frames, or the end; a write or a header write succeeds or fails.
- OutputFrameCache: a map from feed and PTS to the arm that staged the frame; its sources are not part of this model, nor is its audio.
- OutputRuntime: the dispatcher's index and the frame of an out-point are inputs of the steps; its play epoch is not modelled.
- GPU generations and the staging fence: off by default and bound to the platform; the protocol is complete without them.
- The contents of the refill in repositionTo, its budget and its seek: any frames may be decoded before the commit is tried.
- Which frames trimBefore keeps of audio, and the primary decoder's track buffers inside the run loop: only the published video cache is followed.
- Amplitude ramps of the audio player: they change sample values, not which bytes play when.
- Starting and stopping the audio player, and its counters: the player is a started one, at the 48 kHz stereo the program starts it with (uimanager.cpp:386).
- AudioPlayer.AudioPlayer.PushSamples: states a push without reads inside it; pushes with reads between their steps are stated on AudioLedger's steps.
- Wall-clock play and speed changes of PlaybackTransport: stepping and seeking only.
- Time base rescaling of packets and a missing stream or allocation in writeAudioForTick and writeBlueFrames: packets are given in samples and always made.
- Metadata, subtitle and telemetry packets: they are pushes like any other.
- The video path of the source worker, its queue, restart and stall handling: easy or library-bound; audio carries the arithmetic.
- The wake-up of a producer that a full queue has blocked: it comes again, with nothing done in between.
- Muxer.Writer.Close: the writer thread runs to its end inside it, with any answers of the device; runs with producers beside the writer are stated on the steps.
- Text decoding and JSON parsing in the event parser: they are any functions of the bytes, the trimmed feed id included; error texts are names.
- The count of views is what activeViewCount has clamped (uimanager.cpp:914-916); sources and flags are lists of the model's own.
- Fixed-width integer overflow: integers are mathematical.
- Settings, project files, WebSocket commands, the control surfaces and the rest of the UI: wiring or easy members.
