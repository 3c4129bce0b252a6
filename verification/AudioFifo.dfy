// The audio FIFO of a source, recorder_engine/streamworker.cpp:673-718. A FIFO is one contiguous stretch of
// the source's sample timeline; it is the same whatever is stored for a sample.
module AudioFifo {
  import opened Basics

  const SAMPLE_RATE := 48000
  const JITTER_TOLERANCE := SAMPLE_RATE / 100
  const MAX_FILL := SAMPLE_RATE * 10
  const CAPACITY := SAMPLE_RATE * 10

  // Item i is the sample at position start + i. A negative start: no stream yet.
  datatype Fifo<T> = Fifo(start: int, items: seq<T>) {
    function End(): int { start + |items| }

    predicate Holds(p: int) { start >= 0 && start <= p < End() }

    function At(p: int): T
      requires Holds(p)
    {
      items[p - start]
    }

    predicate Valid() {
      |items| <= CAPACITY && (start < 0 ==> items == [])
    }
  }

  function Repeat<T>(n: nat, x: T): seq<T> {
    seq(n, _ => x)
  }

  function Cap<T>(f: Fifo<T>): Fifo<T> {
    if |f.items| > CAPACITY then
      var excess := |f.items| - CAPACITY;
      Fifo(f.start + excess, f.items[excess..])
    else f
  }

  // How far a chunk's stamp is from the position its first sample would get; unstamped data continues.
  function Delta<T>(f: Fifo<T>, stamp: int): int {
    if stamp < 0 then 0 else stamp - f.End()
  }

  // What is held after a chunk, before the cap.
  function Joined<T>(f: Fifo<T>, stamp: int, chunk: seq<T>, silence: T): Fifo<T> {
    if f.start < 0 || f.items == [] then
      if stamp < 0 then f else Fifo(stamp, f.items + chunk)
    else
      var delta := Delta(f, stamp);
      if -JITTER_TOLERANCE <= delta <= JITTER_TOLERANCE then Fifo(f.start, f.items + chunk)
      else if delta > MAX_FILL then Fifo(stamp, chunk)
      else if delta > 0 then Fifo(f.start, f.items + Repeat(delta, silence) + chunk)
      else if -delta >= |chunk| then f
      else Fifo(f.start, f.items + chunk[-delta..])
  }

  function Enqueue<T>(f: Fifo<T>, stamp: int, chunk: seq<T>, silence: T): Fifo<T> {
    if chunk == [] then f else Cap(Joined(f, stamp, chunk, silence))
  }

  // Forget everything before position p.
  function Drop<T>(f: Fifo<T>, p: int): Fifo<T> {
    if f.start < 0 || p <= f.start then f
    else
      var n := Min(p - f.start, |f.items|);
      Fifo(f.start + n, f.items[n..])
  }

  lemma EnqueueKeepsValid<T>(f: Fifo<T>, stamp: int, chunk: seq<T>, silence: T)
    requires f.Valid()
    ensures Enqueue(f, stamp, chunk, silence).Valid()
  {
  }

  /** A sample that stays buffered stays at its position: none is moved or overwritten. */
  lemma EnqueueMovesNothing<T>(f: Fifo<T>, stamp: int, chunk: seq<T>, silence: T, p: int)
    requires f.Valid() && f.Holds(p) && Enqueue(f, stamp, chunk, silence).Holds(p)
    ensures Enqueue(f, stamp, chunk, silence).At(p) == f.At(p)
  {
  }

  lemma DropMovesNothing<T>(f: Fifo<T>, to: int, p: int)
    ensures Drop(f, to).Holds(p) <==> f.Holds(p) && (p >= to || to <= f.start)
    ensures Drop(f, to).Holds(p) ==> Drop(f, to).At(p) == f.At(p)
  {
  }

  // ------------------------------------------------------ where a chunk is put

  // Nothing is buffered, or the stamp is more than ten seconds past what is.
  predicate StartsAnew<T>(f: Fifo<T>, stamp: int) {
    f.start < 0 || |f.items| == 0 || (stamp >= 0 && stamp - f.End() > MAX_FILL)
  }

  // The position of a chunk's first sample: its stamp, unless that is within 10 ms of the end or there is none.
  function PlaceOf<T>(f: Fifo<T>, stamp: int): int {
    if StartsAnew(f, stamp) || (stamp >= 0 && Abs(stamp - f.End()) > JITTER_TOLERANCE) then stamp else f.End()
  }

  // The stretch a chunk leaves: from the first position to the later of the old end and the chunk's own.
  function FirstAfter<T>(f: Fifo<T>, stamp: int): int {
    if StartsAnew(f, stamp) then stamp else f.start
  }

  function EndAfter<T>(f: Fifo<T>, stamp: int, n: nat): int {
    var end := PlaceOf(f, stamp) + n;
    if StartsAnew(f, stamp) then end else Max(f.End(), end)
  }

  // Data without a stamp is ignored when there is no stream to continue.
  predicate Ignored<T>(f: Fifo<T>, stamp: int) {
    stamp < 0 && (f.start < 0 || |f.items| == 0)
  }

  lemma JoinedExtends<T>(f: Fifo<T>, stamp: int, chunk: seq<T>, silence: T)
    requires f.Valid() && |chunk| > 0 && !Ignored(f, stamp)
    ensures var j := Joined(f, stamp, chunk, silence);
            j.start == FirstAfter(f, stamp) >= 0 && j.End() == EndAfter(f, stamp, |chunk|)
  {
  }

  lemma CapKeepsNewest<T>(j: Fifo<T>)
    ensures var g := Cap(j);
            && g.End() == j.End() && g.start == Max(j.start, j.End() - CAPACITY)
            && forall p :: j.start >= 0 && g.Holds(p) ==> j.Holds(p) && g.At(p) == j.At(p)
  {
  }

  /** Every chunk with a place reaches the buffer, and of the stretch it leaves exactly the newest ten seconds are
      held. */
  lemma EnqueueExtends<T>(f: Fifo<T>, stamp: int, chunk: seq<T>, silence: T)
    requires f.Valid() && |chunk| > 0
    ensures var g := Enqueue(f, stamp, chunk, silence);
            if Ignored(f, stamp) then g == f
            else
              var end := EndAfter(f, stamp, |chunk|);
              g.End() == end && g.start == Max(FirstAfter(f, stamp), end - CAPACITY) >= 0
  {
    if !Ignored(f, stamp) {
      JoinedExtends(f, stamp, chunk, silence);
      CapKeepsNewest(Joined(f, stamp, chunk, silence));
    }
  }

  // What is at a position after a chunk: what was there, else silence up to the chunk's place, else its own sample.
  function Placed<T>(f: Fifo<T>, stamp: int, chunk: seq<T>, silence: T, p: int): T
    requires f.Valid() && FirstAfter(f, stamp) <= p < EndAfter(f, stamp, |chunk|)
  {
    var at := PlaceOf(f, stamp);
    if !StartsAnew(f, stamp) && p < f.End() then f.items[p - f.start]
    else if p < at then silence
    else chunk[p - at]
  }

  lemma JoinedPlaces<T>(f: Fifo<T>, stamp: int, chunk: seq<T>, silence: T, p: int)
    requires f.Valid() && |chunk| > 0 && !Ignored(f, stamp)
    requires Joined(f, stamp, chunk, silence).Holds(p)
    ensures FirstAfter(f, stamp) <= p < EndAfter(f, stamp, |chunk|)
    ensures Joined(f, stamp, chunk, silence).At(p) == Placed(f, stamp, chunk, silence, p)
  {
    JoinedExtends(f, stamp, chunk, silence);
  }

  /** Every position held after a chunk has the sample it should: an old one keeps its own, a gap is silent, and
      the rest are the chunk's samples in their places. */
  lemma EnqueuePlaces<T>(f: Fifo<T>, stamp: int, chunk: seq<T>, silence: T, p: int)
    requires f.Valid() && |chunk| > 0 && !Ignored(f, stamp)
    requires Enqueue(f, stamp, chunk, silence).Holds(p)
    ensures FirstAfter(f, stamp) <= p < EndAfter(f, stamp, |chunk|)
    ensures Enqueue(f, stamp, chunk, silence).At(p) == Placed(f, stamp, chunk, silence, p)
  {
    JoinedExtends(f, stamp, chunk, silence);
    CapKeepsNewest(Joined(f, stamp, chunk, silence));
    JoinedPlaces(f, stamp, chunk, silence, p);
  }

  /** A sample of a chunk that is not yet buffered is held at its place afterwards, if it is among the newest ten
      seconds. */
  lemma ChunkIsHeld<T>(f: Fifo<T>, stamp: int, chunk: seq<T>, silence: T, i: nat)
    requires f.Valid() && i < |chunk| && !Ignored(f, stamp)
    requires StartsAnew(f, stamp) || PlaceOf(f, stamp) + i >= f.End()
    requires |chunk| - i <= CAPACITY
    ensures var g := Enqueue(f, stamp, chunk, silence);
            var p := PlaceOf(f, stamp) + i;
            g.Holds(p) && g.At(p) == chunk[i]
  {
    EnqueueExtends(f, stamp, chunk, silence);
    EnqueuePlaces(f, stamp, chunk, silence, PlaceOf(f, stamp) + i);
  }

  lemma ChunkHasItsPlace<T>(f: Fifo<T>, stamp: int, chunk: seq<T>, silence: T, i: nat)
    requires f.Valid() && i < |chunk| && !Ignored(f, stamp)
    requires StartsAnew(f, stamp) || PlaceOf(f, stamp) + i >= f.End()
    requires Enqueue(f, stamp, chunk, silence).Holds(PlaceOf(f, stamp) + i)
    ensures Enqueue(f, stamp, chunk, silence).At(PlaceOf(f, stamp) + i) == chunk[i]
  {
    EnqueuePlaces(f, stamp, chunk, silence, PlaceOf(f, stamp) + i);
  }

  // ------------------------------------------------------- where samples belong

  // A sample together with the position its chunk's stamp gives it, if it has one.
  datatype Labelled<T> = Labelled(sample: T, due: Option<int>)

  function Label<T>(stamp: int, chunk: seq<T>): seq<Labelled<T>> {
    seq(|chunk|, i requires 0 <= i < |chunk| => Labelled(chunk[i], if stamp < 0 then None else Some(stamp + i)))
  }

  function Strip<T>(items: seq<Labelled<T>>): seq<T> {
    seq(|items|, i requires 0 <= i < |items| => items[i].sample)
  }

  function Plain<T>(f: Fifo<Labelled<T>>): Fifo<T> {
    Fifo(f.start, Strip(f.items))
  }

  predicate InPlace<T>(start: int, items: seq<Labelled<T>>) {
    forall i :: 0 <= i < |items| && items[i].due.Some? ==>
      -JITTER_TOLERANCE <= start + i - items[i].due.value <= JITTER_TOLERANCE
  }

  // Filling with silence leads to the stamp exactly, dropping an overlap resumes at it exactly.
  lemma JoinedInPlace<T>(f: Fifo<Labelled<T>>, stamp: int, chunk: seq<T>, silence: T)
    requires f.Valid() && InPlace(f.start, f.items)
    ensures var j := Joined(f, stamp, Label(stamp, chunk), Labelled(silence, None)); InPlace(j.start, j.items)
  {
  }

  lemma StripJoined<T>(f: Fifo<Labelled<T>>, stamp: int, chunk: seq<T>, silence: T)
    ensures Plain(Joined(f, stamp, Label(stamp, chunk), Labelled(silence, None)))
         == Joined(Plain(f), stamp, chunk, silence)
  {
  }

  // What happens to a FIFO: chunks come in, positions are consumed.
  datatype Action<T> = Enqueued(stamp: int, chunk: seq<T>) | Dropped(to: int)

  function Act<T>(f: Fifo<T>, a: Action<T>, silence: T): Fifo<T> {
    match a
    case Enqueued(stamp, chunk) => Enqueue(f, stamp, chunk, silence)
    case Dropped(to) => Drop(f, to)
  }

  function ActAll<T>(f: Fifo<T>, run: seq<Action<T>>, silence: T): Fifo<T>
    decreases |run|
  {
    if run == [] then f else Act(ActAll(f, run[..|run| - 1], silence), run[|run| - 1], silence)
  }

  // The same run with every sample labelled by its chunk's stamp.
  function ActLabelled<T>(f: Fifo<Labelled<T>>, a: Action<T>, silence: T): Fifo<Labelled<T>> {
    match a
    case Enqueued(stamp, chunk) => Enqueue(f, stamp, Label(stamp, chunk), Labelled(silence, None))
    case Dropped(to) => Drop(f, to)
  }

  function ActAllLabelled<T>(run: seq<Action<T>>, silence: T): Fifo<Labelled<T>>
    decreases |run|
  {
    if run == [] then Fifo(-1, [])
    else ActLabelled(ActAllLabelled(run[..|run| - 1], silence), run[|run| - 1], silence)
  }

  lemma CapLabelled<T>(j: Fifo<Labelled<T>>)
    requires InPlace(j.start, j.items)
    ensures InPlace(Cap(j).start, Cap(j).items) && Plain(Cap(j)) == Cap(Plain(j))
  {
  }

  lemma DropLabelled<T>(f: Fifo<Labelled<T>>, to: int)
    requires InPlace(f.start, f.items)
    ensures InPlace(Drop(f, to).start, Drop(f, to).items) && Plain(Drop(f, to)) == Drop(Plain(f), to)
  {
  }

  lemma EnqueueLabelled<T>(f: Fifo<Labelled<T>>, stamp: int, chunk: seq<T>, silence: T)
    requires f.Valid() && InPlace(f.start, f.items)
    ensures var g := Enqueue(f, stamp, Label(stamp, chunk), Labelled(silence, None));
            InPlace(g.start, g.items) && Plain(g) == Enqueue(Plain(f), stamp, chunk, silence)
  {
    if chunk != [] {
      JoinedInPlace(f, stamp, chunk, silence);
      StripJoined(f, stamp, chunk, silence);
      CapLabelled(Joined(f, stamp, Label(stamp, chunk), Labelled(silence, None)));
    }
  }

  lemma LabelledStep<T>(f: Fifo<Labelled<T>>, a: Action<T>, silence: T)
    requires f.Valid() && InPlace(f.start, f.items)
    ensures var g := ActLabelled(f, a, silence);
            && g.Valid() && InPlace(g.start, g.items)
            && Plain(g) == Act(Plain(f), a, silence)
  {
    match a
    case Enqueued(stamp, chunk) =>
      EnqueueLabelled(f, stamp, chunk, silence);
      EnqueueKeepsValid(f, stamp, Label(stamp, chunk), Labelled(silence, None));
    case Dropped(to) =>
      DropLabelled(f, to);
  }

  /** After any run of chunks and drops, at most ten seconds are held, and every sample of a stamped chunk
      that is still held sits within 10 ms of the position its stamp gives it. */
  lemma {:induction false} SamplesSitAtTheirStamps<T>(run: seq<Action<T>>, silence: T)
    ensures var g := ActAllLabelled(run, silence);
            && g.Valid() && InPlace(g.start, g.items)
            && Plain(g) == ActAll(Fifo(-1, []), run, silence)
    decreases |run|
  {
    if run != [] {
      SamplesSitAtTheirStamps(run[..|run| - 1], silence);
      LabelledStep(ActAllLabelled(run[..|run| - 1], silence), run[|run| - 1], silence);
    }
  }
}
