// The rundown decisions of playback/playlistplayout.cpp.
module PlaylistPlayout {
  import CutSchedule

  datatype Entry = Entry(inMs: int, outMs: int, speed: real)
  datatype Boundary = NoBoundary | Boundary(fireAtMs: int, targetMs: int, targetSpeed: real)

  datatype Playout = Playout(entries: seq<Entry>, index: int, active: bool, armedCurrent: bool) {
    predicate Valid() {
      active ==> 0 <= index < |entries|
    }

    predicate HasNext() {
      active && index >= 0 && index + 1 < |entries|
    }

    predicate OnFinalEntry() {
      active && !HasNext()
    }

    // The clip-time distance before the out-point at which the boundary is armed.
    static function ClipLead(leadRealtimeMs: int, speed: real): int {
      CutSchedule.Truncate(leadRealtimeMs as real * (if speed > 0.0 then speed else 1.0))
    }

    // The boundary of the current entry is due: not yet armed, marked, and within the lead.
    predicate Due(playheadMs: int, speed: real, leadRealtimeMs: int) {
      && active && !armedCurrent && HasNext() && index < |entries|
      && entries[index].outMs >= 0
      && playheadMs >= entries[index].outMs - ClipLead(leadRealtimeMs, speed)
    }

    // What a boundary of the current entry is: from its out-point to the next in-point.
    function NextBoundary(): Boundary
      requires HasNext()
    {
      Boundary(entries[index].outMs, entries[index + 1].inMs, entries[index + 1].speed)
    }

    function AfterEvaluate(playheadMs: int, speed: real, leadRealtimeMs: int): Playout {
      if Due(playheadMs, speed, leadRealtimeMs) then this.(armedCurrent := true) else this
    }

    function AfterFired(): Playout {
      if active && index >= 0 && index + 1 < |entries| then this.(index := index + 1, armedCurrent := false) else this
    }
  }

  function StartedAt(entries: seq<Entry>, index: int): Playout {
    var inRange := 0 <= index < |entries|;
    Playout(entries, if inRange then index else -1, inRange, false)
  }

  const STOPPED := Playout([], -1, false, false)

  // The baseline loop of onPlayoutTick: one boundary for each cut fired since the last tick.
  function Reconcile(p: Playout, fires: nat): Playout
    decreases fires
  {
    if fires == 0 then p else Reconcile(p.AfterFired(), fires - 1)
  }

  /** However many cuts fired since the last tick, the index moves by exactly that many, up to the last entry. */
  lemma {:induction false} ReconcileAdvances(p: Playout, fires: nat)
    requires p.Valid() && p.active
    ensures var q := Reconcile(p, fires);
            && q.entries == p.entries && q.active
            && q.index == (if p.index + fires < |p.entries| then p.index + fires else |p.entries| - 1)
            && q.armedCurrent == (p.armedCurrent && q.index == p.index)
    decreases fires
  {
    if fires > 0 {
      ReconcileAdvances(p.AfterFired(), fires - 1);
    }
  }

  /** A boundary is due exactly when the wall time left to the out-point, at the current speed, is within the lead. */
  lemma DueIff(p: Playout, playheadMs: int, speed: real, leadMs: nat)
    ensures var rate := if speed > 0.0 then speed else 1.0;
            p.Due(playheadMs, speed, leadMs) <==>
              && p.active && !p.armedCurrent && 0 <= p.index < |p.entries| - 1
              && p.entries[p.index].outMs >= 0
              && (p.entries[p.index].outMs - playheadMs) as real <= leadMs as real * rate
  {
    var clipLead := leadMs as real * (if speed > 0.0 then speed else 1.0);
    assert clipLead >= 0.0;
    assert CutSchedule.Truncate(clipLead) == clipLead.Floor;
  }

  class PlayoutDriver {
    var entries: seq<Entry>
    var index: int
    var active: bool
    var armedCurrent: bool

    ghost function View(): (p: Playout)
      reads this
    {
      Playout(entries, index, active, armedCurrent)
    }

    constructor ()
      ensures View() == STOPPED
    {
      entries, index, active, armedCurrent := [], -1, false, false;
    }

    method Start(entries: seq<Entry>, index: int)
      modifies this
      ensures View() == StartedAt(entries, index) && View().Valid()
    {
      this.entries := entries;
      this.index := if 0 <= index < |entries| then index else -1;
      this.active := this.index >= 0;
      this.armedCurrent := false;
    }

    method Stop()
      modifies this
      ensures View() == STOPPED
    {
      active, armedCurrent, index, entries := false, false, -1, [];
    }

    /** A boundary is returned once per entry, when it is due. */
    method Evaluate(playheadMs: int, speed: real, leadRealtimeMs: int) returns (b: Boundary)
      requires View().Valid()
      modifies this`armedCurrent
      ensures View() == old(View()).AfterEvaluate(playheadMs, speed, leadRealtimeMs)
      ensures b == if old(View()).Due(playheadMs, speed, leadRealtimeMs) then View().NextBoundary() else NoBoundary
    {
      if !active || armedCurrent || !(index >= 0 && index + 1 < |entries|) { return NoBoundary; }
      var cur := entries[index];
      if cur.outMs < 0 { return NoBoundary; }
      if playheadMs < cur.outMs - Playout.ClipLead(leadRealtimeMs, speed) { return NoBoundary; }
      var next := entries[index + 1];
      armedCurrent := true;
      return Boundary(cur.outMs, next.inMs, next.speed);
    }

    method OnBoundaryFired() returns (advanced: bool, cur: Entry)
      requires View().Valid()
      modifies this`index, this`armedCurrent
      ensures View() == old(View()).AfterFired() && View().Valid()
      ensures advanced <==> old(View()).HasNext()
      ensures advanced ==> cur == entries[old(index) + 1]
    {
      if !active || index < 0 || index + 1 >= |entries| { return false, Entry(0, 0, 1.0); }
      index := index + 1;
      armedCurrent := false;
      return true, entries[index];
    }
  }
}
