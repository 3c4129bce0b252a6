// Which source each view shows, uimanager.cpp:918-957 and 1043-1090.
module SlotMap {

  const EMPTY := -1

  // The first slot that holds x, the number of slots when none does.
  function FirstSlotOf(slots: seq<int>, x: int): (v: nat)
    ensures v <= |slots| && (v < |slots| ==> slots[v] == x)
    ensures forall u :: 0 <= u < v ==> slots[u] != x
    decreases |slots|
  {
    if slots == [] then 0
    else
      var v := FirstSlotOf(slots[..|slots| - 1], x);
      if v < |slots| - 1 || slots[|slots| - 1] == x then v else |slots|
  }

  function FirstEmpty(slots: seq<int>): (e: nat)
    ensures e <= |slots| && (e < |slots| ==> slots[e] == EMPTY)
    ensures forall v :: 0 <= v < e ==> slots[v] != EMPTY
  {
    FirstSlotOf(slots, EMPTY)
  }

  // A source that is enabled and shown nowhere.
  predicate Free(slots: seq<int>, enabled: seq<bool>, s: int) {
    0 <= s < |enabled| && enabled[s] && s !in slots
  }

  // The first free one from s on among the first n sources, n when there is none.
  function FirstFree(slots: seq<int>, enabled: seq<bool>, n: nat, s: nat): (f: nat)
    requires s <= n <= |enabled|
    ensures s <= f <= n && (f < n ==> Free(slots, enabled, f))
    ensures forall k :: s <= k < f ==> !Free(slots, enabled, k)
    decreases n - s
  {
    if s == n || Free(slots, enabled, s) then s else FirstFree(slots, enabled, n, s + 1)
  }

  /** The free sources in order put into the empty slots in order, until one of the two runs out. */
  function Settled(slots: seq<int>, enabled: seq<bool>, n: nat): (r: seq<int>)
    requires n <= |enabled|
    ensures |r| == |slots|
    decreases |slots| - FirstEmpty(slots)
  {
    var e, f := FirstEmpty(slots), FirstFree(slots, enabled, n, 0);
    if e < |slots| && f < n then Settled(slots[e := f], enabled, n) else slots
  }

  // The first pass of a rebuild: sources that are still there and enabled keep their slots.
  function Kept(slots: seq<int>, enabled: seq<bool>, n: nat, views: nat): (r: seq<int>)
    requires n <= |enabled|
    ensures |r| == views
  {
    seq(views, v requires 0 <= v < views =>
      if v < |slots| && 0 <= slots[v] < n && enabled[slots[v]] then slots[v] else EMPTY)
  }

  function Rebuilt(slots: seq<int>, enabled: seq<bool>, n: nat, views: nat): (r: seq<int>)
    requires n <= |enabled|
    ensures |r| == views
  {
    Settled(Kept(slots, enabled, n, views), enabled, n)
  }

  function Replaced(slots: seq<int>, from: int, to: int): (r: seq<int>)
    ensures |r| == |slots|
  {
    var v := FirstSlotOf(slots, from);
    if v < |slots| then slots[v := to] else slots
  }

  // The slots after source i has been switched; enabled is what it was before.
  function Toggled(slots: seq<int>, enabled: seq<bool>, n: nat, i: nat): (r: seq<int>)
    requires n <= |enabled| && i < |enabled|
    ensures |r| == |slots|
  {
    if enabled[i] then Settled(Replaced(slots, i, EMPTY), enabled[i := false], n)
    else Replaced(slots, EMPTY, i)
  }

  // ---------------------------------------------------------------- properties

  predicate Injective(slots: seq<int>) {
    forall u, v :: 0 <= u < v < |slots| && slots[u] == slots[v] ==> slots[u] == EMPTY
  }

  predicate OnlyEnabled(slots: seq<int>, enabled: seq<bool>, n: nat) {
    n <= |enabled| && forall v :: 0 <= v < |slots| && slots[v] != EMPTY ==> 0 <= slots[v] < n && enabled[slots[v]]
  }

  // A slot is empty only if every enabled source is shown.
  predicate NoneWaits(slots: seq<int>, enabled: seq<bool>, n: nat) {
    EMPTY in slots ==> forall s :: 0 <= s < n ==> !Free(slots, enabled, s)
  }

  predicate Good(slots: seq<int>, enabled: seq<bool>, n: nat) {
    Injective(slots) && OnlyEnabled(slots, enabled, n) && NoneWaits(slots, enabled, n)
  }

  // What one slot map shows, another shows in the same place.
  predicate Keeps(slots: seq<int>, r: seq<int>) {
    |r| == |slots| && forall v :: 0 <= v < |slots| && slots[v] != EMPTY ==> r[v] == slots[v]
  }

  lemma {:induction false} SettledIsGood(slots: seq<int>, enabled: seq<bool>, n: nat)
    requires Injective(slots) && OnlyEnabled(slots, enabled, n)
    ensures var r := Settled(slots, enabled, n); Good(r, enabled, n) && Keeps(slots, r)
    decreases |slots| - FirstEmpty(slots)
  {
    var e, f := FirstEmpty(slots), FirstFree(slots, enabled, n, 0);
    if e < |slots| && f < n {
      SettledIsGood(slots[e := f], enabled, n);
    }
  }

  /** A source still waiting comes after every source put in. */
  lemma {:induction false} SettledTakesTheLowest(slots: seq<int>, enabled: seq<bool>, n: nat, u: nat, s: int)
    requires n <= |enabled| && u < |slots| && slots[u] == EMPTY
    requires var r := Settled(slots, enabled, n); r[u] != EMPTY && s < n && Free(r, enabled, s)
    ensures Settled(slots, enabled, n)[u] < s
    decreases |slots| - FirstEmpty(slots)
  {
    var e, f := FirstEmpty(slots), FirstFree(slots, enabled, n, 0);
    var next := slots[e := f];
    SettledKeeps(next, enabled, n);
    if u == e {
      assert next[e] == f && f in Settled(slots, enabled, n);
      ShownStaysShown(slots, e, f, s);
      KeptIsShown(next, Settled(slots, enabled, n), s);
      assert Free(slots, enabled, s);
    } else {
      SettledTakesTheLowest(next, enabled, n, u, s);
    }
  }

  /** The sources put in appear in order, and fill the empty slots from the first. */
  lemma {:induction false} SettledIsInOrder(slots: seq<int>, enabled: seq<bool>, n: nat, u: nat, v: nat)
    requires n <= |enabled| && u < v < |slots| && slots[u] == EMPTY && slots[v] == EMPTY
    requires Settled(slots, enabled, n)[v] != EMPTY
    ensures EMPTY < Settled(slots, enabled, n)[u] < Settled(slots, enabled, n)[v]
    decreases |slots| - FirstEmpty(slots)
  {
    var e, f := FirstEmpty(slots), FirstFree(slots, enabled, n, 0);
    var next := slots[e := f];
    SettledKeeps(next, enabled, n);
    if u == e {
      SettledPlacesFree(next, enabled, n, v);
      ShownStaysShown(slots, e, f, Settled(slots, enabled, n)[v]);
      assert Free(slots, enabled, Settled(slots, enabled, n)[v]);
    } else {
      SettledIsInOrder(next, enabled, n, u, v);
    }
  }

  lemma KeptIsShown(slots: seq<int>, r: seq<int>, s: int)
    requires Keeps(slots, r) && s >= 0
    ensures s in slots ==> s in r
  {
  }

  // What is put into a slot was free.
  lemma {:induction false} SettledPlacesFree(slots: seq<int>, enabled: seq<bool>, n: nat, v: nat)
    requires n <= |enabled| && v < |slots| && slots[v] == EMPTY && Settled(slots, enabled, n)[v] != EMPTY
    ensures Free(slots, enabled, Settled(slots, enabled, n)[v]) && Settled(slots, enabled, n)[v] < n
    decreases |slots| - FirstEmpty(slots)
  {
    var e, f := FirstEmpty(slots), FirstFree(slots, enabled, n, 0);
    var next := slots[e := f];
    if v == e {
      SettledKeeps(next, enabled, n);
    } else {
      SettledPlacesFree(next, enabled, n, v);
      ShownStaysShown(slots, e, f, Settled(slots, enabled, n)[v]);
    }
  }

  lemma {:induction false} SettledKeeps(slots: seq<int>, enabled: seq<bool>, n: nat)
    requires n <= |enabled|
    ensures Keeps(slots, Settled(slots, enabled, n))
    decreases |slots| - FirstEmpty(slots)
  {
    var e, f := FirstEmpty(slots), FirstFree(slots, enabled, n, 0);
    if e < |slots| && f < n {
      SettledKeeps(slots[e := f], enabled, n);
    }
  }

  /** A rebuild gives a good map, and moves no source that is still shown. */
  lemma RebuildIsGood(slots: seq<int>, enabled: seq<bool>, n: nat, views: nat)
    requires Injective(slots) && n <= |enabled|
    ensures var r := Rebuilt(slots, enabled, n, views);
            && Good(r, enabled, n)
            && forall v :: 0 <= v < views && v < |slots| && 0 <= slots[v] < n && enabled[slots[v]] ==> r[v] == slots[v]
  {
    SettledIsGood(Kept(slots, enabled, n, views), enabled, n);
  }

  /** A rebuild of a good map changes nothing while sources and views stay the same. */
  lemma RebuildIsStable(slots: seq<int>, enabled: seq<bool>, n: nat)
    requires Good(slots, enabled, n)
    ensures Rebuilt(slots, enabled, n, |slots|) == slots
  {
    assert Kept(slots, enabled, n, |slots|) == slots;
  }

  lemma SwitchOffIsGood(slots: seq<int>, enabled: seq<bool>, n: nat, i: nat)
    requires Good(slots, enabled, n) && i < |enabled| && enabled[i]
    ensures var r := Toggled(slots, enabled, n, i);
            && Good(r, enabled[i := false], n)
            && forall v :: 0 <= v < |slots| && slots[v] != EMPTY && slots[v] != i ==> r[v] == slots[v]
  {
    var cleared := Replaced(slots, i, EMPTY);
    var v := FirstSlotOf(slots, i);
    forall u | 0 <= u < |cleared| && cleared[u] != EMPTY
      ensures 0 <= cleared[u] < n && enabled[i := false][cleared[u]]
    {
      assert u != v && slots[u] == cleared[u];
      if v < |slots| {
        assert slots[v] == i;
      }
    }
    SettledIsGood(cleared, enabled[i := false], n);
  }

  lemma SwitchOnIsGood(slots: seq<int>, enabled: seq<bool>, n: nat, i: nat)
    requires Good(slots, enabled, n) && i < n && !enabled[i]
    ensures var r := Toggled(slots, enabled, n, i);
            Good(r, enabled[i := true], n) && Keeps(slots, r)
  {
    var v := FirstSlotOf(slots, EMPTY);
    var r := Toggled(slots, enabled, n, i);
    assert i !in slots;
    if v < |slots| {
      NoneWaitsAfter(slots, enabled, n, i, v);
    }
  }

  lemma NoneWaitsAfter(slots: seq<int>, enabled: seq<bool>, n: nat, i: nat, v: nat)
    requires Good(slots, enabled, n) && i < n && v < |slots| && slots[v] == EMPTY
    ensures NoneWaits(slots[v := i], enabled[i := true], n)
  {
    var r, after := slots[v := i], enabled[i := true];
    forall k | 0 <= k < n ensures !Free(r, after, k) {
      assert EMPTY in slots && !Free(slots, enabled, k);
      ShownStaysShown(slots, v, i, k);
    }
  }

  lemma ShownStaysShown(slots: seq<int>, v: nat, i: nat, s: int)
    requires v < |slots| && slots[v] == EMPTY
    ensures i in slots[v := i] && (s in slots && s >= 0 ==> s in slots[v := i])
  {
    assert slots[v := i][v] == i;
    if s in slots && s >= 0 {
      var u :| 0 <= u < |slots| && slots[u] == s;
      assert slots[v := i][u] == s;
    }
  }

  // What a switch leaves where it is: every source shown, but the one that is switched off.
  predicate OthersStay(slots: seq<int>, r: seq<int>, i: int) {
    |r| == |slots| && forall v :: 0 <= v < |slots| && slots[v] != EMPTY && slots[v] != i ==> r[v] == slots[v]
  }

  /** A switch keeps the map good, except exactly when the index is one of no source, is switched on and
      there is an empty slot for it to go to. */
  lemma ToggleIsGoodIff(slots: seq<int>, enabled: seq<bool>, n: nat, i: nat)
    requires Good(slots, enabled, n) && i < |enabled|
    ensures var r := Toggled(slots, enabled, n, i);
            && OthersStay(slots, r, i)
            && (Good(r, enabled[i := !enabled[i]], n) <==> !(i >= n && !enabled[i] && EMPTY in slots))
  {
    var r := Toggled(slots, enabled, n, i);
    if enabled[i] {
      SwitchOffIsGood(slots, enabled, n, i);
    } else if i < n {
      SwitchOnIsGood(slots, enabled, n, i);
    } else if EMPTY in slots {
      assert r[FirstSlotOf(slots, EMPTY)] == i;
    } else {
      assert r == slots;
    }
  }

  // The operator's switches and the rebuilds that a change of the view count brings.
  datatype Op = Rebuild(views: nat) | Toggle(i: int)
  datatype Slots = Slots(shown: seq<int>, enabled: seq<bool>)

  function DoOp(s: Slots, n: nat, op: Op): (r: Slots)
    requires n <= |s.enabled|
    ensures |r.enabled| == |s.enabled|
  {
    match op
    case Rebuild(views) => s.(shown := Rebuilt(s.shown, s.enabled, n, views))
    case Toggle(i) =>
      if 0 <= i < |s.enabled| then Slots(Toggled(s.shown, s.enabled, n, i), s.enabled[i := !s.enabled[i]]) else s
  }

  function Run(s: Slots, n: nat, ops: seq<Op>): Slots
    requires n <= |s.enabled|
    decreases |ops|
  {
    if ops == [] then s else Run(DoOp(s, n, ops[0]), n, ops[1..])
  }

  /** Every run of switches and rebuilds over the existing sources shows each source at most once, none that
      is disabled, and leaves no slot empty while an enabled source waits. */
  lemma {:induction false} EveryRunIsGood(s: Slots, n: nat, ops: seq<Op>)
    requires Good(s.shown, s.enabled, n)
    requires forall k :: 0 <= k < |ops| && ops[k].Toggle? ==> ops[k].i < n
    ensures var r := Run(s, n, ops); Good(r.shown, r.enabled, n)
    decreases |ops|
  {
    if ops != [] {
      match ops[0] {
        case Rebuild(views) => RebuildIsGood(s.shown, s.enabled, n, views);
        case Toggle(i) => if 0 <= i < |s.enabled| { ToggleIsGoodIff(s.shown, s.enabled, n, i); }
      }
      EveryRunIsGood(DoOp(s, n, ops[0]), n, ops[1..]);
    }
  }

  // ----------------------------------------------------------------- the object

  // The set a rebuild keeps of the sources it has given a slot.
  ghost predicate Assigned(sources: set<int>, slots: seq<int>) {
    forall k :: k >= 0 ==> (k in sources <==> k in slots)
  }

  lemma AssignedPlaced(sources: set<int>, slots: seq<int>, v: nat, s: nat)
    requires Assigned(sources, slots) && v < |slots| && slots[v] == EMPTY
    ensures Assigned(sources + {s}, slots[v := s])
  {
    forall k | k >= 0 ensures k in sources + {s} <==> k in slots[v := s] {
      ShownStaysShown(slots, v, s, k);
    }
  }

  // Once the first free source has its slot, the next free one comes after it.
  lemma StillNotFree(slots: seq<int>, enabled: seq<bool>, n: nat, v: nat, s: nat)
    requires n <= |enabled| && v < |slots| && slots[v] == EMPTY && s < n && s == FirstFree(slots, enabled, n, 0)
    ensures s + 1 <= FirstFree(slots[v := s], enabled, n, 0)
  {
    var r := slots[v := s];
    forall k | 0 <= k <= s ensures !Free(r, enabled, k) {
      assert k < s ==> !Free(slots, enabled, k);
      ShownStaysShown(slots, v, s, k);
    }
  }

  class UIManager {
    var sourceCount: nat
    var viewCount: nat
    var sourceEnabled: seq<bool>
    var viewSlotMap: seq<int>

    constructor (sourceCount: nat, viewCount: nat)
      ensures this.sourceCount == sourceCount && this.viewCount == viewCount
      ensures sourceEnabled == [] && viewSlotMap == []
    {
      this.sourceCount, this.viewCount := sourceCount, viewCount;
      sourceEnabled, viewSlotMap := [], [];
    }

    // The flags with those missing added as enabled.
    static function Extended(enabled: seq<bool>, n: nat): (r: seq<bool>)
      ensures |r| == (if |enabled| >= n then |enabled| else n)
      ensures enabled <= r && forall s :: |enabled| <= s < |r| ==> r[s]
    {
      if |enabled| >= n then enabled else enabled + seq(n - |enabled|, _ => true)
    }

    method EnsureSourceEnabledSize()
      modifies this`sourceEnabled
      ensures sourceEnabled == Extended(old(sourceEnabled), sourceCount)
      ensures old(sourceEnabled) <= sourceEnabled
      ensures forall s :: |old(sourceEnabled)| <= s < |sourceEnabled| ==> sourceEnabled[s]
    {
      while |sourceEnabled| < sourceCount
        invariant Extended(sourceEnabled, sourceCount) == Extended(old(sourceEnabled), sourceCount)
        invariant |sourceEnabled| <= sourceCount || sourceEnabled == old(sourceEnabled)
      {
        sourceEnabled := sourceEnabled + [true];
      }
    }

    method RebuildSlotMap()
      modifies this`sourceEnabled, this`viewSlotMap
      ensures sourceEnabled == Extended(old(sourceEnabled), sourceCount)
      ensures viewSlotMap == Rebuilt(old(viewSlotMap), sourceEnabled, sourceCount, viewCount)
    {
      EnsureSourceEnabledSize();
      var newMap, assignedSources := KeepAssigned();
      viewSlotMap := FillEmpty(newMap, assignedSources);
    }

    method KeepAssigned() returns (newMap: seq<int>, assignedSources: set<int>)
      requires sourceCount <= |sourceEnabled|
      ensures newMap == Kept(viewSlotMap, sourceEnabled, sourceCount, viewCount)
      ensures Assigned(assignedSources, newMap)
    {
      newMap, assignedSources := seq(viewCount, _ => EMPTY), {};
      ghost var kept := Kept(viewSlotMap, sourceEnabled, sourceCount, viewCount);
      var bound := if viewCount < |viewSlotMap| then viewCount else |viewSlotMap|;
      var v := 0;
      while v < bound
        invariant 0 <= v <= bound && |newMap| == viewCount
        invariant forall u :: 0 <= u < viewCount ==> newMap[u] == if u < v then kept[u] else EMPTY
        invariant Assigned(assignedSources, newMap)
      {
        var src := viewSlotMap[v];
        if 0 <= src < sourceCount && sourceEnabled[src] {
          AssignedPlaced(assignedSources, newMap, v, src);
          newMap := newMap[v := src];
          assignedSources := assignedSources + {src};
        }
        v := v + 1;
      }
    }

    // The second pass of a rebuild.
    method FillEmpty(kept: seq<int>, keptSources: set<int>) returns (newMap: seq<int>)
      requires sourceCount <= |sourceEnabled| && |kept| == viewCount && Assigned(keptSources, kept)
      ensures newMap == Settled(kept, sourceEnabled, sourceCount)
    {
      newMap := kept;
      var assignedSources := keptSources;
      var nextFreeSlot := 0;
      var s := 0;
      while s < sourceCount
        invariant 0 <= s <= sourceCount && 0 <= nextFreeSlot <= |newMap| == viewCount
        invariant Assigned(assignedSources, newMap)
        invariant nextFreeSlot <= FirstEmpty(newMap) && s <= FirstFree(newMap, sourceEnabled, sourceCount, 0)
        invariant Settled(newMap, sourceEnabled, sourceCount) == Settled(kept, sourceEnabled, sourceCount)
      {
        if !sourceEnabled[s] || s in assignedSources {
          assert !Free(newMap, sourceEnabled, s);
          s := s + 1;
          continue;
        }
        assert Free(newMap, sourceEnabled, s);
        nextFreeSlot := NextEmpty(newMap, nextFreeSlot);
        if nextFreeSlot >= viewCount { break; }
        AssignedPlaced(assignedSources, newMap, nextFreeSlot, s);
        StillNotFree(newMap, sourceEnabled, sourceCount, nextFreeSlot, s);
        newMap := newMap[nextFreeSlot := s];
        assignedSources := assignedSources + {s};
        nextFreeSlot := nextFreeSlot + 1;
        s := s + 1;
      }
    }

    method NextEmpty(newMap: seq<int>, from: nat) returns (nextFreeSlot: nat)
      requires from <= FirstEmpty(newMap)
      ensures nextFreeSlot == FirstEmpty(newMap)
    {
      nextFreeSlot := from;
      while nextFreeSlot < |newMap| && newMap[nextFreeSlot] != EMPTY
        invariant nextFreeSlot <= FirstEmpty(newMap)
      {
        nextFreeSlot := nextFreeSlot + 1;
      }
    }

    method ToggleSourceEnabled(sourceIndex: int)
      modifies this`sourceEnabled, this`viewSlotMap
      ensures var was := Extended(old(sourceEnabled), sourceCount);
              if 0 <= sourceIndex < |was| then
                && sourceEnabled == was[sourceIndex := !was[sourceIndex]]
                && viewSlotMap == Toggled(old(viewSlotMap), was, sourceCount, sourceIndex)
              else sourceEnabled == was && viewSlotMap == old(viewSlotMap)
    {
      EnsureSourceEnabledSize();
      if sourceIndex < 0 || sourceIndex >= |sourceEnabled| { return; }
      var enabling := !sourceEnabled[sourceIndex];
      sourceEnabled := sourceEnabled[sourceIndex := enabling];
      if !enabling {
        ReplaceFirst(sourceIndex, EMPTY);
        AutoFill();
      } else {
        ReplaceFirst(EMPTY, sourceIndex);
      }
    }

    // The loops that look for one slot and overwrite it.
    method ReplaceFirst(from: int, to: int)
      modifies this`viewSlotMap
      ensures viewSlotMap == Replaced(old(viewSlotMap), from, to)
    {
      var v := 0;
      while v < |viewSlotMap|
        invariant 0 <= v <= |viewSlotMap| && viewSlotMap == old(viewSlotMap)
        invariant forall u :: 0 <= u < v ==> viewSlotMap[u] != from
      {
        if viewSlotMap[v] == from {
          viewSlotMap := viewSlotMap[v := to];
          return;
        }
        v := v + 1;
      }
    }

    // Free sources into the slots that are empty, slot by slot.
    method AutoFill()
      requires sourceCount <= |sourceEnabled|
      modifies this`viewSlotMap
      ensures viewSlotMap == Settled(old(viewSlotMap), sourceEnabled, sourceCount)
    {
      ghost var goal := Settled(viewSlotMap, sourceEnabled, sourceCount);
      ghost var stuck := false;
      var v := 0;
      while v < |viewSlotMap|
        invariant 0 <= v <= |viewSlotMap| && sourceCount <= |sourceEnabled|
        invariant Settled(viewSlotMap, sourceEnabled, sourceCount) == goal
        invariant !stuck ==> forall u :: 0 <= u < v ==> viewSlotMap[u] != EMPTY
        invariant stuck ==> FirstFree(viewSlotMap, sourceEnabled, sourceCount, 0) == sourceCount
      {
        if viewSlotMap[v] != EMPTY {
          v := v + 1;
          continue;
        }
        var s := FindFree();
        if s < sourceCount {
          assert FirstEmpty(viewSlotMap) == v;
          viewSlotMap := viewSlotMap[v := s];
        } else {
          stuck := true;
        }
        v := v + 1;
      }
    }

    // The two inner loops of the fill.
    method FindFree() returns (s: nat)
      requires sourceCount <= |sourceEnabled|
      ensures s == FirstFree(viewSlotMap, sourceEnabled, sourceCount, 0)
    {
      s := 0;
      while s < sourceCount
        invariant 0 <= s <= sourceCount
        invariant forall k :: 0 <= k < s ==> !Free(viewSlotMap, sourceEnabled, k)
      {
        if sourceEnabled[s] {
          var inUse := false;
          var vv := 0;
          while vv < |viewSlotMap|
            invariant 0 <= vv <= |viewSlotMap|
            invariant inUse ==> s in viewSlotMap
            invariant !inUse ==> forall u :: 0 <= u < vv ==> viewSlotMap[u] != s
          {
            if viewSlotMap[vv] == s {
              inUse := true;
              break;
            }
            vv := vv + 1;
          }
          if !inUse {
            assert Free(viewSlotMap, sourceEnabled, s);
            return;
          }
        }
        s := s + 1;
      }
    }
  }
}
