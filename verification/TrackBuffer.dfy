// The decoded-frame window of one track, playback/trackbuffer.cpp: a sorted vector that stands for an
// ordered map from PTS to picture, with capped eviction.
module TrackBuffer {

  // A decoded picture; only its identity matters here.
  datatype Handle = Picture(id: int)
  datatype Frame = Frame(ptsMs: int, handle: Handle)

  ghost predicate Sorted(s: seq<Frame>) {
    forall i, j :: 0 <= i < j < |s| ==> s[i].ptsMs < s[j].ptsMs
  }

  predicate HasPts(s: seq<Frame>, k: int) {
    exists i :: 0 <= i < |s| && s[i].ptsMs == k
  }

  /** A sorted vector stands for an ordered map: every frame is a binding, and every key has its frame. */
  ghost predicate Represents(s: seq<Frame>, m: map<int, Handle>) {
    && Sorted(s)
    && (forall i :: 0 <= i < |s| ==> s[i].ptsMs in m && m[s[i].ptsMs] == s[i].handle)
    && (forall k :: k in m ==> HasPts(s, k))
  }

  function Distance(pts: int, near: int): nat {
    if pts >= near then pts - near else near - pts
  }

  // The live fill edge.
  predicate Protected(f: Frame, keepNear: int, protectTo: int) {
    keepNear <= f.ptsMs <= protectTo
  }

  predicate AllProtected(s: seq<Frame>, keepNear: int, protectTo: int) {
    forall i :: 0 <= i < |s| ==> Protected(s[i], keepNear, protectTo)
  }

  // A frame the cap may take: an unprotected one, or any when all are protected.
  predicate Candidate(s: seq<Frame>, i: nat, keepNear: int, protectTo: int)
    requires i < |s|
  {
    !Protected(s[i], keepNear, protectTo) || AllProtected(s, keepNear, protectTo)
  }

  /** The first of the candidates farthest from the kept position. */
  ghost predicate IsVictim(s: seq<Frame>, v: int, keepNear: int, protectTo: int) {
    && 0 <= v < |s|
    && Candidate(s, v, keepNear, protectTo)
    && (forall i :: 0 <= i < |s| && Candidate(s, i, keepNear, protectTo) ==>
          Distance(s[i].ptsMs, keepNear) <= Distance(s[v].ptsMs, keepNear))
    && (forall i :: 0 <= i < v && Candidate(s, i, keepNear, protectTo) ==>
          Distance(s[i].ptsMs, keepNear) < Distance(s[v].ptsMs, keepNear))
  }

  function ProtectedCount(s: seq<Frame>, keepNear: int, protectTo: int): nat {
    if s == [] then 0
    else (if Protected(s[0], keepNear, protectTo) then 1 else 0) + ProtectedCount(s[1..], keepNear, protectTo)
  }

  lemma {:induction false} AllProtectedCount(s: seq<Frame>, keepNear: int, protectTo: int)
    ensures ProtectedCount(s, keepNear, protectTo) <= |s|
    ensures ProtectedCount(s, keepNear, protectTo) == |s| <==> AllProtected(s, keepNear, protectTo)
  {
    if s != [] {
      AllProtectedCount(s[1..], keepNear, protectTo);
      assert forall i :: 1 <= i < |s| ==> s[i] == s[1..][i - 1];
      assert AllProtected(s, keepNear, protectTo) <==>
             Protected(s[0], keepNear, protectTo) && AllProtected(s[1..], keepNear, protectTo);
    }
  }

  /** The header says a protected frame is never taken for the cap. It is taken exactly when every frame
      is protected, which cannot be while at most cap frames lie in the protected range. */
  lemma ProtectedVictimIff(s: seq<Frame>, v: int, cap: nat, keepNear: int, protectTo: int)
    requires IsVictim(s, v, keepNear, protectTo) && |s| > cap
    ensures Protected(s[v], keepNear, protectTo) <==> ProtectedCount(s, keepNear, protectTo) == |s|
    ensures ProtectedCount(s, keepNear, protectTo) <= cap ==> !Protected(s[v], keepNear, protectTo)
  {
    AllProtectedCount(s, keepNear, protectTo);
  }

  lemma VictimIsUnique(s: seq<Frame>, v: int, w: int, keepNear: int, protectTo: int)
    requires IsVictim(s, v, keepNear, protectTo) && IsVictim(s, w, keepNear, protectTo)
    ensures v == w
  {
  }

  lemma IndexOf(s: seq<Frame>, m: map<int, Handle>, k: int) returns (i: int)
    requires Represents(s, m) && k in m
    ensures 0 <= i < |s| && s[i] == Frame(k, m[k])
  {
    assert HasPts(s, k);
    i :| 0 <= i < |s| && s[i].ptsMs == k;
  }

  /** The map determines the vector: equal contents mean equal vectors. */
  lemma {:induction false} MapDeterminesVector(s: seq<Frame>, t: seq<Frame>, m: map<int, Handle>)
    requires Represents(s, m) && Represents(t, m)
    ensures s == t
    decreases |s|
  {
    SizeOfMap(s, m);
    SizeOfMap(t, m);
    if s != [] {
      var i := IndexOf(t, m, s[0].ptsMs);
      var j := IndexOf(s, m, t[0].ptsMs);
      assert s[0] == t[0];
      RestRepresents(s, m);
      RestRepresents(t, m);
      MapDeterminesVector(s[1..], t[1..], m - {s[0].ptsMs});
      assert s == [s[0]] + s[1..] && t == [t[0]] + t[1..];
    }
  }

  lemma {:induction false} SizeOfMap(s: seq<Frame>, m: map<int, Handle>)
    requires Represents(s, m)
    ensures |s| == |m|
    decreases |s|
  {
    if s == [] {
      assert forall k :: k !in m;
      assert m == map[];
    } else {
      RestRepresents(s, m);
      SizeOfMap(s[1..], m - {s[0].ptsMs});
      assert m.Keys == (m - {s[0].ptsMs}).Keys + {s[0].ptsMs};
    }
  }

  lemma RestRepresents(s: seq<Frame>, m: map<int, Handle>)
    requires Represents(s, m) && s != []
    ensures Represents(s[1..], m - {s[0].ptsMs})
  {
  }

  // What insert does before the cap: replace an equal PTS, or place the frame in order.
  ghost predicate Placed(old_: seq<Frame>, f: Frame, lo: int, placed: seq<Frame>) {
    && 0 <= lo <= |old_|
    && (forall i :: 0 <= i < lo ==> old_[i].ptsMs < f.ptsMs)
    && (forall i :: lo <= i < |old_| ==> f.ptsMs < old_[i].ptsMs)
    && placed == old_[..lo] + [f] + old_[lo..]
  }

  lemma PlacedIsSorted(s: seq<Frame>, f: Frame, lo: int, placed: seq<Frame>)
    requires Sorted(s) && Placed(s, f, lo, placed)
    ensures Sorted(placed) && placed[lo] == f
    ensures forall i :: 0 <= i < |placed| ==> placed[i] == if i < lo then s[i] else if i == lo then f else s[i - 1]
    ensures multiset(placed) == multiset(s) + multiset{f}
  {
    assert s == s[..lo] + s[lo..];
  }

  lemma PlacedRepresents(s: seq<Frame>, m: map<int, Handle>, f: Frame, lo: int, placed: seq<Frame>)
    requires Represents(s, m) && Placed(s, f, lo, placed)
    ensures f.ptsMs !in m && Represents(placed, m[f.ptsMs := f.handle])
  {
    PlacedIsSorted(s, f, lo, placed);
    if f.ptsMs in m { var i := IndexOf(s, m, f.ptsMs); }
    forall k | k in m[f.ptsMs := f.handle] ensures HasPts(placed, k) {
      if k == f.ptsMs {
        assert placed[lo].ptsMs == k;
      } else {
        var i := IndexOf(s, m, k);
        assert placed[if i < lo then i else i + 1].ptsMs == k;
      }
    }
  }

  lemma RemovalIsSorted(s: seq<Frame>, v: int, t: seq<Frame>)
    requires Sorted(s) && 0 <= v < |s| && t == s[..v] + s[v + 1..]
    ensures Sorted(t)
    ensures forall i :: 0 <= i < |t| ==> t[i] == s[if i < v then i else i + 1]
  {
  }

  lemma RemovalMultiset(s: seq<Frame>, v: int, t: seq<Frame>)
    requires 0 <= v < |s| && t == s[..v] + s[v + 1..]
    ensures multiset(t) + multiset{s[v]} == multiset(s)
  {
    assert s == s[..v] + [s[v]] + s[v + 1..];
  }

  lemma RemovalRepresents(s: seq<Frame>, m: map<int, Handle>, v: int, t: seq<Frame>)
    requires Represents(s, m) && 0 <= v < |s| && t == s[..v] + s[v + 1..]
    ensures Represents(t, m - {s[v].ptsMs})
  {
    RemovalIsSorted(s, v, t);
    forall k | k in m - {s[v].ptsMs} ensures HasPts(t, k) {
      var i := IndexOf(s, m, k);
      assert t[if i < v then i else i - 1].ptsMs == k;
    }
  }

  lemma ReplacedMultiset(s: seq<Frame>, lo: int, f: Frame)
    requires 0 <= lo < |s|
    ensures multiset(s[lo := f]) + multiset{s[lo]} == multiset(s) + multiset{f}
  {
  }

  lemma ReplacedRepresents(s: seq<Frame>, m: map<int, Handle>, lo: int, handle: Handle)
    requires Represents(s, m) && 0 <= lo < |s|
    ensures Represents(s[lo := Frame(s[lo].ptsMs, handle)], m[s[lo].ptsMs := handle])
  {
    var t := s[lo := Frame(s[lo].ptsMs, handle)];
    assert forall i :: 0 <= i < |s| ==> t[i].ptsMs == s[i].ptsMs;
    forall k | k in m ensures HasPts(t, k) {
      var i := IndexOf(s, m, k);
      assert t[i].ptsMs == k;
    }
  }

  lemma KeptIffNotVictim(placed: seq<Frame>, lo: int, v: int, t: seq<Frame>)
    requires Sorted(placed) && 0 <= lo < |placed| && 0 <= v < |placed|
    requires t == placed[..v] + placed[v + 1..]
    ensures placed[lo] in t <==> v != lo
  {
  }

  ghost function Within(m: map<int, Handle>, from: int, to: int): map<int, Handle> {
    map k | k in m && from <= k <= to :: m[k]
  }

  ghost function AtLeast(m: map<int, Handle>, from: int): map<int, Handle> {
    map k | k in m && from <= k :: m[k]
  }

  ghost function AtMost(m: map<int, Handle>, to: int): map<int, Handle> {
    map k | k in m && k <= to :: m[k]
  }

  lemma BothBoundsAreWithin(m: map<int, Handle>, from: int, to: int)
    ensures AtMost(AtLeast(m, from), to) == Within(m, from, to)
  {
  }

  lemma DroppingFrontIsFilter(s: seq<Frame>, m: map<int, Handle>, from: int, keepFrom: int)
    requires Represents(s, m) && 0 <= from <= |s|
    requires forall i :: 0 <= i < from ==> s[i].ptsMs < keepFrom
    requires from < |s| ==> keepFrom <= s[from].ptsMs
    ensures Represents(s[from..], AtLeast(m, keepFrom))
  {
    var t := s[from..];
    forall i | from < i < |s| ensures keepFrom <= s[i].ptsMs {
      assert s[from].ptsMs < s[i].ptsMs;
    }
    forall k | k in AtLeast(m, keepFrom) ensures HasPts(t, k) {
      var i := IndexOf(s, m, k);
      assert t[i - from].ptsMs == k;
    }
  }

  lemma DroppingBackIsFilter(s: seq<Frame>, m: map<int, Handle>, to: int, keepTo: int)
    requires Represents(s, m) && 0 <= to <= |s|
    requires forall i :: to <= i < |s| ==> s[i].ptsMs > keepTo
    requires to > 0 ==> s[to - 1].ptsMs <= keepTo
    ensures Represents(s[..to], AtMost(m, keepTo))
  {
    var t := s[..to];
    forall i | 0 <= i < |t| ensures t[i] == s[i] && t[i].ptsMs <= keepTo {
      assert i < to - 1 ==> s[i].ptsMs < s[to - 1].ptsMs;
    }
    forall k | k in AtMost(m, keepTo) ensures HasPts(t, k) {
      var i := IndexOf(s, m, k);
      assert t[i].ptsMs == k;
    }
  }

  // The frames from the last one back to index to, as the back loop hands them over.
  ghost predicate Backwards(evicted: seq<Frame>, s: seq<Frame>, to: int) {
    0 <= to <= |s| && |evicted| == |s| - to && forall i :: 0 <= i < |evicted| ==> evicted[i] == s[|s| - 1 - i]
  }

  lemma {:induction false} BackwardsMultiset(evicted: seq<Frame>, s: seq<Frame>, to: int)
    requires Backwards(evicted, s, to)
    ensures multiset(evicted) == multiset(s[to..])
    decreases |evicted|
  {
    if evicted != [] {
      var n := |evicted| - 1;
      BackwardsMultiset(evicted[..n], s, to + 1);
      assert evicted == evicted[..n] + [s[to]];
      assert s[to..] == [s[to]] + s[to + 1..];
    }
  }

  // And what both have dropped, with what is left, is what there was.
  lemma TrimmedMultiset(s: seq<Frame>, from: int, rest: seq<Frame>, n: int, back: seq<Frame>)
    requires 0 <= from <= |s| && rest == s[from..] && 0 <= n <= |rest|
    requires multiset(back) == multiset(rest[n..])
    ensures multiset(rest[..n]) + multiset(s[..from] + back) == multiset(s)
  {
    assert s == s[..from] + rest;
    assert rest == rest[..n] + rest[n..];
  }

  class Buffer {
    var frames: seq<Frame>
    ghost var contents: map<int, Handle>   // the ordered map the vector stands for

    ghost predicate Valid()
      reads this
    {
      Represents(frames, contents)
    }

    constructor ()
      ensures Valid() && contents == map[]
    {
      frames, contents := [], map[];
    }

    // Binary search: the first index whose PTS is at or after pts.
    method LowerBound(pts: int) returns (lo: int)
      requires Valid()
      ensures 0 <= lo <= |frames|
      ensures forall i :: 0 <= i < lo ==> frames[i].ptsMs < pts
      ensures forall i :: lo <= i < |frames| ==> pts <= frames[i].ptsMs
    {
      lo := 0;
      var hi := |frames|;
      while lo < hi
        invariant 0 <= lo <= hi <= |frames|
        invariant forall i :: 0 <= i < lo ==> frames[i].ptsMs < pts
        invariant forall i :: hi <= i < |frames| ==> pts <= frames[i].ptsMs
      {
        var mid := lo + (hi - lo) / 2;
        if frames[mid].ptsMs < pts { lo := mid + 1; } else { hi := mid; }
      }
    }

    // One pass of the scan for the entry to evict: the first farthest frame, over all frames or only the
    // unprotected ones; -1 when there is none to look at.
    method Farthest(keepNear: int, protectTo: int, unprotectedOnly: bool) returns (victim: int)
      ensures -1 <= victim < |frames| && (!unprotectedOnly && frames != [] ==> victim >= 0)
      ensures victim == -1 ==>
        forall j :: 0 <= j < |frames| ==> unprotectedOnly && Protected(frames[j], keepNear, protectTo)
      ensures victim != -1 && unprotectedOnly ==> !Protected(frames[victim], keepNear, protectTo)
      ensures forall j :: 0 <= j < |frames| && (unprotectedOnly ==> !Protected(frames[j], keepNear, protectTo)) ==>
        && victim != -1
        && Distance(frames[j].ptsMs, keepNear) <= Distance(frames[victim].ptsMs, keepNear)
        && (j < victim ==> Distance(frames[j].ptsMs, keepNear) < Distance(frames[victim].ptsMs, keepNear))
    {
      victim := -1;
      var maxDist: int := -1;
      var i := 0;
      while i < |frames|
        invariant 0 <= i <= |frames| && -1 <= victim < i && (!unprotectedOnly && i > 0 ==> victim >= 0)
        invariant maxDist == if victim == -1 then -1 else Distance(frames[victim].ptsMs, keepNear)
        invariant victim == -1 ==> forall j :: 0 <= j < i ==> unprotectedOnly && Protected(frames[j], keepNear, protectTo)
        invariant victim != -1 && unprotectedOnly ==> !Protected(frames[victim], keepNear, protectTo)
        invariant forall j :: 0 <= j < i && (unprotectedOnly ==> !Protected(frames[j], keepNear, protectTo)) ==>
          Distance(frames[j].ptsMs, keepNear) <= maxDist && (j < victim ==> Distance(frames[j].ptsMs, keepNear) < maxDist)
      {
        if !unprotectedOnly || !Protected(frames[i], keepNear, protectTo) {
          var dist := Distance(frames[i].ptsMs, keepNear);
          if dist > maxDist { maxDist := dist; victim := i; }
        }
        i := i + 1;
      }
    }

    // The second pass runs only when every entry is protected.
    method FindVictim(keepNear: int, protectTo: int) returns (victim: int)
      requires frames != []
      ensures IsVictim(frames, victim, keepNear, protectTo)
    {
      victim := Farthest(keepNear, protectTo, true);
      if victim == -1 {
        victim := Farthest(keepNear, protectTo, false);
      } else {
        assert !AllProtected(frames, keepNear, protectTo);
      }
    }

    // Enforcing the cap after an insert that put f at lo.
    method Evict(lo: int, keepNear: int, protectTo: int) returns (kept: bool, evicted: seq<Frame>)
      requires Valid() && 0 <= lo < |frames|
      modifies this
      ensures Valid() && |frames| == |old(frames)| - 1
      ensures multiset(frames) + multiset(evicted) == multiset(old(frames))
      ensures kept <==> old(frames)[lo] in frames
      ensures exists v ::
                && IsVictim(old(frames), v, keepNear, protectTo)
                && evicted == [old(frames)[v]]
                && contents == old(contents) - {old(frames)[v].ptsMs}
    {
      var v := FindVictim(keepNear, protectTo);
      ghost var before := frames;
      evicted := [frames[v]];
      kept := v != lo;
      frames := frames[..v] + frames[v + 1..];
      RemovalMultiset(before, v, frames);
      RemovalRepresents(before, contents, v, frames);
      KeptIffNotVictim(before, lo, v, frames);
      contents := contents - {before[v].ptsMs};
      assert IsVictim(before, v, keepNear, protectTo);
    }

    /** Insert, then enforce the cap. Nothing is lost or made up: old frames and the new one are exactly
        the buffer and the evicted. The result is false exactly when the new frame is not in the buffer. */
    method Insert(ptsMs: int, handle: Handle, cap: int, keepNear: int, protectTo: int)
      returns (kept: bool, evicted: seq<Frame>)
      requires Valid()
      modifies this
      ensures Valid()
      ensures multiset(frames) + multiset(evicted) == multiset(old(frames)) + multiset{Frame(ptsMs, handle)}
      ensures kept <==> Frame(ptsMs, handle) in frames
      ensures cap > 0 ==> |frames| <= (if |old(frames)| > cap then |old(frames)| else cap)
      ensures ptsMs in old(contents) ==>
                kept && evicted == [Frame(ptsMs, old(contents)[ptsMs])] && contents == old(contents)[ptsMs := handle]
      ensures ptsMs !in old(contents) && (cap <= 0 || |old(frames)| < cap) ==>
                kept && evicted == [] && contents == old(contents)[ptsMs := handle]
      ensures ptsMs !in old(contents) && 0 < cap <= |old(frames)| ==>
                exists lo: int, placed: seq<Frame>, v: int ::
                  && Placed(old(frames), Frame(ptsMs, handle), lo, placed)
                  && IsVictim(placed, v, keepNear, protectTo)
                  && evicted == [placed[v]]
                  && contents == old(contents)[ptsMs := handle] - {placed[v].ptsMs}
    {
      var f := Frame(ptsMs, handle);
      var lo := LowerBound(ptsMs);
      if lo < |frames| && frames[lo].ptsMs == ptsMs {
        evicted := ReplaceAt(lo, handle);
        assert frames[lo] == f;
        return true, evicted;
      }
      PlaceAt(lo, f);
      ghost var placed := frames;
      if cap > 0 && |frames| > cap {
        kept, evicted := Evict(lo, keepNear, protectTo);
        assert Placed(old(frames), f, lo, placed);
      } else {
        kept, evicted := true, [];
        assert frames[lo] == f;
      }
    }

    // An equal PTS: the picture is replaced.
    method ReplaceAt(lo: int, handle: Handle) returns (evicted: seq<Frame>)
      requires Valid() && 0 <= lo < |frames|
      modifies this
      ensures var pts := old(frames)[lo].ptsMs;
              && Valid() && pts in old(contents)
              && frames == old(frames)[lo := Frame(pts, handle)] && contents == old(contents)[pts := handle]
              && evicted == [Frame(pts, old(contents)[pts])]
              && multiset(frames) + multiset(evicted) == multiset(old(frames)) + multiset{Frame(pts, handle)}
    {
      ReplacedMultiset(frames, lo, Frame(frames[lo].ptsMs, handle));
      ReplacedRepresents(frames, contents, lo, handle);
      evicted := [frames[lo]];
      contents := contents[frames[lo].ptsMs := handle];
      frames := frames[lo := Frame(frames[lo].ptsMs, handle)];
    }

    // A new PTS: the frame goes in where it belongs.
    method PlaceAt(lo: int, f: Frame)
      requires Valid() && 0 <= lo <= |frames|
      requires forall i :: 0 <= i < lo ==> frames[i].ptsMs < f.ptsMs
      requires forall i :: lo <= i < |frames| ==> f.ptsMs < frames[i].ptsMs
      modifies this
      ensures Valid() && Placed(old(frames), f, lo, frames) && frames[lo] == f
      ensures f.ptsMs !in old(contents) && contents == old(contents)[f.ptsMs := f.handle]
      ensures multiset(frames) == multiset(old(frames)) + multiset{f}
    {
      ghost var before, m := frames, contents;
      frames, contents := frames[..lo] + [f] + frames[lo..], contents[f.ptsMs := f.handle];
      PlacedIsSorted(before, f, lo, frames);
      PlacedRepresents(before, m, f, lo, frames);
    }

    /** The frame to show: the largest PTS at or below the playhead. */
    method FrameAt(playheadMs: int) returns (found: bool, handle: Handle, ptsMs: int)
      requires Valid()
      ensures found <==> exists k :: k in contents && k <= playheadMs
      ensures found ==> ptsMs in contents && contents[ptsMs] == handle && ptsMs <= playheadMs
      ensures found ==> forall k :: k in contents && k <= playheadMs ==> k <= ptsMs
    {
      handle, ptsMs := Picture(0), 0;
      var lo, hi := 0, |frames|;
      while lo < hi
        invariant 0 <= lo <= hi <= |frames|
        invariant forall i :: 0 <= i < lo ==> frames[i].ptsMs <= playheadMs
        invariant forall i :: hi <= i < |frames| ==> playheadMs < frames[i].ptsMs
      {
        var mid := lo + (hi - lo) / 2;
        if frames[mid].ptsMs <= playheadMs { lo := mid + 1; } else { hi := mid; }
      }
      forall k | k in contents && k <= playheadMs ensures lo > 0 && k <= frames[lo - 1].ptsMs {
        var i := IndexOf(frames, contents, k);
      }
      if lo == 0 { return false, handle, ptsMs; }
      assert frames[lo - 1].ptsMs in contents;
      return true, frames[lo - 1].handle, frames[lo - 1].ptsMs;
    }

    // The front loop of trim.
    method TrimFront(keepFromMs: int) returns (evicted: seq<Frame>, ghost from: int)
      requires Valid()
      modifies this
      ensures Valid() && contents == AtLeast(old(contents), keepFromMs)
      ensures 0 <= from <= |old(frames)| && evicted == old(frames)[..from] && frames == old(frames)[from..]
    {
      evicted, from := [], 0;
      while frames != [] && frames[0].ptsMs < keepFromMs
        invariant 0 <= from <= |old(frames)| && contents == old(contents)
        invariant evicted == old(frames)[..from] && frames == old(frames)[from..]
        invariant forall i :: 0 <= i < from ==> old(frames)[i].ptsMs < keepFromMs
        decreases |frames|
      {
        evicted := evicted + [frames[0]];
        frames := frames[1..];
        from := from + 1;
      }
      DroppingFrontIsFilter(old(frames), contents, from, keepFromMs);
      contents := AtLeast(contents, keepFromMs);
    }

    // The back loop of trim; it hands the frames over from the last one on.
    method TrimBack(keepToMs: int) returns (evicted: seq<Frame>, ghost to: int)
      requires Valid()
      modifies this
      ensures Valid() && contents == AtMost(old(contents), keepToMs)
      ensures 0 <= to <= |old(frames)| && frames == old(frames)[..to]
      ensures multiset(evicted) == multiset(old(frames)[to..])
    {
      evicted, to := DropBack(keepToMs);
      BackwardsMultiset(evicted, old(frames), to);
      DroppingBackIsFilter(old(frames), contents, to, keepToMs);
      contents := AtMost(contents, keepToMs);
    }

    method DropBack(keepToMs: int) returns (evicted: seq<Frame>, ghost to: int)
      modifies this`frames
      ensures Backwards(evicted, old(frames), to) && frames == old(frames)[..to]
      ensures forall i :: to <= i < |old(frames)| ==> old(frames)[i].ptsMs > keepToMs
      ensures to > 0 ==> old(frames)[to - 1].ptsMs <= keepToMs
    {
      evicted, to := [], |frames|;
      ghost var before := frames;
      while frames != [] && frames[|frames| - 1].ptsMs > keepToMs
        invariant Backwards(evicted, before, to) && frames == before[..to]
        invariant forall i :: to <= i < |before| ==> before[i].ptsMs > keepToMs
        decreases |frames|
      {
        evicted := evicted + [frames[|frames| - 1]];
        frames := frames[..|frames| - 1];
        to := to - 1;
      }
    }

    /** Trim is exactly the range filter, and hands over exactly what it drops. */
    method Trim(keepFromMs: int, keepToMs: int) returns (evicted: seq<Frame>)
      requires Valid()
      modifies this
      ensures Valid()
      ensures contents == Within(old(contents), keepFromMs, keepToMs)
      ensures multiset(frames) + multiset(evicted) == multiset(old(frames))
    {
      var front, from := TrimFront(keepFromMs);
      ghost var rest := frames;
      var back, n := TrimBack(keepToMs);
      evicted := front + back;
      TrimmedMultiset(old(frames), from, rest, n, back);
      BothBoundsAreWithin(old(contents), keepFromMs, keepToMs);
    }

    method Clear() returns (evicted: seq<Frame>)
      modifies this
      ensures Valid() && contents == map[] && evicted == old(frames)
    {
      evicted := frames;
      frames, contents := [], map[];
    }
  }
}
