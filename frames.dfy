/** The frame-processing vocabulary every handler shares: touch points, the
    touch array of one report (a `null` entry is an absent touch), the calls a
    handler makes on its ITouchDevice, and the descending visit of the
    touchscreen handlers with the lemmas that describe it. */
module Frames {
  import opened Geometry

  /** The host's TouchPoint: the touch id and the raw tablet position. */
  datatype TouchPoint = TouchPoint(touchId: uint32, position: Vec)

  type Frame = seq<Option<TouchPoint>>

  /** One call a handler makes on its touch device. */
  datatype DeviceCall =
    | SetPositionCall(id: uint32, pos: Vec)
    | SetPressureCall(id: uint32, pressure: uint32)
    | CleanupCall(touches: Frame)
    | FlushCall

  /** `(int)Math.Min(_maxTouchCount, touches.Length)`. */
  function Limit(maxTouchCount: uint32, length: nat): (n: nat)
    ensures n <= length && n <= maxTouchCount as nat
    ensures n == length || n == maxTouchCount as nat
  {
    if maxTouchCount as nat <= length then maxTouchCount as nat else length
  }

  /** How many entries in `[lo, hi)` are present. */
  function ActiveRange(touches: Frame, lo: nat, hi: nat): (n: nat)
    requires lo <= hi <= |touches|
    ensures n <= hi - lo
    decreases hi - lo
  {
    if lo == hi then 0
    else (if touches[lo].Some? then 1 else 0) + ActiveRange(touches, lo + 1, hi)
  }

  /** The calls for one present touch whose transposition is `res`: a position
      followed by full pressure, or nothing when the transposition dropped it. */
  function PlaceCalls(id: uint32, res: Option<Vec>): seq<DeviceCall>
  {
    match res
    case None => []
    case Some(pos) => [SetPositionCall(id, pos), SetPressureCall(id, 1)]
  }

  /** The touchscreen handlers' loop body for entry `t`. */
  function ScreenSlot(t: Option<TouchPoint>, transpose: Vec -> Option<Vec>): seq<DeviceCall>
  {
    match t
    case None => []
    case Some(p) => PlaceCalls(p.touchId, transpose(p.position))
  }

  /** The touchscreen handlers' loop over `[lo, hi)`, highest index first. */
  function ScreenVisit(touches: Frame, transpose: Vec -> Option<Vec>, lo: nat, hi: nat): seq<DeviceCall>
    requires lo <= hi <= |touches|
    decreases hi - lo
  {
    if lo == hi then []
    else ScreenVisit(touches, transpose, lo + 1, hi) + ScreenSlot(touches[lo], transpose)
  }

  /** What closes every frame: one CleanupInactives, and a Flush only when the
      previous or the current frame had an active touch. */
  function FrameEnd(touches: Frame, last: int, current: int): seq<DeviceCall>
  {
    [CleanupCall(touches)] + (if last > 0 || current > 0 then [FlushCall] else [])
  }

  /** The calls of one touchscreen frame. */
  function ScreenFrame(touches: Frame, transpose: Vec -> Option<Vec>, maxTouchCount: uint32, last: int): seq<DeviceCall>
  {
    var n := Limit(maxTouchCount, |touches|);
    ScreenVisit(touches, transpose, 0, n) + FrameEnd(touches, last, ActiveRange(touches, 0, n))
  }

  /** Every position call is immediately followed by the full-pressure call
      for the same id. */
  ghost predicate PositionsPaired(calls: seq<DeviceCall>)
  {
    forall k :: 0 <= k < |calls| && calls[k].SetPositionCall? ==>
      k + 1 < |calls| && calls[k + 1] == SetPressureCall(calls[k].id, 1)
  }

  /** Only position and pressure calls. */
  ghost predicate OnlyPlacement(calls: seq<DeviceCall>)
  {
    forall k :: 0 <= k < |calls| ==> calls[k].SetPositionCall? || calls[k].SetPressureCall?
  }

  lemma PairedAppend(a: seq<DeviceCall>, b: seq<DeviceCall>)
    requires PositionsPaired(a) && PositionsPaired(b)
    ensures PositionsPaired(a + b)
  {
    var c := a + b;
    forall k | 0 <= k < |c| && c[k].SetPositionCall?
      ensures k + 1 < |c| && c[k + 1] == SetPressureCall(c[k].id, 1)
    {
      if k < |a| {
        assert c[k] == a[k];
        assert c[k + 1] == a[k + 1];
      } else {
        assert c[k] == b[k - |a|];
        assert c[k + 1] == b[k + 1 - |a|];
      }
    }
  }

  lemma PlacementAppend(a: seq<DeviceCall>, b: seq<DeviceCall>)
    requires OnlyPlacement(a) && OnlyPlacement(b)
    ensures OnlyPlacement(a + b)
  {
    var c := a + b;
    forall k | 0 <= k < |c|
      ensures c[k].SetPositionCall? || c[k].SetPressureCall?
    {
      if k < |a| {
        assert c[k] == a[k];
      } else {
        assert c[k] == b[k - |a|];
      }
    }
  }

  /** The visit makes only placement calls, in position / pressure pairs. */
  lemma {:induction false} ScreenVisitPaired(touches: Frame, transpose: Vec -> Option<Vec>, lo: nat, hi: nat)
    requires lo <= hi <= |touches|
    ensures PositionsPaired(ScreenVisit(touches, transpose, lo, hi))
    ensures OnlyPlacement(ScreenVisit(touches, transpose, lo, hi))
    decreases hi - lo
  {
    if lo < hi {
      ScreenVisitPaired(touches, transpose, lo + 1, hi);
      PairedAppend(ScreenVisit(touches, transpose, lo + 1, hi), ScreenSlot(touches[lo], transpose));
    }
  }

  /** A position call for `pos` comes out of the visit exactly when some
      visited entry is present and transposes to `pos`. */
  lemma {:induction false} ScreenVisitPositions(touches: Frame, transpose: Vec -> Option<Vec>, lo: nat, hi: nat, id: uint32, pos: Vec)
    requires lo <= hi <= |touches|
    ensures SetPositionCall(id, pos) in ScreenVisit(touches, transpose, lo, hi)
        <==> exists i :: lo <= i < hi && touches[i].Some? && touches[i].value.touchId == id
                         && transpose(touches[i].value.position) == Some(pos)
    decreases hi - lo
  {
    if lo < hi {
      ScreenVisitPositions(touches, transpose, lo + 1, hi, id, pos);
      var v := ScreenVisit(touches, transpose, lo, hi);
      assert v == ScreenVisit(touches, transpose, lo + 1, hi) + ScreenSlot(touches[lo], transpose);
      assert SetPositionCall(id, pos) in ScreenSlot(touches[lo], transpose)
        <==> touches[lo].Some? && touches[lo].value.touchId == id && transpose(touches[lo].value.position) == Some(pos);
    }
  }

  /** The visit never looks outside `[lo, hi)`: two frames that agree there
      give the same calls. In particular entries at or above the handler's
      capacity are never visited. */
  lemma {:induction false} ScreenVisitLocal(a: Frame, b: Frame, transpose: Vec -> Option<Vec>, lo: nat, hi: nat)
    requires lo <= hi <= |a| && hi <= |b|
    requires forall i :: lo <= i < hi ==> a[i] == b[i]
    ensures ScreenVisit(a, transpose, lo, hi) == ScreenVisit(b, transpose, lo, hi)
    ensures ActiveRange(a, lo, hi) == ActiveRange(b, lo, hi)
    decreases hi - lo
  {
    if lo < hi {
      ScreenVisitLocal(a, b, transpose, lo + 1, hi);
    }
  }

  /** Absent entries produce no calls and are not counted; a frame of only
      absent entries calls nothing in its visit. */
  lemma {:induction false} AbsentEntriesIgnored(touches: Frame, transpose: Vec -> Option<Vec>, lo: nat, hi: nat)
    requires lo <= hi <= |touches|
    requires forall i :: lo <= i < hi ==> touches[i].None?
    ensures ScreenVisit(touches, transpose, lo, hi) == []
    ensures ActiveRange(touches, lo, hi) == 0
    decreases hi - lo
  {
    if lo < hi {
      AbsentEntriesIgnored(touches, transpose, lo + 1, hi);
    }
  }

  /** The count is the number of present entries whether or not their
      transposition was dropped: it is at least the number of position calls,
      and equal to it when nothing is dropped. */
  lemma {:induction false} ActiveCountsDropped(touches: Frame, transpose: Vec -> Option<Vec>, lo: nat, hi: nat)
    requires lo <= hi <= |touches|
    ensures |ScreenVisit(touches, transpose, lo, hi)| <= 2 * ActiveRange(touches, lo, hi)
    ensures (forall v :: transpose(v).Some?) ==>
      |ScreenVisit(touches, transpose, lo, hi)| == 2 * ActiveRange(touches, lo, hi)
    decreases hi - lo
  {
    if lo < hi {
      ActiveCountsDropped(touches, transpose, lo + 1, hi);
    }
  }

  /** The count of present entries splits at any index. */
  lemma {:induction false} ActiveRangeSplit(touches: Frame, lo: nat, mid: nat, hi: nat)
    requires lo <= mid <= hi <= |touches|
    ensures ActiveRange(touches, lo, hi) == ActiveRange(touches, lo, mid) + ActiveRange(touches, mid, hi)
    decreases mid - lo
  {
    if lo < mid {
      ActiveRangeSplit(touches, lo + 1, mid, hi);
    }
  }

  /** The count is zero exactly when no entry of the range is present, and
      the whole length exactly when every entry is. */
  lemma {:induction false} ActiveRangeExtremes(touches: Frame, lo: nat, hi: nat)
    requires lo <= hi <= |touches|
    ensures ActiveRange(touches, lo, hi) == 0 <==> forall i :: lo <= i < hi ==> touches[i].None?
    ensures ActiveRange(touches, lo, hi) == hi - lo <==> forall i :: lo <= i < hi ==> touches[i].Some?
    decreases hi - lo
  {
    if lo < hi {
      ActiveRangeExtremes(touches, lo + 1, hi);
    }
  }

  /** The indices in `[lo, hi)` whose entry is present. */
  ghost function PresentIn(touches: Frame, lo: nat, hi: nat): set<nat>
    requires lo <= hi <= |touches|
  {
    set i: nat | lo <= i < hi && touches[i].Some?
  }

  /** The count is the number of present indices in the range. */
  lemma {:induction false} ActiveRangeCountsPresent(touches: Frame, lo: nat, hi: nat)
    requires lo <= hi <= |touches|
    ensures ActiveRange(touches, lo, hi) == |PresentIn(touches, lo, hi)|
    decreases hi - lo
  {
    if lo == hi {
      assert PresentIn(touches, lo, hi) == {};
    } else {
      ActiveRangeCountsPresent(touches, lo + 1, hi);
      var here: set<nat> := if touches[lo].Some? then {lo} else {};
      assert PresentIn(touches, lo, hi) == here + PresentIn(touches, lo + 1, hi);
      assert lo !in PresentIn(touches, lo + 1, hi);
    }
  }

  /** Every frame ends with exactly one CleanupInactives, followed by a Flush
      iff the previous or the current count is positive. */
  lemma FrameEndShape(touches: Frame, last: int, current: int)
    ensures FrameEnd(touches, last, current)[0] == CleanupCall(touches)
    ensures FlushCall in FrameEnd(touches, last, current) <==> last > 0 || current > 0
    ensures forall k :: 0 < k < |FrameEnd(touches, last, current)| ==> FrameEnd(touches, last, current)[k] == FlushCall
  {
  }

  /** In a whole touchscreen frame the CleanupInactives call is the only one,
      it comes after every placement, and Flush, if any, is the last call. */
  lemma ScreenFrameShape(touches: Frame, transpose: Vec -> Option<Vec>, maxTouchCount: uint32, last: int)
    ensures var calls := ScreenFrame(touches, transpose, maxTouchCount, last);
            var n := Limit(maxTouchCount, |touches|);
            var v := ScreenVisit(touches, transpose, 0, n);
            && calls[|v|] == CleanupCall(touches)
            && (forall k :: 0 <= k < |calls| && calls[k].CleanupCall? ==> k == |v|)
            && (forall k :: 0 <= k < |calls| && calls[k] == FlushCall ==> k == |calls| - 1)
            && (FlushCall in calls <==> last > 0 || ActiveRange(touches, 0, n) > 0)
            && PositionsPaired(calls)
  {
    var n := Limit(maxTouchCount, |touches|);
    var v := ScreenVisit(touches, transpose, 0, n);
    var e := FrameEnd(touches, last, ActiveRange(touches, 0, n));
    ScreenVisitPaired(touches, transpose, 0, n);
    var calls := v + e;
    assert forall k :: 0 <= k < |v| ==> calls[k] == v[k];
    assert FlushCall in calls <==> FlushCall in e;
    forall k | 0 <= k < |calls| && calls[k].SetPositionCall?
      ensures k + 1 < |calls| && calls[k + 1] == SetPressureCall(calls[k].id, 1)
    {
      assert k < |v|;
      assert calls[k] == v[k];
      assert calls[k + 1] == v[k + 1];
    }
  }
}
