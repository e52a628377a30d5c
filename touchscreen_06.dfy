/** The 0.6.x touchscreen handler: it transforms each touch with the output
    mode's touch matrix, limits or clips it to the display bounds, and hands
    the result to the touch device, highest slot first. */
module TouchscreenV06 {
  import opened Geometry
  import opened Host
  import opened Frames

  /** Transform: the touch matrix, then area limiting (drop a point outside
      the bounds) and area clipping (move it onto the bounds). */
  function Transform(pos: Vec, mode: EnhancedMode, bounds: Bounds): (r: Option<Vec>)
    ensures var p := TransformVec(pos, mode.touchMatrix);
            && (mode.areaLimiting ==> (r.None? <==> Clamp(p, bounds) != p))
            && (!mode.areaLimiting ==> r.Some?)
            && (r.Some? && mode.areaClipping ==> r.value == Clamp(p, bounds))
            && (r.Some? && !mode.areaClipping ==> r.value == p)
            && (InBounds(p, bounds) ==> r == Some(p))
  {
    var p := TransformVec(pos, mode.touchMatrix);
    var clippedPoint := Clamp(p, bounds);
    if mode.areaLimiting && clippedPoint != p then None
    else if mode.areaClipping then Some(clippedPoint)
    else Some(p)
  }

  /** With limiting on, clipping never changes anything: a point inside the
      bounds comes out unchanged and one outside is dropped. */
  lemma LimitingWinsOverClipping(pos: Vec, mode: EnhancedMode, bounds: Bounds)
    requires mode.areaLimiting && Ordered(bounds)
    ensures var p := TransformVec(pos, mode.touchMatrix);
            Transform(pos, mode, bounds) == if InBounds(p, bounds) then Some(p) else None
  {
    ClampFixesExactlyInside(TransformVec(pos, mode.touchMatrix), bounds);
  }

  /** With clipping alone on ordered bounds, every point comes out inside. */
  lemma ClippingStaysInside(pos: Vec, mode: EnhancedMode, bounds: Bounds)
    requires !mode.areaLimiting && mode.areaClipping && Ordered(bounds)
    ensures Transform(pos, mode, bounds).Some? && InBounds(Transform(pos, mode, bounds).value, bounds)
  {
  }

  class TouchscreenHandler {
    var min: Vec
    var max: Vec
    var outputMode: Option<EnhancedMode>
    var lastActiveTouchCount: int
    var currentActiveTouchCount: int
    var maxTouchCount: uint32
    /** The calls made on the touch device, oldest first. */
    ghost var calls: seq<DeviceCall>

    constructor ()
      ensures outputMode == None && min == Zero && max == Zero && maxTouchCount == 0
      ensures lastActiveTouchCount == 0 && currentActiveTouchCount == 0 && calls == []
    {
      min := Zero;
      max := Zero;
      outputMode := None;
      lastActiveTouchCount := 0;
      currentActiveTouchCount := 0;
      maxTouchCount := 0;
      calls := [];
    }

    /** The transposition Initialize installs, as a value. */
    ghost function TransposeFn(): Vec -> Option<Vec>
      requires outputMode.Some?
      reads this`outputMode, this`min, this`max
    {
      var mode := outputMode.value;
      var bounds := Bounds(min, max);
      (p: Vec) => Transform(p, mode, bounds)
    }

    /** Initialize(mode, maxTouchCount): only an enhanced absolute mode is
        accepted; then the display bounds are computed, with (0,0) when there
        is no display. */
    method Initialize(mode: OutputMode, maxTouchCount: uint32) returns (ok: bool)
      modifies this`min, this`max, this`outputMode, this`maxTouchCount
      ensures ok <==> mode.Enhanced?
      ensures !ok ==> (&& min == old(min) && max == old(max) && outputMode == old(outputMode)
                       && this.maxTouchCount == old(this.maxTouchCount))
      ensures ok ==> && outputMode == Some(mode.enhanced)
                     && Bounds(min, max) == DisplayBounds(mode.enhanced.output, ZeroBounds)
                     && this.maxTouchCount == maxTouchCount
    {
      if !mode.Enhanced? {
        return false;
      }

      outputMode := Some(mode.enhanced);
      var b := DisplayBounds(mode.enhanced.output, ZeroBounds);
      min := b.min;
      max := b.max;

      this.maxTouchCount := maxTouchCount;
      return true;
    }

    /** Transpose(index, pos): the installed transposition; the index is not
        used. */
    method Transpose(index: uint32, pos: Vec) returns (r: Option<Vec>)
      requires outputMode.Some?
      ensures r == TransposeFn()(pos)
    {
      r := Transform(pos, outputMode.value, Bounds(min, max));
    }

    /** The loop body of Handle for one entry of the touch array. */
    method HandleTouch(t: Option<TouchPoint>)
      requires outputMode.Some?
      modifies this`calls, this`currentActiveTouchCount
      ensures calls == old(calls) + ScreenSlot(t, TransposeFn())
      ensures currentActiveTouchCount == old(currentActiveTouchCount) + if t.Some? then 1 else 0
    {
      if t.Some? {
        var touch := t.value;
        var res := Transpose(touch.touchId, touch.position);

        if res.Some? {
          calls := calls + [SetPositionCall(touch.touchId, res.value)];
          calls := calls + [SetPressureCall(touch.touchId, 1)];
        }

        currentActiveTouchCount := currentActiveTouchCount + 1;
      }
    }

    /** Handle(touches): one frame. */
    method Handle(touches: Frame)
      requires outputMode.Some?
      modifies this`calls, this`lastActiveTouchCount, this`currentActiveTouchCount
      ensures calls == old(calls) + ScreenFrame(touches, TransposeFn(), maxTouchCount, old(lastActiveTouchCount))
      ensures currentActiveTouchCount == ActiveRange(touches, 0, Limit(maxTouchCount, |touches|))
      ensures lastActiveTouchCount == currentActiveTouchCount
    {
      ghost var transpose := TransposeFn();
      currentActiveTouchCount := 0;

      var count := Limit(maxTouchCount, |touches|);

      var index := count as int - 1;
      while index > -1
        invariant -1 <= index < count
        invariant calls == old(calls) + ScreenVisit(touches, transpose, index + 1, count)
        invariant currentActiveTouchCount == ActiveRange(touches, index + 1, count)
        invariant lastActiveTouchCount == old(lastActiveTouchCount)
      {
        HandleTouch(touches[index]);
        assert ScreenVisit(touches, transpose, index, count)
            == ScreenVisit(touches, transpose, index + 1, count) + ScreenSlot(touches[index], transpose);
        assert ActiveRange(touches, index, count)
            == (if touches[index].Some? then 1 else 0) + ActiveRange(touches, index + 1, count);
        index := index - 1;
      }

      calls := calls + [CleanupCall(touches)];

      if lastActiveTouchCount > 0 || currentActiveTouchCount > 0 {
        calls := calls + [FlushCall];
      }

      lastActiveTouchCount := currentActiveTouchCount;
    }
  }
}
