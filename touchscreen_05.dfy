/** The 0.5.x touchscreen handler: the host's own TransposeTouch maps each
    touch to the display, and the result goes to the touch device, highest
    slot first. */
module TouchscreenV05 {
  import opened Geometry
  import opened Host
  import opened Frames

  class TouchscreenHandler {
    /** InternalTranspose; `None` until Initialize succeeds. */
    var internalTranspose: Option<Vec -> Option<Vec>>
    var lastActiveTouchCount: int
    var currentActiveTouchCount: int
    var maxTouchCount: uint32
    /** The calls made on the touch device, oldest first. */
    ghost var calls: seq<DeviceCall>

    constructor ()
      ensures internalTranspose == None && maxTouchCount == 0
      ensures lastActiveTouchCount == 0 && currentActiveTouchCount == 0 && calls == []
    {
      internalTranspose := None;
      lastActiveTouchCount := 0;
      currentActiveTouchCount := 0;
      maxTouchCount := 0;
      calls := [];
    }

    /** Initialize(mode, maxTouchCount): only an enhanced absolute mode is
        accepted, and then the host's TransposeTouch is installed. */
    method Initialize(mode: OutputMode, maxTouchCount: uint32) returns (ok: bool)
      modifies this`internalTranspose, this`maxTouchCount
      ensures ok <==> mode.Enhanced?
      ensures !ok ==> internalTranspose == old(internalTranspose) && this.maxTouchCount == old(this.maxTouchCount)
      ensures ok ==> internalTranspose == Some(mode.enhanced.transposeTouch) && this.maxTouchCount == maxTouchCount
    {
      if !mode.Enhanced? {
        return false;
      }

      this.maxTouchCount := maxTouchCount;
      internalTranspose := Some(mode.enhanced.transposeTouch);

      return true;
    }

    /** Transpose(index, pos): exactly the installed transposition of `pos`. */
    method Transpose(index: uint32, pos: Vec) returns (r: Option<Vec>)
      requires internalTranspose.Some?
      ensures r == internalTranspose.value(pos)
    {
      r := internalTranspose.value(pos);
    }

    /** The loop body of Handle for one entry of the touch array. */
    method HandleTouch(t: Option<TouchPoint>)
      requires internalTranspose.Some?
      modifies this`calls, this`currentActiveTouchCount
      ensures calls == old(calls) + ScreenSlot(t, internalTranspose.value)
      ensures currentActiveTouchCount == old(currentActiveTouchCount) + if t.Some? then 1 else 0
    {
      if t.Some? {
        var touch := t.value;
        var res := Transpose(touch.touchId, touch.position);

        if res.Some? {
          calls := calls + [SetPositionCall(touch.touchId, res.value)];
          calls := calls + [SetPressureCall(touch.touchId, 1)];
        }

        currentActiveTouchCount := currentActiveTouchCount + 1;
      }
    }

    /** Handle(touches): one frame. */
    method Handle(touches: Frame)
      requires internalTranspose.Some?
      modifies this`calls, this`lastActiveTouchCount, this`currentActiveTouchCount
      ensures calls == old(calls) + ScreenFrame(touches, internalTranspose.value, maxTouchCount, old(lastActiveTouchCount))
      ensures currentActiveTouchCount == ActiveRange(touches, 0, Limit(maxTouchCount, |touches|))
      ensures lastActiveTouchCount == currentActiveTouchCount
    {
      currentActiveTouchCount := 0;

      var count := Limit(maxTouchCount, |touches|);

      ghost var transpose := internalTranspose.value;
      var index := count as int - 1;
      while index > -1
        invariant -1 <= index < count
        invariant calls == old(calls) + ScreenVisit(touches, transpose, index + 1, count)
        invariant currentActiveTouchCount == ActiveRange(touches, index + 1, count)
        invariant lastActiveTouchCount == old(lastActiveTouchCount)
      {
        HandleTouch(touches[index]);
        assert ScreenVisit(touches, transpose, index, count)
            == ScreenVisit(touches, transpose, index + 1, count) + ScreenSlot(touches[index], transpose);
        assert ActiveRange(touches, index, count)
            == (if touches[index].Some? then 1 else 0) + ActiveRange(touches, index + 1, count);
        index := index - 1;
      }

      calls := calls + [CleanupCall(touches)];

      if lastActiveTouchCount > 0 || currentActiveTouchCount > 0 {
        calls := calls + [FlushCall];
      }

      lastActiveTouchCount := currentActiveTouchCount;
    }
  }
}
