/** The 0.5.x absolute-mode touchpad handler: the touchscreen loop of 0.5.x
    with the relative primary pointer always on. */
module TouchpadV05 {
  import opened Geometry
  import opened Host
  import opened Frames
  import opened PrimaryPointer

  class AbsoluteModeTouchpadHandler {
    // the fields of the 0.5.x TouchscreenHandler it extends
    var internalTranspose: Option<Vec -> Option<Vec>>
    var lastActiveTouchCount: int
    var currentActiveTouchCount: int
    var maxTouchCount: uint32

    var outputMode: Option<EnhancedMode>
    var lastPrimaryPos: Vec
    var primaryPos: Vec
    var deltaTime: int
    var min: Vec
    var max: Vec
    var lastPos: Option<Vec>
    var pressingPrimary: bool
    var skipReport: bool

    // the public properties, in ticks
    var resetTime: int
    var relativeModeHoldResetThreshold: Vec
    var relativeModeHoldPressureTime: int

    /** The calls made on the touch device, oldest first. */
    ghost var calls: seq<DeviceCall>

    constructor ()
      ensures State() == Start
      ensures internalTranspose == None && outputMode == None && maxTouchCount == 0
      ensures lastActiveTouchCount == 0 && currentActiveTouchCount == 0
      ensures min == Zero && max == Zero && calls == []
      ensures resetTime == 0 && relativeModeHoldResetThreshold == Zero && relativeModeHoldPressureTime == 0
    {
      internalTranspose := None;
      lastActiveTouchCount := 0;
      currentActiveTouchCount := 0;
      maxTouchCount := 0;
      outputMode := None;
      lastPrimaryPos := Zero;
      primaryPos := Vec(-1.0, -1.0);
      deltaTime := 0;
      min := Zero;
      max := Zero;
      lastPos := None;
      pressingPrimary := false;
      skipReport := false;
      resetTime := 0;
      relativeModeHoldResetThreshold := Zero;
      relativeModeHoldPressureTime := 0;
      calls := [];
    }

    /** The primary-pointer fields as one value. */
    ghost function State(): Pointer
      reads this`primaryPos, this`lastPrimaryPos, this`lastPos, this`deltaTime, this`skipReport, this`pressingPrimary
    {
      Pointer(primaryPos, lastPrimaryPos, lastPos, deltaTime, skipReport, pressingPrimary)
    }

    ghost predicate Initialized()
      reads this`internalTranspose, this`outputMode
    {
      internalTranspose.Some? && outputMode.Some?
    }

    /** What the primary pointer reads. */
    ghost function Config(): Settings
      requires Initialized()
      reads this`internalTranspose, this`outputMode, this`min, this`max, this`resetTime,
            this`relativeModeHoldResetThreshold, this`relativeModeHoldPressureTime
    {
      Settings(outputMode.value.areaLimiting, outputMode.value.areaClipping, Bounds(min, max),
               resetTime, relativeModeHoldResetThreshold, relativeModeHoldPressureTime)
    }

    /** The environment of one frame, given the two stopwatch readings. */
    ghost function Env(dt: int, holdElapsed: int): PadEnv
      requires Initialized()
      reads this`internalTranspose, this`outputMode, this`min, this`max, this`resetTime,
            this`relativeModeHoldResetThreshold, this`relativeModeHoldPressureTime, this`lastActiveTouchCount
    {
      PadEnv(Config(), internalTranspose.value, true, lastActiveTouchCount, dt, holdElapsed)
    }

    /** Initialize(mode, maxTouchCount): the capacity is stored first, then
        the base handler accepts only an enhanced absolute mode; the clamp
        bounds fall back to (0,0)-(1,1) without a display, and the primary
        position starts at the cursor the device reports, if any. */
    method Initialize(mode: OutputMode, maxTouchCount: uint32, cursor: Option<Point>) returns (ok: bool)
      modifies this`maxTouchCount, this`internalTranspose, this`outputMode, this`min, this`max, this`primaryPos
      ensures this.maxTouchCount == maxTouchCount
      ensures ok <==> mode.Enhanced?
      ensures !ok ==> (&& internalTranspose == old(internalTranspose) && outputMode == old(outputMode)
                       && min == old(min) && max == old(max) && primaryPos == old(primaryPos))
      ensures ok ==> (&& Initialized()
                      && internalTranspose == Some(mode.enhanced.transposeTouch)
                      && outputMode == Some(mode.enhanced)
                      && Bounds(min, max) == DisplayBounds(mode.enhanced.output, UnitBounds)
                      && primaryPos == if cursor.Some? then Add(ToVec(cursor.value), min) else old(primaryPos))
    {
      this.maxTouchCount := maxTouchCount;

      if !mode.Enhanced? {
        return false;
      }
      internalTranspose := Some(mode.enhanced.transposeTouch);

      outputMode := Some(mode.enhanced);

      var b := DisplayBounds(mode.enhanced.output, UnitBounds);
      min := b.min;
      max := b.max;

      if cursor.Some? {
        primaryPos := Add(ToVec(cursor.value), min);
      }

      return true;
    }

    /** TransposeToRelative(pos); `dt` is the delta stopwatch's reading. */
    method TransposeToRelative(pos: Vec, dt: int) returns (r: Option<Vec>)
      requires Initialized()
      modifies this`deltaTime, this`lastPos, this`primaryPos, this`skipReport
      ensures Step(State(), r) == Relative(old(Config()), old(State()), pos, dt)
    {
      deltaTime := dt;

      var delta := if lastPos.Some? then Sub(pos, lastPos.value) else Zero;
      var final := Add(primaryPos, delta);

      lastPos := Some(pos);

      var clippedPoint := Clamp(final, Bounds(min, max));

      if outputMode.value.areaLimiting && clippedPoint != final {
        return None;
      }

      if outputMode.value.areaClipping {
        final := clippedPoint;
      }

      if skipReport {
        skipReport := false;
        return None;
      }

      if deltaTime > resetTime {
        return None;
      } else {
        primaryPos := final;
        return Some(final);
      }
    }

    /** Transpose(index, pos): the host's transposition, relative for touch 0
        when no touch has been counted yet in this frame. */
    method Transpose(index: uint32, pos: Vec, dt: int) returns (r: Option<Vec>)
      requires Initialized()
      modifies this`deltaTime, this`lastPos, this`primaryPos, this`skipReport
      ensures Step(State(), r)
           == TransposeStep(old(Config()), internalTranspose.value, true, dt, old(State()), currentActiveTouchCount, index, pos)
    {
      var res := internalTranspose.value(pos);

      if res.Some? && index == 0 && currentActiveTouchCount == 0 {
        r := TransposeToRelative(res.value, dt);
        return;
      }

      return res;
    }

    /** ResetPrimaryPressure. */
    method ResetPrimaryPressure()
      modifies this`lastPrimaryPos, this`pressingPrimary, this`calls
      ensures State() == ResetPressure(old(State())).pointer
      ensures calls == old(calls) + ResetPressure(old(State())).calls
    {
      lastPrimaryPos := primaryPos;

      pressingPrimary := false;
      calls := calls + [SetPressureCall(0, 0)];
    }

    /** HandlePrimaryPressure; `holdElapsed` is the hold stopwatch's reading. */
    method HandlePrimaryPressure(holdElapsed: int)
      requires Initialized()
      modifies this`lastPrimaryPos, this`pressingPrimary, this`calls
      ensures State() == HandlePressure(old(Config()), old(State()), holdElapsed).pointer
      ensures calls == old(calls) + HandlePressure(old(Config()), old(State()), holdElapsed).calls
    {
      if pressingPrimary {
        return;
      }

      var deltaAbs := Vec(Abs(primaryPos.x - lastPrimaryPos.x), Abs(primaryPos.y - lastPrimaryPos.y));

      if deltaAbs.x > relativeModeHoldResetThreshold.x || deltaAbs.y > relativeModeHoldResetThreshold.y {
        ResetPrimaryPressure();
      } else if holdElapsed > relativeModeHoldPressureTime {
        pressingPrimary := true;
        calls := calls + [SetPressureCall(0, 1)];
      }
    }

    /** The loop body of Handle for entry `t` at loop index `index`. */
    method HandleEntry(t: Option<TouchPoint>, index: nat, dt: int, holdElapsed: int)
      requires Initialized()
      modifies this`calls, this`currentActiveTouchCount,
               this`deltaTime, this`lastPos, this`primaryPos, this`skipReport,
               this`lastPrimaryPos, this`pressingPrimary
      ensures PadState(State(), currentActiveTouchCount, calls)
           == PadSlot(old(Env(dt, holdElapsed)), old(PadState(State(), currentActiveTouchCount, calls)), t, index)
    {
      ghost var env := Env(dt, holdElapsed);
      ghost var before := PadState(State(), currentActiveTouchCount, calls);
      if t.Some? {
        var touch := t.value;
        ghost var step := TransposeStep(env.settings, env.transpose, true, dt, before.pointer, before.current,
                                        touch.touchId, touch.position);
        var res := Transpose(touch.touchId, touch.position, dt);
        assert Step(State(), res) == step;

        if res.Some? {
          calls := calls + [SetPositionCall(touch.touchId, res.value)];

          if index == 0 && currentActiveTouchCount == 0 && lastActiveTouchCount < 2 {
            assert Config() == env.settings;
            ghost var e := HandlePressure(env.settings, step.pointer, holdElapsed);
            HandlePrimaryPressure(holdElapsed);
            assert State() == e.pointer && calls == before.calls + [SetPositionCall(touch.touchId, res.value)] + e.calls;
          } else {
            calls := calls + [SetPressureCall(touch.touchId, 1)];
          }
        }

        currentActiveTouchCount := currentActiveTouchCount + 1;
        assert PadState(State(), currentActiveTouchCount, calls) == PlaceTouch(env, before, touch, index, step);
      }
    }

    /** The end of Handle, after the loop: CleanupInactives, the pressure
        reset and the Flush. */
    method CloseFrame(touches: Frame, dt: int, holdElapsed: int)
      requires Initialized()
      modifies this`calls, this`lastPrimaryPos, this`pressingPrimary
      ensures PadState(State(), currentActiveTouchCount, calls)
           == FrameClose(old(Env(dt, holdElapsed)), old(PadState(State(), currentActiveTouchCount, calls)), touches)
    {
      ghost var env := Env(dt, holdElapsed);
      ghost var visited := PadState(State(), currentActiveTouchCount, calls);
      calls := calls + [CleanupCall(touches)];
      ghost var cleaned := visited.(calls := visited.calls + [CleanupCall(touches)]);

      if pressingPrimary && currentActiveTouchCount != 1 {
        ResetPrimaryPressure();
        assert PadState(State(), currentActiveTouchCount, calls)
            == PadState(ResetPressure(cleaned.pointer).pointer, cleaned.current, cleaned.calls + ResetPressure(cleaned.pointer).calls);
      }
      ghost var reset := PadState(State(), currentActiveTouchCount, calls);

      if lastActiveTouchCount > 0 || currentActiveTouchCount > 0 {
        calls := calls + [FlushCall];
      }

      assert PadState(State(), currentActiveTouchCount, calls)
          == reset.(calls := reset.calls + if env.last > 0 || reset.current > 0 then [FlushCall] else []);
    }

    /** The loop of Handle over the first `count` entries, highest index
        first. */
    method VisitTouches(touches: Frame, count: nat, dt: int, holdElapsed: int)
      requires Initialized() && count <= |touches|
      modifies this`calls, this`currentActiveTouchCount,
               this`deltaTime, this`lastPos, this`primaryPos, this`skipReport,
               this`lastPrimaryPos, this`pressingPrimary
      ensures PadState(State(), currentActiveTouchCount, calls)
           == PadVisit(old(Env(dt, holdElapsed)), old(PadState(State(), currentActiveTouchCount, calls)), touches, 0, count)
    {
      ghost var env := Env(dt, holdElapsed);
      ghost var start := PadState(State(), currentActiveTouchCount, calls);

      var index := count as int - 1;
      while index > -1
        invariant -1 <= index < count
        invariant PadState(State(), currentActiveTouchCount, calls) == PadVisit(env, start, touches, index + 1, count)
      {
        HandleEntry(touches[index], index, dt, holdElapsed);
        index := index - 1;
      }
    }

    /** Handle(touches): one frame; `dt` and `holdElapsed` are the readings of
        the delta and the hold stopwatch. The first entry is read when the
        previous frame had no active touch, so the array must not be empty
        then. */
    method Handle(touches: Frame, dt: int, holdElapsed: int)
      requires Initialized()
      requires lastActiveTouchCount == 0 ==> |touches| > 0
      modifies this`calls, this`lastActiveTouchCount, this`currentActiveTouchCount,
               this`deltaTime, this`lastPos, this`primaryPos, this`skipReport,
               this`lastPrimaryPos, this`pressingPrimary
      ensures PadState(State(), currentActiveTouchCount, calls)
           == PadFrame(old(Env(dt, holdElapsed)), old(State()), touches, Limit(maxTouchCount, |touches|), old(calls))
      ensures lastActiveTouchCount == currentActiveTouchCount
    {
      ghost var env := Env(dt, holdElapsed);

      // first active touch
      if lastActiveTouchCount == 0 && touches[0].Some? {
        skipReport := true;
      }

      currentActiveTouchCount := 0;

      var count := Limit(maxTouchCount, |touches|);

      assert Env(dt, holdElapsed) == env;
      VisitTouches(touches, count, dt, holdElapsed);

      assert unchanged(this`internalTranspose, this`outputMode, this`min, this`max, this`resetTime,
                       this`relativeModeHoldResetThreshold, this`relativeModeHoldPressureTime, this`lastActiveTouchCount);
      assert Env(dt, holdElapsed) == env;
      CloseFrame(touches, dt, holdElapsed);

      lastActiveTouchCount := currentActiveTouchCount;
    }
  }
}
