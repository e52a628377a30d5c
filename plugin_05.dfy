/** The 0.5.x "Absolute Mode Native Gestures" filter: it takes touch reports
    out of the host's pipeline, drives the touch device with them, and keeps
    the relative primary pointer when its setting is on. */
module PluginV05 {
  import opened Geometry
  import opened Host
  import opened Frames
  import opened PrimaryPointer
  import opened TimeSpan

  class AbsoluteNativeGesturesHandler {
    /** The platform the plugin runs on. */
    const platform: Platform
    /** Whether `CurrentTouchDevice`, fixed when the plugin is built, is a
        device. */
    const hasDevice: bool

    var deltaTime: int
    var outputMode: Option<EnhancedMode>
    var lastPos: Option<Vec>
    var min: Vec
    var max: Vec

    var transpose: Option<Vec -> Option<Vec>>
    var resetTime: Ticks
    var currentActiveTouchCount: int
    var lastActiveTouchCount: int
    var maxTouchCount: uint32
    var isInitialized: bool
    var skipReport: bool

    // used by the file but declared nowhere in it; they have the meaning the
    // 0.5.x touchpad handler gives them
    var primaryPos: Vec
    var lastPrimaryPos: Vec
    var pressingPrimary: bool
    var relativeModeHoldResetThreshold: Vec
    var relativeModeHoldPressureTime: int

    /** The "Primary Pointer in Relative Mode" setting. */
    var relativePrimaryPointerEnabled: bool

    /** The calls made on the touch device, oldest first. */
    ghost var calls: seq<DeviceCall>

    /** The plugin as the host builds it on `platform` at OS build `build`. */
    constructor (platform: Platform, build: int)
      ensures this.platform == platform && hasDevice == DeviceAvailable(platform, build)
      ensures State() == Start && Valid() && !isInitialized
      ensures transpose == None && outputMode == None && maxTouchCount == 0
      ensures lastActiveTouchCount == 0 && currentActiveTouchCount == 0 && calls == []
      ensures min == Zero && max == Zero && resetTime == 0 && !relativePrimaryPointerEnabled
      ensures relativeModeHoldResetThreshold == Zero && relativeModeHoldPressureTime == 0
    {
      this.platform := platform;
      hasDevice := DeviceAvailable(platform, build);
      deltaTime := 0;
      outputMode := None;
      lastPos := None;
      min := Zero;
      max := Zero;
      transpose := None;
      resetTime := 0;
      currentActiveTouchCount := 0;
      lastActiveTouchCount := 0;
      maxTouchCount := 0;
      isInitialized := false;
      skipReport := false;
      primaryPos := Vec(-1.0, -1.0);
      lastPrimaryPos := Zero;
      pressingPrimary := false;
      relativeModeHoldResetThreshold := Zero;
      relativeModeHoldPressureTime := 0;
      relativePrimaryPointerEnabled := false;
      calls := [];
    }

    /** Once initialised, the transposition and the output mode are set. */
    ghost predicate Valid()
      reads this`isInitialized, this`transpose, this`outputMode
    {
      isInitialized ==> transpose.Some? && outputMode.Some?
    }

    /** The primary-pointer fields as one value. */
    ghost function State(): Pointer
      reads this`primaryPos, this`lastPrimaryPos, this`lastPos, this`deltaTime, this`skipReport, this`pressingPrimary
    {
      Pointer(primaryPos, lastPrimaryPos, lastPos, deltaTime, skipReport, pressingPrimary)
    }

    /** What the primary pointer reads. */
    ghost function Config(): Settings
      requires outputMode.Some?
      reads this`outputMode, this`min, this`max, this`resetTime,
            this`relativeModeHoldResetThreshold, this`relativeModeHoldPressureTime
    {
      Settings(outputMode.value.areaLimiting, outputMode.value.areaClipping, Bounds(min, max),
               resetTime, relativeModeHoldResetThreshold, relativeModeHoldPressureTime)
    }

    /** The environment of one frame, given the two stopwatch readings. */
    ghost function Env(dt: int, holdElapsed: int): PadEnv
      requires transpose.Some? && outputMode.Some?
      reads this`transpose, this`outputMode, this`min, this`max, this`resetTime,
            this`relativeModeHoldResetThreshold, this`relativeModeHoldPressureTime,
            this`relativePrimaryPointerEnabled, this`lastActiveTouchCount
    {
      PadEnv(Config(), transpose.value, relativePrimaryPointerEnabled, lastActiveTouchCount, dt, holdElapsed)
    }

    /** Initialize: an enhanced absolute mode, a device and a successful device
        initialisation (`deviceInitOk`), in that order, are needed before the
        plugin counts as initialised. The clamp bounds fall back to (0,0)-(0,0)
        without a display; the cursor is asked for only when the relative
        primary pointer is on. */
    method Initialize(mode: OutputMode, deviceInitOk: bool, cursor: Option<Point>)
      requires Valid()
      modifies this`maxTouchCount, this`transpose, this`outputMode, this`min, this`max,
               this`primaryPos, this`isInitialized
      ensures Valid()
      ensures isInitialized <==> old(isInitialized) || (mode.Enhanced? && hasDevice && deviceInitOk)
      ensures mode.Enhanced? ==> maxTouchCount == MaxTouchCount(platform)
      ensures !mode.Enhanced? ==> maxTouchCount == old(maxTouchCount)
      ensures !(mode.Enhanced? && hasDevice && deviceInitOk) ==>
                (&& transpose == old(transpose) && outputMode == old(outputMode)
                 && min == old(min) && max == old(max) && primaryPos == old(primaryPos))
      ensures mode.Enhanced? && hasDevice && deviceInitOk ==>
                (&& transpose == Some(mode.enhanced.transposeTouch)
                 && outputMode == Some(mode.enhanced)
                 && Bounds(min, max) == DisplayBounds(mode.enhanced.output, ZeroBounds)
                 && primaryPos == if relativePrimaryPointerEnabled && cursor.Some?
                                  then Add(ToVec(cursor.value), min) else old(primaryPos))
    {
      if !mode.Enhanced? {
        return;
      }

      maxTouchCount := MaxTouchCount(platform);

      if !hasDevice {
        return;
      }

      if !deviceInitOk {
        return;
      }

      transpose := Some(mode.enhanced.transposeTouch);
      outputMode := Some(mode.enhanced);

      var b := DisplayBounds(mode.enhanced.output, ZeroBounds);
      min := b.min;
      max := b.max;

      if relativePrimaryPointerEnabled && cursor.Some? {
        primaryPos := Add(ToVec(cursor.value), min);
      }

      isInitialized := true;
    }

    /** TransposeToRelative(pos); `dt` is the delta stopwatch's reading. */
    method TransposeToRelative(pos: Vec, dt: int) returns (r: Option<Vec>)
      requires outputMode.Some?
      modifies this`deltaTime, this`lastPos, this`primaryPos, this`skipReport
      ensures Step(State(), r) == Relative(old(Config()), old(State()), pos, dt)
    {
      deltaTime := dt;

      var delta := if lastPos.Some? then Sub(pos, lastPos.value) else Zero;
      var final := Add(primaryPos, delta);

      lastPos := Some(pos);

      var clippedPoint := Clamp(final, Bounds(min, max));

      if outputMode.value.areaLimiting && clippedPoint != final {
        return None;
      }

      if outputMode.value.areaClipping {
        final := clippedPoint;
      }

      if skipReport {
        skipReport := false;
        return None;
      }

      if deltaTime > resetTime {
        return None;
      } else {
        primaryPos := final;
        return Some(final);
      }
    }

    /** TransposeCore(index, pos): the host's transposition, made relative for
        touch 0 when the setting is on and no touch has been counted yet. */
    method TransposeCore(index: uint32, pos: Vec, dt: int) returns (r: Option<Vec>)
      requires transpose.Some? && outputMode.Some?
      modifies this`deltaTime, this`lastPos, this`primaryPos, this`skipReport
      ensures Step(State(), r)
           == TransposeStep(old(Config()), transpose.value, relativePrimaryPointerEnabled, dt,
                            old(State()), currentActiveTouchCount, index, pos)
    {
      var res := transpose.value(pos);

      if res.Some? && relativePrimaryPointerEnabled && index == 0 && currentActiveTouchCount == 0 {
        r := TransposeToRelative(res.value, dt);
        return;
      }

      return res;
    }

    /** ResetPrimaryPressure, as the 0.5.x touchpad handler defines it. */
    method ResetPrimaryPressure()
      modifies this`lastPrimaryPos, this`pressingPrimary, this`calls
      ensures State() == ResetPressure(old(State())).pointer
      ensures calls == old(calls) + ResetPressure(old(State())).calls
    {
      lastPrimaryPos := primaryPos;

      pressingPrimary := false;
      calls := calls + [SetPressureCall(0, 0)];
    }

    /** HandlePrimaryPressure, as the 0.5.x touchpad handler defines it. */
    method HandlePrimaryPressure(holdElapsed: int)
      requires outputMode.Some?
      modifies this`lastPrimaryPos, this`pressingPrimary, this`calls
      ensures State() == HandlePressure(old(Config()), old(State()), holdElapsed).pointer
      ensures calls == old(calls) + HandlePressure(old(Config()), old(State()), holdElapsed).calls
    {
      if pressingPrimary {
        return;
      }

      var deltaAbs := Vec(Abs(primaryPos.x - lastPrimaryPos.x), Abs(primaryPos.y - lastPrimaryPos.y));

      if deltaAbs.x > relativeModeHoldResetThreshold.x || deltaAbs.y > relativeModeHoldResetThreshold.y {
        ResetPrimaryPressure();
      } else if holdElapsed > relativeModeHoldPressureTime {
        pressingPrimary := true;
        calls := calls + [SetPressureCall(0, 1)];
      }
    }

    /** The loop body of Pass for entry `t` at loop index `index`. */
    method PassEntry(t: Option<TouchPoint>, index: nat, dt: int, holdElapsed: int)
      requires transpose.Some? && outputMode.Some?
      modifies this`calls, this`currentActiveTouchCount,
               this`deltaTime, this`lastPos, this`primaryPos, this`skipReport,
               this`lastPrimaryPos, this`pressingPrimary
      ensures PadState(State(), currentActiveTouchCount, calls)
           == PadSlot(old(Env(dt, holdElapsed)), old(PadState(State(), currentActiveTouchCount, calls)), t, index)
    {
      ghost var env := Env(dt, holdElapsed);
      ghost var before := PadState(State(), currentActiveTouchCount, calls);
      if t.Some? {
        var touch := t.value;
        ghost var step := TransposeStep(env.settings, env.transpose, env.relative, dt, before.pointer, before.current,
                                        touch.touchId, touch.position);
        var res := TransposeCore(touch.touchId, touch.position, dt);
        assert Step(State(), res) == step;

        if res.Some? {
          calls := calls + [SetPositionCall(touch.touchId, res.value)];

          if relativePrimaryPointerEnabled && index == 0 && currentActiveTouchCount == 0 && lastActiveTouchCount < 2 {
            assert Config() == env.settings;
            ghost var e := HandlePressure(env.settings, step.pointer, holdElapsed);
            HandlePrimaryPressure(holdElapsed);
            assert State() == e.pointer && calls == before.calls + [SetPositionCall(touch.touchId, res.value)] + e.calls;
          } else {
            calls := calls + [SetPressureCall(touch.touchId, 1)];
          }
        }

        currentActiveTouchCount := currentActiveTouchCount + 1;
        assert PadState(State(), currentActiveTouchCount, calls) == PlaceTouch(env, before, touch, index, step);
      }
    }

    /** The loop of Pass over the whole touch array, highest index first. */
    method PassTouches(touches: Frame, dt: int, holdElapsed: int)
      requires transpose.Some? && outputMode.Some?
      modifies this`calls, this`currentActiveTouchCount,
               this`deltaTime, this`lastPos, this`primaryPos, this`skipReport,
               this`lastPrimaryPos, this`pressingPrimary
      ensures PadState(State(), currentActiveTouchCount, calls)
           == PadVisit(old(Env(dt, holdElapsed)), old(PadState(State(), currentActiveTouchCount, calls)), touches, 0, |touches|)
    {
      ghost var env := Env(dt, holdElapsed);
      ghost var start := PadState(State(), currentActiveTouchCount, calls);

      var index := |touches| as int - 1;
      while index > -1
        invariant -1 <= index < |touches|
        invariant PadState(State(), currentActiveTouchCount, calls) == PadVisit(env, start, touches, index + 1, |touches|)
      {
        PassEntry(touches[index], index, dt, holdElapsed);
        index := index - 1;
      }
    }

    /** The end of a frame in Pass: CleanupInactives, the pressure reset and
        the Flush. */
    method CloseFrame(touches: Frame, dt: int, holdElapsed: int)
      requires transpose.Some? && outputMode.Some?
      modifies this`calls, this`lastPrimaryPos, this`pressingPrimary
      ensures PadState(State(), currentActiveTouchCount, calls)
           == FrameClose(old(Env(dt, holdElapsed)), old(PadState(State(), currentActiveTouchCount, calls)), touches)
    {
      ghost var env := Env(dt, holdElapsed);
      ghost var visited := PadState(State(), currentActiveTouchCount, calls);
      calls := calls + [CleanupCall(touches)];
      ghost var cleaned := visited.(calls := visited.calls + [CleanupCall(touches)]);

      if pressingPrimary && currentActiveTouchCount != 1 {
        ResetPrimaryPressure();
        assert PadState(State(), currentActiveTouchCount, calls)
            == PadState(ResetPressure(cleaned.pointer).pointer, cleaned.current, cleaned.calls + ResetPressure(cleaned.pointer).calls);
      }
      ghost var reset := PadState(State(), currentActiveTouchCount, calls);

      if lastActiveTouchCount > 0 || currentActiveTouchCount > 0 {
        calls := calls + [FlushCall];
      }

      assert PadState(State(), currentActiveTouchCount, calls)
          == reset.(calls := reset.calls + if env.last > 0 || reset.current > 0 then [FlushCall] else []);
    }

    /** Pass(report): an initialised plugin consumes touch reports (returns
        false) after playing their frame on the device, and lets every other
        report through untouched. The first entry is read on first contact of
        a relative pointer, so the touch array must not be empty then. */
    method Pass(report: Report<TouchPoint>, dt: int, holdElapsed: int) returns (pass: bool)
      requires Valid()
      requires isInitialized && report.TouchReport? && relativePrimaryPointerEnabled && lastActiveTouchCount == 0
               ==> |report.touches| > 0
      modifies this`calls, this`lastActiveTouchCount, this`currentActiveTouchCount,
               this`deltaTime, this`lastPos, this`primaryPos, this`skipReport,
               this`lastPrimaryPos, this`pressingPrimary
      ensures pass <==> !(isInitialized && report.TouchReport?)
      ensures pass ==> (&& calls == old(calls) && State() == old(State())
                        && lastActiveTouchCount == old(lastActiveTouchCount)
                        && currentActiveTouchCount == old(currentActiveTouchCount))
      ensures !pass ==> (&& PadState(State(), currentActiveTouchCount, calls)
                              == PadFrame(old(Env(dt, holdElapsed)), old(State()), report.touches, |report.touches|, old(calls))
                         && lastActiveTouchCount == currentActiveTouchCount)
    {
      if isInitialized && report.TouchReport? {
        var touches := report.touches;
        ghost var env := Env(dt, holdElapsed);

        // first active touch
        if relativePrimaryPointerEnabled && lastActiveTouchCount == 0 && touches[0].Some? {
          skipReport := true;
        }

        currentActiveTouchCount := 0;

        assert unchanged(this`transpose, this`outputMode, this`min, this`max, this`resetTime,
                         this`relativeModeHoldResetThreshold, this`relativeModeHoldPressureTime,
                         this`relativePrimaryPointerEnabled, this`lastActiveTouchCount);
        assert Env(dt, holdElapsed) == env;
        PassTouches(touches, dt, holdElapsed);

        assert unchanged(this`transpose, this`outputMode, this`min, this`max, this`resetTime,
                         this`relativeModeHoldResetThreshold, this`relativeModeHoldPressureTime,
                         this`relativePrimaryPointerEnabled, this`lastActiveTouchCount);
        assert Env(dt, holdElapsed) == env;
        CloseFrame(touches, dt, holdElapsed);

        lastActiveTouchCount := currentActiveTouchCount;

        return false;
      }

      return true;
    }

    /** Consume(report), inherited from the 0.5.x base class: the report is
        emitted again exactly when Pass lets it through. */
    method Consume(report: Report<TouchPoint>, dt: int, holdElapsed: int) returns (emitted: seq<Report<TouchPoint>>)
      requires Valid()
      requires isInitialized && report.TouchReport? && relativePrimaryPointerEnabled && lastActiveTouchCount == 0
               ==> |report.touches| > 0
      modifies this`calls, this`lastActiveTouchCount, this`currentActiveTouchCount,
               this`deltaTime, this`lastPos, this`primaryPos, this`skipReport,
               this`lastPrimaryPos, this`pressingPrimary
      ensures emitted == if isInitialized && report.TouchReport? then [] else [report]
      ensures !(isInitialized && report.TouchReport?) ==> calls == old(calls)
    {
      var pass := Pass(report, dt, holdElapsed);
      emitted := if pass then [report] else [];
    }

    /** The ResetTime property's getter: whole milliseconds. */
    method GetResetTime() returns (ms: int)
      ensures ms == WholeMilliseconds(resetTime)
    {
      ms := WholeMilliseconds(resetTime);
    }

    /** The ResetTime property's setter. */
    method SetResetTime(ms: int)
      requires -MaxMilliseconds <= ms <= MaxMilliseconds
      modifies this`resetTime
      ensures resetTime == FromMilliseconds(ms)
    {
      resetTime := FromMilliseconds(ms);
    }
  }
}
