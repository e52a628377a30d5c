/** The 0.6.x "Absolute Mode Native Gestures" pipeline element: it picks a
    handler for the platform and the touchpad setting, initialises it and the
    touch device, hands touch reports to the handler and re-emits everything
    else. */
module PluginV06 {
  import opened Geometry
  import opened Host
  import opened Frames
  import opened TimeSpan

  /** The handlers GetHandler can build: the absolute-mode touchpad handler,
      which is an ITouchpadHandler, and the touchscreen handler, which is not. */
  datatype HandlerKind = TouchpadKind | TouchscreenKind

  /** GetHandler(device, isTouchpad): the touchpad handler on Windows with
      touchpad mode, the touchscreen handler otherwise on Windows and always
      on Linux, and none elsewhere. */
  function GetHandler(platform: Platform, isTouchpad: bool): (h: Option<HandlerKind>)
    ensures h == Some(TouchpadKind) <==> platform == Windows && isTouchpad
    ensures h == Some(TouchscreenKind) <==> (platform == Windows && !isTouchpad) || platform == Linux
    ensures h == None <==> platform == MacOS
  {
    match platform
    case Windows => if isTouchpad then Some(TouchpadKind) else Some(TouchscreenKind)
    case Linux => Some(TouchscreenKind)
    case MacOS => None
  }

  /** A handler exists exactly where the platform has touch slots, and the
      touchpad handler only where the touch device can be built for it. */
  lemma HandlerWhereSlots(platform: Platform, isTouchpad: bool, build: int)
    ensures GetHandler(platform, isTouchpad).Some? <==> MaxTouchCount(platform) > 0
    ensures GetHandler(platform, isTouchpad) == Some(TouchpadKind) && build >= SyntheticPointerBuild
            ==> DeviceAvailable(platform, build)
    ensures GetHandler(platform, isTouchpad).None? ==> !DeviceAvailable(platform, build)
  {
  }

  /** How Initialize ends: the stage that stopped it, a null dereference of
      the touch device, or ready. */
  datatype InitOutcome =
    | NoOutputMode
    | DeviceDereferenced
    | NoHandler
    | HandlerRejected
    | NoDevice
    | DeviceRejected
    | Ready

  /** The order of the Initialize checks as written: the scale of the touch
      device is set before anything tests that there is a device, and then
      the handler, its initialisation, the device and its initialisation are
      checked in turn. */
  function InitAsWritten(hasOutput: bool, hasDevice: bool, handler: Option<HandlerKind>,
                         handlerOk: bool, deviceOk: bool): (r: InitOutcome)
    ensures r == Ready <==> hasOutput && hasDevice && handler.Some? && handlerOk && deviceOk
    ensures hasOutput && !hasDevice <==> r == DeviceDereferenced
  {
    if !hasOutput then NoOutputMode
    else if !hasDevice then DeviceDereferenced
    else if handler.None? then NoHandler
    else if !handlerOk then HandlerRejected
    else if !hasDevice then NoDevice
    else if !deviceOk then DeviceRejected
    else Ready
  }

  /** As written, the "no virtual touch device" branch is dead: without a
      device Initialize dereferences it first, whatever the handler. On a
      Windows build before 17763 with an enhanced output mode, for one, the
      absent device is dereferenced instead of being reported. */
  lemma InitAsWrittenDereferencesMissingDevice(hasOutput: bool, hasDevice: bool, handler: Option<HandlerKind>,
                                               handlerOk: bool, deviceOk: bool)
    ensures InitAsWritten(hasOutput, hasDevice, handler, handlerOk, deviceOk) != NoDevice
    ensures InitAsWritten(true, DeviceAvailable(Windows, 17134), GetHandler(Windows, false), true, true)
         == DeviceDereferenced
  {
  }

  /** The evidently intended order: the scale is set only on a device that
      exists, and the checks then run in the written order. */
  function InitChain(hasOutput: bool, hasDevice: bool, handler: Option<HandlerKind>,
                     handlerOk: bool, deviceOk: bool): (r: InitOutcome)
    ensures r != DeviceDereferenced
    ensures r == Ready <==> hasOutput && hasDevice && handler.Some? && handlerOk && deviceOk
  {
    if !hasOutput then NoOutputMode
    else if handler.None? then NoHandler
    else if !handlerOk then HandlerRejected
    else if !hasDevice then NoDevice
    else if !deviceOk then DeviceRejected
    else Ready
  }

  /** Each failing check is reported by its own outcome, the first failing
      one in order; with a device the corrected chain ends as the written one. */
  lemma InitChainReports(hasOutput: bool, hasDevice: bool, handler: Option<HandlerKind>,
                         handlerOk: bool, deviceOk: bool)
    ensures var r := InitChain(hasOutput, hasDevice, handler, handlerOk, deviceOk);
            && (r == NoOutputMode <==> !hasOutput)
            && (r == NoHandler <==> hasOutput && handler.None?)
            && (r == HandlerRejected <==> hasOutput && handler.Some? && !handlerOk)
            && (r == NoDevice <==> hasOutput && handler.Some? && handlerOk && !hasDevice)
            && (r == DeviceRejected <==> hasOutput && handler.Some? && handlerOk && hasDevice && !deviceOk)
    ensures hasDevice ==>
              InitChain(hasOutput, hasDevice, handler, handlerOk, deviceOk)
              == InitAsWritten(hasOutput, hasDevice, handler, handlerOk, deviceOk)
  {
  }

  /** The three ITouchpadHandler properties. */
  datatype Tunables = Tunables(resetTime: Ticks, holdResetThreshold: Vec, holdPressureTime: Ticks)

  const DefaultTunables := Tunables(0, Zero, 0)

  /** CurrentHandler: which handler, and the tunables it holds. */
  datatype Handler = Handler(kind: HandlerKind, tunables: Tunables)

  /** What Consume does with a report. */
  datatype Dispatch = HandledBy(kind: HandlerKind, touches: Frame) | Emitted(report: Report<TouchPoint>)

  class AbsoluteNativeGesturesHandler {
    /** The platform the plugin runs on. */
    const platform: Platform
    /** Whether CurrentTouchDevice, fixed when the plugin is built, is a
        device. */
    const hasDevice: bool

    var resetTime: Ticks
    var relativeModeHoldResetThreshold: Vec
    var relativeModeHoldPressureTime: Ticks
    var isInitialized: bool
    var maxTouchCount: uint32

    /** The "Touchpad Mode" setting. */
    var touchpadModeEnabled: bool
    var currentHandler: Option<Handler>

    constructor (platform: Platform, build: int)
      ensures this.platform == platform && hasDevice == DeviceAvailable(platform, build)
      ensures Valid() && !isInitialized && currentHandler == None && maxTouchCount == 0
      ensures resetTime == 0 && relativeModeHoldResetThreshold == Zero && relativeModeHoldPressureTime == 0
      ensures !touchpadModeEnabled
    {
      this.platform := platform;
      hasDevice := DeviceAvailable(platform, build);
      resetTime := 0;
      relativeModeHoldResetThreshold := Zero;
      relativeModeHoldPressureTime := 0;
      isInitialized := false;
      maxTouchCount := 0;
      touchpadModeEnabled := false;
      currentHandler := None;
    }

    /** Once initialised there is a handler: the platform has one. */
    ghost predicate Valid()
      reads this`isInitialized, this`currentHandler
    {
      isInitialized ==> currentHandler.Some? && platform != MacOS
    }

    /** Initialize, with the scale of the touch device set only when there is
        one. `output` is the output mode found for the tablet (None when the
        driver, the device or its mode is missing), `handlerOk` what the new
        handler's Initialize answers and `deviceOk` what the touch device's
        Initialize answers. The flag is only ever raised. */
    method Initialize(output: Option<OutputMode>, handlerOk: bool, deviceOk: bool) returns (outcome: InitOutcome)
      requires Valid()
      modifies this`maxTouchCount, this`currentHandler, this`isInitialized
      ensures Valid()
      ensures outcome == InitChain(output.Some?, hasDevice, GetHandler(platform, touchpadModeEnabled), handlerOk, deviceOk)
      ensures isInitialized <==> old(isInitialized) || outcome == Ready
      ensures output.None? ==> maxTouchCount == old(maxTouchCount) && currentHandler == old(currentHandler)
      ensures output.Some? ==> maxTouchCount == MaxTouchCount(platform)
      ensures output.Some? && GetHandler(platform, touchpadModeEnabled).Some? ==>
                currentHandler == Some(Handler(GetHandler(platform, touchpadModeEnabled).value,
                  if outcome == Ready && GetHandler(platform, touchpadModeEnabled) == Some(TouchpadKind)
                  then Tunables(resetTime, relativeModeHoldResetThreshold, relativeModeHoldPressureTime)
                  else DefaultTunables))
      ensures output.Some? && GetHandler(platform, touchpadModeEnabled).None? ==> currentHandler == None
    {
      if output.None? {
        return NoOutputMode;
      }

      maxTouchCount := MaxTouchCount(platform);

      var kind := GetHandler(platform, touchpadModeEnabled);
      currentHandler := if kind.Some? then Some(Handler(kind.value, DefaultTunables)) else None;

      if currentHandler.None? {
        return NoHandler;
      } else if !handlerOk {
        return HandlerRejected;
      } else if !hasDevice {
        return NoDevice;
      } else if !deviceOk {
        return DeviceRejected;
      }

      if currentHandler.value.kind == TouchpadKind {
        currentHandler := Some(currentHandler.value.(tunables :=
          Tunables(resetTime, relativeModeHoldResetThreshold, relativeModeHoldPressureTime)));
      }

      isInitialized := true;
      return Ready;
    }

    /** Consume(report): an initialised plugin hands the touches of a touch
        report to its handler; every other report is emitted unchanged. */
    method Consume(report: Report<TouchPoint>) returns (d: Dispatch)
      requires Valid()
      ensures d.HandledBy? <==> isInitialized && report.TouchReport?
      ensures d.HandledBy? ==> d == HandledBy(currentHandler.value.kind, report.touches)
      ensures d.Emitted? ==> d.report == report
    {
      if isInitialized && report.TouchReport? {
        return HandledBy(currentHandler.value.kind, report.touches);
      } else {
        return Emitted(report);
      }
    }

    /** The 0.6.x plugin's own "Reset Time" property (its lines 111-115),
        the same conversion as in 0.5.x: the getter, in whole milliseconds. */
    method GetResetTime() returns (ms: int)
      ensures ms == WholeMilliseconds(resetTime)
    {
      ms := WholeMilliseconds(resetTime);
    }

    /** The setter of that property. */
    method SetResetTime(ms: int)
      requires -MaxMilliseconds <= ms <= MaxMilliseconds
      modifies this`resetTime
      ensures resetTime == FromMilliseconds(ms)
    {
      resetTime := FromMilliseconds(ms);
    }

    /** The "Relative Mode Hold Deadzone" property's getter: the x component. */
    method GetRelativeModeHoldResetThreshold() returns (v: real)
      ensures v == relativeModeHoldResetThreshold.x
    {
      v := relativeModeHoldResetThreshold.x;
    }

    /** The setter stores the value on both axes. */
    method SetRelativeModeHoldResetThreshold(v: real)
      modifies this`relativeModeHoldResetThreshold
      ensures relativeModeHoldResetThreshold == Vec(v, v)
    {
      relativeModeHoldResetThreshold := Vec(v, v);
    }

    /** The "Relative Mode Hold Reset Time" property's getter, in whole
        milliseconds. */
    method GetRelativeModeHoldPressureTime() returns (ms: int)
      ensures ms == WholeMilliseconds(relativeModeHoldPressureTime)
    {
      ms := WholeMilliseconds(relativeModeHoldPressureTime);
    }

    method SetRelativeModeHoldPressureTime(ms: int)
      requires -MaxMilliseconds <= ms <= MaxMilliseconds
      modifies this`relativeModeHoldPressureTime
      ensures relativeModeHoldPressureTime == FromMilliseconds(ms)
    {
      relativeModeHoldPressureTime := FromMilliseconds(ms);
    }
  }
}
