/** What the handlers see of the tablet driver they run in: output modes,
    reports, the platform, and the two static choices the plugin base classes
    make from the platform. The host's own touch transposition is an opaque
    function carried by the output mode. */
module Host {
  import opened Geometry

  /** System.Numerics.Matrix3x2: a 2x2 linear part and a translation. */
  datatype Matrix3x2 = Matrix3x2(m11: real, m12: real, m21: real, m22: real, m31: real, m32: real)

  /** Vector2.Transform(v, m). */
  function TransformVec(v: Vec, m: Matrix3x2): Vec
  {
    Vec(v.x * m.m11 + v.y * m.m21 + m.m31, v.x * m.m12 + v.y * m.m22 + m.m32)
  }

  /** An EnhancedAbsoluteOutputMode: its display area, the two area options,
      the touch matrix the 0.6.x touchscreen handler applies itself, and the
      host's own `TransposeTouch` used by the 0.5.x handlers. */
  datatype EnhancedMode = EnhancedMode(
    output: Option<Area>,
    touchMatrix: Matrix3x2,
    areaLimiting: bool,
    areaClipping: bool,
    transposeTouch: Vec -> Option<Vec>)

  /** The driver's output mode: an enhanced absolute mode or any other mode. */
  datatype OutputMode = Enhanced(enhanced: EnhancedMode) | OtherMode

  /** A report reaching the plugin: a touch report with its touch array, or
      anything else (identified only for re-emission). */
  datatype Report<T> = TouchReport(touches: seq<Option<T>>) | OtherReport(id: int)

  datatype Platform = Windows | Linux | MacOS

  /** The first Windows build with synthetic pointer injection. */
  const SyntheticPointerBuild := 17763

  /** MaxTouchCount: the slot capacity per platform. */
  function MaxTouchCount(platform: Platform): (n: uint32)
    ensures platform == Windows ==> n == 10
    ensures platform == Linux ==> n == 256
    ensures platform == MacOS ==> n == 0
  {
    match platform
    case Windows => 10
    case Linux => 256
    case MacOS => 0
  }

  /** Whether the static TouchDevice property yields a device: only on Windows
      from build 17763 on, and on Linux. */
  predicate DeviceAvailable(platform: Platform, build: int)
  {
    match platform
    case Windows => build >= SyntheticPointerBuild
    case Linux => true
    case MacOS => false
  }
}
