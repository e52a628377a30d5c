/** The 0.5.x "relative primary pointer": in absolute mode, the first touch
    moves a cursor by its deltas instead of jumping to its position, and a
    still hold of that touch presses it. The 0.5.x touchpad handler and the
    0.5.x absolute plugin carry the same code; it is specified here once, as
    functions of the pointer state, and both classes are proved against it. */
module PrimaryPointer {
  import opened Geometry
  import opened Frames

  /** The primary-pointer fields: `_primaryPos`, `_lastPrimaryPos`,
      `_lastPos`, `_deltaTime`, `_skipReport` and `_pressingPrimary`. */
  datatype Pointer = Pointer(
    primaryPos: Vec,
    lastPrimaryPos: Vec,
    lastPos: Option<Vec>,
    deltaTime: int,
    skipReport: bool,
    pressing: bool)

  /** The state a fresh handler starts in: the primary position is (-1, -1). */
  const Start := Pointer(Vec(-1.0, -1.0), Zero, None, 0, false, false)

  /** What the primary pointer reads but never writes: the area options of the
      output mode, the clamp bounds, the reset time, the hold threshold and the
      hold time (TimeSpan values are ticks). */
  datatype Settings = Settings(
    areaLimiting: bool,
    areaClipping: bool,
    bounds: Bounds,
    resetTime: int,
    holdThreshold: Vec,
    holdTime: int)

  /** A new pointer state and a transposition result. */
  datatype Step = Step(pointer: Pointer, result: Option<Vec>)

  /** A new pointer state and the device calls made getting there. */
  datatype Effect = Effect(pointer: Pointer, calls: seq<DeviceCall>)

  /** The motion since the last transposed position; none for the first one. */
  function Delta(p: Pointer, pos: Vec): Vec
  {
    if p.lastPos.Some? then Sub(pos, p.lastPos.value) else Zero
  }

  /** TransposeToRelative(pos), where `dt` is what restarting the delta
      stopwatch returns. */
  function Relative(s: Settings, p: Pointer, pos: Vec, dt: int): (r: Step)
    ensures r.result.Some? ==> r.pointer.primaryPos == r.result.value
    ensures r.result.None? ==> r.pointer.primaryPos == p.primaryPos
  {
    var final := Add(p.primaryPos, Delta(p, pos));
    var q := p.(deltaTime := dt, lastPos := Some(pos));
    var clippedPoint := Clamp(final, s.bounds);
    if s.areaLimiting && clippedPoint != final then Step(q, None)
    else
      var placed := if s.areaClipping then clippedPoint else final;
      if q.skipReport then Step(q.(skipReport := false), None)
      else if dt > s.resetTime then Step(q, None)
      else Step(q.(primaryPos := placed), Some(placed))
  }

  /** Every transposition becomes the new reference point and records its
      delta time; it leaves the hold state alone, commits only when no skip
      is pending and the delta time is within the reset time, and can only
      clear the skip flag. */
  lemma RelativeBookkeeping(s: Settings, p: Pointer, pos: Vec, dt: int)
    ensures var r := Relative(s, p, pos, dt);
            && r.pointer.lastPos == Some(pos) && r.pointer.deltaTime == dt
            && r.pointer.lastPrimaryPos == p.lastPrimaryPos && r.pointer.pressing == p.pressing
            && (r.result.Some? ==> !p.skipReport && dt <= s.resetTime)
            && (r.pointer.skipReport ==> p.skipReport && r.result.None?)
  {
  }

  /** Without limiting or clipping, a committed position is the previous
      primary position moved by the touch's own motion. */
  lemma RelativeFollowsMotion(s: Settings, p: Pointer, pos: Vec, dt: int)
    requires !s.areaLimiting && !s.areaClipping
    requires !p.skipReport && dt <= s.resetTime
    ensures Relative(s, p, pos, dt).result == Some(Add(p.primaryPos, Delta(p, pos)))
  {
  }

  /** With limiting or clipping on ordered bounds, a committed position is
      always inside the bounds: limiting drops what clipping would move. */
  lemma RelativeInBounds(s: Settings, p: Pointer, pos: Vec, dt: int)
    requires (s.areaLimiting || s.areaClipping) && Ordered(s.bounds)
    ensures Relative(s, p, pos, dt).result.Some? ==> InBounds(Relative(s, p, pos, dt).result.value, s.bounds)
  {
    ClampFixesExactlyInside(Add(p.primaryPos, Delta(p, pos)), s.bounds);
  }

  /** The skip flag set on first contact swallows exactly one transposition:
      the next one that area limiting does not drop returns nothing and
      clears the flag. */
  lemma SkipSwallowsOne(s: Settings, p: Pointer, pos: Vec, dt: int)
    requires p.skipReport
    ensures var r := Relative(s, p, pos, dt);
            && r.result.None?
            && r.pointer.primaryPos == p.primaryPos
            && (r.pointer.skipReport <==> s.areaLimiting && Clamp(Add(p.primaryPos, Delta(p, pos)), s.bounds) != Add(p.primaryPos, Delta(p, pos)))
  {
  }

  /** The area options, stated outright: under area limiting a relative
      position that clipping would move is dropped before anything else,
      leaving the primary position and a pending skip as they were; one that
      is not dropped is committed, when no skip is pending and it is in time,
      clipped under area clipping and as computed otherwise. */
  lemma RelativeLimitsAndClips(s: Settings, p: Pointer, pos: Vec, dt: int)
    ensures var final := Add(p.primaryPos, Delta(p, pos));
            var r := Relative(s, p, pos, dt);
            s.areaLimiting && Clamp(final, s.bounds) != final ==>
              r.result.None? && r.pointer.primaryPos == p.primaryPos && r.pointer.skipReport == p.skipReport
    ensures var final := Add(p.primaryPos, Delta(p, pos));
            var r := Relative(s, p, pos, dt);
            !p.skipReport && dt <= s.resetTime && !(s.areaLimiting && Clamp(final, s.bounds) != final) ==>
              r.result == Some(if s.areaClipping then Clamp(final, s.bounds) else final)
  {
  }

  /** Motion telescopes: two committed transpositions in a row move the
      primary position by the whole motion from the first reference point. */
  lemma {:induction false} RelativeTelescopes(s: Settings, p: Pointer, pos1: Vec, dt1: int, pos2: Vec, dt2: int)
    requires !s.areaLimiting && !s.areaClipping && p.lastPos.Some?
    requires Relative(s, p, pos1, dt1).result.Some?
    requires Relative(s, Relative(s, p, pos1, dt1).pointer, pos2, dt2).result.Some?
    ensures Relative(s, Relative(s, p, pos1, dt1).pointer, pos2, dt2).result.value
         == Add(p.primaryPos, Sub(pos2, p.lastPos.value))
  {
    var a := Relative(s, p, pos1, dt1);
    RelativeFollowsMotion(s, p, pos1, dt1);
    RelativeFollowsMotion(s, a.pointer, pos2, dt2);
  }

  /** A transposition that comes later than the reset time commits nothing,
      but moves the reference point: the motion that led to it is forgotten
      and the cursor resumes from where it was. */
  lemma {:induction false} LateReportForgetsMotion(s: Settings, p: Pointer, pos1: Vec, dt1: int, pos2: Vec, dt2: int)
    requires !s.areaLimiting && !s.areaClipping && !p.skipReport
    requires dt1 > s.resetTime && dt2 <= s.resetTime
    ensures Relative(s, p, pos1, dt1).result.None?
    ensures Relative(s, Relative(s, p, pos1, dt1).pointer, pos2, dt2).result
         == Some(Add(p.primaryPos, Sub(pos2, pos1)))
  {
    var a := Relative(s, p, pos1, dt1);
    assert a.pointer.primaryPos == p.primaryPos && a.pointer.lastPos == Some(pos1);
    assert !a.pointer.skipReport;
    RelativeFollowsMotion(s, a.pointer, pos2, dt2);
  }

  /** ResetPrimaryPressure: the hold area re-centres on the current primary
      position and the pointer is released with a zero-pressure call. */
  function ResetPressure(p: Pointer): (e: Effect)
    ensures e.pointer.lastPrimaryPos == p.primaryPos && !e.pointer.pressing
    ensures e.pointer.primaryPos == p.primaryPos && e.pointer.lastPos == p.lastPos
    ensures e.pointer.skipReport == p.skipReport && e.pointer.deltaTime == p.deltaTime
    ensures e.calls == [SetPressureCall(0, 0)]
  {
    Effect(p.(lastPrimaryPos := p.primaryPos, pressing := false), [SetPressureCall(0, 0)])
  }

  /** Whether the primary position has left the hold area on either axis. */
  predicate LeftHoldArea(s: Settings, p: Pointer)
  {
    Abs(p.primaryPos.x - p.lastPrimaryPos.x) > s.holdThreshold.x
    || Abs(p.primaryPos.y - p.lastPrimaryPos.y) > s.holdThreshold.y
  }

  /** HandlePrimaryPressure, where `holdElapsed` is the hold stopwatch's
      reading. */
  function HandlePressure(s: Settings, p: Pointer, holdElapsed: int): (e: Effect)
    ensures e.pointer.primaryPos == p.primaryPos
  {
    if p.pressing then Effect(p, [])
    else if LeftHoldArea(s, p) then ResetPressure(p)
    else if holdElapsed > s.holdTime then Effect(p.(pressing := true), [SetPressureCall(0, 1)])
    else Effect(p, [])
  }

  /** The pressure logic only sets the pressure of pointer 0, and touches
      nothing of the pointer but its hold state. */
  lemma HandlePressureEffects(s: Settings, p: Pointer, holdElapsed: int)
    ensures var e := HandlePressure(s, p, holdElapsed);
            && e.pointer.lastPos == p.lastPos
            && e.pointer.skipReport == p.skipReport && e.pointer.deltaTime == p.deltaTime
            && (forall k :: 0 <= k < |e.calls| ==> e.calls[k].SetPressureCall? && e.calls[k].id == 0)
            && |e.calls| <= 1
  {
  }

  /** The press: full pressure on pointer 0 is set exactly when the pointer is
      not already pressing, stayed in the hold area, and was held longer than
      the hold time; it then stays pressed. */
  lemma PressExactlyOnStillHold(s: Settings, p: Pointer, holdElapsed: int)
    ensures SetPressureCall(0, 1) in HandlePressure(s, p, holdElapsed).calls
        <==> !p.pressing && !LeftHoldArea(s, p) && holdElapsed > s.holdTime
    ensures SetPressureCall(0, 1) in HandlePressure(s, p, holdElapsed).calls
        ==> HandlePressure(s, p, holdElapsed).pointer.pressing
  {
  }

  /** A pressing pointer is left alone until something resets it. */
  lemma PressingIsSticky(s: Settings, p: Pointer, holdElapsed: int)
    requires p.pressing
    ensures HandlePressure(s, p, holdElapsed) == Effect(p, [])
  {
  }

  /** Right after a reset the pointer is inside its hold area, so a hold that
      stays put is pressed once the hold time has passed. */
  lemma {:induction false} ResetThenHoldPresses(s: Settings, p: Pointer, holdElapsed: int)
    requires s.holdThreshold.x >= 0.0 && s.holdThreshold.y >= 0.0
    requires holdElapsed > s.holdTime
    ensures HandlePressure(s, ResetPressure(p).pointer, holdElapsed).calls == [SetPressureCall(0, 1)]
    ensures HandlePressure(s, ResetPressure(p).pointer, holdElapsed).pointer.pressing
  {
    var q := ResetPressure(p).pointer;
    assert Abs(q.primaryPos.x - q.lastPrimaryPos.x) == 0.0;
    assert Abs(q.primaryPos.y - q.lastPrimaryPos.y) == 0.0;
  }

  /** What one frame of the touchpad loop reads besides the touches: the
      settings, the host's transposition, whether the primary pointer is
      relative, the previous frame's active count, and the two stopwatch
      readings. */
  datatype PadEnv = PadEnv(
    settings: Settings,
    transpose: Vec -> Option<Vec>,
    relative: bool,
    last: int,
    dt: int,
    holdElapsed: int)

  /** The pointer state, `_currentActiveTouchCount` and the device calls so
      far, as the loop threads them. */
  datatype PadState = PadState(pointer: Pointer, current: int, calls: seq<DeviceCall>)

  /** Transpose(touchId, pos): the host's transposition, then the relative
      one for touch 0 when it is the first present touch of the frame. */
  function TransposeStep(s: Settings, transpose: Vec -> Option<Vec>, relative: bool, dt: int,
                         p: Pointer, current: int, id: uint32, pos: Vec): (r: Step)
    ensures transpose(pos).None? ==> r == Step(p, None)
    ensures !relative || id != 0 || current != 0 ==> r == Step(p, transpose(pos))
  {
    var res := transpose(pos);
    if res.Some? && relative && id == 0 && current == 0 then Relative(s, p, res.value, dt)
    else Step(p, res)
  }

  /** The rest of the loop body for present touch `tp` once its
      transposition `step` is known: a position call and then either the
      primary pointer's pressure logic (loop index 0, first touch counted,
      at most one touch last frame) or full pressure; the touch is counted
      whether or not its transposition was dropped. */
  function PlaceTouch(env: PadEnv, st: PadState, tp: TouchPoint, index: nat, step: Step): PadState
  {
    match step.result
    case None => PadState(step.pointer, st.current + 1, st.calls)
    case Some(pos) =>
      if env.relative && index == 0 && st.current == 0 && env.last < 2 then
        var e := HandlePressure(env.settings, step.pointer, env.holdElapsed);
        PadState(e.pointer, st.current + 1, st.calls + [SetPositionCall(tp.touchId, pos)] + e.calls)
      else
        PadState(step.pointer, st.current + 1, st.calls + [SetPositionCall(tp.touchId, pos), SetPressureCall(tp.touchId, 1)])
  }

  /** The loop body for entry `t` at loop index `index`. */
  function PadSlot(env: PadEnv, st: PadState, t: Option<TouchPoint>, index: nat): PadState
  {
    match t
    case None => st
    case Some(tp) =>
      PlaceTouch(env, st, tp, index,
                 TransposeStep(env.settings, env.transpose, env.relative, env.dt, st.pointer, st.current, tp.touchId, tp.position))
  }

  /** The loop over `[lo, hi)`, highest index first: entry `lo` is processed
      after all the entries above it. */
  function PadVisit(env: PadEnv, st: PadState, touches: Frame, lo: nat, hi: nat): PadState
    requires lo <= hi <= |touches|
    decreases hi - lo
  {
    if lo == hi then st
    else PadSlot(env, PadVisit(env, st, touches, lo + 1, hi), touches[lo], lo)
  }

  /** The state the frame's loop starts from: on first contact of a relative
      pointer the skip flag is set. The touch array must not be empty then. */
  function FrameStart(env: PadEnv, p: Pointer, touches: Frame): (q: Pointer)
    requires env.relative && env.last == 0 ==> |touches| > 0
    ensures q.skipReport <==> p.skipReport || (env.relative && env.last == 0 && touches[0].Some?)
    ensures q.(skipReport := p.skipReport) == p
  {
    if env.relative && env.last == 0 && touches[0].Some? then p.(skipReport := true) else p
  }

  /** After the loop: CleanupInactives, a pressure reset when a press is held
      by anything but exactly one touch, and a Flush when the previous or the
      current frame had an active touch. */
  function FrameClose(env: PadEnv, st: PadState, touches: Frame): PadState
  {
    var cleaned := st.(calls := st.calls + [CleanupCall(touches)]);
    var reset :=
      if cleaned.pointer.pressing && cleaned.current != 1 then
        var e := ResetPressure(cleaned.pointer);
        PadState(e.pointer, cleaned.current, cleaned.calls + e.calls)
      else cleaned;
    reset.(calls := reset.calls + if env.last > 0 || reset.current > 0 then [FlushCall] else [])
  }

  /** One whole frame over the first `count` entries. */
  function PadFrame(env: PadEnv, p: Pointer, touches: Frame, count: nat, calls: seq<DeviceCall>): PadState
    requires count <= |touches|
    requires env.relative && env.last == 0 ==> |touches| > 0
  {
    FrameClose(env, PadVisit(env, PadState(FrameStart(env, p, touches), 0, calls), touches, 0, count), touches)
  }

  /** The loop only appends to the calls, and what it appends and the state it
      reaches do not depend on the calls made before. */
  lemma {:induction false} PadVisitAppends(env: PadEnv, st: PadState, touches: Frame, lo: nat, hi: nat)
    requires lo <= hi <= |touches|
    ensures var a := PadVisit(env, st, touches, lo, hi);
            var b := PadVisit(env, st.(calls := []), touches, lo, hi);
            a == b.(calls := st.calls + b.calls)
    decreases hi - lo
  {
    if lo < hi {
      PadVisitAppends(env, st, touches, lo + 1, hi);
    }
  }

  /** The count the loop leaves is the number of present entries visited,
      whatever the pointer does. */
  lemma {:induction false} PadVisitCounts(env: PadEnv, st: PadState, touches: Frame, lo: nat, hi: nat)
    requires lo <= hi <= |touches|
    ensures PadVisit(env, st, touches, lo, hi).current == st.current + ActiveRange(touches, lo, hi)
    decreases hi - lo
  {
    if lo < hi {
      PadVisitCounts(env, st, touches, lo + 1, hi);
    }
  }

  /** With the relative primary pointer off, the loop is exactly the
      touchscreen handlers' loop and leaves the pointer alone. */
  lemma {:induction false} PadVisitWithoutRelative(env: PadEnv, st: PadState, touches: Frame, lo: nat, hi: nat)
    requires lo <= hi <= |touches| && !env.relative
    ensures PadVisit(env, st, touches, lo, hi)
         == PadState(st.pointer, st.current + ActiveRange(touches, lo, hi), st.calls + ScreenVisit(touches, env.transpose, lo, hi))
    decreases hi - lo
  {
    if lo < hi {
      PadVisitWithoutRelative(env, st, touches, lo + 1, hi);
    }
  }

  /** A whole frame with the relative primary pointer off and no press held is
      a touchscreen frame. */
  lemma PadFrameWithoutRelative(env: PadEnv, p: Pointer, touches: Frame, maxTouchCount: uint32)
    requires !env.relative && !p.pressing
    ensures PadFrame(env, p, touches, Limit(maxTouchCount, |touches|), [])
         == PadState(p, ActiveRange(touches, 0, Limit(maxTouchCount, |touches|)),
                     ScreenFrame(touches, env.transpose, maxTouchCount, env.last))
  {
    var n := Limit(maxTouchCount, |touches|);
    assert FrameStart(env, p, touches) == p;
    PadVisitWithoutRelative(env, PadState(p, 0, []), touches, 0, n);
    var v := PadVisit(env, PadState(p, 0, []), touches, 0, n);
    assert v == PadState(p, ActiveRange(touches, 0, n), ScreenVisit(touches, env.transpose, 0, n));
    FrameCloseShape(env, v, touches);
  }

  /** While the skip flag is up and no touch has been counted, or once the
      first touch has been counted, the loop never moves the primary
      position. */
  ghost predicate Unmoved(st: PadState, origin: Vec)
  {
    st.pointer.primaryPos == origin && (st.current == 0 ==> st.pointer.skipReport)
  }

  lemma {:induction false} SkippedVisitUnmoved(env: PadEnv, st: PadState, touches: Frame, lo: nat, hi: nat)
    requires lo <= hi <= |touches|
    requires Unmoved(st, st.pointer.primaryPos) && st.current >= 0
    ensures Unmoved(PadVisit(env, st, touches, lo, hi), st.pointer.primaryPos)
    ensures PadVisit(env, st, touches, lo, hi).current >= 0
    decreases hi - lo
  {
    if lo < hi {
      SkippedVisitUnmoved(env, st, touches, lo + 1, hi);
    }
  }

  /** The frame of first contact never moves the cursor: the relative
      position of the touch that starts a gesture only becomes the reference
      point. */
  lemma FirstContactDoesNotMove(env: PadEnv, p: Pointer, touches: Frame, count: nat)
    requires count <= |touches|
    requires env.relative && env.last == 0 && |touches| > 0 && touches[0].Some?
    ensures PadFrame(env, p, touches, count, []).pointer.primaryPos == p.primaryPos
  {
    SkippedVisitUnmoved(env, PadState(FrameStart(env, p, touches), 0, []), touches, 0, count);
  }

  /** Absent entries leave the loop state alone. */
  lemma {:induction false} AbsentVisitIdle(env: PadEnv, st: PadState, touches: Frame, lo: nat, hi: nat)
    requires lo <= hi <= |touches|
    requires forall i :: lo <= i < hi ==> touches[i].None?
    ensures PadVisit(env, st, touches, lo, hi) == st
    decreases hi - lo
  {
    if lo < hi {
      AbsentVisitIdle(env, st, touches, lo + 1, hi);
    }
  }

  /** A single touch that starts a gesture and goes on: the first frame
      only sets the reference point (it cleans up and flushes, but positions
      nothing), and the second frame, in time and not dropped by area
      limiting, first positions pointer 0 at the primary position moved by the
      touch's motion between the two frames, clipped under area clipping. */
  lemma SecondContactMoves(env1: PadEnv, env2: PadEnv, p: Pointer, touches1: Frame, touches2: Frame,
                           count1: nat, count2: nat, pos1: Vec, pos2: Vec)
    requires 0 < count1 <= |touches1| && 0 < count2 <= |touches2|
    requires touches1[0] == Some(TouchPoint(0, pos1)) && touches2[0] == Some(TouchPoint(0, pos2))
    requires forall i :: 0 < i < |touches1| ==> touches1[i].None?
    requires forall i :: 0 < i < |touches2| ==> touches2[i].None?
    requires env1.relative && env1.last == 0 && env2.relative && env2.last == 1
    requires env1.transpose(pos1).Some? && env2.transpose(pos2).Some?
    requires var first := Add(p.primaryPos, Delta(p, env1.transpose(pos1).value));
             !(env1.settings.areaLimiting && Clamp(first, env1.settings.bounds) != first)
    requires var final := Add(p.primaryPos, Sub(env2.transpose(pos2).value, env1.transpose(pos1).value));
             !(env2.settings.areaLimiting && Clamp(final, env2.settings.bounds) != final)
    requires env2.dt <= env2.settings.resetTime
    ensures var f1 := PadFrame(env1, p, touches1, count1, []);
            && f1.current == 1 && f1.pointer.primaryPos == p.primaryPos
            && f1.calls == [CleanupCall(touches1), FlushCall]
    ensures var f1 := PadFrame(env1, p, touches1, count1, []);
            var final := Add(p.primaryPos, Sub(env2.transpose(pos2).value, env1.transpose(pos1).value));
            var f2 := PadFrame(env2, f1.pointer, touches2, count2, []);
            && f2.current == 1
            && f2.calls[0] == SetPositionCall(0, if env2.settings.areaClipping then Clamp(final, env2.settings.bounds) else final)
  {
    var r1 := env1.transpose(pos1).value;
    var st1 := PadState(FrameStart(env1, p, touches1), 0, []);
    AbsentVisitIdle(env1, st1, touches1, 1, count1);
    var v1 := PadVisit(env1, st1, touches1, 0, count1);
    assert v1 == PadSlot(env1, st1, touches1[0], 0);
    var q1 := Relative(env1.settings, st1.pointer, r1, env1.dt).pointer;
    assert v1 == PadState(q1, 1, []);
    FrameCloseShape(env1, v1, touches1);
    var f1 := PadFrame(env1, p, touches1, count1, []);
    assert f1.pointer == q1;
    assert q1.lastPos == Some(r1) && !q1.skipReport && q1.primaryPos == p.primaryPos;

    var st2 := PadState(FrameStart(env2, f1.pointer, touches2), 0, []);
    assert st2.pointer == q1;
    AbsentVisitIdle(env2, st2, touches2, 1, count2);
    var v2 := PadVisit(env2, st2, touches2, 0, count2);
    assert v2 == PadSlot(env2, st2, touches2[0], 0);
    RelativeLimitsAndClips(env2.settings, q1, env2.transpose(pos2).value, env2.dt);
    assert v2.current == 1 && v2.calls[0].SetPositionCall?;
    FrameCloseShape(env2, v2, touches2);
  }

  /** How every frame closes: one CleanupInactives, then the release of a
      press that is not held by exactly one touch, then a Flush exactly when
      the previous or the current frame had an active touch. */
  lemma FrameCloseShape(env: PadEnv, st: PadState, touches: Frame)
    ensures var r := FrameClose(env, st, touches);
            var release := st.pointer.pressing && st.current != 1;
            && r.current == st.current
            && r.calls == st.calls + [CleanupCall(touches)]
                 + (if release then [SetPressureCall(0, 0)] else [])
                 + (if env.last > 0 || st.current > 0 then [FlushCall] else [])
            && (r.pointer.pressing <==> st.pointer.pressing && st.current == 1)
  {
  }
}
