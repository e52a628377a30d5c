/** The 0.6.x relative-mode touchpad handler, which its authors left
    unfinished: every slot of ten moves by the motion of its touch since the
    previous report, the first contact of a gesture skips one report in every
    slot, and the primary touch's pressure logic is replaced by an early
    return out of the frame. */
module RelativeTouchpadV06 {
  import opened Geometry
  import opened Host
  import opened Frames
  import opened TimeSpan

  /** The length of every per-slot array. */
  const SlotCount := 10

  /** The per-slot arrays as values: the last raw position, the produced
      position, the last delta time and the skip flag of each slot. */
  datatype Slots = Slots(
    lastRaw: seq<Option<Vec>>,
    positions: seq<Vec>,
    deltaTimes: seq<Ticks>,
    skips: seq<bool>)

  ghost predicate Sized(t: Slots)
  {
    |t.lastRaw| == SlotCount && |t.positions| == SlotCount
    && |t.deltaTimes| == SlotCount && |t.skips| == SlotCount
  }

  /** The arrays as the handler is built with them. */
  const Fresh := Slots(seq(SlotCount, _ => None), seq(SlotCount, _ => Zero),
                       seq(SlotCount, _ => 0), seq(SlotCount, _ => false))

  /** One call of TransposeToRelative: the slots it leaves and its result. */
  datatype SlotStep = SlotStep(slots: Slots, result: Option<Vec>)

  /** TransposeToRelative(raw, index) when the stopwatch reads `dt`: the
      bookkeeping first, then the skip, then the staleness test against
      `resetTime`, then the commit of the slot's moved position. */
  function RelativeAt(t: Slots, index: nat, raw: Vec, dt: Ticks, resetTime: Ticks): (r: SlotStep)
    requires Sized(t) && index < SlotCount
    ensures Sized(r.slots)
  {
    var delta := if t.lastRaw[index].Some? then Sub(raw, t.lastRaw[index].value) else Zero;
    var final := Add(t.positions[index], delta);
    var booked := t.(deltaTimes := t.deltaTimes[index := dt], lastRaw := t.lastRaw[index := Some(raw)]);
    if t.skips[index] then SlotStep(booked.(skips := t.skips[index := false]), None)
    else if dt > resetTime then SlotStep(booked, None)
    else SlotStep(booked.(positions := t.positions[index := final]), Some(final))
  }

  /** Every call records the raw position and the delta time in its slot and
      touches no other slot; a produced position is the slot's new position. */
  lemma RelativeAtBookkeeping(t: Slots, index: nat, raw: Vec, dt: Ticks, resetTime: Ticks)
    requires Sized(t) && index < SlotCount
    ensures var r := RelativeAt(t, index, raw, dt, resetTime);
            && r.slots.lastRaw == t.lastRaw[index := Some(raw)]
            && r.slots.deltaTimes == t.deltaTimes[index := dt]
            && (forall j :: 0 <= j < SlotCount && j != index ==>
                  r.slots.positions[j] == t.positions[j] && r.slots.skips[j] == t.skips[j])
            && (r.result.Some? ==> r.result.value == r.slots.positions[index])
            && (r.result.None? ==> r.slots.positions == t.positions)
  {
  }

  /** A set skip flag swallows exactly one call of its slot: the result is
      dropped and only that slot's flag is cleared. */
  lemma SkipClearsOnlyItsSlot(t: Slots, index: nat, raw: Vec, dt: Ticks, resetTime: Ticks)
    requires Sized(t) && index < SlotCount && t.skips[index]
    ensures var r := RelativeAt(t, index, raw, dt, resetTime);
            && r.result.None?
            && r.slots.skips == t.skips[index := false]
            && r.slots.positions == t.positions
  {
  }

  /** A position comes out exactly when the slot was not skipping and the
      delta time does not exceed the reset time; it is the slot's old
      position moved by the raw motion, or the old position on the slot's
      first report. */
  lemma RelativeAtCommits(t: Slots, index: nat, raw: Vec, dt: Ticks, resetTime: Ticks)
    requires Sized(t) && index < SlotCount
    ensures var r := RelativeAt(t, index, raw, dt, resetTime);
            && (r.result.Some? <==> !t.skips[index] && dt <= resetTime)
            && (r.result.Some? && t.lastRaw[index].Some? ==>
                  r.result.value == Add(t.positions[index], Sub(raw, t.lastRaw[index].value)))
            && (r.result.Some? && t.lastRaw[index].None? ==> r.result.value == t.positions[index])
  {
  }

  /** With the reset time this handler really uses, zero, any positive delta
      time drops the result and leaves every position where it was. */
  lemma ZeroResetTimeDropsLateReports(t: Slots, index: nat, raw: Vec, dt: Ticks)
    requires Sized(t) && index < SlotCount && dt > 0
    ensures RelativeAt(t, index, raw, dt, 0).result.None?
    ensures RelativeAt(t, index, raw, dt, 0).slots.positions == t.positions
  {
  }

  /** Two committed calls on one slot move it by the raw motion between the
      first call's previous position and the second call's position. */
  lemma {:induction false} RelativeAtTelescopes(t: Slots, index: nat, raw1: Vec, dt1: Ticks, raw2: Vec, dt2: Ticks, resetTime: Ticks)
    requires Sized(t) && index < SlotCount && t.lastRaw[index].Some?
    requires RelativeAt(t, index, raw1, dt1, resetTime).result.Some?
    requires RelativeAt(RelativeAt(t, index, raw1, dt1, resetTime).slots, index, raw2, dt2, resetTime).result.Some?
    ensures RelativeAt(RelativeAt(t, index, raw1, dt1, resetTime).slots, index, raw2, dt2, resetTime).result.value
         == Add(t.positions[index], Sub(raw2, t.lastRaw[index].value))
  {
    var r1 := RelativeAt(t, index, raw1, dt1, resetTime);
    RelativeAtCommits(t, index, raw1, dt1, resetTime);
    assert r1.result.value == Add(t.positions[index], Sub(raw1, t.lastRaw[index].value));
    assert r1.slots.positions[index] == r1.result.value;
    assert r1.slots.lastRaw[index] == Some(raw1);
    RelativeAtCommits(r1.slots, index, raw2, dt2, resetTime);
  }

  /** What one frame reads besides the slots: the private reset time, the last
      frame's count, and the stopwatch reading at each entry of the array. */
  datatype RelEnv = RelEnv(resetTime: Ticks, last: int, dts: seq<Ticks>)

  /** The state a frame threads: the slots, the count, the device calls, and
      whether the frame has returned early. */
  datatype RelState = RelState(slots: Slots, current: int, calls: seq<DeviceCall>, stopped: bool)

  /** Every entry below `n` that is transposed indexes the arrays by its id. */
  ghost predicate IdsInSlots(touches: Frame, n: nat)
  {
    forall i :: 0 <= i < n && i < |touches| && touches[i].Some? ==> touches[i].value.touchId < SlotCount
  }

  /** The loop body of Handle for entry `t` at loop index `index`: the early
      return happens when slot 0 is placed while nothing has been counted and
      the last frame had fewer than two touches. */
  function RelSlot(env: RelEnv, st: RelState, t: Option<TouchPoint>, index: nat): (r: RelState)
    requires Sized(st.slots) && index < |env.dts|
    requires t.Some? ==> t.value.touchId < SlotCount
    ensures Sized(r.slots)
  {
    match t
    case None => st
    case Some(tp) =>
      var s := RelativeAt(st.slots, tp.touchId, tp.position, env.dts[index], env.resetTime);
      match s.result
      case None => st.(slots := s.slots, current := st.current + 1)
      case Some(pos) =>
        if index == 0 && st.current == 0 && env.last < 2
        then st.(slots := s.slots, calls := st.calls + [SetPositionCall(tp.touchId, pos)], stopped := true)
        else st.(slots := s.slots, current := st.current + 1, calls := st.calls + PlaceCalls(tp.touchId, Some(pos)))
  }

  /** The loop of Handle over `[lo, hi)`, highest index first. */
  function RelVisit(env: RelEnv, st: RelState, touches: Frame, lo: nat, hi: nat): (r: RelState)
    requires lo <= hi <= |touches| && hi <= |env.dts|
    requires Sized(st.slots) && IdsInSlots(touches, hi)
    ensures Sized(r.slots)
    decreases hi - lo
  {
    if lo == hi then st
    else RelSlot(env, RelVisit(env, st, touches, lo + 1, hi), touches[lo], lo)
  }

  /** The first contact of a gesture sets the skip flag of every slot. */
  function FrameSlots(env: RelEnv, t: Slots, touches: Frame): (r: Slots)
    requires Sized(t)
    requires env.last == 0 ==> |touches| > 0
    ensures Sized(r)
    ensures env.last == 0 && touches[0].Some? ==> forall j :: 0 <= j < SlotCount ==> r.skips[j]
    ensures !(env.last == 0 && touches[0].Some?) ==> r == t
    ensures r.positions == t.positions && r.lastRaw == t.lastRaw
  {
    if env.last == 0 && touches[0].Some? then t.(skips := seq(SlotCount, _ => true)) else t
  }

  /** One frame of Handle, with `count` entries visited: the visit, and then,
      unless it returned early, CleanupInactives and the Flush. */
  function RelFrame(env: RelEnv, t: Slots, touches: Frame, count: nat, calls: seq<DeviceCall>): (r: RelState)
    requires Sized(t) && count <= |touches| && count <= |env.dts| && IdsInSlots(touches, count)
    requires env.last == 0 ==> |touches| > 0
    ensures Sized(r.slots)
  {
    var v := RelVisit(env, RelState(FrameSlots(env, t, touches), 0, calls, false), touches, 0, count);
    if v.stopped then v else v.(calls := v.calls + FrameEnd(touches, env.last, v.current))
  }

  /** A frame at capacity 0, as a handler that was never initialised runs
      it: no entry is visited, the first contact still fills the skips, and
      the frame ends with CleanupInactives and a Flush only when the last
      frame had a touch. */
  lemma CapacityZeroFrame(env: RelEnv, t: Slots, touches: Frame, calls: seq<DeviceCall>)
    requires Sized(t) && (env.last == 0 ==> |touches| > 0)
    ensures RelFrame(env, t, touches, 0, calls)
         == RelState(FrameSlots(env, t, touches), 0,
                     calls + [CleanupCall(touches)] + (if env.last > 0 then [FlushCall] else []), false)
  {
  }

  /** The calls the loop body makes for entry `t` away from slot 0. */
  function AwayCalls(env: RelEnv, t: Slots, e: Option<TouchPoint>, index: nat): seq<DeviceCall>
    requires Sized(t) && index < |env.dts|
    requires e.Some? ==> e.value.touchId < SlotCount
  {
    match e
    case None => []
    case Some(tp) => PlaceCalls(tp.touchId, RelativeAt(t, tp.touchId, tp.position, env.dts[index], env.resetTime).result)
  }

  /** Away from slot 0 the loop body never returns early, counts a present
      entry, and places it as the touchscreen handlers do. */
  lemma RelSlotAwayFromZero(env: RelEnv, st: RelState, e: Option<TouchPoint>, index: nat)
    requires Sized(st.slots) && 0 < index < |env.dts|
    requires e.Some? ==> e.value.touchId < SlotCount
    ensures var r := RelSlot(env, st, e, index);
            && r.stopped == st.stopped
            && r.current == st.current + (if e.Some? then 1 else 0)
            && r.calls == st.calls + AwayCalls(env, st.slots, e, index)
  {
  }

  /** Away from slot 0 the visit never returns early and counts every present
      entry. */
  lemma {:induction false} RelVisitAwayCounts(env: RelEnv, st: RelState, touches: Frame, lo: nat, hi: nat)
    requires 0 < lo <= hi <= |touches| && hi <= |env.dts|
    requires Sized(st.slots) && IdsInSlots(touches, hi)
    ensures RelVisit(env, st, touches, lo, hi).stopped == st.stopped
    ensures RelVisit(env, st, touches, lo, hi).current == st.current + ActiveRange(touches, lo, hi)
    decreases hi - lo
  {
    if lo < hi {
      RelVisitAwayCounts(env, st, touches, lo + 1, hi);
      RelSlotAwayFromZero(env, RelVisit(env, st, touches, lo + 1, hi), touches[lo], lo);
    }
  }

  /** Away from slot 0 the visit only appends placement calls, in position /
      pressure pairs. */
  lemma {:induction false} RelVisitAwayCalls(env: RelEnv, st: RelState, touches: Frame, lo: nat, hi: nat)
    requires 0 < lo <= hi <= |touches| && hi <= |env.dts|
    requires Sized(st.slots) && IdsInSlots(touches, hi)
    ensures var r := RelVisit(env, st, touches, lo, hi);
            && st.calls <= r.calls
            && OnlyPlacement(r.calls[|st.calls|..]) && PositionsPaired(r.calls[|st.calls|..])
    decreases hi - lo
  {
    if lo < hi {
      RelVisitAwayCalls(env, st, touches, lo + 1, hi);
      var v := RelVisit(env, st, touches, lo + 1, hi);
      var add := AwayCalls(env, v.slots, touches[lo], lo);
      RelSlotAwayFromZero(env, v, touches[lo], lo);
      var r := RelVisit(env, st, touches, lo, hi);
      assert r.calls == v.calls + add;
      var vt := v.calls[|st.calls|..];
      assert v.calls == st.calls + vt;
      assert r.calls[|st.calls|..] == vt + add;
      PairedAppend(vt, add);
      PlacementAppend(vt, add);
    }
  }

  /** A frame returns early exactly when entry 0 is the only present entry
      visited, it is placed, and the last frame had fewer than two touches;
      then the frame ends with that position call, and neither
      CleanupInactives nor Flush is called. */
  lemma EarlyReturnShape(env: RelEnv, t: Slots, touches: Frame, count: nat, calls: seq<DeviceCall>)
    requires Sized(t) && count <= |touches| && count <= |env.dts| && IdsInSlots(touches, count)
    requires env.last == 0 ==> |touches| > 0
    ensures var r := RelFrame(env, t, touches, count, calls);
            var start := RelState(FrameSlots(env, t, touches), 0, calls, false);
            && (r.stopped <==>
                  && 0 < count && touches[0].Some? && ActiveRange(touches, 1, count) == 0 && env.last < 2
                  && RelativeAt(RelVisit(env, start, touches, 1, count).slots, touches[0].value.touchId,
                                touches[0].value.position, env.dts[0], env.resetTime).result.Some?)
            && (r.stopped ==>
                  && r.calls[|r.calls| - 1].SetPositionCall?
                  && r.calls[|r.calls| - 1].id == touches[0].value.touchId
                  && (forall k :: |calls| <= k < |r.calls| ==> r.calls[k] != FlushCall && !r.calls[k].CleanupCall?))
            && (!r.stopped ==> r.calls[|r.calls| - 1] == FlushCall || r.calls[|r.calls| - 1] == CleanupCall(touches))
  {
    var start := RelState(FrameSlots(env, t, touches), 0, calls, false);
    if count > 0 {
      RelVisitAwayCounts(env, start, touches, 1, count);
      RelVisitAwayCalls(env, start, touches, 1, count);
      var v := RelVisit(env, start, touches, 1, count);
      var r := RelFrame(env, t, touches, count, calls);
      assert RelVisit(env, start, touches, 0, count) == RelSlot(env, v, touches[0], 0);
      if r.stopped {
        var tail := v.calls[|calls|..];
        assert r.calls == v.calls + [r.calls[|r.calls| - 1]];
        forall k | |calls| <= k < |r.calls|
          ensures r.calls[k] != FlushCall && !r.calls[k].CleanupCall?
        {
          if k < |v.calls| {
            assert r.calls[k] == tail[k - |calls|];
          }
        }
      }
    }
  }

  /** With the reset time this handler really uses, zero, and a stopwatch that
      has moved before every entry, no touch is ever placed: the frame only
      cleans up, and flushes when either count is positive. */
  lemma {:induction false} ZeroResetTimeFrame(env: RelEnv, t: Slots, touches: Frame, count: nat, calls: seq<DeviceCall>)
    requires Sized(t) && count <= |touches| && count <= |env.dts| && IdsInSlots(touches, count)
    requires env.last == 0 ==> |touches| > 0
    requires env.resetTime == 0 && forall i :: 0 <= i < count ==> env.dts[i] > 0
    ensures var r := RelFrame(env, t, touches, count, calls);
            && !r.stopped
            && r.slots.positions == t.positions
            && r.current == ActiveRange(touches, 0, count)
            && r.calls == calls + FrameEnd(touches, env.last, ActiveRange(touches, 0, count))
  {
    var start := RelState(FrameSlots(env, t, touches), 0, calls, false);
    ZeroResetTimeVisit(env, start, touches, 0, count);
  }

  lemma {:induction false} ZeroResetTimeVisit(env: RelEnv, st: RelState, touches: Frame, lo: nat, hi: nat)
    requires lo <= hi <= |touches| && hi <= |env.dts|
    requires Sized(st.slots) && IdsInSlots(touches, hi)
    requires env.resetTime == 0 && forall i :: lo <= i < hi ==> env.dts[i] > 0
    ensures var r := RelVisit(env, st, touches, lo, hi);
            && r.stopped == st.stopped && r.slots.positions == st.slots.positions
            && r.current == st.current + ActiveRange(touches, lo, hi) && r.calls == st.calls
    decreases hi - lo
  {
    if lo < hi {
      ZeroResetTimeVisit(env, st, touches, lo + 1, hi);
      var v := RelVisit(env, st, touches, lo + 1, hi);
      if touches[lo].Some? {
        var tp := touches[lo].value;
        ZeroResetTimeDropsLateReports(v.slots, tp.touchId, tp.position, env.dts[lo]);
      }
    }
  }

  class RelativeModeTouchpadHandler {
    const lastTouchPositions: array<Option<Vec>>
    const touchPositions: array<Vec>
    const deltaTimes: array<Ticks>
    const skipReports: array<bool>
    /** The private reset time: zero, and written nowhere. */
    var resetTime: Ticks
    var lastActiveTouchCount: int
    var currentActiveTouchCount: int
    var maxTouchCount: uint32
    /** Whether InternalTranspose is set, to TransposeToRelative. */
    var installed: bool

    // the ITouchpadHandler properties, not read by the handler itself
    var resetTimeProperty: Ticks
    var relativeModeHoldResetThreshold: Vec
    var relativeModeHoldPressureTime: Ticks

    /** The calls made on the touch device, oldest first. */
    ghost var calls: seq<DeviceCall>

    ghost predicate Valid()
    {
      lastTouchPositions.Length == SlotCount && touchPositions.Length == SlotCount
      && deltaTimes.Length == SlotCount && skipReports.Length == SlotCount
    }

    /** A handler whose transposition is not installed has capacity 0, so it
        never transposes: Initialize is the only writer of both. */
    ghost predicate Latent()
      reads this`installed, this`maxTouchCount
    {
      !installed ==> maxTouchCount == 0
    }

    /** The per-slot arrays as one value. */
    ghost function Table(): (t: Slots)
      requires Valid()
      reads lastTouchPositions, touchPositions, deltaTimes, skipReports
      ensures Sized(t)
    {
      Slots(lastTouchPositions[..], touchPositions[..], deltaTimes[..], skipReports[..])
    }

    ghost function Env(dts: seq<Ticks>): RelEnv
      reads this`resetTime, this`lastActiveTouchCount
    {
      RelEnv(resetTime, lastActiveTouchCount, dts)
    }

    constructor ()
      ensures Valid() && Table() == Fresh
      ensures resetTime == 0 && !installed && maxTouchCount == 0 && Latent()
      ensures lastActiveTouchCount == 0 && currentActiveTouchCount == 0 && calls == []
      ensures resetTimeProperty == 0 && relativeModeHoldResetThreshold == Zero && relativeModeHoldPressureTime == 0
    {
      lastTouchPositions := new Option<Vec>[SlotCount](_ => None);
      touchPositions := new Vec[SlotCount](_ => Zero);
      deltaTimes := new Ticks[SlotCount](_ => 0);
      skipReports := new bool[SlotCount](_ => false);
      resetTime := 0;
      lastActiveTouchCount := 0;
      currentActiveTouchCount := 0;
      maxTouchCount := 0;
      installed := false;
      resetTimeProperty := 0;
      relativeModeHoldResetThreshold := Zero;
      relativeModeHoldPressureTime := 0;
      calls := [];
    }

    /** Initialize(mode, maxTouchCount): installs the relative transposition
        and, when the device reports a cursor, seeds slot 0 at the cursor
        offset by the display's top-left corner. It always succeeds; the mode
        must be an enhanced absolute mode, as it is cast without a check. */
    method Initialize(mode: OutputMode, maxTouchCount: uint32, cursor: Option<Point>) returns (ok: bool)
      requires Valid() && mode.Enhanced?
      modifies this`maxTouchCount, this`installed, touchPositions
      ensures ok && installed && this.maxTouchCount == maxTouchCount && Latent()
      ensures Table() == old(Table()).(positions :=
                if cursor.Some?
                then old(Table()).positions[0 := Add(ToVec(cursor.value), DisplayBounds(mode.enhanced.output, ZeroBounds).min)]
                else old(Table()).positions)
    {
      this.maxTouchCount := maxTouchCount;

      installed := true;

      var output := mode.enhanced.output;

      // the `?? 1` of the half sizes is never used: without an output the
      // corner falls back to (0, 0)
      var min := if output.Some?
                 then Vec(output.value.position.x - output.value.width / 2.0,
                          output.value.position.y - output.value.height / 2.0)
                 else Zero;

      if cursor.Some? {
        touchPositions[0] := Add(ToVec(cursor.value), min);
      }

      return true;
    }

    /** TransposeToRelative(index) for raw position `pos` when the stopwatch
        reads `dt`. The id indexes the arrays, so it must be below ten. */
    method TransposeToRelative(pos: Vec, index: uint32, dt: Ticks) returns (r: Option<Vec>)
      requires Valid() && index < SlotCount
      modifies lastTouchPositions, touchPositions, deltaTimes, skipReports
      ensures SlotStep(Table(), r) == RelativeAt(old(Table()), index, pos, dt, resetTime)
    {
      deltaTimes[index] := dt;

      var delta := if lastTouchPositions[index].Some? then Sub(pos, lastTouchPositions[index].value) else Zero;
      var final := Add(touchPositions[index], delta);

      lastTouchPositions[index] := Some(pos);

      if skipReports[index] {
        skipReports[index] := false;
        return None;
      }

      if deltaTimes[index] > resetTime {
        return None;
      } else {
        touchPositions[index] := final;
        return Some(final);
      }
    }

    /** Transpose(index, pos): the installed transposition. */
    method Transpose(index: uint32, pos: Vec, dt: Ticks) returns (r: Option<Vec>)
      requires Valid() && installed && index < SlotCount
      modifies lastTouchPositions, touchPositions, deltaTimes, skipReports
      ensures SlotStep(Table(), r) == RelativeAt(old(Table()), index, pos, dt, resetTime)
    {
      r := TransposeToRelative(pos, index, dt);
    }

    /** The loop body of Handle for entry `t` at loop index `index`; `stop`
        is the early return. */
    method HandleEntry(t: Option<TouchPoint>, index: nat, dts: seq<Ticks>) returns (stop: bool)
      requires Valid() && installed && index < |dts|
      requires t.Some? ==> t.value.touchId < SlotCount
      modifies lastTouchPositions, touchPositions, deltaTimes, skipReports, this`calls, this`currentActiveTouchCount
      ensures RelState(Table(), currentActiveTouchCount, calls, stop)
           == RelSlot(old(Env(dts)), old(RelState(Table(), currentActiveTouchCount, calls, false)), t, index)
    {
      stop := false;
      if t.Some? {
        var touch := t.value;
        var res := Transpose(touch.touchId, touch.position, dts[index]);

        if res.Some? {
          calls := calls + [SetPositionCall(touch.touchId, res.value)];

          if index == 0 && currentActiveTouchCount == 0 && lastActiveTouchCount < 2 {
            return true;
          } else {
            calls := calls + [SetPressureCall(touch.touchId, 1)];
          }
        }

        currentActiveTouchCount := currentActiveTouchCount + 1;
      }
    }

    /** The loop of Handle over the first `count` entries, highest first. */
    method VisitTouches(touches: Frame, count: nat, dts: seq<Ticks>) returns (stop: bool)
      requires Valid() && (count > 0 ==> installed)
      requires count <= |touches| && count <= |dts| && IdsInSlots(touches, count)
      modifies lastTouchPositions, touchPositions, deltaTimes, skipReports, this`calls, this`currentActiveTouchCount
      ensures RelState(Table(), currentActiveTouchCount, calls, stop)
           == RelVisit(old(Env(dts)), old(RelState(Table(), currentActiveTouchCount, calls, false)), touches, 0, count)
    {
      ghost var env := Env(dts);
      ghost var start := RelState(Table(), currentActiveTouchCount, calls, false);

      var index := count as int - 1;
      while index > -1
        invariant -1 <= index < count
        invariant RelState(Table(), currentActiveTouchCount, calls, false) == RelVisit(env, start, touches, index + 1, count)
      {
        stop := HandleEntry(touches[index], index, dts);
        assert RelVisit(env, start, touches, index, count)
            == RelSlot(env, RelVisit(env, start, touches, index + 1, count), touches[index], index);
        if stop {
          return;
        }
        index := index - 1;
      }
      return false;
    }

    /** Array.Fill(_skipReports, true). */
    method FillSkips()
      requires Valid()
      modifies skipReports
      ensures Table() == old(Table()).(skips := seq(SlotCount, _ => true))
    {
      forall j | 0 <= j < skipReports.Length {
        skipReports[j] := true;
      }
      assert skipReports[..] == seq(SlotCount, _ => true);
    }

    /** Handle(touches) when the stopwatch reads `dts[i]` as entry `i` is
        transposed. The first entry is read when the last frame had no touch,
        and every visited id indexes the arrays. A handler that was never
        initialised has capacity 0: it visits no entry and only cleans up. */
    method Handle(touches: Frame, dts: seq<Ticks>)
      requires Valid() && Latent() && |dts| == |touches|
      requires lastActiveTouchCount == 0 ==> |touches| > 0
      requires IdsInSlots(touches, Limit(maxTouchCount, |touches|))
      modifies lastTouchPositions, touchPositions, deltaTimes, skipReports,
               this`calls, this`currentActiveTouchCount, this`lastActiveTouchCount
      ensures var r := RelFrame(old(Env(dts)), old(Table()), touches, Limit(maxTouchCount, |touches|), old(calls));
              && RelState(Table(), currentActiveTouchCount, calls, r.stopped) == r
              && lastActiveTouchCount == if r.stopped then old(lastActiveTouchCount) else currentActiveTouchCount
    {
      ghost var env := Env(dts);

      // first active touch
      if lastActiveTouchCount == 0 && touches[0].Some? {
        FillSkips();
      }
      assert Table() == FrameSlots(env, old(Table()), touches);

      currentActiveTouchCount := 0;

      var count := Limit(maxTouchCount, |touches|);

      var stop := VisitTouches(touches, count, dts);
      if stop {
        return;
      }

      calls := calls + [CleanupCall(touches)];

      if lastActiveTouchCount > 0 || currentActiveTouchCount > 0 {
        calls := calls + [FlushCall];
      }

      lastActiveTouchCount := currentActiveTouchCount;
    }
  }
}
