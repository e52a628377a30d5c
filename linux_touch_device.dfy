/** The Linux virtual touch device: an evdev multitouch (type B) emitter.
    Every `_device.Write(type, code, value)` and `_device.Sync()` is appended to
    the ghost log `events`, and every capability enabled before the device is
    created to the ghost log `capabilities`; what the kernel does with them is
    outside the model. The event constants are the values
    linux/input-event-codes.h gives them. */
module LinuxDevice {
  import opened Geometry

  const EV_KEY := 0x01
  const EV_ABS := 0x03

  const ABS_X := 0x00
  const ABS_Y := 0x01
  const ABS_MT_SLOT := 0x2f
  const ABS_MT_TOUCH_MAJOR := 0x30
  const ABS_MT_POSITION_X := 0x35
  const ABS_MT_POSITION_Y := 0x36
  const ABS_MT_TRACKING_ID := 0x39

  const BTN_TOOL_FINGER := 0x145
  const BTN_TOOL_QUINTTAP := 0x148
  const BTN_TOUCH := 0x14a
  const BTN_TOOL_DOUBLETAP := 0x14d
  const BTN_TOOL_TRIPLETAP := 0x14e
  const BTN_TOOL_QUADTAP := 0x14f

  const INPUT_PROP_POINTER := 0x00

  /** ERRNO.NONE. */
  const ERRNO_NONE := 0

  /** The finger-count keys, the one for `k + 1` fingers at index `k`. */
  const ToolKeys: seq<int> := [BTN_TOOL_FINGER, BTN_TOOL_DOUBLETAP, BTN_TOOL_TRIPLETAP, BTN_TOOL_QUADTAP, BTN_TOOL_QUINTTAP]

  datatype InputEvent = Write(kind: int, code: int, value: int) | Sync

  datatype Capability =
    | Property(prop: int)
    | EventType(kind: int)
    /** A code with the `maximum` of its input_absinfo (every other field 0). */
    | CustomCode(kind: int, code: int, maximum: int)
    | TypeCodes(kind: int, codes: seq<int>)

  /** C#'s unchecked `(int)` on a `uint`. */
  function AsInt32(u: uint32): (r: int)
    ensures -0x8000_0000 <= r < 0x8000_0000
    ensures r % 0x1_0000_0000 == u
  {
    if u < 0x8000_0000 then u else u - 0x1_0000_0000
  }

  /** C#'s `++` on a `uint`. */
  function Increment(u: uint32): (r: uint32)
    ensures u < 0xFFFF_FFFF ==> r == u + 1
    ensures u == 0xFFFF_FFFF ==> r == 0
  {
    (u + 1) % 0x1_0000_0000
  }

  /** The capabilities EnableCustomCodes declares: slots and tracking ids up to
      10, positions up to the truncated screen size, a contact size up to 1. */
  function CustomCodes(screenScale: Vec): (c: seq<Capability>)
    ensures |c| == 7
    ensures forall i :: 0 <= i < |c| ==> c[i].CustomCode? && c[i].kind == EV_ABS
    ensures forall i :: 0 <= i < |c| && c[i].code in {ABS_MT_POSITION_X, ABS_X} ==> c[i].maximum == Truncate(screenScale.x)
    ensures forall i :: 0 <= i < |c| && c[i].code in {ABS_MT_POSITION_Y, ABS_Y} ==> c[i].maximum == Truncate(screenScale.y)
    ensures forall i :: 0 <= i < |c| && c[i].code in {ABS_MT_SLOT, ABS_MT_TRACKING_ID} ==> c[i].maximum == 10
  {
    [ CustomCode(EV_ABS, ABS_MT_SLOT, 10),
      CustomCode(EV_ABS, ABS_MT_TRACKING_ID, 10),
      CustomCode(EV_ABS, ABS_MT_POSITION_X, Truncate(screenScale.x)),
      CustomCode(EV_ABS, ABS_MT_POSITION_Y, Truncate(screenScale.y)),
      CustomCode(EV_ABS, ABS_MT_TOUCH_MAJOR, 1),
      CustomCode(EV_ABS, ABS_X, Truncate(screenScale.x)),
      CustomCode(EV_ABS, ABS_Y, Truncate(screenScale.y)) ]
  }

  /** Everything Initialize enables, in order. */
  function Capabilities(screenScale: Vec): seq<Capability>
  {
    [Property(INPUT_PROP_POINTER), EventType(EV_ABS)]
      + CustomCodes(screenScale)
      + [TypeCodes(EV_KEY, [BTN_TOUCH] + ToolKeys)]
  }

  /** What SetPosition writes: select the slot, give it a tracking id equal to
      the slot, then the truncated position and a contact size of 1. */
  function PositionEvents(index: uint32, point: Vec): seq<InputEvent>
  {
    [ Write(EV_ABS, ABS_MT_SLOT, AsInt32(index)),
      Write(EV_ABS, ABS_MT_TRACKING_ID, AsInt32(index)),
      Write(EV_ABS, ABS_MT_POSITION_X, Truncate(point.x)),
      Write(EV_ABS, ABS_MT_POSITION_Y, Truncate(point.y)),
      Write(EV_ABS, ABS_MT_TOUCH_MAJOR, 1) ]
  }

  /** What SetInactive writes, and what CleanupInactives writes per released
      slot: select the slot and end its contact (tracking id -1). */
  function ReleaseEvents(index: uint32): seq<InputEvent>
  {
    [Write(EV_ABS, ABS_MT_SLOT, AsInt32(index)), Write(EV_ABS, ABS_MT_TRACKING_ID, -1)]
  }

  /** Whether the slot was active at the last flush and has not been marked
      since. */
  predicate Released(last: seq<bool>, active: seq<bool>, i: int)
    requires 0 <= i < |last| && |last| == |active|
  {
    last[i] && !active[i]
  }

  /** The writes of CleanupInactives for slots `0 .. n - 1`, ascending. */
  function CleanupEvents(last: seq<bool>, active: seq<bool>, n: nat): seq<InputEvent>
    requires n <= |last| == |active| < 0x1_0000_0000
  {
    if n == 0 then []
    else CleanupEvents(last, active, n - 1)
         + (if Released(last, active, n - 1) then ReleaseEvents(n - 1) else [])
  }

  /** The BTN_TOOL keys for `current` fingers. */
  function ToolEvents(current: uint32): seq<InputEvent>
  {
    seq(5, k requires 0 <= k < 5 => Write(EV_KEY, ToolKeys[k], if current == k + 1 then 1 else 0))
  }

  /** WriteMultitouchEvent: BTN_TOUCH says whether any finger is down; the
      finger-count keys are written only while a finger is down now or was at
      the last flush. */
  function MultitouchEvents(current: uint32, last: uint32): seq<InputEvent>
  {
    [Write(EV_KEY, BTN_TOUCH, if current > 0 then 1 else 0)]
      + (if current > 0 || last > 0 then ToolEvents(current) else [])
  }

  /** WritePrimary: the single-touch axes follow slot 0's position. */
  function PrimaryEvents(primary: Vec): seq<InputEvent>
  {
    [Write(EV_ABS, ABS_X, Truncate(primary.x)), Write(EV_ABS, ABS_Y, Truncate(primary.y))]
  }

  /** Everything Flush writes, ending with the sync. */
  function FlushEvents(current: uint32, last: uint32, primary: Vec): seq<InputEvent>
  {
    MultitouchEvents(current, last) + PrimaryEvents(primary) + [Sync]
  }

  /** CleanupInactives writes a release pair for exactly the released slots:
      a slot is selected in its output iff it is released. */
  lemma {:induction false} CleanupSelectsExactlyReleased(last: seq<bool>, active: seq<bool>, n: nat, i: uint32)
    requires n <= |last| == |active| < 0x8000_0000
    ensures Write(EV_ABS, ABS_MT_SLOT, i as int) in CleanupEvents(last, active, n)
        <==> i < n && Released(last, active, i)
  {
    if n > 0 {
      CleanupSelectsExactlyReleased(last, active, n - 1, i);
      var tail := if Released(last, active, n - 1) then ReleaseEvents(n - 1) else [];
      assert CleanupEvents(last, active, n) == CleanupEvents(last, active, n - 1) + tail;
      assert Write(EV_ABS, ABS_MT_SLOT, i as int) in tail <==> i as int == n - 1 && Released(last, active, n - 1);
    }
  }

  /** Its output is made of whole release pairs only: every even position
      selects a released slot below `n`, and the write after it ends that
      slot's contact. */
  lemma {:induction false} CleanupIsReleasePairs(last: seq<bool>, active: seq<bool>, n: nat)
    requires n <= |last| == |active| < 0x1_0000_0000
    ensures |CleanupEvents(last, active, n)| % 2 == 0
    ensures forall k :: 0 <= k < |CleanupEvents(last, active, n)| && k % 2 == 1
              ==> CleanupEvents(last, active, n)[k] == Write(EV_ABS, ABS_MT_TRACKING_ID, -1)
    ensures forall k :: 0 <= k < |CleanupEvents(last, active, n)| && k % 2 == 0
              ==> exists j: uint32 :: j < n && Released(last, active, j as int)
                    && CleanupEvents(last, active, n)[k] == Write(EV_ABS, ABS_MT_SLOT, AsInt32(j))
  {
    if n > 0 {
      CleanupIsReleasePairs(last, active, n - 1);
      var prefix := CleanupEvents(last, active, n - 1);
      var tail := if Released(last, active, n - 1) then ReleaseEvents(n - 1) else [];
      var all := CleanupEvents(last, active, n);
      assert all == prefix + tail;
      forall k | 0 <= k < |all| && k % 2 == 0
        ensures exists j: uint32 :: j < n && Released(last, active, j as int)
                  && all[k] == Write(EV_ABS, ABS_MT_SLOT, AsInt32(j))
      {
        if k < |prefix| {
          assert all[k] == prefix[k];
        } else {
          var j: uint32 := (n - 1) as uint32;
          assert k == |prefix| && all[k] == tail[0];
          assert j < n && Released(last, active, j as int) && all[k] == Write(EV_ABS, ABS_MT_SLOT, AsInt32(j));
        }
      }
    }
  }

  /** Once nothing is released (say, right after a flush that left every slot
      marked or idle), CleanupInactives writes nothing. */
  lemma {:induction false} CleanupSilentWhenNothingReleased(last: seq<bool>, active: seq<bool>, n: nat)
    requires n <= |last| == |active| < 0x1_0000_0000
    requires forall i :: 0 <= i < n ==> !Released(last, active, i)
    ensures CleanupEvents(last, active, n) == []
  {
    if n > 0 {
      CleanupSilentWhenNothingReleased(last, active, n - 1);
    }
  }

  /** Of the finger-count keys written, the one for `current` fingers is 1 and
      every other one is 0: at most one is 1, and none when more than five
      fingers are down. */
  lemma ToolEventsAtMostOne(current: uint32)
    ensures |ToolEvents(current)| == 5
    ensures forall k :: 0 <= k < 5 ==> ToolEvents(current)[k].code == ToolKeys[k]
    ensures forall k :: 0 <= k < 5 ==> (ToolEvents(current)[k].value == 1 <==> current == k + 1)
    ensures forall j, k :: 0 <= j < k < 5 ==> ToolEvents(current)[j].value == 0 || ToolEvents(current)[k].value == 0
    ensures current == 0 || current > 5 ==> forall k :: 0 <= k < 5 ==> ToolEvents(current)[k].value == 0
  {
  }

  /** The five finger-count keys are distinct codes. */
  lemma ToolKeysDistinct()
    ensures forall j, k :: 0 <= j < k < |ToolKeys| ==> ToolKeys[j] != ToolKeys[k]
    ensures BTN_TOUCH !in ToolKeys
  {
  }

  /** A flush with no finger now and none at the last flush reports only that
      no finger is down, the primary position and the sync; otherwise it also
      reports the finger count. */
  lemma FlushEventsShape(current: uint32, last: uint32, primary: Vec)
    ensures current == 0 && last == 0 ==>
      FlushEvents(current, last, primary) == [Write(EV_KEY, BTN_TOUCH, 0)] + PrimaryEvents(primary) + [Sync]
    ensures current > 0 || last > 0 ==> |FlushEvents(current, last, primary)| == 9
    ensures FlushEvents(current, last, primary)[0] == Write(EV_KEY, BTN_TOUCH, if current > 0 then 1 else 0)
    ensures FlushEvents(current, last, primary)[|FlushEvents(current, last, primary)| - 1] == Sync
  {
  }

  class LinuxTouchDevice {
    var count: uint32
    var lastActiveTouches: array<bool>
    var activeTouches: array<bool>
    const screenScale: Vec
    var primaryPosition: Vec
    var lastCount: uint32
    var currentCount: uint32
    ghost var events: seq<InputEvent>
    ghost var capabilities: seq<Capability>

    /** Both activity arrays hold one entry per slot. */
    ghost predicate Ready()
      reads this
    {
      && activeTouches.Length == count as int
      && lastActiveTouches.Length == count as int
      && activeTouches != lastActiveTouches
    }

    /** LinuxTouchDevice(width, height). */
    constructor (width: real, height: real)
      ensures screenScale == Vec(width, height) && primaryPosition == Zero
      ensures count == 0 && lastCount == 0 && currentCount == 0
      ensures Ready() && events == [] && capabilities == []
    {
      count := 0;
      lastActiveTouches := new bool[0];
      activeTouches := new bool[0];
      screenScale := Vec(width, height);
      primaryPosition := Zero;
      lastCount := 0;
      currentCount := 0;
      events := [];
      capabilities := [];
    }

    /** Initialize(count); `result` is what the evdev device's own
        initialisation reports. BuildPointers does nothing on Linux. */
    method Initialize(count: uint32, result: int) returns (ok: bool)
      modifies this
      ensures Ready() && this.count == count
      ensures fresh(activeTouches) && fresh(lastActiveTouches)
      ensures activeTouches[..] == seq(count, _ => false) && lastActiveTouches[..] == seq(count, _ => false)
      ensures capabilities == old(capabilities) + Capabilities(screenScale)
      ensures ok <==> result == ERRNO_NONE
      ensures events == old(events) && primaryPosition == old(primaryPosition)
      ensures lastCount == old(lastCount) && currentCount == old(currentCount)
    {
      this.count := count;
      lastActiveTouches := new bool[count](_ => false);
      activeTouches := new bool[count](_ => false);

      capabilities := capabilities + [Property(INPUT_PROP_POINTER), EventType(EV_ABS)];
      EnableCustomCodes();
      capabilities := capabilities + [TypeCodes(EV_KEY, [BTN_TOUCH] + ToolKeys)];

      ok := result == ERRNO_NONE;
    }

    method EnableCustomCodes()
      modifies this`capabilities
      ensures capabilities == old(capabilities) + CustomCodes(screenScale)
    {
      capabilities := capabilities + [CustomCode(EV_ABS, ABS_MT_SLOT, 10)];
      capabilities := capabilities + [CustomCode(EV_ABS, ABS_MT_TRACKING_ID, 10)];
      capabilities := capabilities + [CustomCode(EV_ABS, ABS_MT_POSITION_X, Truncate(screenScale.x))];
      capabilities := capabilities + [CustomCode(EV_ABS, ABS_MT_POSITION_Y, Truncate(screenScale.y))];
      capabilities := capabilities + [CustomCode(EV_ABS, ABS_MT_TOUCH_MAJOR, 1)];
      capabilities := capabilities + [CustomCode(EV_ABS, ABS_X, Truncate(screenScale.x))];
      capabilities := capabilities + [CustomCode(EV_ABS, ABS_Y, Truncate(screenScale.y))];
    }

    /** GetCursorLocation: the Linux device never knows the cursor. */
    function GetCursorLocation(): (r: Option<Point>)
      ensures r == None
    {
      None
    }

    /** SetPosition(index, point). `_activeTouches[index]` throws for an index
        outside the slots, so the model requires one inside. */
    method SetPosition(index: uint32, point: Vec)
      requires Ready() && index < count
      modifies this`primaryPosition, this`currentCount, this`events, activeTouches
      ensures Ready()
      ensures events == old(events) + PositionEvents(index, point)
      ensures activeTouches[..] == old(activeTouches[..])[index as int := true]
      ensures currentCount == Increment(old(currentCount))
      ensures primaryPosition == if index == 0 then point else old(primaryPosition)
      ensures lastActiveTouches[..] == old(lastActiveTouches[..])
    {
      if index == 0 {
        primaryPosition := point;
      }

      events := events + [Write(EV_ABS, ABS_MT_SLOT, AsInt32(index))];
      events := events + [Write(EV_ABS, ABS_MT_TRACKING_ID, AsInt32(index))];
      events := events + [Write(EV_ABS, ABS_MT_POSITION_X, Truncate(point.x))];
      events := events + [Write(EV_ABS, ABS_MT_POSITION_Y, Truncate(point.y))];
      events := events + [Write(EV_ABS, ABS_MT_TOUCH_MAJOR, 1)];

      activeTouches[index] := true;
      currentCount := Increment(currentCount);
    }

    /** SetPressure: every write in it is commented out. */
    method SetPressure(index: uint32, pressure: uint32)
      ensures unchanged(this)
    {
    }

    /** SetInactive(index): only the release pair; no array or counter
        changes, and no index check is needed. */
    method SetInactive(index: uint32)
      modifies this`events
      ensures events == old(events) + ReleaseEvents(index)
    {
      events := events + [Write(EV_ABS, ABS_MT_SLOT, AsInt32(index))];
      events := events + [Write(EV_ABS, ABS_MT_TRACKING_ID, -1)];
    }

    /** CleanupInactives(points): `points` is not read. A release pair for each
        slot active at the last flush and not marked since, in ascending
        order. */
    method CleanupInactives<T>(points: seq<Option<T>>)
      requires Ready()
      modifies this`events
      ensures events == old(events) + CleanupEvents(lastActiveTouches[..], activeTouches[..], count as nat)
    {
      var index: uint32 := 0;
      while index < count
        invariant index <= count
        invariant events == old(events) + CleanupEvents(lastActiveTouches[..], activeTouches[..], index as nat)
      {
        if lastActiveTouches[index] == true && activeTouches[index] == false {
          events := events + [Write(EV_ABS, ABS_MT_SLOT, AsInt32(index))];
          events := events + [Write(EV_ABS, ABS_MT_TRACKING_ID, -1)];
        }
        index := index + 1;
      }
    }

    /** Flush: the finger-count, primary-position and sync events; then the
        current frame becomes the last one and the current one is cleared. */
    method Flush()
      requires Ready()
      modifies this`events, this`lastCount, this`currentCount, this`lastActiveTouches, activeTouches
      ensures Ready()
      ensures events == old(events) + FlushEvents(old(currentCount), old(lastCount), primaryPosition)
      ensures lastCount == old(currentCount) && currentCount == 0
      ensures fresh(lastActiveTouches) && lastActiveTouches[..] == old(activeTouches[..])
      ensures activeTouches[..] == seq(count, _ => false)
    {
      WriteMultitouchEvent();
      WritePrimary();

      events := events + [Sync];

      lastCount := currentCount;
      var active := activeTouches;
      lastActiveTouches := new bool[active.Length](i requires 0 <= i < active.Length reads active => active[i]);

      currentCount := 0;
      var i := 0;
      while i < activeTouches.Length
        invariant 0 <= i <= activeTouches.Length
        invariant forall k :: 0 <= k < i ==> !activeTouches[k]
        modifies activeTouches
      {
        activeTouches[i] := false;
        i := i + 1;
      }
    }

    method WriteMultitouchEvent()
      modifies this`events
      ensures events == old(events) + MultitouchEvents(currentCount, lastCount)
    {
      events := events + [Write(EV_KEY, BTN_TOUCH, if currentCount > 0 then 1 else 0)];

      if currentCount > 0 || lastCount > 0 {
        events := events + [Write(EV_KEY, BTN_TOOL_FINGER, if currentCount == 1 then 1 else 0)];
        events := events + [Write(EV_KEY, BTN_TOOL_DOUBLETAP, if currentCount == 2 then 1 else 0)];
        events := events + [Write(EV_KEY, BTN_TOOL_TRIPLETAP, if currentCount == 3 then 1 else 0)];
        events := events + [Write(EV_KEY, BTN_TOOL_QUADTAP, if currentCount == 4 then 1 else 0)];
        events := events + [Write(EV_KEY, BTN_TOOL_QUINTTAP, if currentCount == 5 then 1 else 0)];
      }
    }

    method WritePrimary()
      modifies this`events
      ensures events == old(events) + PrimaryEvents(primaryPosition)
    {
      events := events + [Write(EV_ABS, ABS_X, Truncate(primaryPosition.x))];
      events := events + [Write(EV_ABS, ABS_Y, Truncate(primaryPosition.y))];
    }
  }
}
