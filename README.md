# Native Gestures — a Dafny model of the touch core

Native Gestures is an OpenTabletDriver plugin. It turns the touch reports of a
pen tablet into native multi-touch input, so that touch gestures reach the
operating system. This project models the core of that plugin and proves
properties about it:

- **The pointer records a Windows device injects.** `POINTER_TYPE_INFO` and
  `POINTER_TOUCH_INFO` get their own classes. The flag arithmetic over the
  `POINTER_FLAGS` bit word is proved about pure functions.
- **The two virtual touch devices.**
  - The Windows synthetic pointer device is a class that owns an array of
    pointer records and the `_lastContact` array. What it injects is a ghost
    log of snapshots.
  - The Linux evdev device is a class with its two activity arrays. What it
    writes is a ghost log of input events.
- **The touch handlers.**
  - 0.5.x: the touchscreen handler and the absolute-mode touchpad handler with
    its relative primary pointer.
  - 0.6.x: the touchscreen handler with its area limiting and clipping, and the
    relative-mode touchpad handler with its ten per-slot relative pointers and
    its early return.
  - Each handler is a class whose frame method is proved equal to a pure
    specification of one frame: the list of calls made on the touch device,
    the new counters and the new pointer state. The lemmas are proved about
    those specifications.
- **The plugin entry points of both versions.**
  - The 0.5.x `AbsoluteNativeGesturesHandler`: its initialisation chain and
    its built-in pass over the touch array.
  - The 0.6.x `AbsoluteNativeGesturesHandler`: its initialisation chain, its
    handler dispatch (`GetHandler`), its `Consume` gate and its tunable
    properties.

Modelling choices:

- Vectors are pairs of reals.
- Integer points and rectangles are unbounded integers.
- `uint` fields are `uint32` with their wrap-around written out where the code
  can wrap.
- `TimeSpan` values are ticks. The millisecond properties convert with
  `FromMilliseconds` and truncate with `(long)TotalMilliseconds`.
- The host's transposition of a touch (`InternalTranspose`) is a function value
  carried by the output mode.
- Everything the code reads from the environment is a parameter of the method
  that reads it:
  - the foreground window;
  - the result of creating and initialising a device;
  - the cursor location;
  - the stopwatch readings;
  - the platform and the Windows build.

`uint32`, `Vec`, `Point`, `Rect`, `Area` and `Option` are
defined in `geometry.dfy`; the output modes, reports and platforms in
`host.dfy`; the frame vocabulary shared by the handlers in `frames.dfy`; the
primary pointer of the 0.5.x touchpad handler and plugin in
`primary_pointer.dfy`.

## Model

Rows for the specification functions that carry no contract of their own
(the frame, visit and slot functions, the flag words, the event sequences)
say what the definition computes. What they promise is stated by the lemmas
and methods in the rows beside them.

| member | source | states |
|---|---|---|
| Geometry.ClampScalar | Native-Gestures-0.6.x/Handlers/TouchscreenHandler.cs:101 | Vector2.Clamp on one coordinate: a value inside `[lo, hi]` is kept, one below goes to `lo`, one above to `hi`, and on an ordered interval the result is inside |
| Geometry.Clamp | Native-Gestures-0.6.x/Handlers/TouchscreenHandler.cs:101 | a point inside the bounds is unchanged; on ordered bounds the result is always inside |
| Geometry.ClampFixesExactlyInside | Native-Gestures-0.6.x/Handlers/TouchscreenHandler.cs:101-103 | on ordered bounds the clamp leaves a point unchanged exactly when the point is inside, which is what the area-limiting test relies on |
| Geometry.DisplayBounds | Native-Gestures-0.6.x/Handlers/TouchscreenHandler.cs:39-48 | with a display the bounds have the display's width and height and are centred on its position (`min = pos - size/2`, `max = pos + size - size/2`); with none they are the fallback; they are ordered iff the size is non-negative |
| Geometry.Truncate | Native-Gestures.Lib/Devices/WindowsTouchDevice.cs:131 | the C# `(int)` cast of a float: the integer between zero and the value that is less than one away from it |
| Geometry.FromXYWH | Native-Gestures.Lib/Extensions/POINTER_TYPE_INFO_Extensions.cs:21-28 | RECT.FromXYWH: the rectangle starts at `(x, y)` and has the given width and height |
| Host.MaxTouchCount | Native-Gestures-0.5.x/NativeGestureHandler.cs:66-71 | the slot capacity is 10 on Windows, 256 on Linux and 0 elsewhere |
| Host.TransformVec | Native-Gestures-0.6.x/Handlers/TouchscreenHandler.cs:98 | Vector2.Transform by a Matrix3x2: the 2x2 linear part applied to the vector, plus the translation row |
| Host.DeviceAvailable | Native-Gestures-0.6.x/NativeGestureHandler.cs:65-70 | the static TouchDevice yields a device on Windows from build 17763 on and on Linux, and null on every other platform |
| AreaExtensions.GetTopLeft | Native-Gestures-0.5.x/Extensions/AreaExtensions.cs:8-11 | the top-left corner plus half the size is the area's centre; it is the `min` corner of the display bounds under either fallback |
| AreaExtensions.TopLeftTranslates | Native-Gestures-0.5.x/Extensions/AreaExtensions.cs:8-11 | moving the area moves its top-left corner by the same offset |
| PointerFlags.SetBitsEffect | Native-Gestures.Lib/Extensions/POINTER_TYPE_INFO_Extensions.cs:40-43 | setting flags makes every given bit 1 and leaves every other bit as it was |
| PointerFlags.SetBits | Native-Gestures.Lib/Extensions/POINTER_TYPE_INFO_Extensions.cs:40-43 | `flags |= value` on the record's flag word (its effect is stated by SetBitsEffect and SetBitsUnique) |
| PointerFlags.UnsetBits | Native-Gestures.Lib/Extensions/POINTER_TYPE_INFO_Extensions.cs:45-48 | `flags &= ~value` on the record's flag word (its effect is stated by UnsetBitsEffect and UnsetBitsUnique) |
| PointerFlags.UnsetBitsEffect | Native-Gestures.Lib/Extensions/POINTER_TYPE_INFO_Extensions.cs:45-48 | unsetting flags makes every given bit 0 and leaves every other bit as it was |
| PointerFlags.SetBitsUnique | Native-Gestures.Lib/Extensions/POINTER_TYPE_INFO_Extensions.cs:40-43 | any word with the given bits set and the others as before is the result of setting: the effect determines the operation |
| PointerFlags.UnsetBitsUnique | Native-Gestures.Lib/Extensions/POINTER_TYPE_INFO_Extensions.cs:45-48 | any word with the given bits clear and the others as before is the result of unsetting |
| PointerFlags.SetBitsIdempotent | Native-Gestures.Lib/Extensions/POINTER_TYPE_INFO_Extensions.cs:40-43 | setting the same flags twice is setting them once |
| PointerFlags.UnsetBitsIdempotent | Native-Gestures.Lib/Extensions/POINTER_TYPE_INFO_Extensions.cs:45-48 | unsetting the same flags twice is unsetting them once |
| PointerFlags.UnsetUndoesSet | Native-Gestures.Lib/Extensions/POINTER_TYPE_INFO_Extensions.cs:40-48 | set then unset of the same flags leaves them clear, and restores the word when those bits were clear before |
| PointerFlags.SetUnsetCommute | Native-Gestures.Lib/Extensions/POINTER_TYPE_INFO_Extensions.cs:40-48 | setting and unsetting disjoint flag sets can be done in either order |
| PointerFlags.StateBitsDisjoint | Native-Gestures.Lib/Devices/WindowsTouchDevice.cs:137-175 | the seven POINTER_FLAG constants the device combines are pairwise disjoint bits |
| PointerInfo.Placed | Native-Gestures.Lib/Extensions/POINTER_TOUCH_INFO_Extensions.cs:9-16 | a placement sets the pixel location and raw location to the point and both contact rectangles to `FromXYWH(x, y, 2, 2)`, and changes no other field |
| PointerInfo.PlacedOverrides | Native-Gestures.Lib/Extensions/POINTER_TOUCH_INFO_Extensions.cs:9-16 | placing twice is placing once at the second point |
| PointerInfo.PointerTouchInfo.constructor | Native-Gestures.Lib/Devices/WindowsTouchDevice.cs:60-98 | a fresh touch record carries its pointer id and empty flags |
| PointerInfo.PointerTouchInfo.Move | Native-Gestures.Lib/Extensions/POINTER_TOUCH_INFO_Extensions.cs:9-16 | Move(x, y) is the placement at `(x, y)` |
| PointerInfo.PointerTouchInfo.SetPointerFlags | Native-Gestures.Lib/Extensions/POINTER_TOUCH_INFO_Extensions.cs:18-21 | ORs the flags into the flag word and changes no other field |
| PointerInfo.PointerTouchInfo.UnsetPointerFlags | Native-Gestures.Lib/Extensions/POINTER_TOUCH_INFO_Extensions.cs:23-26 | clears the flags from the flag word and changes no other field |
| PointerInfo.PointerTypeInfo.constructor | Native-Gestures.Lib/Devices/WindowsTouchDevice.cs:60-98 | a pointer record wraps the given touch record |
| PointerInfo.PointerTypeInfo.SetPosition | Native-Gestures.Lib/Extensions/POINTER_TYPE_INFO_Extensions.cs:10-19 | the touch record becomes the placement at `(x, y)` |
| PointerInfo.PointerTypeInfo.SetPositionPoint | Native-Gestures.Lib/Extensions/POINTER_TYPE_INFO_Extensions.cs:21-28 | the Point overload places the record at that point |
| PointerInfo.PointerTypeInfo.SetPressure | Native-Gestures.Lib/Extensions/POINTER_TYPE_INFO_Extensions.cs:30-33 | only the pressure field changes |
| PointerInfo.PointerTypeInfo.SetTarget | Native-Gestures.Lib/Extensions/POINTER_TYPE_INFO_Extensions.cs:35-38 | only the target window changes |
| PointerInfo.PointerTypeInfo.SetPointerFlags | Native-Gestures.Lib/Extensions/POINTER_TYPE_INFO_Extensions.cs:40-43 | ORs the flags in; nothing else changes |
| PointerInfo.PointerTypeInfo.UnsetPointerFlags | Native-Gestures.Lib/Extensions/POINTER_TYPE_INFO_Extensions.cs:45-48 | clears the flags; nothing else changes |
| PointerInfo.PointerTypeInfo.ClearPointerFlags | Native-Gestures.Lib/Extensions/POINTER_TYPE_INFO_Extensions.cs:50-53 | the flag word becomes 0; nothing else changes |
| PointerInfo.PointerTypeInfo.ClearPointerFlagsTo | Native-Gestures.Lib/Extensions/POINTER_TYPE_INFO_Extensions.cs:55-58 | the flag word is assigned exactly the given flags and is not cleared of them; nothing else changes |
| WindowsDevice.PositionFlagsFirstContact | Native-Gestures.Lib/Devices/WindowsTouchDevice.cs:135-140 | the first SetPosition after inactivity sets INRANGE and clears CANCELED and UPDATE, leaving every other bit |
| WindowsDevice.PositionFlags | Native-Gestures.Lib/Devices/WindowsTouchDevice.cs:135-142 | the flag word after SetPosition: without a last contact, CANCELED and UPDATE are cleared and INRANGE is set; with one, UPDATE is set |
| WindowsDevice.PressureFlags | Native-Gestures.Lib/Devices/WindowsTouchDevice.cs:151-162 | the flag word after SetPressure: a positive pressure clears CANCELED and UP and sets INCONTACT and DOWN; zero clears INCONTACT and DOWN and sets UP |
| WindowsDevice.InactiveFlags | Native-Gestures.Lib/Devices/WindowsTouchDevice.cs:168-175 | the flag word after SetInactive: DOWN, UP, INCONTACT and INRANGE are cleared, then CANCELED and UPDATE are set after a contact and cleared otherwise |
| WindowsDevice.TruncatedPoint | Native-Gestures.Lib/Devices/WindowsTouchDevice.cs:131 | `new Point((int)point.X, (int)point.Y)`, truncating each coordinate toward zero |
| WindowsDevice.InitialFields | Native-Gestures.Lib/Devices/WindowsTouchDevice.cs:64-97 | the record BuildPointers gives slot i (pointer id i + 1, no flags, zero location) once SetAllTargets has set the foreground window as its target |
| WindowsDevice.PositionFlagsLaterContact | Native-Gestures.Lib/Devices/WindowsTouchDevice.cs:141-142 | later SetPosition calls only add UPDATE |
| WindowsDevice.PressureFlagsDown | Native-Gestures.Lib/Devices/WindowsTouchDevice.cs:151-156 | a positive pressure sets INCONTACT and DOWN and clears CANCELED and UP; other bits are untouched |
| WindowsDevice.PressureFlagsUp | Native-Gestures.Lib/Devices/WindowsTouchDevice.cs:157-162 | zero pressure sets UP and clears INCONTACT and DOWN; other bits are untouched |
| WindowsDevice.InactiveFlagsEffect | Native-Gestures.Lib/Devices/WindowsTouchDevice.cs:165-178 | SetInactive always clears DOWN, UP, INCONTACT and INRANGE, and sets CANCELED and UPDATE iff the slot was in contact (clears them otherwise); other bits are untouched |
| WindowsDevice.ContactLifecycle | Native-Gestures.Lib/Devices/WindowsTouchDevice.cs:126-178 | from any flag word, hovering, pressing, moving and lifting a touch set INRANGE, INCONTACT, DOWN, UPDATE and UP in turn with CANCELED clear; ending it after contact leaves exactly CANCELED and UPDATE of the lifecycle bits; the next touch starts from INRANGE alone; bits outside the lifecycle are never touched |
| WindowsDevice.InitialBatch | Native-Gestures.Lib/Devices/WindowsTouchDevice.cs:60-98 | BuildPointers then SetAllTargets: `count` records, record `i` with id `i+1`, empty flags and the foreground window as target |
| WindowsDevice.CursorLocation | Native-Gestures.Lib/Devices/WindowsTouchDevice.cs:101-123 | a location exists iff the monitor and its work area were found; it is the cursor offset by the work area's top-left corner |
| WindowsDevice.WindowsTouchDevice.Snapshot | Native-Gestures.Lib/Devices/WindowsTouchDevice.cs:192-193 | the array of pointer records as injected, one entry per slot |
| WindowsDevice.WindowsTouchDevice.constructor | Native-Gestures.Lib/Devices/WindowsTouchDevice.cs:31-58 | a new device has no slots, no handle and has injected nothing |
| WindowsDevice.WindowsTouchDevice.Initialize | Native-Gestures.Lib/Devices/WindowsTouchDevice.cs:31-58 | stores the count and `count` false contact flags; returns false without building pointers when the handle is null or an error is set; otherwise injects the initial batch once, and on success assigns slot 0's flag word exactly PRIMARY; the result is true iff everything succeeded |
| WindowsDevice.WindowsTouchDevice.Populate | Native-Gestures.Lib/Devices/WindowsTouchDevice.cs:44-45 | building the pointers and targeting them gives the initial batch |
| WindowsDevice.WindowsTouchDevice.AssignFlags | Native-Gestures.Lib/Devices/WindowsTouchDevice.cs:232-235 | assigns one slot's flag word and leaves every other slot |
| WindowsDevice.WindowsTouchDevice.BuildPointers | Native-Gestures.Lib/Devices/WindowsTouchDevice.cs:60-98 | fresh records, slot `i` with pointer id `i+1` and empty flags |
| WindowsDevice.WindowsTouchDevice.SetAllTargets | Native-Gestures.Lib/Devices/WindowsTouchDevice.cs:199-203 | every slot targets the foreground window and nothing else changes |
| WindowsDevice.WindowsTouchDevice.SetPosition | Native-Gestures.Lib/Devices/WindowsTouchDevice.cs:126-145 | an index at or past the count changes nothing; otherwise the slot is placed at the truncated point, gets the first-contact or later-contact flags, the foreground target and `_lastContact[index] = true`; no other slot changes |
| WindowsDevice.WindowsTouchDevice.SetPressure | Native-Gestures.Lib/Devices/WindowsTouchDevice.cs:147-163 | only the slot's flag word changes, by the pressure rule; the pressure value itself is not stored |
| WindowsDevice.WindowsTouchDevice.SetInactive | Native-Gestures.Lib/Devices/WindowsTouchDevice.cs:165-178 | the slot's flags follow the inactive rule for its old contact state and its contact flag becomes false; no other slot changes |
| WindowsDevice.WindowsTouchDevice.CleanupInactives | Native-Gestures.Lib/Devices/WindowsTouchDevice.cs:180-187 | exactly the slots below `min(Count, points.Length)` with a null entry and a contact are made inactive; afterwards no slot is left to release, so a second call changes nothing |
| WindowsDevice.WindowsTouchDevice.Flush | Native-Gestures.Lib/Devices/WindowsTouchDevice.cs:190-196 | injects the current records as one batch and changes no slot |
| WindowsDevice.WindowsTouchDevice.SetPointerFlags | Native-Gestures.Lib/Devices/WindowsTouchDevice.cs:205-208 | ORs flags into one slot |
| WindowsDevice.WindowsTouchDevice.UnsetPointerFlags | Native-Gestures.Lib/Devices/WindowsTouchDevice.cs:216-219 | clears flags from one slot |
| LinuxDevice.AsInt32 | Native-Gestures.Lib/Devices/LinuxTouchDevice.cs:151-152 | the `(int)` cast of a `uint`: the 32-bit value read as a signed number |
| LinuxDevice.Increment | Native-Gestures.Lib/Devices/LinuxTouchDevice.cs:159 | `_currentCount++` on a `uint`, which wraps from the maximum to 0 |
| LinuxDevice.CustomCodes | Native-Gestures.Lib/Devices/LinuxTouchDevice.cs:68-132 | seven EV_ABS codes: slot and tracking id up to 10, the X and Y codes up to the truncated screen scale |
| LinuxDevice.Capabilities | Native-Gestures.Lib/Devices/LinuxTouchDevice.cs:40-53 | Initialize enables INPUT_PROP_POINTER, EV_ABS, the custom absolute codes, then EV_KEY with BTN_TOUCH and the five BTN_TOOL keys, in that order |
| LinuxDevice.PositionEvents | Native-Gestures.Lib/Devices/LinuxTouchDevice.cs:151-155 | SetPosition writes SLOT and TRACKING_ID as the index cast to int, the truncated MT position, and TOUCH_MAJOR 1 |
| LinuxDevice.ReleaseEvents | Native-Gestures.Lib/Devices/LinuxTouchDevice.cs:170-174 | SetInactive writes SLOT as the index cast to int, then TRACKING_ID -1 |
| LinuxDevice.Released | Native-Gestures.Lib/Devices/LinuxTouchDevice.cs:180 | a slot is released when it was active at the last flush and has not been set since |
| LinuxDevice.CleanupEvents | Native-Gestures.Lib/Devices/LinuxTouchDevice.cs:176-186 | CleanupInactives writes release pairs for the released slots, in ascending order |
| LinuxDevice.ToolEvents | Native-Gestures.Lib/Devices/LinuxTouchDevice.cs:210-214 | the five BTN_TOOL keys, each 1 exactly when the current count equals its finger count |
| LinuxDevice.MultitouchEvents | Native-Gestures.Lib/Devices/LinuxTouchDevice.cs:203-216 | BTN_TOUCH is 1 iff a finger is down; the BTN_TOOL keys follow only when the current or the last count is positive |
| LinuxDevice.PrimaryEvents | Native-Gestures.Lib/Devices/LinuxTouchDevice.cs:218-222 | ABS_X and ABS_Y are the primary position truncated to int |
| LinuxDevice.FlushEvents | Native-Gestures.Lib/Devices/LinuxTouchDevice.cs:189-194 | Flush writes the multitouch keys, the primary axes, then the sync |
| LinuxDevice.CleanupSelectsExactlyReleased | Native-Gestures.Lib/Devices/LinuxTouchDevice.cs:176-186 | a slot is addressed iff it is below the count, was active at the last flush and has not been marked since |
| LinuxDevice.CleanupIsReleasePairs | Native-Gestures.Lib/Devices/LinuxTouchDevice.cs:176-186 | the cleanup is a sequence of pairs: each even write selects (ABS_MT_SLOT) a released slot below the count, and each odd write is ABS_MT_TRACKING_ID = -1 |
| LinuxDevice.CleanupSilentWhenNothingReleased | Native-Gestures.Lib/Devices/LinuxTouchDevice.cs:176-186 | with nothing released it writes nothing |
| LinuxDevice.ToolEventsAtMostOne | Native-Gestures.Lib/Devices/LinuxTouchDevice.cs:207-215 | the five BTN_TOOL keys in order; key `k` is 1 iff the count is `k+1`, so at most one is 1 and none is for 0 or more than 5 fingers |
| LinuxDevice.ToolKeysDistinct | Native-Gestures.Lib/Devices/LinuxTouchDevice.cs:45-53 | the five tool keys are distinct and differ from BTN_TOUCH |
| LinuxDevice.FlushEventsShape | Native-Gestures.Lib/Devices/LinuxTouchDevice.cs:189-222 | a flush starts with BTN_TOUCH = (current > 0), writes the tool keys only when the current or last count is positive, and ends with a sync |
| LinuxDevice.LinuxTouchDevice.constructor | Native-Gestures.Lib/Devices/LinuxTouchDevice.cs:25-27 | a new device has the screen scale, zero counters and no events |
| LinuxDevice.LinuxTouchDevice.Initialize | Native-Gestures.Lib/Devices/LinuxTouchDevice.cs:30-66 | stores the count, allocates both activity arrays as `count` falses, enables the capabilities, and returns true iff device initialisation reported ERRNO.NONE |
| LinuxDevice.LinuxTouchDevice.EnableCustomCodes | Native-Gestures.Lib/Devices/LinuxTouchDevice.cs:68-132 | appends the seven custom absolute codes |
| LinuxDevice.LinuxTouchDevice.GetCursorLocation | Native-Gestures.Lib/Devices/LinuxTouchDevice.cs:140-143 | always none |
| LinuxDevice.LinuxTouchDevice.SetPosition | Native-Gestures.Lib/Devices/LinuxTouchDevice.cs:146-160 | appends SLOT, TRACKING_ID, POSITION_X, POSITION_Y and TOUCH_MAJOR=1 in order, marks the slot active and increments the count; the primary position changes only for index 0 |
| LinuxDevice.LinuxTouchDevice.SetPressure | Native-Gestures.Lib/Devices/LinuxTouchDevice.cs:162-168 | writes nothing and changes nothing |
| LinuxDevice.LinuxTouchDevice.SetInactive | Native-Gestures.Lib/Devices/LinuxTouchDevice.cs:170-174 | appends exactly SLOT=index and TRACKING_ID=-1; no state changes |
| LinuxDevice.LinuxTouchDevice.CleanupInactives | Native-Gestures.Lib/Devices/LinuxTouchDevice.cs:176-186 | ignores its argument and appends the release pairs of the released slots |
| LinuxDevice.LinuxTouchDevice.Flush | Native-Gestures.Lib/Devices/LinuxTouchDevice.cs:189-201 | appends the multitouch, primary and sync events; the last counters become the current ones, the activity array is cleared and the count reset to 0 |
| LinuxDevice.LinuxTouchDevice.WriteMultitouchEvent | Native-Gestures.Lib/Devices/LinuxTouchDevice.cs:203-216 | appends BTN_TOUCH and, when the current or last count is positive, the tool keys |
| LinuxDevice.LinuxTouchDevice.WritePrimary | Native-Gestures.Lib/Devices/LinuxTouchDevice.cs:218-222 | appends ABS_X and ABS_Y of the remembered slot-0 position |
| Frames.Limit | Native-Gestures-0.6.x/Handlers/TouchscreenHandler.cs:60 | `min(_maxTouchCount, touches.Length)` is at most both and equal to one of them |
| Frames.PlaceCalls | Native-Gestures-0.6.x/Handlers/TouchscreenHandler.cs:70-74 | a present touch that transposes is given its position and then full pressure; one whose transposition is dropped gets no call |
| Frames.ScreenSlot | Native-Gestures-0.6.x/Handlers/TouchscreenHandler.cs:64-74 | the calls for one loop entry: none when the entry is absent, otherwise its placement calls |
| Frames.ScreenVisit | Native-Gestures-0.6.x/Handlers/TouchscreenHandler.cs:62-77 | the calls of the loop over the first n entries, highest index first |
| Frames.FrameEnd | Native-Gestures-0.6.x/Handlers/TouchscreenHandler.cs:79-83 | after the loop: CleanupInactives, then a Flush iff the last or the current count is positive |
| Frames.ScreenFrame | Native-Gestures-0.6.x/Handlers/TouchscreenHandler.cs:56-86 | the calls of one touchscreen frame: the loop over `Math.Min(maxTouchCount, touches.Length)` entries, then FrameEnd |
| Frames.ActiveRange | Native-Gestures-0.6.x/Handlers/TouchscreenHandler.cs:64-76 | the count of present entries in a range is at most its length |
| Frames.ActiveRangeExtremes | Native-Gestures-0.6.x/Handlers/TouchscreenHandler.cs:64-76 | the count of a range is zero iff no entry in it is present, and its full length iff every entry is |
| Frames.ActiveRangeCountsPresent | Native-Gestures-0.6.x/Handlers/TouchscreenHandler.cs:64-76 | the count of a range is the number of indices in it whose entry is present |
| Frames.ScreenVisitPaired | Native-Gestures-0.6.x/Handlers/TouchscreenHandler.cs:62-77 | the frame loop makes only position and pressure calls, each position followed by full pressure for the same id |
| Frames.ScreenVisitPositions | Native-Gestures-0.6.x/Handlers/TouchscreenHandler.cs:62-77 | a position call for `(id, pos)` is made iff some visited entry is present with that id and transposes to `pos` |
| Frames.ScreenVisitLocal | Native-Gestures-0.5.x/Handlers/TouchscreenHandler.cs:43-48 | the loop reads no entry outside the visited range, so entries at or past the capacity are never visited |
| Frames.AbsentEntriesIgnored | Native-Gestures-0.5.x/Handlers/TouchscreenHandler.cs:45-48 | null entries make no calls and are not counted |
| Frames.ActiveCountsDropped | Native-Gestures-0.5.x/Handlers/TouchscreenHandler.cs:53-59 | the count includes entries whose transposition was dropped, so it is at least the number of placements and equal when nothing is dropped |
| Frames.ActiveRangeSplit | Native-Gestures-0.6.x/Handlers/TouchscreenHandler.cs:64-76 | the count of present entries splits at any index |
| Frames.FrameEndShape | Native-Gestures-0.6.x/Handlers/TouchscreenHandler.cs:79-85 | one CleanupInactives, then a Flush iff the last or current count is positive |
| Frames.ScreenFrameShape | Native-Gestures-0.6.x/Handlers/TouchscreenHandler.cs:56-86 | in a touchscreen frame CleanupInactives is the only cleanup and comes after every placement, Flush when present is last and happens iff a count is positive, and placements come in pairs |
| TouchscreenV06.Transform | Native-Gestures-0.6.x/Handlers/TouchscreenHandler.cs:95-109 | under limiting the point is dropped iff its clamp differs from it; a kept point is the clamp under clipping and unchanged otherwise; an in-bounds point is never altered |
| TouchscreenV06.LimitingWinsOverClipping | Native-Gestures-0.6.x/Handlers/TouchscreenHandler.cs:101-106 | with limiting on, the result is the point when inside and none when outside, whatever clipping says |
| TouchscreenV06.ClippingStaysInside | Native-Gestures-0.6.x/Handlers/TouchscreenHandler.cs:105-108 | with clipping alone every result is inside the bounds |
| TouchscreenV06.TouchscreenHandler.constructor | Native-Gestures-0.6.x/Handlers/TouchscreenHandler.cs:28-54 | a new handler has no output mode, zero bounds and zero counters |
| TouchscreenV06.TouchscreenHandler.Initialize | Native-Gestures-0.6.x/Handlers/TouchscreenHandler.cs:28-54 | true iff the mode is enhanced absolute, in which case the mode, the display bounds with a (0,0) fallback and the capacity are stored; on false nothing changes |
| TouchscreenV06.TouchscreenHandler.Transpose | Native-Gestures-0.6.x/Handlers/TouchscreenHandler.cs:88-93 | the installed transformation of the position; the index is unused |
| TouchscreenV06.TouchscreenHandler.HandleTouch | Native-Gestures-0.6.x/Handlers/TouchscreenHandler.cs:64-76 | one entry of the loop: its placement calls, and one more active touch when present |
| TouchscreenV06.TouchscreenHandler.Handle | Native-Gestures-0.6.x/Handlers/TouchscreenHandler.cs:56-86 | the calls of the frame from the highest visited index down, then the frame end; the current count is the present entries visited and becomes the last count |
| TouchscreenV05.TouchscreenHandler.constructor | Native-Gestures-0.5.x/Handlers/TouchscreenHandler.cs:25-37 | a new handler has no transposition and zero counters |
| TouchscreenV05.TouchscreenHandler.Initialize | Native-Gestures-0.5.x/Handlers/TouchscreenHandler.cs:25-37 | true iff the mode is enhanced absolute, storing the host's transposition and the capacity; on false nothing changes |
| TouchscreenV05.TouchscreenHandler.Transpose | Native-Gestures-0.5.x/Handlers/TouchscreenHandler.cs:71-76 | exactly the host's transposition of the position |
| TouchscreenV05.TouchscreenHandler.HandleTouch | Native-Gestures-0.5.x/Handlers/TouchscreenHandler.cs:48-59 | one entry of the loop: its placement calls, and one more active touch when present |
| TouchscreenV05.TouchscreenHandler.Handle | Native-Gestures-0.5.x/Handlers/TouchscreenHandler.cs:39-69 | the calls of the frame from the highest visited index down, then the frame end; the current count is the present entries visited and becomes the last count |
| PrimaryPointer.Relative | Native-Gestures-0.5.x/Handlers/AbsoluteModeTouchpadHandler.cs:149-181 | a produced position becomes the primary position; without one the primary position is kept (the area options and the commit condition are stated by RelativeLimitsAndClips, the bookkeeping by RelativeBookkeeping) |
| PrimaryPointer.Delta | Native-Gestures-0.5.x/Handlers/AbsoluteModeTouchpadHandler.cs:153-154 | the motion since the last transposed position, zero for the first one (`delta ?? Vector2.Zero`) |
| PrimaryPointer.RelativeLimitsAndClips | Native-Gestures-0.5.x/Handlers/AbsoluteModeTouchpadHandler.cs:149-181 | under area limiting a position that clipping would move is dropped, keeping the primary position and a pending skip; otherwise, with no skip pending and in time, the committed position is the clipped one under area clipping and the unclipped one without |
| PrimaryPointer.RelativeBookkeeping | Native-Gestures-0.5.x/Handlers/AbsoluteModeTouchpadHandler.cs:149-181 | the raw position and delta time are always recorded; a position is produced only when no skip is pending and the delta time is within the reset time; a pending skip survives only with no result |
| PrimaryPointer.RelativeFollowsMotion | Native-Gestures-0.5.x/Handlers/AbsoluteModeTouchpadHandler.cs:149-181 | without limiting or clipping an accepted report moves the pointer by the raw motion since the last report |
| PrimaryPointer.RelativeInBounds | Native-Gestures-0.5.x/Handlers/AbsoluteModeTouchpadHandler.cs:149-181 | under limiting or clipping every produced position is inside the bounds |
| PrimaryPointer.SkipSwallowsOne | Native-Gestures-0.5.x/Handlers/AbsoluteModeTouchpadHandler.cs:149-181 | a pending skip eats the report and keeps the pointer; it stays pending only when limiting rejected the position |
| PrimaryPointer.RelativeTelescopes | Native-Gestures-0.5.x/Handlers/AbsoluteModeTouchpadHandler.cs:149-181 | two accepted reports move the pointer by the total raw motion |
| PrimaryPointer.LateReportForgetsMotion | Native-Gestures-0.5.x/Handlers/AbsoluteModeTouchpadHandler.cs:149-181 | a report later than the reset time produces nothing, and the next one moves only by the motion since the late report |
| PrimaryPointer.ResetPressure | Native-Gestures-0.5.x/Handlers/AbsoluteModeTouchpadHandler.cs:140-147 | the hold anchor becomes the primary position, pressing stops, and slot 0 gets pressure 0; nothing else changes |
| PrimaryPointer.LeftHoldArea | Native-Gestures-0.5.x/Handlers/AbsoluteModeTouchpadHandler.cs:127-130 | the primary position has moved more than the hold threshold from the hold origin on either axis |
| PrimaryPointer.HandlePressure | Native-Gestures-0.5.x/Handlers/AbsoluteModeTouchpadHandler.cs:121-138 | the primary position is never moved |
| PrimaryPointer.HandlePressureEffects | Native-Gestures-0.5.x/Handlers/AbsoluteModeTouchpadHandler.cs:121-138 | at most one call, a pressure call on slot 0; the relative bookkeeping is untouched |
| PrimaryPointer.PressExactlyOnStillHold | Native-Gestures-0.5.x/Handlers/AbsoluteModeTouchpadHandler.cs:121-138 | full pressure is applied iff not already pressing, the pointer stayed inside the hold threshold and the hold time has elapsed; then pressing is set |
| PrimaryPointer.PressingIsSticky | Native-Gestures-0.5.x/Handlers/AbsoluteModeTouchpadHandler.cs:123-124 | while pressing nothing happens |
| PrimaryPointer.ResetThenHoldPresses | Native-Gestures-0.5.x/Handlers/AbsoluteModeTouchpadHandler.cs:121-147 | right after a reset, a hold longer than the hold time presses |
| PrimaryPointer.TransposeStep | Native-Gestures-0.5.x/Handlers/AbsoluteModeTouchpadHandler.cs:107-117 | a touch the host drops is dropped without touching the pointer; any touch other than the first in a frame on id 0 in relative mode uses the host transposition unchanged |
| PrimaryPointer.PlaceTouch | Native-Gestures-0.5.x/Handlers/AbsoluteModeTouchpadHandler.cs:79-91 | a transposed touch is positioned, then the first counted touch at index 0 goes to the hold rule when the last frame had at most one touch, and any other gets full pressure; the touch is counted either way |
| PrimaryPointer.PadSlot | Native-Gestures-0.5.x/Handlers/AbsoluteModeTouchpadHandler.cs:74-91 | one loop entry: absent entries are skipped, present ones are transposed and then placed |
| PrimaryPointer.PadVisit | Native-Gestures-0.5.x/Handlers/AbsoluteModeTouchpadHandler.cs:72-92 | the loop over the first n entries, highest index first |
| PrimaryPointer.FrameClose | Native-Gestures-0.5.x/Handlers/AbsoluteModeTouchpadHandler.cs:94-104 | after the loop: CleanupInactives, the pressure reset when a press is not held by exactly one touch, and the conditional Flush |
| PrimaryPointer.PadFrame | Native-Gestures-0.5.x/Handlers/AbsoluteModeTouchpadHandler.cs:62-105 | one whole frame: the first-contact skip, the loop, then FrameClose |
| PrimaryPointer.FrameStart | Native-Gestures-0.5.x/Handlers/AbsoluteModeTouchpadHandler.cs:65-66 | a skip is armed iff one was pending or this is the first active frame in relative mode with a touch in entry 0; nothing else changes |
| PrimaryPointer.PadVisitAppends | Native-Gestures-0.5.x/Handlers/AbsoluteModeTouchpadHandler.cs:72-92 | the frame loop only appends to the call log |
| PrimaryPointer.PadVisitCounts | Native-Gestures-0.5.x/Handlers/AbsoluteModeTouchpadHandler.cs:72-92 | the loop counts every present entry, dropped or not |
| PrimaryPointer.PadVisitWithoutRelative | Native-Gestures-0.5.x/AbsoluteNativeGesturesHandler.cs:103-125 | with the relative primary pointer off, the loop is the touchscreen loop over the host transposition |
| PrimaryPointer.PadFrameWithoutRelative | Native-Gestures-0.5.x/AbsoluteNativeGesturesHandler.cs:93-143 | with the relative primary pointer off and no hold pressure, a whole frame is exactly a touchscreen frame |
| PrimaryPointer.SkippedVisitUnmoved | Native-Gestures-0.5.x/Handlers/AbsoluteModeTouchpadHandler.cs:65-92 | while a skip is pending the primary position does not move |
| PrimaryPointer.FirstContactDoesNotMove | Native-Gestures-0.5.x/Handlers/AbsoluteModeTouchpadHandler.cs:65-66 | the first frame of a touch in relative mode never moves the primary pointer |
| PrimaryPointer.AbsentVisitIdle | Native-Gestures-0.5.x/Handlers/AbsoluteModeTouchpadHandler.cs:72-76 | absent entries leave the loop state unchanged |
| PrimaryPointer.SecondContactMoves | Native-Gestures-0.5.x/Handlers/AbsoluteModeTouchpadHandler.cs:62-105 | for one touch over two frames, the first frame only cleans up and flushes and keeps the primary position; the second, in time and not dropped by limiting, starts by placing pointer 0 at the primary position moved by the touch's motion between the frames, clipped under clipping |
| PrimaryPointer.FrameCloseShape | Native-Gestures-0.5.x/Handlers/AbsoluteModeTouchpadHandler.cs:94-104 | the frame ends with CleanupInactives, then a release of slot 0 iff pressing with other than exactly one touch, then a Flush iff a count is positive; pressing stays on iff it was on with one touch |
| TouchpadV05.AbsoluteModeTouchpadHandler.constructor | Native-Gestures-0.5.x/Handlers/AbsoluteModeTouchpadHandler.cs:13-28 | a new handler starts with the primary position (-1,-1), no output mode and zero tunables |
| TouchpadV05.AbsoluteModeTouchpadHandler.Initialize | Native-Gestures-0.5.x/Handlers/AbsoluteModeTouchpadHandler.cs:34-60 | stores the capacity first; true iff the mode is enhanced absolute; then stores the transposition and mode, the display bounds with the (0,0)-(1,1) fallback, and seeds the primary position from the cursor offset by `min` when there is one |
| TouchpadV05.AbsoluteModeTouchpadHandler.TransposeToRelative | Native-Gestures-0.5.x/Handlers/AbsoluteModeTouchpadHandler.cs:149-181 | the new pointer state and result are those of the relative step |
| TouchpadV05.AbsoluteModeTouchpadHandler.Transpose | Native-Gestures-0.5.x/Handlers/AbsoluteModeTouchpadHandler.cs:107-117 | the relative step for the first touch of a frame on id 0, the host transposition otherwise |
| TouchpadV05.AbsoluteModeTouchpadHandler.ResetPrimaryPressure | Native-Gestures-0.5.x/Handlers/AbsoluteModeTouchpadHandler.cs:140-147 | the pointer state and calls of the reset |
| TouchpadV05.AbsoluteModeTouchpadHandler.HandlePrimaryPressure | Native-Gestures-0.5.x/Handlers/AbsoluteModeTouchpadHandler.cs:121-138 | the pointer state and calls of the hold rule |
| TouchpadV05.AbsoluteModeTouchpadHandler.HandleEntry | Native-Gestures-0.5.x/Handlers/AbsoluteModeTouchpadHandler.cs:74-91 | one entry of the loop equals the slot specification |
| TouchpadV05.AbsoluteModeTouchpadHandler.CloseFrame | Native-Gestures-0.5.x/Handlers/AbsoluteModeTouchpadHandler.cs:94-104 | the end of the frame equals the close specification |
| TouchpadV05.AbsoluteModeTouchpadHandler.VisitTouches | Native-Gestures-0.5.x/Handlers/AbsoluteModeTouchpadHandler.cs:72-92 | the loop equals the visit specification |
| TouchpadV05.AbsoluteModeTouchpadHandler.Handle | Native-Gestures-0.5.x/Handlers/AbsoluteModeTouchpadHandler.cs:62-105 | the pointer state, counters and calls equal the frame specification; the current count becomes the last |
| PluginV05.AbsoluteNativeGesturesHandler.constructor | Native-Gestures-0.5.x/AbsoluteNativeGesturesHandler.cs:18-35 | a new plugin is not initialised, starts from the primary pointer's start state and knows whether its platform has a device |
| PluginV05.AbsoluteNativeGesturesHandler.Initialize | Native-Gestures-0.5.x/AbsoluteNativeGesturesHandler.cs:42-87 | stores the platform capacity for an enhanced mode; becomes initialised iff the mode is enhanced, a device exists and it initialises; only then stores the transposition, mode and (0,0)-fallback bounds and seeds the primary position from the cursor in relative mode; the flag is never lowered |
| PluginV05.AbsoluteNativeGesturesHandler.TransposeToRelative | Native-Gestures-0.5.x/AbsoluteNativeGesturesHandler.cs:157-189 | the new pointer state and result are those of the relative step |
| PluginV05.AbsoluteNativeGesturesHandler.TransposeCore | Native-Gestures-0.5.x/AbsoluteNativeGesturesHandler.cs:145-155 | the relative step only when the relative primary pointer is enabled and it is the first touch of a frame on id 0 |
| PluginV05.AbsoluteNativeGesturesHandler.ResetPrimaryPressure | Native-Gestures-0.5.x/Handlers/AbsoluteModeTouchpadHandler.cs:140-147 | the pointer state and calls of the reset |
| PluginV05.AbsoluteNativeGesturesHandler.HandlePrimaryPressure | Native-Gestures-0.5.x/Handlers/AbsoluteModeTouchpadHandler.cs:121-138 | the pointer state and calls of the hold rule, which the pass applies to the first touch of a frame on id 0 |
| PluginV05.AbsoluteNativeGesturesHandler.PassEntry | Native-Gestures-0.5.x/AbsoluteNativeGesturesHandler.cs:105-124 | one entry of the pass equals the slot specification |
| PluginV05.AbsoluteNativeGesturesHandler.PassTouches | Native-Gestures-0.5.x/AbsoluteNativeGesturesHandler.cs:103-125 | the pass over the whole array equals the visit specification |
| PluginV05.AbsoluteNativeGesturesHandler.CloseFrame | Native-Gestures-0.5.x/AbsoluteNativeGesturesHandler.cs:127-137 | the end of the frame equals the close specification |
| PluginV05.AbsoluteNativeGesturesHandler.Pass | Native-Gestures-0.5.x/AbsoluteNativeGesturesHandler.cs:93-143 | the report passes on iff the plugin is not initialised or it is not a touch report, and then nothing changes; otherwise the frame specification over the whole touch array holds and the last count becomes the current |
| PluginV05.AbsoluteNativeGesturesHandler.Consume | Native-Gestures-0.5.x/NativeGestureHandler.cs:32-36 | a report is emitted unchanged exactly when it passes; a passed report makes no device calls |
| PluginV05.AbsoluteNativeGesturesHandler.GetResetTime | Native-Gestures-0.5.x/AbsoluteNativeGesturesHandler.cs:207-209 | the reset time in whole milliseconds, truncated |
| PluginV05.AbsoluteNativeGesturesHandler.SetResetTime | Native-Gestures-0.5.x/AbsoluteNativeGesturesHandler.cs:207-211 | stores the reset time converted from milliseconds |
| TimeSpan.FromMilliseconds | Native-Gestures-0.5.x/AbsoluteNativeGesturesHandler.cs:210 | a whole number of milliseconds in ticks, with the sign of its argument |
| TimeSpan.WholeMilliseconds | Native-Gestures-0.5.x/AbsoluteNativeGesturesHandler.cs:209 | `(long)TotalMilliseconds`: the milliseconds of a tick count truncated toward zero |
| TimeSpan.MillisecondsRoundTrip | Native-Gestures-0.5.x/AbsoluteNativeGesturesHandler.cs:207-211 | setting then getting a reset time gives back the same milliseconds |
| TimeSpan.TicksRoundTrip | Native-Gestures-0.5.x/AbsoluteNativeGesturesHandler.cs:207-211 | getting then setting gives back the same ticks iff they are whole milliseconds |
| RelativeTouchpadV06.RelativeAt | Native-Gestures-0.6.x/Handlers/RelativeModeTouchpadHandler.cs:148-171 | the per-slot relative step keeps all ten slot tables sized |
| RelativeTouchpadV06.RelativeAtBookkeeping | Native-Gestures-0.6.x/Handlers/RelativeModeTouchpadHandler.cs:150-155 | the slot's delta time and raw position are always recorded; no other slot changes; a result is the slot's new position and without one no position changes |
| RelativeTouchpadV06.SkipClearsOnlyItsSlot | Native-Gestures-0.6.x/Handlers/RelativeModeTouchpadHandler.cs:157-161 | a pending skip eats the report and clears only that slot's skip |
| RelativeTouchpadV06.RelativeAtCommits | Native-Gestures-0.6.x/Handlers/RelativeModeTouchpadHandler.cs:157-170 | a position comes out iff no skip is pending and the delta time is within the reset time; it is the slot position plus the raw motion, or the slot position for the slot's first report |
| RelativeTouchpadV06.ZeroResetTimeDropsLateReports | Native-Gestures-0.6.x/Handlers/RelativeModeTouchpadHandler.cs:22 | with the reset time at its fixed value zero, any report after a positive delay produces nothing |
| RelativeTouchpadV06.RelativeAtTelescopes | Native-Gestures-0.6.x/Handlers/RelativeModeTouchpadHandler.cs:148-171 | two accepted reports on a slot move it by the total raw motion |
| RelativeTouchpadV06.RelSlot | Native-Gestures-0.6.x/Handlers/RelativeModeTouchpadHandler.cs:75-93 | one entry of the loop keeps the slot tables sized |
| RelativeTouchpadV06.RelVisit | Native-Gestures-0.6.x/Handlers/RelativeModeTouchpadHandler.cs:73-94 | the loop keeps the slot tables sized |
| RelativeTouchpadV06.FrameSlots | Native-Gestures-0.6.x/Handlers/RelativeModeTouchpadHandler.cs:66-67 | on the first active frame with a touch in entry 0 every slot gets a pending skip; no other table changes, and otherwise the tables are unchanged |
| RelativeTouchpadV06.RelFrame | Native-Gestures-0.6.x/Handlers/RelativeModeTouchpadHandler.cs:63-107 | a frame keeps the slot tables sized |
| RelativeTouchpadV06.RelSlotAwayFromZero | Native-Gestures-0.6.x/Handlers/RelativeModeTouchpadHandler.cs:75-93 | an entry other than 0 never stops the frame, counts when present and makes only its placement calls |
| RelativeTouchpadV06.RelVisitAwayCounts | Native-Gestures-0.6.x/Handlers/RelativeModeTouchpadHandler.cs:73-94 | above entry 0 the loop never stops and counts every present entry |
| RelativeTouchpadV06.RelVisitAwayCalls | Native-Gestures-0.6.x/Handlers/RelativeModeTouchpadHandler.cs:73-94 | above entry 0 the loop only appends placement calls, in position / pressure pairs |
| RelativeTouchpadV06.EarlyReturnShape | Native-Gestures-0.6.x/Handlers/RelativeModeTouchpadHandler.cs:86-88 | the frame returns early iff entry 0 is visited and is the only present touch, the last count is below 2 and its transposition succeeds; an early-returned frame ends on that position call with no pressure, no cleanup and no flush; any other frame ends with cleanup or flush |
| RelativeTouchpadV06.ZeroResetTimeFrame | Native-Gestures-0.6.x/Handlers/RelativeModeTouchpadHandler.cs:22 | with the reset time at zero and positive delays, a frame never returns early, moves no slot, makes no placement and is just the frame end |
| RelativeTouchpadV06.ZeroResetTimeVisit | Native-Gestures-0.6.x/Handlers/RelativeModeTouchpadHandler.cs:73-94 | with the reset time at zero the loop makes no calls and moves no slot, but still counts |
| RelativeTouchpadV06.CapacityZeroFrame | Native-Gestures-0.6.x/Handlers/RelativeModeTouchpadHandler.cs:63-107 | at capacity 0 a frame visits nothing: it keeps the first-contact skip fill, counts 0, and ends with CleanupInactives and a Flush only when the last frame had a touch |
| RelativeTouchpadV06.RelativeModeTouchpadHandler.Table | Native-Gestures-0.6.x/Handlers/RelativeModeTouchpadHandler.cs:19-24 | the four slot arrays, each of ten entries |
| RelativeTouchpadV06.RelativeModeTouchpadHandler.constructor | Native-Gestures-0.6.x/Handlers/RelativeModeTouchpadHandler.cs:17-35 | ten empty slots, a zero reset time and zero counters |
| RelativeTouchpadV06.RelativeModeTouchpadHandler.Initialize | Native-Gestures-0.6.x/Handlers/RelativeModeTouchpadHandler.cs:41-61 | always true; stores the capacity, installs the relative step and seeds slot 0's position from the cursor offset by the display's `min` corner when there is one |
| RelativeTouchpadV06.RelativeModeTouchpadHandler.TransposeToRelative | Native-Gestures-0.6.x/Handlers/RelativeModeTouchpadHandler.cs:148-171 | the slot tables and result of the per-slot relative step, with the private reset time |
| RelativeTouchpadV06.RelativeModeTouchpadHandler.Transpose | Native-Gestures-0.6.x/Handlers/RelativeModeTouchpadHandler.cs:109-116 | the installed relative step for that slot |
| RelativeTouchpadV06.RelativeModeTouchpadHandler.HandleEntry | Native-Gestures-0.6.x/Handlers/RelativeModeTouchpadHandler.cs:75-93 | one entry of the loop equals the slot specification, including whether it returns early |
| RelativeTouchpadV06.RelativeModeTouchpadHandler.VisitTouches | Native-Gestures-0.6.x/Handlers/RelativeModeTouchpadHandler.cs:73-94 | the loop equals the visit specification and stops where it does |
| RelativeTouchpadV06.RelativeModeTouchpadHandler.FillSkips | Native-Gestures-0.6.x/Handlers/RelativeModeTouchpadHandler.cs:67 | every slot gets a pending skip; nothing else changes |
| RelativeTouchpadV06.RelativeModeTouchpadHandler.Handle | Native-Gestures-0.6.x/Handlers/RelativeModeTouchpadHandler.cs:63-107 | the slot tables, counters and calls equal the frame specification; the last count becomes the current one except after an early return, which keeps it; a handler that was never initialised has capacity 0, visits no entry and only cleans up |
| PluginV06.GetHandler | Native-Gestures-0.6.x/AbsoluteNativeGesturesHandler.cs:147-156 | the touchpad handler exactly on Windows in touchpad mode, the touchscreen handler on Windows otherwise and on Linux, none exactly elsewhere |
| PluginV06.HandlerWhereSlots | Native-Gestures-0.6.x/NativeGestureHandler.cs:65-77 | a handler exists exactly on the platforms with a positive capacity, and no handler where no device exists |
| PluginV06.InitAsWritten | Native-Gestures-0.6.x/AbsoluteNativeGesturesHandler.cs:30-82 | the chain as written: ready iff everything is present and succeeds; with an output mode and no device the scale assignment dereferences the missing device |
| PluginV06.InitAsWrittenDereferencesMissingDevice | Native-Gestures-0.6.x/AbsoluteNativeGesturesHandler.cs:49-67 | the "Couldn't acquire virtual touch device" outcome is never reached; on Windows build 17134 in touchscreen mode the chain dereferences the missing device |
| PluginV06.InitChain | Native-Gestures-0.6.x/AbsoluteNativeGesturesHandler.cs:41-72 | the guarded chain never dereferences a missing device, and is ready iff everything is present and succeeds |
| PluginV06.InitChainReports | Native-Gestures-0.6.x/AbsoluteNativeGesturesHandler.cs:41-72 | each failure is reported exactly when its check is the first to fail, in the order output mode, handler, handler initialisation, device, device initialisation; with a device the chain is the one as written |
| PluginV06.AbsoluteNativeGesturesHandler.constructor | Native-Gestures-0.6.x/AbsoluteNativeGesturesHandler.cs:20-24 | a new plugin is not initialised, has no handler and zero tunables |
| PluginV06.AbsoluteNativeGesturesHandler.Initialize | Native-Gestures-0.6.x/AbsoluteNativeGesturesHandler.cs:30-82 | the outcome is the guarded chain; with an output mode the capacity is stored and the handler from GetHandler installed, with the tunables copied only into a ready touchpad handler; the flag is raised iff ready and never lowered |
| PluginV06.AbsoluteNativeGesturesHandler.Consume | Native-Gestures-0.6.x/AbsoluteNativeGesturesHandler.cs:86-92 | a touch report reaching an initialised plugin goes to the current handler with its touches; anything else is emitted unchanged |
| PluginV06.AbsoluteNativeGesturesHandler.GetResetTime | Native-Gestures-0.6.x/AbsoluteNativeGesturesHandler.cs:111-113 | the reset time in whole milliseconds, truncated |
| PluginV06.AbsoluteNativeGesturesHandler.SetResetTime | Native-Gestures-0.6.x/AbsoluteNativeGesturesHandler.cs:111-115 | stores the reset time converted from milliseconds |
| PluginV06.AbsoluteNativeGesturesHandler.GetRelativeModeHoldResetThreshold | Native-Gestures-0.6.x/AbsoluteNativeGesturesHandler.cs:124-126 | the x component of the stored threshold |
| PluginV06.AbsoluteNativeGesturesHandler.SetRelativeModeHoldResetThreshold | Native-Gestures-0.6.x/AbsoluteNativeGesturesHandler.cs:124-128 | stores the value in both components |
| PluginV06.AbsoluteNativeGesturesHandler.GetRelativeModeHoldPressureTime | Native-Gestures-0.6.x/AbsoluteNativeGesturesHandler.cs:137-139 | the hold time in whole milliseconds, truncated |
| PluginV06.AbsoluteNativeGesturesHandler.SetRelativeModeHoldPressureTime | Native-Gestures-0.6.x/AbsoluteNativeGesturesHandler.cs:137-141 | stores the hold time converted from milliseconds |

## Left out

- Platform calls are parameters or ghost logs. This covers PInvoke, evdev writes, the console and logging, `DesktopInterop`, the driver's device lookup and the foreground window.
- Floating point: values are modelled as exact reals. Single-precision rounding and NaN are not modelled.
- Integer width: casts of coordinates to `int` are unbounded truncations. Overflow of a float that does not fit in an `int` is not modelled.
- `Dispose` of both devices is not modelled: it only releases the platform handle.
- The Windows device's unused bulk flag helpers (`SetAllPointerFlags`, `UnsetAllPointerFlags`, `ClearAllPointerFlags`) and its `ClearPointerFlags(index)` helper are not modelled; nothing in the core calls them.
- BuildPointers on Linux is empty and is not modelled.
- WindowsDevice.WindowsTouchDevice.Initialize excludes one case: count 0 when creation and the first injection both succeed. Only then does the code reach line 55, index the empty pointer array and throw. With count 0 and a failed creation, null handle or failed injection, it returns false as modelled.
- The Windows `SetPressure`, `SetInactive`, `SetPointerFlags` and `UnsetPointerFlags` require an index below the count. The code does not check, and indexing past the array throws.
- WindowsDevice.WindowsTouchDevice.SetPosition takes the foreground window as one parameter per call. The model does not capture windows that change between calls.
- LinuxDevice.LinuxTouchDevice.SetPosition requires an index below the count. The code indexes the activity array without a check.
- `IsTouchscreen` and `ScreenScale` of the 0.6.x plugin are not modelled: the model has no state for them. The Linux device takes its screen scale at construction.
- Hold pressure: the hold stopwatch is an elapsed-time parameter. Its `Restart` and `Stop` calls are not modelled.
- Delta times: each delta time is a parameter, per entry for the 0.6.x relative handler.
- `_stubReport` is not modelled: a transposition receives the position directly.
- `(int)Math.Min` on capacities above the range of `int` is not modelled.
- Empty touch arrays: the touchpad `Handle` and the 0.5.x `Pass` require a non-empty touch array when they read `touches[0]` (first active frame, relative mode). The code throws on an empty array there.
- RelativeTouchpadV06.RelativeModeTouchpadHandler.Handle requires every visited touch id to be below 10. The code indexes its ten-entry slot arrays with the id and throws otherwise.
- RelativeTouchpadV06.RelativeModeTouchpadHandler.Handle is also modelled without Initialize. The 0.6.x relative plugin (RelativeNativeGesturesHandler.cs:73-97) builds this handler with GetHandler and calls its Handle, but never its Initialize. The handler then keeps capacity 0, so no touch is ever transposed or placed: each frame only fills the skips, cleans up and updates the count. The plugin itself is not part of this model.
- RelativeTouchpadV06.RelativeModeTouchpadHandler.Initialize requires an enhanced absolute mode. Any other mode makes the cast at line 47 null, and the dereference throws.
- TimeSpan.FromMilliseconds requires milliseconds within `TimeSpan`'s range. The code throws outside it, and the model does not include the rounding of a double argument.
- Device initialisation: the cursor location and the device's `Initialize` result are parameters of the handler and plugin `Initialize` methods.
- `Filter` of the 0.5.x plugin is the identity and is not modelled.
- Property defaults: the `DefaultPropertyValue` defaults (100 ms, 0.17 px, 130 ms, both modes on) are applied by the host. The constructors start from zero and false.
- The 0.6.x plugin reduces handler objects to a kind plus the tunables they received. `Consume` returns the dispatch decision instead of calling the handler's `Handle`, which is modelled on its own above.
- In 0.6.x, `GetHandler` builds the `AbsoluteModeTouchpadHandler` of the 0.5.x directory; the model does not check that the two versions' interfaces agree.
- The tablet and output-mode lookup is an optional output mode. The `InterfaceDriver is not Driver` early return is the absent case.
- `isInitialized` in the 0.6.x plugin is never lowered, as in the code. A later failing `Initialize` leaves it set while a new handler is installed.
- PluginV05.AbsoluteNativeGesturesHandler.HandlePrimaryPressure and ResetPrimaryPressure, with `_primaryPos`, `_lastPrimaryPos` and `_pressingPrimary`: the 0.5.x plugin uses these at lines 84, 117, 130-131, 162 and 186 but does not declare them, so as written it does not compile. The model gives them the meaning they have in the 0.5.x touchpad handler (its lines 121-147). That includes the hold tunables `RelativeModeHoldResetThreshold` and `RelativeModeHoldPressureTime`, which the model fixes at zero with no setter. The primary position starts at (-1, -1).
- The installer and the `RelativeNativeGesturesHandler` plugins of both versions are not part of this model.
- The commented-out hold-pressure code in the 0.6.x relative handler is not modelled; its early return is.

## Findings

| source | as written | input that shows it | evidently intended | confidence | as-written member | corrected member |
|---|---|---|---|---|---|---|
| Native-Gestures-0.6.x/AbsoluteNativeGesturesHandler.cs:49-67 | `CurrentTouchDevice.ScreenScale` is assigned at line 49, before the null check of `CurrentTouchDevice` at line 63 | Windows build 17134 with an output mode, in touchscreen mode: `TouchDevice` is null, so line 49 throws | report "Couldn't acquire virtual touch device" and return, as line 63 intends | not executed | PluginV06.InitAsWritten, PluginV06.InitAsWrittenDereferencesMissingDevice | PluginV06.InitChain, PluginV06.InitChainReports |
