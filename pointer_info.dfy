/** The two Win32 input records the Windows device keeps per slot, with the
    helper operations that the source writes as `this ref` extension methods:
    POINTER_TOUCH_INFO (with its embedded POINTER_INFO) and POINTER_TYPE_INFO,
    whose union holds the touch record. Each helper updates fields of the
    record in place. */
module PointerInfo {
  import opened Geometry
  import opened PointerFlags

  /** A window handle; 0 is HWND.Null. */
  type Hwnd = int

  /** The fields of one POINTER_TOUCH_INFO that the source reads or writes. */
  datatype TouchFields = TouchFields(
    pointerId: uint32,
    pointerFlags: Flags,
    hwndTarget: Hwnd,
    pixelLocation: Point,
    pixelLocationRaw: Point,
    contact: Rect,
    contactRaw: Rect,
    pressure: uint32)

  /** The record BuildPointers creates for a slot: the given id, no flags and
      everything else zero. */
  function FreshFields(pointerId: uint32): TouchFields
  {
    TouchFields(pointerId, NONE, 0, Point(0, 0), Point(0, 0), Rect(0, 0, 0, 0), Rect(0, 0, 0, 0), 0)
  }

  /** The location part of a record placed at `p`: pixel and raw locations equal
      `p`, and the contact and raw contact rectangles are the 2x2 box at `p`. */
  function Placed(t: TouchFields, p: Point): (r: TouchFields)
    ensures r.pixelLocationRaw == r.pixelLocation == p
    ensures r.contactRaw == r.contact == FromXYWH(p.x, p.y, 2, 2)
    ensures r.(pixelLocation := t.pixelLocation, pixelLocationRaw := t.pixelLocationRaw,
               contact := t.contact, contactRaw := t.contactRaw) == t
  {
    t.(pixelLocation := p, pixelLocationRaw := p,
       contact := FromXYWH(p.x, p.y, 2, 2), contactRaw := FromXYWH(p.x, p.y, 2, 2))
  }

  /** POINTER_TOUCH_INFO. */
  class PointerTouchInfo {
    var pointerId: uint32
    var pointerFlags: Flags
    var hwndTarget: Hwnd
    var pixelLocation: Point
    var pixelLocationRaw: Point
    var contact: Rect
    var contactRaw: Rect
    var pressure: uint32

    ghost function Fields(): TouchFields
      reads this
    {
      TouchFields(pointerId, pointerFlags, hwndTarget, pixelLocation, pixelLocationRaw,
                  contact, contactRaw, pressure)
    }

    /** The record initialiser of BuildPointers. */
    constructor (pointerId: uint32)
      ensures Fields() == FreshFields(pointerId)
    {
      this.pointerId := pointerId;
      pointerFlags := NONE;
      hwndTarget := 0;
      pixelLocation := Point(0, 0);
      pixelLocationRaw := Point(0, 0);
      contact := Rect(0, 0, 0, 0);
      contactRaw := Rect(0, 0, 0, 0);
      pressure := 0;
    }

    /** Places the contact at `(x, y)`: the raw location is copied from the
        pixel location and the raw contact rectangle from the contact
        rectangle. */
    method Move(x: int, y: int)
      modifies this
      ensures Fields() == Placed(old(Fields()), Point(x, y))
    {
      pixelLocation := Point(x, y);
      pixelLocationRaw := pixelLocation;
      contact := FromXYWH(x, y, 2, 2);
      contactRaw := contact;
    }

    /** `pointerFlags |= flags`. */
    method SetPointerFlags(flags: Flags)
      modifies this
      ensures Fields() == old(Fields()).(pointerFlags := SetBits(old(pointerFlags), flags))
    {
      pointerFlags := pointerFlags | flags;
    }

    /** `pointerFlags &= ~flags`. */
    method UnsetPointerFlags(flags: Flags)
      modifies this
      ensures Fields() == old(Fields()).(pointerFlags := UnsetBits(old(pointerFlags), flags))
    {
      pointerFlags := pointerFlags & !flags;
    }
  }

  /** POINTER_TYPE_INFO of type PT_TOUCH: the union member in use is the touch
      record, which the helpers below update through `Anonymous.touchInfo`. */
  class PointerTypeInfo {
    const touchInfo: PointerTouchInfo

    constructor (touchInfo: PointerTouchInfo)
      ensures this.touchInfo == touchInfo
    {
      this.touchInfo := touchInfo;
    }

    /** SetPosition(int x, int y). */
    method SetPosition(x: int, y: int)
      modifies touchInfo
      ensures touchInfo.Fields() == Placed(old(touchInfo.Fields()), Point(x, y))
    {
      touchInfo.pixelLocation := Point(x, y);
      touchInfo.pixelLocationRaw := touchInfo.pixelLocation;
      touchInfo.contact := FromXYWH(x, y, 2, 2);
      touchInfo.contactRaw := touchInfo.contact;
    }

    /** SetPosition(Point point). */
    method SetPositionPoint(point: Point)
      modifies touchInfo
      ensures touchInfo.Fields() == Placed(old(touchInfo.Fields()), point)
    {
      touchInfo.pixelLocation := point;
      touchInfo.pixelLocationRaw := point;
      touchInfo.contact := FromXYWH(point.x, point.y, 2, 2);
      touchInfo.contactRaw := touchInfo.contact;
    }

    method SetPressure(pressure: uint32)
      modifies touchInfo
      ensures touchInfo.Fields() == old(touchInfo.Fields()).(pressure := pressure)
    {
      touchInfo.pressure := pressure;
    }

    method SetTarget(hwnd: Hwnd)
      modifies touchInfo
      ensures touchInfo.Fields() == old(touchInfo.Fields()).(hwndTarget := hwnd)
    {
      touchInfo.hwndTarget := hwnd;
    }

    method SetPointerFlags(flags: Flags)
      modifies touchInfo
      ensures touchInfo.Fields()
           == old(touchInfo.Fields()).(pointerFlags := SetBits(old(touchInfo.pointerFlags), flags))
    {
      touchInfo.pointerFlags := touchInfo.pointerFlags | flags;
    }

    method UnsetPointerFlags(flags: Flags)
      modifies touchInfo
      ensures touchInfo.Fields()
           == old(touchInfo.Fields()).(pointerFlags := UnsetBits(old(touchInfo.pointerFlags), flags))
    {
      touchInfo.pointerFlags := touchInfo.pointerFlags & !flags;
    }

    /** ClearPointerFlags(): the flag word becomes 0. */
    method ClearPointerFlags()
      modifies touchInfo
      ensures touchInfo.Fields() == old(touchInfo.Fields()).(pointerFlags := NONE)
    {
      touchInfo.pointerFlags := 0;
    }

    /** ClearPointerFlags(flags): despite its name it ASSIGNS the flag word, so
        afterwards exactly the bits of `flags` are set. */
    method ClearPointerFlagsTo(flags: Flags)
      modifies touchInfo
      ensures touchInfo.Fields() == old(touchInfo.Fields()).(pointerFlags := flags)
    {
      touchInfo.pointerFlags := flags;
    }
  }

  /** Two SetPosition calls in a row leave the record as the second alone
      would. */
  lemma PlacedOverrides(t: TouchFields, p: Point, q: Point)
    ensures Placed(Placed(t, p), q) == Placed(t, q)
  {
  }
}
