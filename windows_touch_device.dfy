/** The Windows virtual touch device: one POINTER_TYPE_INFO record per slot,
    whose flag word moves through a fixed lifecycle, plus a `lastContact`
    boolean per slot. The synthetic-pointer API is abstracted: the handle
    CreateSyntheticPointerDevice returns, the last Win32 error, the foreground
    window and whether an injection succeeded are parameters, and every batch
    handed to InjectSyntheticPointerInput is appended to the ghost log
    `injected`. */
module WindowsDevice {
  import opened Geometry
  import opened PointerFlags
  import opened PointerInfo

  /** The flag word after SetPosition: the first call after inactivity clears
      CANCELED and UPDATE and sets INRANGE; later calls only add UPDATE. */
  function PositionFlags(word: Flags, lastContact: bool): Flags
  {
    if !lastContact then SetBits(UnsetBits(word, CANCELED | UPDATE), INRANGE)
    else SetBits(word, UPDATE)
  }

  /** The flag word after SetPressure: a positive pressure goes from hovering
      to in contact, zero goes back to hovering. */
  function PressureFlags(word: Flags, pressure: uint32): Flags
  {
    if pressure > 0 then SetBits(UnsetBits(word, CANCELED | UP), INCONTACT | DOWN)
    else SetBits(UnsetBits(word, INCONTACT | DOWN), UP)
  }

  /** The flag word after SetInactive: the range and contact bits go, and a
      slot that was in contact ends with CANCELED | UPDATE. */
  function InactiveFlags(word: Flags, lastContact: bool): Flags
  {
    var cleared := UnsetBits(word, DOWN | UP | INCONTACT | INRANGE);
    if !lastContact then UnsetBits(cleared, CANCELED | UPDATE)
    else SetBits(cleared, CANCELED | UPDATE)
  }

  lemma PositionFlagsFirstContact(word: Flags)
    ensures PositionFlags(word, false) & INRANGE == INRANGE
    ensures PositionFlags(word, false) & (CANCELED | UPDATE) == 0
    ensures PositionFlags(word, false) & !(INRANGE | CANCELED | UPDATE)
         == word & !(INRANGE | CANCELED | UPDATE)
  {
  }

  lemma PositionFlagsLaterContact(word: Flags)
    ensures PositionFlags(word, true) & UPDATE == UPDATE
    ensures PositionFlags(word, true) & !UPDATE == word & !UPDATE
  {
  }

  lemma PressureFlagsDown(word: Flags, pressure: uint32)
    requires pressure > 0
    ensures PressureFlags(word, pressure) & (INCONTACT | DOWN) == INCONTACT | DOWN
    ensures PressureFlags(word, pressure) & (CANCELED | UP) == 0
    ensures PressureFlags(word, pressure) & !(INCONTACT | DOWN | CANCELED | UP)
         == word & !(INCONTACT | DOWN | CANCELED | UP)
  {
  }

  lemma PressureFlagsUp(word: Flags)
    ensures PressureFlags(word, 0) & UP == UP
    ensures PressureFlags(word, 0) & (INCONTACT | DOWN) == 0
    ensures PressureFlags(word, 0) & !(INCONTACT | DOWN | UP) == word & !(INCONTACT | DOWN | UP)
  {
  }

  lemma InactiveFlagsEffect(word: Flags, lastContact: bool)
    ensures InactiveFlags(word, lastContact) & (DOWN | UP | INCONTACT | INRANGE) == 0
    ensures lastContact ==> InactiveFlags(word, lastContact) & (CANCELED | UPDATE) == CANCELED | UPDATE
    ensures !lastContact ==> InactiveFlags(word, lastContact) & (CANCELED | UPDATE) == 0
    ensures InactiveFlags(word, lastContact) & !(DOWN | UP | INCONTACT | INRANGE | CANCELED | UPDATE)
         == word & !(DOWN | UP | INCONTACT | INRANGE | CANCELED | UPDATE)
  {
  }

  /** The bits the touch device's lifecycle moves. */
  const StateBits: Flags := INRANGE | INCONTACT | DOWN | UP | CANCELED | UPDATE

  /** One full contact of a slot, from any flag word: hovering, pressing,
      moving and lifting set the lifecycle bits one step at a time, ending
      it after contact leaves exactly CANCELED | UPDATE of them, the next
      touch on the slot starts from INRANGE alone, and no call ever touches a
      bit outside the lifecycle bits. */
  lemma {:induction false} ContactLifecycle(word: Flags, pressure: uint32)
    requires pressure > 0
    ensures var down := PressureFlags(PositionFlags(word, false), pressure);
            && down & (INRANGE | INCONTACT | DOWN) == INRANGE | INCONTACT | DOWN
            && down & (CANCELED | UP | UPDATE) == 0
    ensures var moved := PositionFlags(PressureFlags(PositionFlags(word, false), pressure), true);
            && moved & (INRANGE | INCONTACT | DOWN | UPDATE) == INRANGE | INCONTACT | DOWN | UPDATE
            && moved & (CANCELED | UP) == 0
    ensures var moved := PositionFlags(PressureFlags(PositionFlags(word, false), pressure), true);
            var lifted := PressureFlags(moved, 0);
            && lifted & (INRANGE | UPDATE | UP) == INRANGE | UPDATE | UP
            && lifted & (INCONTACT | DOWN | CANCELED) == 0
    ensures var moved := PositionFlags(PressureFlags(PositionFlags(word, false), pressure), true);
            var ended := InactiveFlags(PressureFlags(moved, 0), true);
            && ended & StateBits == CANCELED | UPDATE
            && PositionFlags(ended, false) & StateBits == INRANGE
            && PositionFlags(ended, false) & !StateBits == word & !StateBits
  {
    var hover := PositionFlags(word, false);
    PositionFlagsFirstContact(word);
    var down := PressureFlags(hover, pressure);
    PressureFlagsDown(hover, pressure);
    var moved := PositionFlags(down, true);
    PositionFlagsLaterContact(down);
    var lifted := PressureFlags(moved, 0);
    PressureFlagsUp(moved);
    var ended := InactiveFlags(lifted, true);
    InactiveFlagsEffect(lifted, true);
    PositionFlagsFirstContact(ended);
  }

  /** The record of slot `i` right after Initialize: id `i + 1`, no flags, the
      foreground window as target, everything else zero. */
  function InitialFields(i: nat, foreground: Hwnd): TouchFields
    requires i + 1 < 0x1_0000_0000
  {
    FreshFields(i + 1).(hwndTarget := foreground)
  }

  /** The batch Initialize injects first: every slot as InitialFields leaves it. */
  function InitialBatch(count: uint32, foreground: Hwnd): (batch: seq<TouchFields>)
    ensures |batch| == count as int
    ensures forall i :: 0 <= i < count ==> batch[i] == InitialFields(i, foreground)
  {
    seq(count, i requires 0 <= i < count => InitialFields(i, foreground))
  }

  /** The integer point `new Point((int)point.X, (int)point.Y)`. */
  function TruncatedPoint(v: Vec): Point { Point(Truncate(v.x), Truncate(v.y)) }

  /** GetCursorLocation: the cursor position offset by the work area of the
      monitor that holds it; none when there is no monitor or its information
      cannot be read. */
  function CursorLocation(cursor: Point, monitorFound: bool, workArea: Option<Rect>): (r: Option<Point>)
    ensures r.Some? <==> monitorFound && workArea.Some?
    ensures r.Some? ==> Sub(ToVec(r.value), ToVec(cursor)) == ToVec(Point(workArea.value.left, workArea.value.top))
  {
    if !monitorFound then None
    else match workArea
      case None => None
      case Some(work) => Some(Point(work.left + cursor.x, work.top + cursor.y))
  }

  class WindowsTouchDevice {
    var count: uint32
    var pointers: array<PointerTypeInfo>
    var lastContact: array<bool>
    var touchHandle: int
    /** The batches given to InjectSyntheticPointerInput, oldest first. */
    ghost var injected: seq<seq<TouchFields>>

    /** The per-slot arrays are in place: one record and one contact flag per
        slot, and no two slots share a record. */
    ghost predicate Ready()
      reads this`count, this`pointers, this`lastContact, pointers
    {
      && pointers.Length == count as int
      && lastContact.Length == count as int
      && forall i, j :: 0 <= i < j < pointers.Length ==> pointers[i].touchInfo != pointers[j].touchInfo
    }

    ghost function TouchInfos(): set<object>
      reads this`pointers, pointers
    {
      set i | 0 <= i < pointers.Length :: pointers[i].touchInfo
    }

    ghost function Slot(i: int): TouchFields
      requires 0 <= i < pointers.Length
      reads this`pointers, pointers, pointers[i].touchInfo
    {
      pointers[i].touchInfo.Fields()
    }

    /** The whole batch as InjectSyntheticPointerInput receives it. */
    ghost function Snapshot(): (s: seq<TouchFields>)
      reads this`pointers, pointers, TouchInfos()
      ensures |s| == pointers.Length
      ensures forall i :: 0 <= i < pointers.Length ==> s[i] == pointers[i].touchInfo.Fields()
    {
      var slots := pointers[..];
      seq(|slots|, i requires 0 <= i < |slots| reads set p | p in slots :: p.touchInfo => slots[i].touchInfo.Fields())
    }

    constructor ()
      ensures count == 0 && pointers.Length == 0 && lastContact.Length == 0
      ensures touchHandle == 0 && injected == []
    {
      count := 0;
      pointers := new PointerTypeInfo[0];
      lastContact := new bool[0];
      touchHandle := 0;
      injected := [];
    }

    /** Initialize(count). `createdHandle` is what CreateSyntheticPointerDevice
        returns (0 for a null handle) and `lastError` is GetLastWin32Error;
        `injectOk` is the result of the first injection. With no slot the
        call only completes when it returns false before touching slot 0. */
    method Initialize(count: uint32, createdHandle: int, lastError: int, foreground: Hwnd, injectOk: bool)
      returns (ok: bool)
      requires count > 0 || lastError < 0 || createdHandle == 0 || !injectOk
      modifies this
      ensures this.count == count && touchHandle == createdHandle
      ensures fresh(lastContact) && lastContact[..] == seq(count, _ => false)
      ensures ok == (lastError >= 0 && createdHandle != 0 && injectOk)
      ensures lastError < 0 || createdHandle == 0 ==>
        pointers == old(pointers) && injected == old(injected)
      ensures lastError >= 0 && createdHandle != 0 ==>
        && Ready() && fresh(pointers) && (forall i :: 0 <= i < pointers.Length ==> fresh(pointers[i].touchInfo))
        && injected == old(injected) + [InitialBatch(count, foreground)]
        && Snapshot() == if injectOk
                         then InitialBatch(count, foreground)[0 := InitialFields(0, foreground).(pointerFlags := PRIMARY)]
                         else InitialBatch(count, foreground)
    {
      this.count := count;
      lastContact := new bool[count](_ => false);
      touchHandle := createdHandle;

      if lastError < 0 || touchHandle == 0 {
        return false;
      }

      Populate(foreground);
      injected := injected + [Snapshot()];
      if !injectOk {
        return false;
      }

      assert count > 0;
      AssignFlags(0, PRIMARY);
      return true;
    }

    /** The two steps Initialize takes once the device exists: BuildPointers,
        then SetAllTargets. */
    method Populate(foreground: Hwnd)
      requires lastContact.Length == count as int
      modifies this`pointers
      ensures Ready() && fresh(pointers) && (forall i :: 0 <= i < pointers.Length ==> fresh(pointers[i].touchInfo))
      ensures Snapshot() == InitialBatch(count, foreground)
    {
      BuildPointers();
      SetAllTargets(foreground);
      ghost var batch := Snapshot();
      forall i | 0 <= i < count
        ensures batch[i] == InitialBatch(count, foreground)[i]
      {
        assert Slot(i) == InitialFields(i, foreground);
      }
    }

    /** `pointers[index].ClearPointerFlags(flags)`, which assigns the flag word. */
    method AssignFlags(index: uint32, flags: Flags)
      requires Ready() && index < count
      modifies pointers[index].touchInfo
      ensures Snapshot() == old(Snapshot())[index as int := old(Slot(index as int)).(pointerFlags := flags)]
    {
      pointers[index].ClearPointerFlagsTo(flags);
      assert forall i :: 0 <= i < count && i != index as int ==> Slot(i) == old(Slot(i));
    }

    /** BuildPointers: a fresh record per slot, slot `i` with pointer id `i + 1`. */
    method BuildPointers()
      requires lastContact.Length == count as int
      modifies this`pointers
      ensures Ready() && fresh(pointers) && (forall i :: 0 <= i < pointers.Length ==> fresh(pointers[i].touchInfo))
      ensures forall i :: 0 <= i < count ==> Slot(i) == FreshFields(i + 1)
    {
      var built: seq<PointerTypeInfo> := [];
      var i := 0;
      while i < count
        invariant 0 <= i <= count
        invariant |built| == i
        invariant forall k :: 0 <= k < i ==> fresh(built[k].touchInfo)
        invariant forall k :: 0 <= k < i ==> built[k].touchInfo.Fields() == FreshFields(k + 1)
        invariant forall k, l :: 0 <= k < l < i ==> built[k].touchInfo != built[l].touchInfo
      {
        var info := new PointerTouchInfo(i + 1);
        var pointer := new PointerTypeInfo(info);
        built := built + [pointer];
        i := i + 1;
      }
      var n := count as int;
      pointers := new PointerTypeInfo[n](k requires 0 <= k < n => built[k]);
    }

    /** SetAllTargets: every record targets the foreground window. */
    method SetAllTargets(foreground: Hwnd)
      requires Ready()
      modifies TouchInfos()
      ensures Ready() && TouchInfos() == old(TouchInfos())
      ensures forall i :: 0 <= i < count ==> Slot(i) == old(Slot(i)).(hwndTarget := foreground)
    {
      var i := 0;
      while i < pointers.Length
        invariant 0 <= i <= pointers.Length
        invariant forall k :: 0 <= k < i ==> Slot(k) == old(Slot(k)).(hwndTarget := foreground)
        invariant forall k :: i <= k < pointers.Length ==> Slot(k) == old(Slot(k))
      {
        pointers[i].SetTarget(foreground);
        i := i + 1;
      }
    }

    /** SetPosition(index, point): out-of-range indices are ignored; otherwise
        the slot is placed at the truncated point, its flags follow
        PositionFlags, it is marked in contact and it targets the foreground
        window. */
    method SetPosition(index: uint32, point: Vec, foreground: Hwnd)
      requires Ready()
      modifies TouchInfos(), lastContact
      ensures Ready()
      ensures index >= count ==> Snapshot() == old(Snapshot()) && lastContact[..] == old(lastContact[..])
      ensures index < count ==>
        && Slot(index as int) == Placed(old(Slot(index as int)), TruncatedPoint(point)).(
             pointerFlags := PositionFlags(old(Slot(index as int)).pointerFlags, old(lastContact[index])),
             hwndTarget := foreground)
        && lastContact[..] == old(lastContact[..])[index as int := true]
        && forall j :: 0 <= j < count && j != index as int ==> Slot(j) == old(Slot(j))
    {
      if index >= count {
        return;
      }

      var intern := TruncatedPoint(point);
      pointers[index].SetPositionPoint(intern);

      if lastContact[index] == false {
        UnsetPointerFlags(index, CANCELED | UPDATE);
        SetPointerFlags(index, INRANGE);
        lastContact[index] := true;
      } else {
        SetPointerFlags(index, UPDATE);
      }

      pointers[index].SetTarget(foreground);
    }

    /** SetPressure(index, pressure). The source does not check the index. The
        record's pressure field is left alone (that write is commented out). */
    method SetPressure(index: uint32, pressure: uint32)
      requires Ready() && index < count
      modifies TouchInfos()
      ensures Slot(index as int)
           == old(Slot(index as int)).(pointerFlags := PressureFlags(old(Slot(index as int)).pointerFlags, pressure))
      ensures forall j :: 0 <= j < count && j != index as int ==> Slot(j) == old(Slot(j))
    {
      if pressure > 0 {
        UnsetPointerFlags(index, CANCELED | UP);
        SetPointerFlags(index, INCONTACT | DOWN);
      } else {
        UnsetPointerFlags(index, INCONTACT | DOWN);
        SetPointerFlags(index, UP);
      }
    }

    /** SetInactive(index). The source does not check the index. */
    method SetInactive(index: uint32)
      requires Ready() && index < count
      modifies TouchInfos(), lastContact
      ensures Slot(index as int)
           == old(Slot(index as int)).(pointerFlags := InactiveFlags(old(Slot(index as int)).pointerFlags, old(lastContact[index])))
      ensures lastContact[..] == old(lastContact[..])[index as int := false]
      ensures forall j :: 0 <= j < count && j != index as int ==> Slot(j) == old(Slot(j))
    {
      ghost var record := Slot(index as int);
      ghost var result := InactiveFlags(record.pointerFlags, lastContact[index]);
      UnsetPointerFlags(index, DOWN | UP | INCONTACT | INRANGE);
      ghost var cleared := Slot(index as int).pointerFlags;
      assert cleared == UnsetBits(record.pointerFlags, DOWN | UP | INCONTACT | INRANGE);

      if lastContact[index] == false {
        UnsetPointerFlags(index, CANCELED | UPDATE);
        assert Slot(index as int).pointerFlags == UnsetBits(cleared, CANCELED | UPDATE);
      } else {
        SetPointerFlags(index, CANCELED | UPDATE);
        assert Slot(index as int).pointerFlags == SetBits(cleared, CANCELED | UPDATE);
      }
      assert Slot(index as int).pointerFlags == result;
      assert Slot(index as int) == record.(pointerFlags := result);

      lastContact[index] := false;
    }

    /** Whether CleanupInactives releases slot `i`: inside both the capacity
        and the frame, absent from the frame, and in contact. */
    ghost predicate Released<T>(points: seq<Option<T>>, i: int)
      requires Ready() && 0 <= i < count
      reads this, pointers, lastContact
    {
      i < |points| && points[i].None? && lastContact[i]
    }

    /** CleanupInactives(points): SetInactive for exactly the released slots.
        Afterwards no absent slot is in contact, so an immediate second call
        releases nothing. */
    method CleanupInactives<T>(points: seq<Option<T>>)
      requires Ready()
      modifies TouchInfos(), lastContact
      ensures forall j :: 0 <= j < count ==>
        Slot(j) == if old(Released(points, j))
                   then old(Slot(j)).(pointerFlags := InactiveFlags(old(Slot(j)).pointerFlags, true))
                   else old(Slot(j))
      ensures forall j :: 0 <= j < count ==> lastContact[j] == (old(lastContact[j]) && !old(Released(points, j)))
      ensures forall j :: 0 <= j < count ==> !Released(points, j)
    {
      var n := if count as int <= |points| then count as int else |points|;
      var i := 0;
      while i < n
        invariant 0 <= i <= n
        invariant forall j :: 0 <= j < i ==>
          Slot(j) == if old(Released(points, j))
                     then old(Slot(j)).(pointerFlags := InactiveFlags(old(Slot(j)).pointerFlags, true))
                     else old(Slot(j))
        invariant forall j :: i <= j < count ==> Slot(j) == old(Slot(j))
        invariant forall j :: 0 <= j < i ==> lastContact[j] == (old(lastContact[j]) && !old(Released(points, j)))
        invariant forall j :: i <= j < count ==> lastContact[j] == old(lastContact[j])
      {
        if points[i].None? && lastContact[i] == true {
          SetInactive(i as uint32);
        }
        i := i + 1;
      }
    }

    /** Flush: the current batch is injected; no slot state changes. */
    method Flush()
      requires Ready()
      modifies this`injected
      ensures injected == old(injected) + [old(Snapshot())]
    {
      injected := injected + [Snapshot()];
    }

    method SetPointerFlags(index: uint32, flags: Flags)
      requires Ready() && index < count
      modifies pointers[index].touchInfo
      ensures Slot(index as int)
           == old(Slot(index as int)).(pointerFlags := SetBits(old(Slot(index as int)).pointerFlags, flags))
    {
      pointers[index].SetPointerFlags(flags);
    }

    method UnsetPointerFlags(index: uint32, flags: Flags)
      requires Ready() && index < count
      modifies pointers[index].touchInfo
      ensures Slot(index as int)
           == old(Slot(index as int)).(pointerFlags := UnsetBits(old(Slot(index as int)).pointerFlags, flags))
    {
      pointers[index].UnsetPointerFlags(flags);
    }
  }
}
