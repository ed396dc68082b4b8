/** The FancyZones hook DLL as it runs inside one thread of a process it is
    injected into: the per-thread TLS slot naming the window this thread last
    subclassed, the set of windows that carry the hookWndProc subclass, and the
    thread messages the DLL has posted. The message hook getMsgProc installs and
    removes the subclass; the subclass procedure hookWndProc rewrites WINDOWPOS
    for windows that carry a zone-size stamp.

    Answers from the operating system (whether SetWindowSubclass,
    RemoveWindowSubclass and TlsSetValue succeed, the current process id, the
    windows EnumWindows reports, the results of DefSubclassProc and
    CallNextHookEx) are inputs, collected in an Os record. */
module FancyZonesHook {
  import opened Words
  import opened FancyZonesWindowProperties

  const WM_DESTROY: int := 0x0002
  const WM_WINDOWPOSCHANGING: int := 0x0046
  const WM_APP: int := 0x8000
  const PM_REMOVE: int := 0x0001

  /** Private messages: hook a window (to getMsgProc), unhook the thread's window,
      and unhook every window of the process (to hookWndProc). */
  const AddHookMessage: int := WM_APP + 900
  const UnhookMessage: int := WM_APP + 901
  const DeepCleanMessage: int := WM_APP + 902

  /** The lParam that DeepClean puts on each unhook request. */
  const DeepCleanTag: int := 0xFF

  type Hwnd = u64
  type ThreadId = u32
  type ProcessId = u32

  /** A window as EnumWindows and GetWindowThreadProcessId report it. */
  datatype EnumeratedWindow = EnumeratedWindow(hwnd: Hwnd, tid: ThreadId, pid: ProcessId)

  /** A PostThreadMessage call. */
  datatype ThreadMessage = ThreadMessage(tid: ThreadId, message: int, wParam: int, lParam: int)

  /** The fields of MSG that getMsgProc reads. */
  datatype Msg = Msg(message: int, wParam: Hwnd)

  datatype Os = Os(
    setSubclassOk: bool,
    removeSubclassOk: bool,
    tlsSetOk: bool,
    processId: ProcessId,
    windows: seq<EnumeratedWindow>,
    defSubclassResult: int,
    nextHookResult: int)

  function IsSameProcess(processId: ProcessId, windowPid: ProcessId): bool
  {
    processId == windowPid
  }

  /** The thread ids DeepClean collects, in enumeration order: one per window
      of the current process, repeated when a thread owns several windows. */
  function SameProcessThreads(windows: seq<EnumeratedWindow>, processId: ProcessId): (tids: seq<ThreadId>)
    ensures |tids| <= |windows|
  {
    if windows == [] then []
    else
      var last := windows[|windows| - 1];
      SameProcessThreads(windows[..|windows| - 1], processId)
        + (if IsSameProcess(processId, last.pid) then [last.tid] else [])
  }

  /** The unhook request posted to each collected thread. */
  function UnhookRequests(tids: seq<ThreadId>): (msgs: seq<ThreadMessage>)
  {
    seq(|tids|, i requires 0 <= i < |tids| => ThreadMessage(tids[i], UnhookMessage, tids[i], DeepCleanTag))
  }

  /** Enumeration order is kept: the threads of a concatenation are the
      threads of each part, in order. */
  lemma {:induction false} SameProcessThreadsConcat(a: seq<EnumeratedWindow>, b: seq<EnumeratedWindow>, processId: ProcessId)
    ensures SameProcessThreads(a + b, processId) == SameProcessThreads(a, processId) + SameProcessThreads(b, processId)
    decreases |b|
  {
    if b == [] {
      assert a + b == a;
    } else {
      var init := b[..|b| - 1];
      assert (a + b)[..|a + b| - 1] == a + init;
      SameProcessThreadsConcat(a, init, processId);
    }
  }

  /** Every collected thread owns a window of the current process: windows of
      other processes contribute nothing. */
  lemma {:induction false} SameProcessThreadsSound(windows: seq<EnumeratedWindow>, processId: ProcessId)
    ensures forall t :: t in SameProcessThreads(windows, processId) ==>
      exists w :: w in windows && w.pid == processId && w.tid == t
  {
    if windows != [] {
      var init := windows[..|windows| - 1];
      SameProcessThreadsSound(init, processId);
      forall t | t in SameProcessThreads(windows, processId)
        ensures exists w :: w in windows && w.pid == processId && w.tid == t
      {
        if t in SameProcessThreads(init, processId) {
          var w :| w in init && w.pid == processId && w.tid == t;
          assert w in windows;
        } else {
          assert windows[|windows| - 1] in windows;
        }
      }
    }
  }

  /** Each window of the current process contributes its thread, at the
      position given by the number of such windows before it. */
  lemma {:induction false} SameProcessThreadsComplete(windows: seq<EnumeratedWindow>, processId: ProcessId, i: nat)
    requires i < |windows| && windows[i].pid == processId
    ensures |SameProcessThreads(windows[..i], processId)| < |SameProcessThreads(windows, processId)|
    ensures SameProcessThreads(windows, processId)[|SameProcessThreads(windows[..i], processId)|] == windows[i].tid
  {
    assert windows == windows[..i] + [windows[i]] + windows[i + 1..];
    SameProcessThreadsConcat(windows[..i] + [windows[i]], windows[i + 1..], processId);
    SameProcessThreadsConcat(windows[..i], [windows[i]], processId);
    assert SameProcessThreads([windows[i]], processId) == [windows[i].tid] by {
      assert [windows[i]][..0] == [];
    }
  }

  /** The number of enumerated windows that belong to the current process,
      counted from the front. */
  function SameProcessCount(windows: seq<EnumeratedWindow>, processId: ProcessId): nat
  {
    if windows == [] then 0
    else (if windows[0].pid == processId then 1 else 0) + SameProcessCount(windows[1..], processId)
  }

  /** DeepClean collects exactly one thread id per window of the current
      process: no more, no fewer. */
  lemma {:induction false} SameProcessThreadsCount(windows: seq<EnumeratedWindow>, processId: ProcessId)
    ensures |SameProcessThreads(windows, processId)| == SameProcessCount(windows, processId)
    decreases |windows|
  {
    if windows != [] {
      assert windows == [windows[0]] + windows[1..];
      SameProcessThreadsConcat([windows[0]], windows[1..], processId);
      assert [windows[0]][..0] == [];
      SameProcessThreadsCount(windows[1..], processId);
    }
  }

  /** A POINT. */
  class Point {
    var x: i32
    var y: i32

    constructor (x: i32, y: i32)
      ensures this.x == x && this.y == y
    {
      this.x := x;
      this.y := y;
    }
  }

  /** The WINDOWPOS record that WM_WINDOWPOSCHANGING passes through lParam. */
  class WindowPos {
    var hwnd: Hwnd
    var hwndInsertAfter: Hwnd
    var x: i32
    var y: i32
    var cx: i32
    var cy: i32
    var flags: u32

    constructor (hwnd: Hwnd, hwndInsertAfter: Hwnd, x: i32, y: i32, cx: i32, cy: i32, flags: u32)
      ensures this.hwnd == hwnd && this.hwndInsertAfter == hwndInsertAfter
      ensures this.x == x && this.y == y && this.cx == cx && this.cy == cy && this.flags == flags
    {
      this.hwnd, this.hwndInsertAfter := hwnd, hwndInsertAfter;
      this.x, this.y, this.cx, this.cy := x, y, cx, cy;
      this.flags := flags;
    }
  }

  /** Reads the zone size, then the zone origin, into the two points. The size
      is written before the origin is looked up, so a window with a size stamp
      and no origin stamp gets zoneSize filled and false returned. */
  method GetZoneSizeAndOrigin(window: Window, zoneSize: Point, zoneOrigin: Point) returns (ok: bool)
    requires zoneSize != zoneOrigin
    modifies zoneSize, zoneOrigin
    ensures ok <==> GetProp(window.props, PropertyZoneSizeID) != 0 && GetProp(window.props, PropertyZoneOriginID) != 0
    ensures GetProp(window.props, PropertyZoneSizeID) != 0 ==>
      zoneSize.x == Split(GetProp(window.props, PropertyZoneSizeID)).lo &&
      zoneSize.y == Split(GetProp(window.props, PropertyZoneSizeID)).hi
    ensures GetProp(window.props, PropertyZoneSizeID) == 0 ==> unchanged(zoneSize)
    ensures ok ==>
      zoneOrigin.x == Split(GetProp(window.props, PropertyZoneOriginID)).lo &&
      zoneOrigin.y == Split(GetProp(window.props, PropertyZoneOriginID)).hi
    ensures !ok ==> unchanged(zoneOrigin)
  {
    var zsProp := GetProp(window.props, PropertyZoneSizeID);
    if zsProp == 0 {
      return false;
    }
    var zsArray := Split(zsProp);
    zoneSize.x := zsArray.lo;
    zoneSize.y := zsArray.hi;

    var zoProp := GetProp(window.props, PropertyZoneOriginID);
    if zoProp == 0 {
      return false;
    }
    var zoArray := Split(zoProp);
    zoneOrigin.x := zoArray.lo;
    zoneOrigin.y := zoArray.hi;
    return true;
  }

  /** The state of the hook DLL seen from one thread. */
  class HookState {
    /** TlsGetValue(dwTlsIndex) for this thread; 0 is NULL. */
    var tlsSlot: Hwnd
    /** The windows that carry the hookWndProc subclass (id 1). */
    var subclassed: set<Hwnd>
    /** PostThreadMessage calls made, in order. */
    var posted: seq<ThreadMessage>

    /** The TLS slot names a subclassed window, or nothing. */
    ghost predicate Consistent()
      reads this
    {
      tlsSlot != 0 ==> tlsSlot in subclassed
    }

    constructor ()
      ensures tlsSlot == 0 && subclassed == {} && posted == []
      ensures Consistent()
    {
      tlsSlot, subclassed, posted := 0, {}, [];
    }

    /** The effect of AddHook(hwnd): the subclass is set when SetWindowSubclass
        succeeds (setting it again leaves one subclass), and the slot is
        overwritten with hwnd only when TlsSetValue also succeeds. */
    twostate predicate Hooked(hwnd: Hwnd, os: Os)
      reads this
    {
      && subclassed == (if os.setSubclassOk then old(subclassed) + {hwnd} else old(subclassed))
      && tlsSlot == (if os.setSubclassOk && os.tlsSetOk then hwnd else old(tlsSlot))
      && posted == old(posted)
    }

    /** The effect of RemoveHook(hwnd): the target is hwnd, or the window in
        the slot when hwnd is NULL. With no target nothing changes. Otherwise
        the subclass is removed when RemoveWindowSubclass succeeds, and only
        then is the slot cleared (when TlsSetValue succeeds). */
    twostate predicate Unhooked(hwnd: Hwnd, os: Os)
      reads this
    {
      var target := if hwnd == 0 then old(tlsSlot) else hwnd;
      var removed := target != 0 && os.removeSubclassOk;
      && subclassed == (if removed then old(subclassed) - {target} else old(subclassed))
      && tlsSlot == (if removed && os.tlsSetOk then 0 else old(tlsSlot))
      && posted == old(posted)
    }

    /** The effect of DeepClean: one unhook request per enumerated window of
        the current process, appended in enumeration order. */
    twostate predicate DeepCleaned(os: Os)
      reads this
    {
      && posted == old(posted) + UnhookRequests(SameProcessThreads(os.windows, os.processId))
      && tlsSlot == old(tlsSlot)
      && subclassed == old(subclassed)
    }

    method AddHook(hwnd: Hwnd, os: Os) returns (ok: bool)
      modifies this
      ensures Hooked(hwnd, os)
      ensures ok <==> os.setSubclassOk && os.tlsSetOk
      ensures old(Consistent()) ==> Consistent()
    {
      if !os.setSubclassOk {
        return false;
      }
      subclassed := subclassed + {hwnd};
      if !os.tlsSetOk {
        return false;
      }
      tlsSlot := hwnd;
      return true;
    }

    method RemoveHook(hwnd: Hwnd, os: Os) returns (ok: bool)
      modifies this
      ensures Unhooked(hwnd, os)
      ensures ok <==> (if hwnd == 0 then old(tlsSlot) else hwnd) == 0 || os.removeSubclassOk
      ensures old(Consistent()) && os.tlsSetOk ==> Consistent()
    {
      var target := hwnd;
      if target == 0 {
        target := tlsSlot;
      }
      if target == 0 {
        return true;
      }
      if !os.removeSubclassOk {
        return false;
      }
      subclassed := subclassed - {target};
      if os.tlsSetOk {
        tlsSlot := 0;
      }
      return true;
    }

    /** Collects the thread of every enumerated window of this process, then
        posts an unhook request to each. */
    method DeepClean(os: Os)
      modifies this
      ensures DeepCleaned(os)
    {
      var result: seq<ThreadId> := [];
      var i := 0;
      while i < |os.windows|
        invariant 0 <= i <= |os.windows|
        invariant result == SameProcessThreads(os.windows[..i], os.processId)
      {
        var w := os.windows[i];
        assert os.windows[..i + 1][..i] == os.windows[..i];
        if IsSameProcess(os.processId, w.pid) {
          result := result + [w.tid];
        }
        i := i + 1;
      }
      assert os.windows[..i] == os.windows;

      var j := 0;
      while j < |result|
        invariant 0 <= j <= |result|
        invariant posted == old(posted) + UnhookRequests(result[..j])
        invariant tlsSlot == old(tlsSlot) && subclassed == old(subclassed)
      {
        var tid := result[j];
        posted := posted + [ThreadMessage(tid, UnhookMessage, tid, DeepCleanTag)];
        j := j + 1;
      }
      assert result[..j] == result;
    }

    /** hookWndProc for the window whose property list is window. pos is the
        WINDOWPOS behind lParam, read only for WM_WINDOWPOSCHANGING. forwarded
        tells whether the message went on to DefSubclassProc, whose result is
        then returned. */
    method HookWndProc(window: Window, msg: int, pos: WindowPos, os: Os) returns (r: int, forwarded: bool)
      modifies this, pos
      ensures forwarded ==> r == os.defSubclassResult
      // Not zoned: everything is forwarded, nothing is unhooked or cleaned.
      ensures GetProp(window.props, PropertyZoneSizeID) == 0 ==>
        forwarded && unchanged(this) && unchanged(pos)
      // Zoned, WM_WINDOWPOSCHANGING with an origin stamp: the position and size
      // are replaced by the stamped ones and default processing is skipped.
      ensures GetProp(window.props, PropertyZoneSizeID) != 0 && msg == WM_WINDOWPOSCHANGING
              && GetProp(window.props, PropertyZoneOriginID) != 0 ==>
        !forwarded && r == 0 && unchanged(this) &&
        pos.x == Split(GetProp(window.props, PropertyZoneOriginID)).lo &&
        pos.y == Split(GetProp(window.props, PropertyZoneOriginID)).hi &&
        pos.cx == Split(GetProp(window.props, PropertyZoneSizeID)).lo &&
        pos.cy == Split(GetProp(window.props, PropertyZoneSizeID)).hi &&
        unchanged(pos`hwnd, pos`hwndInsertAfter, pos`flags)
      // Zoned, WM_WINDOWPOSCHANGING without an origin stamp: left to the default.
      ensures GetProp(window.props, PropertyZoneSizeID) != 0 && msg == WM_WINDOWPOSCHANGING
              && GetProp(window.props, PropertyZoneOriginID) == 0 ==>
        forwarded && unchanged(this) && unchanged(pos)
      ensures GetProp(window.props, PropertyZoneSizeID) != 0 && msg == WM_DESTROY ==>
        forwarded && Unhooked(0, os) && unchanged(pos)
      ensures GetProp(window.props, PropertyZoneSizeID) != 0 && msg == UnhookMessage ==>
        !forwarded && r == 1 && Unhooked(0, os) && unchanged(pos)
      ensures GetProp(window.props, PropertyZoneSizeID) != 0 && msg == DeepCleanMessage ==>
        !forwarded && r == 1 && DeepCleaned(os) && unchanged(pos)
      ensures msg !in {WM_WINDOWPOSCHANGING, WM_DESTROY, UnhookMessage, DeepCleanMessage} ==>
        forwarded && unchanged(this) && unchanged(pos)
    {
      if GetProp(window.props, PropertyZoneSizeID) == 0 {
        return os.defSubclassResult, true;
      }
      if msg == WM_WINDOWPOSCHANGING {
        var zoneSize := new Point(0, 0);
        var zoneOrigin := new Point(0, 0);
        var found := GetZoneSizeAndOrigin(window, zoneSize, zoneOrigin);
        if found {
          pos.x := zoneOrigin.x;
          pos.y := zoneOrigin.y;
          pos.cx := zoneSize.x;
          pos.cy := zoneSize.y;
          return 0, false;
        }
      } else if msg == WM_DESTROY {
        var _ := RemoveHook(0, os);
      } else if msg == UnhookMessage {
        var _ := RemoveHook(0, os);
        return 1, false;
      } else if msg == DeepCleanMessage {
        DeepClean(os);
        return 1, false;
      }
      return os.defSubclassResult, true;
    }

    /** getMsgProc: acts only on messages with code >= 0 that are being removed
        from the queue; AddHookMessage hooks the window in the message's wParam,
        UnhookMessage unhooks this thread's window whatever its wParam. The
        result is always that of CallNextHookEx. */
    method GetMsgProc(code: int, wParam: int, msg: Msg, os: Os) returns (r: int)
      modifies this
      ensures r == os.nextHookResult
      ensures code >= 0 && wParam == PM_REMOVE && msg.message == AddHookMessage ==> Hooked(msg.wParam, os)
      ensures code >= 0 && wParam == PM_REMOVE && msg.message == UnhookMessage ==> Unhooked(0, os)
      ensures code < 0 || wParam != PM_REMOVE || msg.message !in {AddHookMessage, UnhookMessage} ==> unchanged(this)
    {
      if code >= 0 && wParam == PM_REMOVE {
        if msg.message == AddHookMessage {
          var _ := AddHook(msg.wParam, os);
        } else if msg.message == UnhookMessage {
          var _ := RemoveHook(0, os);
        }
      }
      return os.nextHookResult;
    }
  }

  /** AddHook on a second window overwrites the slot: after hooking a and then
      b and unhooking, a still carries the subclass and nothing names it. */
  method SecondHookOrphansFirst(a: Hwnd, b: Hwnd, os: Os) returns (h: HookState)
    requires a != 0 && b != 0 && a != b
    requires os.setSubclassOk && os.tlsSetOk && os.removeSubclassOk
    ensures fresh(h)
    ensures a in h.subclassed && b !in h.subclassed && h.tlsSlot == 0
  {
    h := new HookState();
    var _ := h.AddHook(a, os);
    var _ := h.AddHook(b, os);
    var _ := h.RemoveHook(0, os);
  }

  /** A zone rectangle stamped with a conversion that leaves int32 values alone
      is what WM_WINDOWPOSCHANGING applies, provided neither stamped pair is
      {0, 0}: a {0, 0} pair is stored as NULL and reads as missing. */
  method StampedZoneIsApplied(rect: Rect, pos: WindowPos, state: HookState) returns (r: int, forwarded: bool)
    requires -TWO31 <= rect.right - rect.left < TWO31 && -TWO31 <= rect.bottom - rect.top < TWO31
    requires rect.right != rect.left || rect.bottom != rect.top
    requires rect.left != 0 || rect.top != 0
    modifies pos, state
    ensures !forwarded && r == 0
    ensures pos.x == rect.left && pos.y == rect.top
    ensures pos.cx == rect.right - rect.left && pos.cy == rect.bottom - rect.top
  {
    var window := new Window(map[]);
    var convert := (x: int) => ToInt32(x);
    ToInt32OfInt32();
    var _ := window.StampZoneDimensions(rect, convert, true, true);
    var size, origin := Pack(ZoneSizeData(rect, convert)), Pack(ZoneOriginData(rect, convert));
    assert PropertyZoneSizeID != PropertyZoneOriginID;
    assert GetProp(window.props, PropertyZoneSizeID) == size;
    assert GetProp(window.props, PropertyZoneOriginID) == origin;
    StampedDimensionsReadBack(rect, convert);
    var os := Os(true, true, true, 0, [], 0, 0);
    r, forwarded := state.HookWndProc(window, WM_WINDOWPOSCHANGING, pos, os);
  }

  /** A zone whose stamped origin is (0, 0) is not applied: the origin pair
      {0, 0} is stored as NULL, reads as missing, and WM_WINDOWPOSCHANGING is
      forwarded with WINDOWPOS untouched. */
  method StampedOriginZeroIsIgnored(rect: Rect, pos: WindowPos, state: HookState) returns (r: int, forwarded: bool)
    requires -TWO31 <= rect.right - rect.left < TWO31 && -TWO31 <= rect.bottom - rect.top < TWO31
    requires rect.right != rect.left || rect.bottom != rect.top
    requires rect.left == 0 && rect.top == 0
    modifies pos, state
    ensures forwarded && r == 0
    ensures unchanged(pos)
  {
    var window := new Window(map[]);
    var convert := (x: int) => ToInt32(x);
    ToInt32OfInt32();
    var _ := window.StampZoneDimensions(rect, convert, true, true);
    var size, origin := Pack(ZoneSizeData(rect, convert)), Pack(ZoneOriginData(rect, convert));
    assert PropertyZoneSizeID != PropertyZoneOriginID;
    assert GetProp(window.props, PropertyZoneSizeID) == size;
    assert GetProp(window.props, PropertyZoneOriginID) == origin;
    StampedDimensionsReadBack(rect, convert);
    var os := Os(true, true, true, 0, [], 0, 0);
    r, forwarded := state.HookWndProc(window, WM_WINDOWPOSCHANGING, pos, os);
  }
}
