# FancyZones window hook and zone properties, modelled in Dafny

This project models two sequential pieces of FancyZones.

1. **The window-property store** (`FancyZonesWindowProperties.cpp`). FancyZones
   annotates each window with Win32 window properties:
   - the zone geometry, as two properties `FancyZones_ZoneSize` and `FancyZones_ZoneOrigin`;
   - the zone membership, a 128-bit mask split into `FancyZones_zones` (zones 0..63)
     and `FancyZones_zones_max128` (zones 64..127);
   - the tab sort key within a zone, `FancyZones_TabSortKeyWithinZone`, stored plus one.

   The geometry and membership properties are 64-bit HANDLEs filled by `memcpy` from
   two `int32_t` values; the sort key is the 64-bit value `key + 1` cast to a HANDLE.
   A window's property list is a `map<string, u64>`, held by the class `Window`.
   Reading a name that is not set gives NULL (0). The methods that change the list
   are `Window` methods; the reads are functions over it.
2. **The hook DLL** (`dllmain.cpp`) as seen from one thread, held by the class `HookState`:
   - `tlsSlot` is the thread's single TLS slot, naming the window that thread last subclassed;
   - `subclassed` is the set of windows that carry the `hookWndProc` subclass;
   - `posted` records the `PostThreadMessage` calls made so far.

   `GetMsgProc` installs and removes the subclass. `HookWndProc` rewrites the
   WINDOWPOS record (a `WindowPos` object) from the stamped geometry, unhooks, and
   deep-cleans. `DeepClean` posts one unhook request per window of the process.

Module layout:
- `Words` holds the int32/uint64 conversions: splitting a word into two `int32_t`,
  `memcpy` into and out of a HANDLE, and the reassembly.
- `ZoneIndexSetBitmask` holds the set ↔ bitmask codec.
- `FancyZonesWindowProperties` holds the property store.
- `FancyZonesHook` holds the hook.

The operating system's answers are inputs, gathered in the `Os` record. They are:
whether `SetWindowSubclass`, `RemoveWindowSubclass` and `TlsSetValue` succeed; the
current process id; the windows `EnumWindows` reports; and the values `DefSubclassProc`
and `CallNextHookEx` return. A `SetProp` that fails is a boolean parameter of the
stamping methods.

Facts the proofs establish about the code as written:
- A stamped bitmask half reads back exactly when its bit 31 is clear. When bit 31 is
  set, `data[0]` is negative and is sign-extended during reassembly. The high 32 bits
  then come back decremented by one (mod 2^32): `0x80000000` reads back as
  `0xFFFFFFFF80000000`. A window stamped with zone 31 or zone 95 therefore reads back
  with a different zone set (see Findings).
- A stamped pair `{0, 0}` is stored as a NULL HANDLE, which reads as missing. A zone
  whose origin is (0, 0) after DPI conversion is therefore never applied by
  `hookWndProc`. It falls through to default processing, like a window that has no
  origin stamp (`FancyZonesHook.StampedOriginZeroIsIgnored`). A zone of size (0, 0)
  is treated as not zoned at all.
- `AddHook` overwrites the TLS slot. Hooking a second window on the same thread
  leaves the first window subclassed with nothing naming it, so `RemoveHook(NULL)`
  never reaches it.

How the code keeps its state:
- There is no process-wide registry and no mutex. A single TLS slot per thread
  (`dllmain.cpp:14`, `:213`, `:227`) plays the registry's part.
- `DeepClean` enumerates all top-level windows and filters them by process id. It
  posts to the thread of every window of the process, whether or not that window was hooked.
- `RemoveHook` keeps the slot when `RemoveWindowSubclass` fails.
- `hookWndProc` has no maximize, work-area or modifier-key checks; the maximize test
  is commented out at `dllmain.cpp:150`.
- `StampZoneDimensions` returns true even when a write fails.

## Model

| member | source | states |
|---|---|---|
| `Words.ToInt32` | src/modules/fancyzones/FancyZonesLib/FancyZonesWindowProperties.cpp:51-54 | `static_cast<int>` keeps the value modulo 2^32 and is non-negative exactly when bit 31 is clear |
| `Words.ToUInt64` | src/modules/fancyzones/FancyZonesLib/FancyZonesWindowProperties.cpp:102 | conversion to `uint64_t` keeps the value modulo 2^64 (sign extension, size_t wrap-around) |
| `Words.SplitHalves` | src/modules/fancyzones/FancyZonesLib/FancyZonesWindowProperties.cpp:51-54 | `data[0]` holds the low 32 bits and `data[1]` the high 32 bits of the stamped word, as int32; `data[0]` is negative exactly when bit 31 is set |
| `Words.PackSplit` | src/modules/fancyzones/FancyZonesLib/FancyZonesWindowProperties.cpp:56-57 | the HANDLE filled by `memcpy` holds exactly the stamped word, so it is NULL only for a zero word |
| `Words.SplitPack` | src/modules/fancyzones/FancyZonesHook/dllmain.cpp:288-292 | `memcpy` out of a HANDLE gives back the int32 pair put into it; the HANDLE is NULL exactly when both values are 0 |
| `Words.ReassembleSplit` | src/modules/fancyzones/FancyZonesLib/FancyZonesWindowProperties.cpp:100-102 | the reassembled word equals the stamped word if and only if bit 31 is clear; otherwise it is the word minus 2^32 modulo 2^64 |
| `Words.SignExtensionCounterexample` | src/modules/fancyzones/FancyZonesLib/FancyZonesWindowProperties.cpp:102 | `0x80000000` reads back as `0xFFFFFFFF80000000` |
| `Words.ZeroExtendedRoundTrip` | src/modules/fancyzones/FancyZonesLib/FancyZonesWindowProperties.cpp:109 | with both halves widened as unsigned, every word reads back exactly |
| `ZoneIndexSetBitmask.FromIndexSet` | src/modules/fancyzones/FancyZonesLib/FancyZonesWindowProperties.cpp:47 | index i < 64 is bit i of part1 and index 64 <= i < 128 is bit i - 64 of part2 |
| `ZoneIndexSetBitmask.ToIndexSet` | src/modules/fancyzones/FancyZonesLib/FancyZonesWindowProperties.cpp:112 | the decoded set holds only indices 0..127 |
| `ZoneIndexSetBitmask.ToFromIndexSet` | src/modules/fancyzones/FancyZonesLib/FancyZonesWindowProperties.cpp:112 | decoding the encoding of any set of indices 0..127 gives the set back |
| `ZoneIndexSetBitmask.FromToIndexSet` | src/modules/fancyzones/FancyZonesLib/FancyZonesWindowProperties.cpp:47 | encoding the decoding of any bitmask gives the bitmask back, so the codec is a bijection |
| `ZoneIndexSetBitmask.EmptySetLaw` | src/modules/fancyzones/FancyZonesLib/FancyZonesWindowProperties.cpp:96 | the empty set encodes as {0, 0}, and {0, 0} decodes to the empty set |
| `ZoneIndexSetBitmask.Bit31OfEncoding` | src/modules/fancyzones/FancyZonesLib/FancyZonesWindowProperties.cpp:49-54 | bit 31 of part1 is set exactly when zone 31 is in the set, and bit 31 of part2 exactly when zone 95 is |
| `FancyZonesWindowProperties.Window.StampZoneDimensions` | src/modules/fancyzones/FancyZonesLib/FancyZonesWindowProperties.cpp:23-42 | writes size {width, height}, then origin {left, top}, each after the DPI conversion; returns true whatever the writes did; other properties are untouched |
| `FancyZonesWindowProperties.Window.RemoveZoneIndexProperty` | src/modules/fancyzones/FancyZonesLib/FancyZonesWindowProperties.cpp:82-89 | removes exactly the two membership properties; size, origin and sort key are unchanged |
| `FancyZonesWindowProperties.Window.StampZoneIndexProperty` | src/modules/fancyzones/FancyZonesLib/FancyZonesWindowProperties.cpp:44-80 | a membership property is present afterwards if and only if its half is non-zero and its write succeeded, and then it holds that half; no other property changes; an empty set leaves both absent |
| `FancyZonesWindowProperties.Window.RetrieveZoneIndexProperty` | src/modules/fancyzones/FancyZonesLib/FancyZonesWindowProperties.cpp:91-113 | yields indices 0..127 only; with both properties missing it yields the empty set |
| `FancyZonesWindowProperties.Window.RetrieveZoneIndexPropertyCorrected` | src/modules/fancyzones/FancyZonesLib/FancyZonesWindowProperties.cpp:91-113 | the same read with unsigned widening of `data[0]`; yields indices 0..127 and the empty set when both are missing |
| `FancyZonesWindowProperties.Window.GetTabSortKeyWithinZone` | src/modules/fancyzones/FancyZonesLib/FancyZonesWindowProperties.cpp:115-125 | None exactly when the stored HANDLE is NULL; otherwise the key plus one is the stored value |
| `FancyZonesWindowProperties.Window.SetTabSortKeyWithinZone` | src/modules/fancyzones/FancyZonesLib/FancyZonesWindowProperties.cpp:127-138 | None removes the property; Some(v) stores v + 1 computed modulo 2^64 |
| `FancyZonesWindowProperties.RetrieveStampedBitmask` | src/modules/fancyzones/FancyZonesLib/FancyZonesWindowProperties.cpp:93-110 | a missing half reads as 0; the bitmask read back equals the stamped one if and only if neither half has bit 31 set |
| `FancyZonesWindowProperties.ZoneSetRoundTrip` | src/modules/fancyzones/FancyZonesLib/FancyZonesWindowProperties.cpp:44-113 | a stamped zone set reads back as itself if and only if it contains neither zone 31 nor zone 95 |
| `FancyZonesWindowProperties.ZoneSetCounterexample` | src/modules/fancyzones/FancyZonesLib/FancyZonesWindowProperties.cpp:102 | a window stamped with {31} does not read back as {31} |
| `FancyZonesWindowProperties.ZoneSetRoundTripCorrected` | src/modules/fancyzones/FancyZonesLib/FancyZonesWindowProperties.cpp:102-109 | with unsigned widening every stamped zone set of indices 0..127 reads back exactly |
| `FancyZonesWindowProperties.TabSortKeyRoundTrip` | src/modules/fancyzones/FancyZonesLib/FancyZonesWindowProperties.cpp:115-138 | after storing Some(v), the key reads back as Some(v) for v < 2^64 - 1 and as None for v = 2^64 - 1 |
| `FancyZonesWindowProperties.StampedDimensionsReadBack` | src/modules/fancyzones/FancyZonesLib/FancyZonesWindowProperties.cpp:33-39 | with an identity conversion the stamped HANDLEs unpack to the size and origin; each is NULL exactly when both of its values are 0 |
| `FancyZonesHook.SameProcessThreads` | src/modules/fancyzones/FancyZonesHook/dllmain.cpp:105-118 | DeepClean collects at most one thread id per enumerated window |
| `FancyZonesHook.SameProcessThreadsCount` | src/modules/fancyzones/FancyZonesHook/dllmain.cpp:105-118 | DeepClean collects exactly as many thread ids as there are enumerated windows of the current process |
| `FancyZonesHook.SameProcessThreadsConcat` | src/modules/fancyzones/FancyZonesHook/dllmain.cpp:105-118 | collection follows enumeration order: the collected threads of two runs of windows are the threads of the first run followed by the threads of the second |
| `FancyZonesHook.SameProcessThreadsSound` | src/modules/fancyzones/FancyZonesHook/dllmain.cpp:86-90 | every collected thread owns an enumerated window of the current process; windows of other processes contribute nothing |
| `FancyZonesHook.SameProcessThreadsComplete` | src/modules/fancyzones/FancyZonesHook/dllmain.cpp:107-113 | every enumerated window of the current process contributes its thread, at the position given by the number of such windows before it (so a thread owning several windows appears several times) |
| `FancyZonesHook.GetZoneSizeAndOrigin` | src/modules/fancyzones/FancyZonesHook/dllmain.cpp:281-309 | succeeds exactly when both properties are non-NULL; zoneSize is written whenever the size property is present, even if the origin is then missing; zoneOrigin is written only on success |
| `FancyZonesHook.HookState.AddHook` | src/modules/fancyzones/FancyZonesHook/dllmain.cpp:202-221 | a failed SetWindowSubclass changes nothing and returns false; otherwise hwnd is subclassed, and the slot is overwritten with hwnd only when TlsSetValue succeeds (true), else false with hwnd still subclassed; the slot keeps naming a subclassed window |
| `FancyZonesHook.HookState.RemoveHook` | src/modules/fancyzones/FancyZonesHook/dllmain.cpp:223-246 | with NULL the target is the slot's window; no target returns true and changes nothing; a failed removal returns false and keeps the slot; a successful one removes the subclass, clears the slot and returns true |
| `FancyZonesHook.HookState.DeepClean` | src/modules/fancyzones/FancyZonesHook/dllmain.cpp:99-128 | appends one `WM_APP+901` request (wParam = tid, lParam = 0xFF) per enumerated window of the current process, addressed to its thread, in enumeration order; nothing else changes |
| `FancyZonesHook.HookState.HookWndProc` | src/modules/fancyzones/FancyZonesHook/dllmain.cpp:133-196 | with no size stamp, every message is forwarded unchanged; with a size and an origin stamp, WM_WINDOWPOSCHANGING sets x, y, cx, cy from them and returns 0 without forwarding; if the origin stamp is missing, the message is forwarded and WINDOWPOS is untouched; WM_DESTROY unhooks the thread's window and is then forwarded; `WM_APP+901` unhooks and `WM_APP+902` deep-cleans, both returning 1; any other message is forwarded |
| `FancyZonesHook.HookState.GetMsgProc` | src/modules/fancyzones/FancyZonesHook/dllmain.cpp:248-275 | acts only for code >= 0 and PM_REMOVE; `WM_APP+900` hooks the window in the message's wParam; `WM_APP+901` unhooks the thread's window, ignoring wParam; always returns the CallNextHookEx result |
| `FancyZonesHook.SecondHookOrphansFirst` | src/modules/fancyzones/FancyZonesHook/dllmain.cpp:212-213 | after hooking a, then b, then RemoveHook(NULL), a is still subclassed and the slot is empty |
| `FancyZonesHook.StampedZoneIsApplied` | src/modules/fancyzones/FancyZonesHook/dllmain.cpp:147-166 | a rectangle stamped with an identity conversion, whose size and origin are not {0, 0}, is what WM_WINDOWPOSCHANGING writes into WINDOWPOS |
| `FancyZonesHook.StampedOriginZeroIsIgnored` | src/modules/fancyzones/FancyZonesHook/dllmain.cpp:147-172 | a rectangle stamped with a non-empty size and origin (0, 0) is not applied: WM_WINDOWPOSCHANGING is forwarded and WINDOWPOS is untouched |

## Findings

| source | as written | input that shows it | evidently intended | confidence | as-written member | corrected member |
|---|---|---|---|---|---|---|
| src/modules/fancyzones/FancyZonesLib/FancyZonesWindowProperties.cpp:102 | `(static_cast<uint64_t>(data[1]) << 32) + data[0]` sign-extends a negative `data[0]` | a window stamped with zone 31 (part1 = `0x80000000`) reads part1 back as `0xFFFFFFFF80000000`, that is, zones 31..63 | the stamped half read back exactly, as `static_cast<uint32_t>(data[0])` gives | high, not executed | `Words.Reassemble` (`Words.SignExtensionCounterexample`, `FancyZonesWindowProperties.ZoneSetCounterexample`) | `Words.ReassembleZeroExtended` (`Words.ZeroExtendedRoundTrip`, `FancyZonesWindowProperties.ZoneSetRoundTripCorrected`) |
| src/modules/fancyzones/FancyZonesLib/FancyZonesWindowProperties.cpp:109 | the same expression for part2 | a window stamped with zone 95 (part2 = `0x80000000`) does not read back as {95} | the same unsigned widening | high, not executed | `Words.Reassemble` (`FancyZonesWindowProperties.ZoneSetRoundTrip`) | `Words.ReassembleZeroExtended` (`FancyZonesWindowProperties.Window.RetrieveZoneIndexPropertyCorrected`) |

## Left out

- `DllMain` (dllmain.cpp:32-84): TLS index allocation, the module reference count and `FreeLibraryAndExitThread` belong to the loader and the OS lifecycle. The `DeepClean` it calls on detach is modelled.
- `DeepCleanByThread` (dllmain.cpp:92-97): nothing calls it.
- `LOG`, `LOG_MSG` and `Logger::error`: diagnostics only; `LOG` and `LOG_MSG` return at once. The `std::format` argument of `LOG_MSG` is still evaluated at the call site; see the next two lines.
- `FancyZonesHook.HookState.RemoveHook`: assumes the `LOG_MSG(std::format(..., (char*)hwnd))` at dllmain.cpp:229 completes. That call reads the HWND as a NUL-terminated string, which is undefined behaviour, and it runs before the NULL check at :231; with an empty slot it formats a null `char*`. The contract states what the code does past that call; a model of undefined behaviour has no defined outcome to state.
- `FancyZonesHook.HookState.HookWndProc`: assumes the same formatting of the window's own handle at dllmain.cpp:181 (`WM_APP+901`) and :187 (`WM_APP+902`) completes before the unhook or deep clean, for the same reason.
- DPI conversion in `StampZoneDimensions`: `MonitorFromWindow`, `DPIAware::InverseConvert` and the float casts are one abstract conversion `int -> i32`, applied to each value. Floating-point rounding is not modelled.
- Message delivery: the threads that receive DeepClean's requests are not modelled. `posted` records each `PostThreadMessage` call, whether or not the post succeeded.
- Windows of several threads: `HookState` is the state of one thread. Another thread's TLS slot and subclasses are not part of it.
- `ZoneIndexSetBitmask.h` is not part of this model. Its two functions are given the contract "index i < 64 is bit i of part1, else bit i - 64 of part2". The zone set is a `set<int>`, where the source's `ZoneIndexSet` is a vector. Indices of 128 or more, which callers must not pass, are dropped by `FromIndexSet`.
- 32-bit builds: a HANDLE is taken to be 64 bits wide, as the 8-byte `memcpy` assumes.
- `SetWindowSubclass` reference data and the subclass id: the id is always 1. Subclassing a window twice is one subclass, so `subclassed` is a set.
- `FancyZonesHook.GetZoneSizeAndOrigin`: requires the two POINT references to be distinct. Its only caller passes two separate locals; aliased references are not modelled.
- `FancyZonesHook.HookState.HookWndProc`: lParam is modelled as a WINDOWPOS object for every message and is only touched for WM_WINDOWPOSCHANGING. The value DefSubclassProc returns is an input.
