/** The zone annotations FancyZones keeps on a window as window properties
    (SetProp/GetProp/RemoveProp): the zone geometry stamp (size and origin),
    the zone-membership bitmask in two optional properties, and the tab sort
    key within a zone. A window's property list is a map from property name to
    a 64-bit HANDLE; reading a name that is not set yields NULL (0). */
module FancyZonesWindowProperties {
  import opened Wrappers
  import opened Words
  import opened ZoneIndexSetBitmask

  const PropertyMultipleZone64ID: string := "FancyZones_zones"
  const PropertyMultipleZone128ID: string := "FancyZones_zones_max128"
  const PropertySortKeyWithinZone: string := "FancyZones_TabSortKeyWithinZone"
  const PropertyZoneSizeID: string := "FancyZones_ZoneSize"
  const PropertyZoneOriginID: string := "FancyZones_ZoneOrigin"

  type PropMap = map<string, u64>

  /** GetProp: the HANDLE stored under name, or NULL when the name is not set. */
  function GetProp(m: PropMap, name: string): u64
  {
    if name in m then m[name] else 0
  }

  /** The property list after SetProp(name, data), which succeeds when ok. */
  function SetPropResult(m: PropMap, name: string, data: u64, ok: bool): PropMap
  {
    if ok then m[name := data] else m
  }

  datatype Rect = Rect(left: i32, top: i32, right: i32, bottom: i32)

  /** {width, height} as stamped. convert stands for the DPI inverse conversion
      of the monitor the window is on, followed by the cast back to int. */
  function ZoneSizeData(rect: Rect, convert: int -> i32): Int32Pair
  {
    Int32Pair(convert(rect.right - rect.left), convert(rect.bottom - rect.top))
  }

  /** {left, top} as stamped, through the same conversion. */
  function ZoneOriginData(rect: Rect, convert: int -> i32): Int32Pair
  {
    Int32Pair(convert(rect.left), convert(rect.top))
  }

  /** The property list of one window. */
  class Window {
    var props: PropMap

    constructor (props: PropMap)
      ensures this.props == props
    {
      this.props := props;
    }

    method SetProp(name: string, data: u64, ok: bool)
      modifies this
      ensures props == SetPropResult(old(props), name, data, ok)
    {
      if ok {
        props := props[name := data];
      }
    }

    method RemoveProp(name: string)
      modifies this
      ensures props == old(props) - {name}
    {
      props := props - {name};
    }

    /** Stamps the zone rectangle as two properties, size then origin, and
        reports success whether or not the two writes succeeded. */
    method StampZoneDimensions(rect: Rect, convert: int -> i32, sizeOk: bool, originOk: bool) returns (r: bool)
      modifies this
      ensures r
      ensures props == SetPropResult(SetPropResult(old(props),
                PropertyZoneSizeID, Pack(ZoneSizeData(rect, convert)), sizeOk),
                PropertyZoneOriginID, Pack(ZoneOriginData(rect, convert)), originOk)
    {
      var windowSizeData := ZoneSizeData(rect, convert);
      var windowOriginData := ZoneOriginData(rect, convert);
      SetProp(PropertyZoneSizeID, Pack(windowSizeData), sizeOk);
      SetProp(PropertyZoneOriginID, Pack(windowOriginData), originOk);
      r := true;
    }

    /** Removes both zone-membership properties and nothing else. */
    method RemoveZoneIndexProperty()
      modifies this
      ensures props == old(props) - {PropertyMultipleZone64ID, PropertyMultipleZone128ID}
      ensures PropertyMultipleZone64ID !in props && PropertyMultipleZone128ID !in props
      ensures GetProp(props, PropertyZoneSizeID) == old(GetProp(props, PropertyZoneSizeID))
      ensures GetProp(props, PropertyZoneOriginID) == old(GetProp(props, PropertyZoneOriginID))
      ensures GetProp(props, PropertySortKeyWithinZone) == old(GetProp(props, PropertySortKeyWithinZone))
    {
      RemoveProp(PropertyMultipleZone64ID);
      RemoveProp(PropertyMultipleZone128ID);
    }

    /** Replaces the zone membership: both properties are removed, then each
        half of the bitmask that is not zero is written (when its write
        succeeds). A property is never left holding a zero half. */
    method StampZoneIndexProperty(zoneSet: set<int>, ok64: bool, ok128: bool)
      modifies this
      ensures props - {PropertyMultipleZone64ID, PropertyMultipleZone128ID}
           == old(props) - {PropertyMultipleZone64ID, PropertyMultipleZone128ID}
      ensures PropertyMultipleZone64ID in props <==> FromIndexSet(zoneSet).part1 != 0 && ok64
      ensures PropertyMultipleZone128ID in props <==> FromIndexSet(zoneSet).part2 != 0 && ok128
      ensures GetProp(props, PropertyMultipleZone64ID) == if ok64 then FromIndexSet(zoneSet).part1 else 0
      ensures GetProp(props, PropertyMultipleZone128ID) == if ok128 then FromIndexSet(zoneSet).part2 else 0
    {
      var bitmask := FromIndexSet(zoneSet);
      StampBitmask(bitmask, ok64, ok128);
    }

    /** The stamping steps once the bitmask is computed. */
    method StampBitmask(bitmask: Bitmask, ok64: bool, ok128: bool)
      modifies this
      ensures props - {PropertyMultipleZone64ID, PropertyMultipleZone128ID}
           == old(props) - {PropertyMultipleZone64ID, PropertyMultipleZone128ID}
      ensures PropertyMultipleZone64ID in props <==> bitmask.part1 != 0 && ok64
      ensures PropertyMultipleZone128ID in props <==> bitmask.part2 != 0 && ok128
      ensures GetProp(props, PropertyMultipleZone64ID) == if ok64 then bitmask.part1 else 0
      ensures GetProp(props, PropertyMultipleZone128ID) == if ok128 then bitmask.part2 else 0
    {
      assert PropertyMultipleZone64ID != PropertyMultipleZone128ID;
      RemoveZoneIndexProperty();
      if bitmask.part1 != 0 {
        var data := Split(bitmask.part1);
        PackSplit(bitmask.part1);
        SetProp(PropertyMultipleZone64ID, Pack(data), ok64);
      }
      if bitmask.part2 != 0 {
        var data := Split(bitmask.part2);
        PackSplit(bitmask.part2);
        SetProp(PropertyMultipleZone128ID, Pack(data), ok128);
      }
    }

    /** The bitmask RetrieveZoneIndexProperty reassembles: a missing property
        contributes 0, a present one goes through the sign-extending reassembly. */
    function RetrievedBitmask(): Bitmask
      reads this
    {
      var handle64 := GetProp(props, PropertyMultipleZone64ID);
      var handle128 := GetProp(props, PropertyMultipleZone128ID);
      Bitmask(if handle64 != 0 then Reassemble(Split(handle64)) else 0,
              if handle128 != 0 then Reassemble(Split(handle128)) else 0)
    }

    /** The zone indices read from the window; with neither property present the
        set is empty. */
    function RetrieveZoneIndexProperty(): (r: set<int>)
      reads this
      ensures ValidIndexSet(r)
      ensures GetProp(props, PropertyMultipleZone64ID) == 0 && GetProp(props, PropertyMultipleZone128ID) == 0
              ==> r == {}
    {
      EmptySetLaw();
      ToIndexSet(RetrievedBitmask())
    }

    /** The reassembly with each int32 half taken as unsigned. */
    function RetrievedBitmaskCorrected(): Bitmask
      reads this
    {
      var handle64 := GetProp(props, PropertyMultipleZone64ID);
      var handle128 := GetProp(props, PropertyMultipleZone128ID);
      Bitmask(if handle64 != 0 then ReassembleZeroExtended(Split(handle64)) else 0,
              if handle128 != 0 then ReassembleZeroExtended(Split(handle128)) else 0)
    }

    function RetrieveZoneIndexPropertyCorrected(): (r: set<int>)
      reads this
      ensures ValidIndexSet(r)
      ensures GetProp(props, PropertyMultipleZone64ID) == 0 && GetProp(props, PropertyMultipleZone128ID) == 0
              ==> r == {}
    {
      EmptySetLaw();
      ToIndexSet(RetrievedBitmaskCorrected())
    }

    /** The stored key is the logical key plus one, so NULL means "no key". */
    function GetTabSortKeyWithinZone(): (r: Option<u64>)
      reads this
      ensures r.None? <==> GetProp(props, PropertySortKeyWithinZone) == 0
      ensures r.Some? ==> r.value + 1 == GetProp(props, PropertySortKeyWithinZone)
    {
      var raw := GetProp(props, PropertySortKeyWithinZone);
      if raw == 0 then None else Some(raw - 1)
    }

    /** None removes the key; Some(v) stores v + 1 computed in size_t, so
        v = 2^64 - 1 is stored as NULL. */
    method SetTabSortKeyWithinZone(key: Option<u64>, ok: bool)
      modifies this
      ensures key.None? ==> props == old(props) - {PropertySortKeyWithinZone}
      ensures key.Some? ==> props == SetPropResult(old(props), PropertySortKeyWithinZone, ToUInt64(key.value + 1), ok)
    {
      if key.None? {
        RemoveProp(PropertySortKeyWithinZone);
      } else {
        var raw := ToUInt64(key.value + 1);
        SetProp(PropertySortKeyWithinZone, raw, ok);
      }
    }
  }

  /** Reading back a stamped bitmask as written: it is the stamped bitmask
      exactly when neither half has bit 31 set. */
  lemma RetrieveStampedBitmask(w: Window, b: Bitmask)
    requires GetProp(w.props, PropertyMultipleZone64ID) == b.part1
    requires GetProp(w.props, PropertyMultipleZone128ID) == b.part2
    ensures w.RetrievedBitmask() == Bitmask(Reassemble(Split(b.part1)), Reassemble(Split(b.part2)))
    ensures w.RetrievedBitmask() == b <==> b.part1 % TWO32 < TWO31 && b.part2 % TWO32 < TWO31
  {
    var read := w.RetrievedBitmask();
    ReassembleSplit(b.part1);
    ReassembleSplit(b.part2);
    ReassembleSplit(0);
    assert read.part1 == Reassemble(Split(b.part1));
    assert read.part2 == Reassemble(Split(b.part2));
    assert read == b <==> read.part1 == b.part1 && read.part2 == b.part2;
  }

  /** Stamping a zone set and reading it back gives the set exactly when it
      contains neither index 31 nor index 95. */
  lemma ZoneSetRoundTrip(w: Window, s: set<int>)
    requires ValidIndexSet(s)
    requires GetProp(w.props, PropertyMultipleZone64ID) == FromIndexSet(s).part1
    requires GetProp(w.props, PropertyMultipleZone128ID) == FromIndexSet(s).part2
    ensures w.RetrieveZoneIndexProperty() == s <==> 31 !in s && 95 !in s
  {
    var b := FromIndexSet(s);
    RetrieveStampedBitmask(w, b);
    Bit31OfEncoding(s);
    ToFromIndexSet(s);
    var read := w.RetrievedBitmask();
    if ToIndexSet(read) == s {
      FromToIndexSet(read);
      assert read == b;
    }
  }

  /** A window stamped with zone 31 alone does not read back as {31}; its
      part1 comes back as 0xFFFFFFFF80000000 instead of 0x80000000. */
  lemma ZoneSetCounterexample(w: Window)
    requires GetProp(w.props, PropertyMultipleZone64ID) == FromIndexSet({31}).part1
    requires GetProp(w.props, PropertyMultipleZone128ID) == FromIndexSet({31}).part2
    ensures w.RetrieveZoneIndexProperty() != {31}
  {
    ZoneSetRoundTrip(w, {31});
  }

  /** With the unsigned reassembly every stamped zone set reads back exactly. */
  lemma ZoneSetRoundTripCorrected(w: Window, s: set<int>)
    requires ValidIndexSet(s)
    requires GetProp(w.props, PropertyMultipleZone64ID) == FromIndexSet(s).part1
    requires GetProp(w.props, PropertyMultipleZone128ID) == FromIndexSet(s).part2
    ensures w.RetrieveZoneIndexPropertyCorrected() == s
  {
    var b := FromIndexSet(s);
    ZeroExtendedRoundTrip(b.part1);
    ZeroExtendedRoundTrip(b.part2);
    assert w.RetrievedBitmaskCorrected() == b;
    ToFromIndexSet(s);
  }

  /** A key stored by SetTabSortKeyWithinZone(Some(v)) reads back as Some(v),
      except v = 2^64 - 1, which wraps to NULL and reads back as None. */
  lemma TabSortKeyRoundTrip(w: Window, v: u64)
    requires GetProp(w.props, PropertySortKeyWithinZone) == ToUInt64(v + 1)
    ensures w.GetTabSortKeyWithinZone() == if v < TWO64 - 1 then Some(v) else None
  {
  }

  /** With a conversion that leaves int32 values alone, the stamped HANDLEs
      unpack to the rectangle's size and origin; each HANDLE is NULL exactly when
      both of its values are 0. */
  lemma StampedDimensionsReadBack(rect: Rect, convert: int -> i32)
    requires forall x: int :: -TWO31 <= x < TWO31 ==> convert(x) == x
    requires -TWO31 <= rect.right - rect.left < TWO31 && -TWO31 <= rect.bottom - rect.top < TWO31
    ensures Split(Pack(ZoneSizeData(rect, convert))) == Int32Pair(rect.right - rect.left, rect.bottom - rect.top)
    ensures Split(Pack(ZoneOriginData(rect, convert))) == Int32Pair(rect.left, rect.top)
    ensures Pack(ZoneSizeData(rect, convert)) == 0 <==> rect.right == rect.left && rect.bottom == rect.top
    ensures Pack(ZoneOriginData(rect, convert)) == 0 <==> rect.left == 0 && rect.top == 0
  {
    SplitPack(ZoneSizeData(rect, convert));
    SplitPack(ZoneOriginData(rect, convert));
  }
}
