/** Machine words as the window-property code sees them on x64: a HANDLE is a
    64-bit value, and each property stores two int32_t values copied into it
    with memcpy (little-endian: the first int32 in the low 32 bits). */
module Words {

  const TWO31: int := 0x8000_0000
  const TWO32: int := 0x1_0000_0000
  const TWO64: int := 0x1_0000_0000_0000_0000

  type u32 = x: int | 0 <= x < 0x1_0000_0000
  type u64 = x: int | 0 <= x < 0x1_0000_0000_0000_0000
  type i32 = x: int | -0x8000_0000 <= x < 0x8000_0000

  /** Conversion of an integer to uint64_t: reduction modulo 2^64. This is the
      sign extension of a negative int32 and the wrap-around of size_t addition. */
  function ToUInt64(x: int): (r: u64)
    ensures (r - x) % TWO64 == 0
  {
    x % TWO64
  }

  /** Conversion of an integer to uint32_t: reduction modulo 2^32. */
  function ToUInt32(x: int): (r: u32)
    ensures (r - x) % TWO32 == 0
  {
    x % TWO32
  }

  /** Conversion of an unsigned value to int32_t: its low 32 bits read as a
      two's-complement number. */
  function ToInt32(x: int): (r: i32)
    ensures (r - x) % TWO32 == 0
    ensures r >= 0 <==> x % TWO32 < TWO31
  {
    var v := x % TWO32;
    if v < TWO31 then v else v - TWO32
  }

  /** An int32 value converted to int32 is itself. */
  lemma ToInt32OfInt32()
    ensures forall x: int :: -TWO31 <= x < TWO31 ==> ToInt32(x) == x
  {
    forall x: int | -TWO31 <= x < TWO31
      ensures ToInt32(x) == x
    {
      if x < 0 {
        assert x % TWO32 == x + TWO32;
      }
    }
  }

  /** An std::array<int32_t, 2>: data[0] and data[1]. */
  datatype Int32Pair = Int32Pair(lo: i32, hi: i32)

  /** The pair { static_cast<int>(w), static_cast<int>(w >> 32) } built before a
      stamp; it is also what memcpy copies out of a HANDLE holding w. */
  function Split(w: u64): Int32Pair
  {
    Int32Pair(ToInt32(w % TWO32), ToInt32(w / TWO32))
  }

  /** The HANDLE that memcpy fills from a pair: data[0]'s bits low, data[1]'s high. */
  function Pack(d: Int32Pair): u64
  {
    ToUInt32(d.lo) + ToUInt32(d.hi) * TWO32
  }

  /** Reassembly as written at FancyZonesWindowProperties.cpp:102 and :109:
      (static_cast<uint64_t>(data[1]) << 32) + data[0]. Both int32 operands are
      converted to uint64_t, so a negative data[0] is sign-extended. */
  function Reassemble(d: Int32Pair): u64
  {
    ToUInt64(ToUInt64(ToUInt64(d.hi) * TWO32) + ToUInt64(d.lo))
  }

  /** Reassembly with both halves taken as uint32_t before widening. */
  function ReassembleZeroExtended(d: Int32Pair): u64
  {
    ToUInt64(ToUInt64(ToUInt32(d.hi) * TWO32) + ToUInt32(d.lo))
  }

  /** The halves of a stamped word: data[0] holds the low 32 bits of w and
      data[1] the high 32 bits, each as an int32. */
  lemma SplitHalves(w: u64)
    ensures ToUInt32(Split(w).lo) == w % TWO32
    ensures ToUInt32(Split(w).hi) == w / TWO32
    ensures Split(w).lo < 0 <==> w % TWO32 >= TWO31
  {
    UInt32OfInt32(w % TWO32);
    UInt32OfInt32(w / TWO32);
  }

  /** Reading 32 bits as int32 and back as uint32 gives them back; the int32 is
      negative exactly when bit 31 is set. */
  lemma UInt32OfInt32(v: int)
    requires 0 <= v < TWO32
    ensures ToUInt32(ToInt32(v)) == v
    ensures ToInt32(v) < 0 <==> v >= TWO31
  {
    if v >= TWO31 {
      assert ToInt32(v) == v - TWO32;
    }
  }

  /** The HANDLE written by a stamp holds exactly the stamped word; in
      particular it is NULL exactly when the word is 0. */
  lemma PackSplit(w: u64)
    ensures Pack(Split(w)) == w
  {
    SplitHalves(w);
    assert w == w / TWO32 * TWO32 + w % TWO32;
  }

  /** memcpy out of a HANDLE gives back the pair memcpy put into it, and the
      HANDLE is NULL exactly when both int32 values are 0. */
  lemma SplitPack(d: Int32Pair)
    ensures Split(Pack(d)) == d
    ensures Pack(d) == 0 <==> d.lo == 0 && d.hi == 0
  {
    var h := Pack(d);
    var a, b := ToUInt32(d.lo), ToUInt32(d.hi);
    assert h % TWO32 == a && h / TWO32 == b;
    assert ToInt32(a) == d.lo;
    assert ToInt32(b) == d.hi;
  }

  /** Reading back a stamped word as written: it is the word exactly when bit 31
      is clear; when bit 31 is set, the sign-extended data[0] borrows 2^32, so
      the high half comes back decremented by one (modulo 2^32). */
  lemma ReassembleSplit(w: u64)
    ensures Reassemble(Split(w)) == if w % TWO32 < TWO31 then w else ToUInt64(w - TWO32)
    ensures Reassemble(Split(w)) == w <==> w % TWO32 < TWO31
  {
    var lo, hi := w % TWO32, w / TWO32;
    HighHalfWidened(hi);
    LowHalfWidened(lo);
    ReassembleArith(w, lo, hi, ToUInt64(ToInt32(lo)));
  }

  /** The final addition of the reassembly, on plain integers. */
  lemma ReassembleArith(w: int, lo: int, hi: int, low: int)
    requires 0 <= lo < TWO32 && 0 <= hi < TWO32 && w == hi * TWO32 + lo
    requires low == if lo < TWO31 then lo else lo - TWO32 + TWO64
    ensures ToUInt64(hi * TWO32 + low) == if lo < TWO31 then w else ToUInt64(w - TWO32)
    ensures ToUInt64(hi * TWO32 + low) == w <==> lo < TWO31
  {
    if lo >= TWO31 {
      assert ToUInt64(w - TWO32) == (w - TWO32 + TWO64) % TWO64;
    }
  }

  /** The high half, sign-extended and shifted left by 32, is the high half
      shifted: the extension bits fall off the top. */
  lemma HighHalfWidened(hi: int)
    requires 0 <= hi < TWO32
    ensures ToUInt64(ToUInt64(ToInt32(hi)) * TWO32) == hi * TWO32
  {
    if hi < TWO31 {
      assert ToUInt64(ToInt32(hi)) == hi;
    } else {
      assert ToUInt64(ToInt32(hi)) == hi - TWO32 + TWO64;
      assert (hi - TWO32 + TWO64) * TWO32 == hi * TWO32 + (TWO32 - 1) * TWO64;
    }
  }

  /** The low half, sign-extended: 2^64 - 2^32 is added when bit 31 is set. */
  lemma LowHalfWidened(lo: int)
    requires 0 <= lo < TWO32
    ensures ToUInt64(ToInt32(lo)) == if lo < TWO31 then lo else lo - TWO32 + TWO64
  {
  }

  /** The smallest word with bit 31 set, 0x80000000, reads back as
      0xFFFFFFFF80000000. */
  lemma SignExtensionCounterexample()
    ensures Reassemble(Split(0x8000_0000)) == 0xFFFF_FFFF_8000_0000
  {
    ReassembleSplit(0x8000_0000);
  }

  /** With zero extension every word reads back exactly. */
  lemma ZeroExtendedRoundTrip(w: u64)
    ensures ReassembleZeroExtended(Split(w)) == w
  {
    var lo, hi := w % TWO32, w / TWO32;
    UInt32OfInt32(lo);
    UInt32OfInt32(hi);
    ZeroExtendedArith(w, lo, hi);
  }

  /** The unsigned reassembly on plain integers: no reduction takes place. */
  lemma ZeroExtendedArith(w: int, lo: int, hi: int)
    requires 0 <= lo < TWO32 && 0 <= hi < TWO32 && w == hi * TWO32 + lo
    ensures ToUInt64(ToUInt64(hi * TWO32) + lo) == w
  {
  }
}
