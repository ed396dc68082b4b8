/** The zone-membership bitmask: a set of zone indices 0..127 packed into two
    64-bit words. Index i < 64 is bit i of part1, index i >= 64 is bit i - 64
    of part2. The header that implements this is not part of this model; the
    packing is given here by that contract alone. */
module ZoneIndexSetBitmask {
  import opened Words

  datatype Bitmask = Bitmask(part1: u64, part2: u64)

  const MaxZoneCount: int := 128

  /** The indices the bitmask can represent. */
  predicate ValidIndexSet(s: set<int>)
  {
    forall i :: i in s ==> 0 <= i < MaxZoneCount
  }

  function Pow2(n: nat): (r: nat)
    ensures r >= 1
  {
    if n == 0 then 1 else 2 * Pow2(n - 1)
  }

  /** Bit k of w. */
  function TestBit(w: nat, k: nat): bool
  {
    if k == 0 then w % 2 == 1 else TestBit(w / 2, k - 1)
  }

  /** The n-bit number whose bit k is set exactly when base + k is in s. */
  function Bits(s: set<int>, base: int, n: nat): (w: nat)
    ensures w < Pow2(n)
    decreases n
  {
    if n == 0 then 0 else (if base in s then 1 else 0) + 2 * Bits(s, base + 1, n - 1)
  }

  lemma {:induction false} Pow2Add(a: nat, b: nat)
    ensures Pow2(a + b) == Pow2(a) * Pow2(b)
  {
    if a > 0 {
      Pow2Add(a - 1, b);
      assert Pow2(a + b) == 2 * (Pow2(a - 1) * Pow2(b));
    }
  }

  lemma Pow2Values()
    ensures Pow2(31) == TWO31 && Pow2(32) == TWO32 && Pow2(64) == TWO64
  {
    assert Pow2(1) == 2;
    Pow2Add(1, 1);
    assert Pow2(2) == 4;
    Pow2Add(2, 2);
    assert Pow2(4) == 16;
    Pow2Add(4, 4);
    assert Pow2(8) == 256;
    Pow2Add(8, 8);
    assert Pow2(16) == 0x1_0000;
    Pow2Add(16, 16);
    assert Pow2(32) == TWO32;
    Pow2Add(32, 32);
    assert Pow2(64) == TWO64;
    assert Pow2(32) == 2 * Pow2(31);
  }

  lemma {:induction false} BitsTestBit(s: set<int>, base: int, n: nat)
    ensures forall k :: 0 <= k < n ==> (TestBit(Bits(s, base, n), k) <==> base + k in s)
    decreases n
  {
    if n > 0 {
      BitsTestBit(s, base + 1, n - 1);
      var w := Bits(s, base, n);
      forall k | 0 <= k < n
        ensures TestBit(w, k) <==> base + k in s
      {
        if k > 0 {
          assert w / 2 == Bits(s, base + 1, n - 1);
        }
      }
    }
  }

  /** A number below 2^n is determined by its low n bits. */
  lemma {:induction false} BitsOfTestBit(s: set<int>, base: int, n: nat, w: nat)
    requires w < Pow2(n)
    requires forall k :: 0 <= k < n ==> (TestBit(w, k) <==> base + k in s)
    ensures Bits(s, base, n) == w
    decreases n
  {
    if n > 0 {
      forall k | 0 <= k < n - 1
        ensures TestBit(w / 2, k) <==> base + 1 + k in s
      {
        assert TestBit(w, k + 1) == TestBit(w / 2, k);
      }
      BitsOfTestBit(s, base + 1, n - 1, w / 2);
      assert TestBit(w, 0) <==> base in s;
    } else {
      assert w == 0;
    }
  }

  /** The arithmetic step of BitsConcat, kept apart from the definitions. */
  lemma ConcatStep(b: int, low: int, rest: int, p: int, x: int)
    requires rest == low + p * x
    ensures b + 2 * rest == (b + 2 * low) + (2 * p) * x
  {
  }

  /** Splits Bits at position n: the low n bits, then the rest. */
  lemma {:induction false} BitsConcat(s: set<int>, base: int, n: nat, m: nat)
    ensures Bits(s, base, n + m) == Bits(s, base, n) + Pow2(n) * Bits(s, base + n, m)
    decreases n
  {
    if n > 0 {
      BitsConcat(s, base + 1, n - 1, m);
      var b := if base in s then 1 else 0;
      var p, x := Pow2(n - 1), Bits(s, base + n, m);
      var low, rest := Bits(s, base + 1, n - 1), Bits(s, base + 1, n - 1 + m);
      ConcatStep(b, low, rest, p, x);
    }
  }

  /** Bit k of the 64-bit word w is set exactly when index base + k is in s. */
  predicate EncodesWord(w: nat, s: set<int>, base: int)
  {
    forall k :: 0 <= k < 64 ==> (TestBit(w, k) <==> base + k in s)
  }

  /** The word Bits(s, base, 64) encodes s from index base on. */
  lemma EncodeWord(s: set<int>, base: int)
    ensures Bits(s, base, 64) < TWO64
    ensures EncodesWord(Bits(s, base, 64), s, base)
  {
    Pow2Values();
    BitsTestBit(s, base, 64);
  }

  /** A word that encodes s from index base on is Bits(s, base, 64). */
  lemma DecodeWord(s: set<int>, base: int, w: u64)
    requires EncodesWord(w, s, base)
    ensures Bits(s, base, 64) == w
  {
    Pow2Values();
    BitsOfTestBit(s, base, 64, w);
  }

  /** ZoneIndexSetBitmask::FromIndexSet: index i < 64 is bit i of part1 and
      index 64 <= i < 128 is bit i - 64 of part2. */
  function FromIndexSet(s: set<int>): (b: Bitmask)
    ensures EncodesWord(b.part1, s, 0) && EncodesWord(b.part2, s, 64)
  {
    EncodeWord(s, 0);
    EncodeWord(s, 64);
    Bitmask(Bits(s, 0, 64), Bits(s, 64, 64))
  }

  /** ZoneIndexSetBitmask::ToIndexSet. */
  function ToIndexSet(b: Bitmask): (s: set<int>)
    ensures ValidIndexSet(s)
  {
    set i | 0 <= i < MaxZoneCount && (if i < 64 then TestBit(b.part1, i) else TestBit(b.part2, i - 64))
  }

  /** Decoding an encoded set gives the set back. */
  lemma ToFromIndexSet(s: set<int>)
    requires ValidIndexSet(s)
    ensures ToIndexSet(FromIndexSet(s)) == s
  {
    var b := FromIndexSet(s);
    forall i | 0 <= i < MaxZoneCount
      ensures i in ToIndexSet(b) <==> i in s
    {
      if i < 64 {
        assert TestBit(b.part1, i) <==> 0 + i in s;
      } else {
        assert TestBit(b.part2, i - 64) <==> 64 + (i - 64) in s;
      }
    }
  }

  /** The words of a bitmask encode the set it decodes to. */
  lemma DecodedWords(b: Bitmask)
    ensures EncodesWord(b.part1, ToIndexSet(b), 0)
    ensures EncodesWord(b.part2, ToIndexSet(b), 64)
  {
    var s := ToIndexSet(b);
    forall k | 0 <= k < 64
      ensures TestBit(b.part1, k) <==> 0 + k in s
    {
    }
    forall k | 0 <= k < 64
      ensures TestBit(b.part2, k) <==> 64 + k in s
    {
      assert 64 + k - 64 == k;
    }
  }

  /** Encoding a decoded bitmask gives the bitmask back: every bitmask is the
      encoding of exactly one valid set. */
  lemma FromToIndexSet(b: Bitmask)
    ensures FromIndexSet(ToIndexSet(b)) == b
  {
    var s := ToIndexSet(b);
    DecodedWords(b);
    DecodeWord(s, 0, b.part1);
    DecodeWord(s, 64, b.part2);
  }

  lemma {:induction false} TestBitZero(k: nat)
    ensures !TestBit(0, k)
  {
    if k > 0 {
      TestBitZero(k - 1);
    }
  }

  /** The empty set encodes as {0, 0}, and {0, 0} decodes to the empty set. */
  lemma EmptySetLaw()
    ensures FromIndexSet({}) == Bitmask(0, 0)
    ensures ToIndexSet(Bitmask(0, 0)) == {}
  {
    forall k: nat
      ensures !TestBit(0, k)
    {
      TestBitZero(k);
    }
    assert ToIndexSet(Bitmask(0, 0)) == {};
    FromToIndexSet(Bitmask(0, 0));
  }

  /** Bit 31 of the low 32 bits of part1 is index 31; of part2, index 95. */
  lemma Bit31OfEncoding(s: set<int>)
    ensures FromIndexSet(s).part1 % TWO32 < TWO31 <==> 31 !in s
    ensures FromIndexSet(s).part2 % TWO32 < TWO31 <==> 95 !in s
  {
    var b := FromIndexSet(s);
    Bit31OfBits(s, 0, 31, b.part1);
    Bit31OfBits(s, 64, 95, b.part2);
  }

  lemma ModOfMultipleAdded(a: int, q: int)
    requires 0 <= a < TWO32
    ensures (a + TWO32 * q) % TWO32 == a
  {
  }

  /** Bit 31 of the word Bits(s, base, 64) is index top = base + 31. */
  lemma Bit31OfBits(s: set<int>, base: int, top: int, w: nat)
    requires w == Bits(s, base, 64) && top == base + 31
    ensures w % TWO32 < TWO31 <==> top !in s
  {
    Pow2Values();
    LowWordOfBits(s, base, 32, 32);
    TopBitOfBits(s, base, 31);
  }

  /** The low n bits of Bits(s, base, n + m) are Bits(s, base, n); stated for
      2^n = 2^32 (the lengths stay variables, which keeps the solver from
      unfolding the definitions at literal arguments). */
  lemma LowWordOfBits(s: set<int>, base: int, n: nat, m: nat)
    requires Pow2(n) == TWO32
    ensures Bits(s, base, n + m) % TWO32 == Bits(s, base, n)
  {
    BitsConcat(s, base, n, m);
    ModOfMultipleAdded(Bits(s, base, n), Bits(s, base + n, m));
  }

  /** Bits(s, base, n + 1) reaches 2^n exactly when its top index is in s;
      stated for 2^n = 2^31. */
  lemma TopBitOfBits(s: set<int>, base: int, n: nat)
    requires Pow2(n) == TWO31
    ensures Bits(s, base, n + 1) < TWO31 <==> base + n !in s
  {
    BitsConcat(s, base, n, 1);
    assert Bits(s, base + n, 1) == if base + n in s then 1 else 0;
  }
}
