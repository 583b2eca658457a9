/**
 * Bit-level helpers of the DFE Mixer driver. A u32 is a natural number
 * below 2^32; its bits are read off by halving, so every step of every
 * proof is linear arithmetic. Covered here: single bits of a bitmap, the
 * "fits in n bits" test, the ones count restricted to a sequence length,
 * the bit-field read/write helpers and the phase-offset derivation used
 * for glitch-free NCO moves.
 */
module MixBits {

  const U32_LIMIT: nat := 0x1_0000_0000

  predicate IsU32(x: int)
  {
    0 <= x < U32_LIMIT
  }

  /** 1 << n. */
  function Pow2(n: nat): (r: nat)
    ensures r >= 1
  {
    if n == 0 then 1 else 2 * Pow2(n - 1)
  }

  lemma {:induction false} Pow2Monotone(m: nat, n: nat)
    requires m <= n
    ensures Pow2(m) <= Pow2(n)
  {
    if m < n {
      Pow2Monotone(m, n - 1);
    }
  }

  /** Bit i of b: the test b & (1 << i) != 0 of the driver's slot loops,
      whose mask starts at 1 and is shifted left once per slot. */
  predicate Bit(b: nat, i: nat)
    decreases i
  {
    if i == 0 then b % 2 == 1 else Bit(b / 2, i - 1)
  }

  lemma {:induction false} NoBitOfZero(i: nat)
    ensures !Bit(0, i)
  {
    if i > 0 {
      NoBitOfZero(i - 1);
    }
  }

  /** A value below 1 << k has no bit at or above k. */
  lemma {:induction false} NoBitAbove(b: nat, k: nat, i: nat)
    requires b < Pow2(k) && k <= i
    ensures !Bit(b, i)
  {
    if k == 0 {
      assert b == 0;
      NoBitOfZero(i);
    } else {
      NoBitAbove(b / 2, k - 1, i - 1);
    }
  }

  /** Setting bit k of a value below 1 << k (the driver's `|= Mask`) adds
      exactly that bit. */
  lemma {:induction false} BitOfAddTop(x: nat, k: nat, i: nat)
    requires x < Pow2(k)
    ensures Bit(x + Pow2(k), i) <==> Bit(x, i) || i == k
  {
    if k == 0 {
      assert x == 0;
      if i > 0 {
        NoBitOfZero(i - 1);
        NoBitOfZero(i);
      }
    } else if i == 0 {
      assert (x + Pow2(k)) % 2 == x % 2;
    } else {
      assert (x + Pow2(k)) / 2 == x / 2 + Pow2(k - 1);
      BitOfAddTop(x / 2, k - 1, i - 1);
    }
  }

  /** A value with a bit at or above n is at least 1 << n. */
  lemma {:induction false} BitAboveIsLarge(b: nat, n: nat, i: nat)
    requires n <= i && Bit(b, i)
    ensures b >= Pow2(n)
  {
    if b < Pow2(n) {
      NoBitAbove(b, n, i);
    }
  }

  /** A value of at least 1 << n has a bit at or above n. */
  lemma {:induction false} LargeHasBitAbove(b: nat, n: nat)
    requires b >= Pow2(n)
    ensures exists i: nat :: n <= i && Bit(b, i)
    decreases b
  {
    if b % 2 == 1 && n == 0 {
      assert Bit(b, 0);
    } else {
      var h := b / 2;
      assert h >= Pow2(if n == 0 then 0 else n - 1);
      LargeHasBitAbove(h, if n == 0 then 0 else n - 1);
      var j: nat :| (if n == 0 then 0 else n - 1) <= j && Bit(h, j);
      assert Bit(b, j + 1);
    }
  }

  /** The driver's overflow test b & ~((1 << n) - 1) == 0 (FindRate writes it
      (b & ((1 << n) - 1)) == b): no bit of b lies at or above n. */
  predicate FitsIn(b: nat, n: nat)
  {
    b < Pow2(n)
  }

  lemma FitsInIffNoHighBit(b: nat, n: nat)
    ensures FitsIn(b, n) <==> forall i: nat :: n <= i ==> !Bit(b, i)
  {
    if FitsIn(b, n) {
      forall i: nat | n <= i
        ensures !Bit(b, i)
      {
        NoBitAbove(b, n, i);
      }
    } else {
      LargeHasBitAbove(b, n);
    }
  }

  /** The bits of b set below position n, as a set of positions. */
  ghost function BitsBelow(b: nat, n: nat): set<nat>
  {
    set i: nat | i < n && Bit(b, i)
  }

  /** XDfeMix_CountOnesInBitmap: the number of ones among the first n bits. */
  function Ones(b: nat, n: nat): (r: nat)
    ensures r <= n
  {
    if n == 0 then 0 else Ones(b, n - 1) + (if Bit(b, n - 1) then 1 else 0)
  }

  /** The ones count is the textbook popcount of the low n bits. */
  lemma {:induction false} OnesIsPopcount(b: nat, n: nat)
    ensures Ones(b, n) == |BitsBelow(b, n)|
  {
    if n > 0 {
      OnesIsPopcount(b, n - 1);
      if Bit(b, n - 1) {
        assert BitsBelow(b, n) == BitsBelow(b, n - 1) + {n - 1};
      } else {
        assert BitsBelow(b, n) == BitsBelow(b, n - 1);
      }
    }
  }

  /** Counting past the top set bit adds nothing. */
  lemma {:induction false} OnesBeyondFit(b: nat, n: nat, m: nat)
    requires n <= m && FitsIn(b, n)
    ensures Ones(b, m) == Ones(b, n)
  {
    if m > n {
      OnesBeyondFit(b, n, m - 1);
      NoBitAbove(b, n, m - 1);
    }
  }

  /** Counting up to a length the bitmap fits in counts every set bit. */
  lemma {:induction false} OnesAllBits(b: nat, n: nat)
    requires FitsIn(b, n)
    ensures Ones(b, n) == |BitsBelow(b, n)|
    ensures forall i: nat :: Bit(b, i) ==> i in BitsBelow(b, n)
  {
    OnesIsPopcount(b, n);
    FitsInIffNoHighBit(b, n);
  }

  /** d & ((1 << w) - 1): the low w bits of d. */
  function LowBits(d: nat, w: nat): (r: nat)
    ensures r < Pow2(w)
  {
    if w == 0 then 0 else 2 * LowBits(d / 2, w - 1) + d % 2
  }

  /** The low n bits of b are b itself once b fits in n bits. */
  lemma {:induction false} LowBitsOfFit(b: nat, n: nat)
    requires FitsIn(b, n)
    ensures LowBits(b, n) == b
  {
    if n > 0 {
      LowBitsOfFit(b / 2, n - 1);
    }
  }

  /** Taking one more low bit adds bit n with its weight. */
  lemma {:induction false} LowBitsTop(b: nat, n: nat)
    ensures LowBits(b, n + 1) == LowBits(b, n) + (if Bit(b, n) then Pow2(n) else 0)
  {
    if n > 0 {
      LowBitsTop(b / 2, n - 1);
    }
  }

  /** d >> o. */
  function ShiftRight(d: nat, o: nat): nat
  {
    if o == 0 then d else ShiftRight(d / 2, o - 1)
  }

  /** XDfeMix_RdBitField: the field of the given width at the given offset.
      The driver asserts offset + width <= 32. */
  function RdBitField(width: nat, offset: nat, data: nat): (r: nat)
    requires offset + width <= 32
    ensures r < Pow2(width)
  {
    LowBits(ShiftRight(data, offset), width)
  }

  /** The low `width` bits of data replaced by those of val. */
  function WrLowField(width: nat, data: nat, val: nat): nat
  {
    if width == 0 then data else 2 * WrLowField(width - 1, data / 2, val / 2) + val % 2
  }

  /** XDfeMix_WrBitField: data with the field replaced by the low bits of
      val, the bits outside the field kept. */
  function WrBitField(width: nat, offset: nat, data: nat, val: nat): nat
    requires offset + width <= 32
  {
    if offset == 0 then WrLowField(width, data, val)
    else 2 * WrBitField(width, offset - 1, data / 2, val) + data % 2
  }

  lemma {:induction false} RdOfWrLow(width: nat, data: nat, val: nat)
    ensures LowBits(WrLowField(width, data, val), width) == LowBits(val, width)
  {
    if width > 0 {
      var rest := WrLowField(width - 1, data / 2, val / 2);
      assert WrLowField(width, data, val) == 2 * rest + val % 2;
      assert (2 * rest + val % 2) / 2 == rest;
      assert (2 * rest + val % 2) % 2 == val % 2;
      RdOfWrLow(width - 1, data / 2, val / 2);
    }
  }

  /** Reading back a written field gives the written value, cut to the width. */
  lemma {:induction false} RdOfWr(width: nat, offset: nat, data: nat, val: nat)
    requires offset + width <= 32
    ensures RdBitField(width, offset, WrBitField(width, offset, data, val)) == LowBits(val, width)
  {
    if offset == 0 {
      RdOfWrLow(width, data, val);
    } else {
      RdOfWr(width, offset - 1, data / 2, val);
    }
  }

  lemma {:induction false} WrOfRdLow(width: nat, data: nat)
    ensures WrLowField(width, data, LowBits(data, width)) == data
  {
    if width > 0 {
      WrOfRdLow(width - 1, data / 2);
    }
  }

  /** Writing back the value just read leaves the word unchanged. */
  lemma {:induction false} WrOfRd(width: nat, offset: nat, data: nat)
    requires offset + width <= 32
    ensures WrBitField(width, offset, data, RdBitField(width, offset, data)) == data
  {
    if offset == 0 {
      WrOfRdLow(width, data);
    } else {
      WrOfRd(width, offset - 1, data / 2);
    }
  }

  lemma {:induction false} WrLowKeepsHigh(width: nat, data: nat, val: nat, i: nat)
    requires width <= i
    ensures Bit(WrLowField(width, data, val), i) == Bit(data, i)
  {
    if width > 0 {
      var rest := WrLowField(width - 1, data / 2, val / 2);
      assert (2 * rest + val % 2) / 2 == rest;
      WrLowKeepsHigh(width - 1, data / 2, val / 2, i - 1);
    }
  }

  /** Writing a field leaves every bit outside it as it was. */
  lemma {:induction false} WrKeepsOtherBits(width: nat, offset: nat, data: nat, val: nat, i: nat)
    requires offset + width <= 32
    requires i < offset || offset + width <= i
    ensures Bit(WrBitField(width, offset, data, val), i) == Bit(data, i)
  {
    if offset == 0 {
      WrLowKeepsHigh(width, data, val, i);
    } else {
      var rest := WrBitField(width, offset - 1, data / 2, val);
      assert (2 * rest + data % 2) / 2 == rest;
      assert (2 * rest + data % 2) % 2 == data % 2;
      if i > 0 {
        WrKeepsOtherBits(width, offset - 1, data / 2, val, i - 1);
      }
    }
  }

  lemma {:induction false} WrLowBelow(width: nat, data: nat, val: nat, k: nat)
    requires width <= k && data < Pow2(k)
    ensures WrLowField(width, data, val) < Pow2(k)
  {
    if width > 0 {
      WrLowBelow(width - 1, data / 2, val / 2, k - 1);
    }
  }

  lemma {:induction false} WrBelow(width: nat, offset: nat, data: nat, val: nat, k: nat)
    requires offset + width <= 32 && offset + width <= k && data < Pow2(k)
    ensures WrBitField(width, offset, data, val) < Pow2(k)
  {
    if offset == 0 {
      WrLowBelow(width, data, val, k);
    } else {
      WrBelow(width, offset - 1, data / 2, val, k - 1);
    }
  }

  lemma {:induction false} Pow2Add(a: nat, b: nat)
    ensures Pow2(a + b) == Pow2(a) * Pow2(b)
  {
    if a > 0 {
      Pow2Add(a - 1, b);
    }
  }

  lemma Pow2Is32()
    ensures Pow2(32) == U32_LIMIT
  {
    assert Pow2(4) == 16;
    Pow2Add(4, 4);
    Pow2Add(8, 8);
    Pow2Add(16, 16);
  }

  /** Writing a field of a u32 gives a u32, whatever the value written. */
  lemma WrBitFieldU32(width: nat, offset: nat, data: nat, val: nat)
    requires offset + width <= 32 && IsU32(data)
    ensures IsU32(WrBitField(width, offset, data, val))
  {
    Pow2Is32();
    WrBelow(width, offset, data, val, 32);
  }

  /** XDFEMIX_PHASE_OFFSET_ROUNDING_BITS, and the weights of bit 14 and of
      bit 13 (half a phase-offset unit). */
  const PHASE_OFFSET_ROUNDING_BITS: nat := 14
  const PHASE_UNIT: nat := 0x4000
  const PHASE_HALF_UNIT: nat := 0x2000

  /** XDfeMix_DerivePhaseOffset: the u32 difference of the accumulators,
      B - A with wrap-around, shifted right by 14 (a division by 2^14),
      plus one when bit 13 of the difference is set. */
  function DerivePhaseOffset(phaseAccA: nat, phaseAccB: nat): nat
    requires IsU32(phaseAccA) && IsU32(phaseAccB)
  {
    var diff := (phaseAccB - phaseAccA) % U32_LIMIT;
    var offset := diff / PHASE_UNIT;
    if (diff / PHASE_HALF_UNIT) % 2 == 1 then offset + 1 else offset
  }

  /** The derived offset is the accumulator difference, taken modulo 2^32,
      divided by 2^14 and rounded half up; in particular the increment never
      wraps. */
  lemma DerivePhaseOffsetRoundsHalfUp(phaseAccA: nat, phaseAccB: nat)
    requires IsU32(phaseAccA) && IsU32(phaseAccB)
    ensures DerivePhaseOffset(phaseAccA, phaseAccB)
         == ((phaseAccB - phaseAccA) % U32_LIMIT + 0x2000) / 0x4000
    ensures IsU32(DerivePhaseOffset(phaseAccA, phaseAccB))
  {
  }

  /** Worked cases: one unit apart, one and a half units apart (rounded up),
      and B one unit behind A (the difference wraps to a full cycle less). */
  lemma DerivePhaseOffsetExamples()
    ensures DerivePhaseOffset(0, 0x4000) == 1
    ensures DerivePhaseOffset(0, 0x6000) == 2
    ensures DerivePhaseOffset(0x4000, 0) == 0x3_FFFF
  {
    DerivePhaseOffsetRoundsHalfUp(0, 0x4000);
    DerivePhaseOffsetRoundsHalfUp(0, 0x6000);
    DerivePhaseOffsetRoundsHalfUp(0x4000, 0);
  }
}
