/**
 * The carrier sequence algebra: 16 time slots, each holding the ID of the
 * carrier that owns it or -1. A carrier's slots are described by a bitmap
 * whose bit i stands for slot i. These functions state what the driver's
 * slot loops compute; the loops themselves are methods of the snapshot
 * and instance classes.
 */
module MixSequence {
  import opened MixBits
  import opened MixTypes

  /** A sequence as the driver keeps it: 16 slots. */
  predicate IsSeq(s: seq<int>)
  {
    |s| == CC_NUM
  }

  /** Every slot is free or holds a carrier ID in [0, 16). */
  predicate WellFormed(s: seq<int>)
  {
    IsSeq(s) && forall i :: 0 <= i < |s| ==> s[i] == SEQUENCE_ENTRY_NULL || 0 <= s[i] < CC_NUM as int
  }

  /** The smallest ID from k on that no slot holds, or 16 when every ID
      from k to 15 is held. */
  function NotUsedFrom(s: seq<int>, k: nat): (r: nat)
    requires k <= CC_NUM
    ensures k <= r <= CC_NUM
    ensures r < CC_NUM ==> r !in s
    ensures forall j: int :: k <= j < r ==> j in s
    decreases CC_NUM - k
  {
    if k == CC_NUM then CC_NUM
    else if k in s then NotUsedFrom(s, k + 1)
    else k
  }

  /** XDfeMix_GetNotUsedCCID, as a value: the smallest ID in [0, 16) absent
      from the sequence, or 16 when all are present. */
  function NotUsed(s: seq<int>): nat
  {
    NotUsedFrom(s, 0)
  }

  /** NotUsed is the first ID absent from the sequence: any r such that
      every ID below r is present and r itself is absent (or 16) is it. */
  lemma {:induction false} NotUsedFromIs(s: seq<int>, k: nat, r: nat)
    requires k <= r <= CC_NUM
    requires forall j: int :: k <= j < r ==> j in s
    requires r < CC_NUM ==> r !in s
    ensures NotUsedFrom(s, k) == r
    decreases r - k
  {
    if k < r {
      NotUsedFromIs(s, k + 1, r);
    }
  }

  /** The source's accepted ones counts: 0 or a power of two up to 16. */
  predicate IsPowerOfTwoCount(n: nat)
  {
    n == 0 || n == 1 || n == 2 || n == 4 || n == 8 || n == 16
  }

  /** Every slot below len selected by the bitmap is free. */
  predicate SlotsFree(s: seq<int>, len: nat, bitmap: nat)
    requires IsSeq(s) && len <= CC_NUM
  {
    forall i :: 0 <= i < len && Bit(bitmap, i) ==> s[i] == SEQUENCE_ENTRY_NULL
  }

  /** The sequence with the slots below len that the bitmap selects given
      to carrier c. */
  function Placed(s: seq<int>, len: nat, bitmap: nat, c: int): (r: seq<int>)
    requires IsSeq(s) && len <= CC_NUM
    ensures IsSeq(r)
  {
    seq(CC_NUM, i requires 0 <= i < CC_NUM => if i < len && Bit(bitmap, i) then c else s[i])
  }

  /** The sequence with carrier c's slots below len freed. */
  function Cleared(s: seq<int>, len: nat, c: int): (r: seq<int>)
    requires IsSeq(s) && len <= CC_NUM
    ensures IsSeq(r)
  {
    seq(CC_NUM, i requires 0 <= i < CC_NUM => if i < len && s[i] == c then SEQUENCE_ENTRY_NULL else s[i])
  }

  /** Carrier c holds no slot below len. */
  predicate Absent(s: seq<int>, len: nat, c: int)
    requires len <= |s|
  {
    forall i :: 0 <= i < len ==> s[i] != c
  }

  /** The bitmap of carrier c's slots below n, built as
      XDfeMix_GetCarrierCfgAndNCO builds it (bit i set when slot i is c's). */
  function BitmapOf(s: seq<int>, n: nat, c: int): (r: nat)
    requires n <= |s|
    ensures FitsIn(r, n)
  {
    if n == 0 then 0
    else BitmapOf(s, n - 1, c) + (if s[n - 1] == c then Pow2(n - 1) else 0)
  }

  /** The number of slots below n that carrier c holds. */
  function Count(s: seq<int>, n: nat, c: int): (r: nat)
    requires n <= |s|
    ensures r <= n
  {
    if n == 0 then 0 else Count(s, n - 1, c) + (if s[n - 1] == c then 1 else 0)
  }

  /** Bit i of a carrier's bitmap is set exactly when slot i is the carrier's. */
  lemma {:induction false} BitOfBitmap(s: seq<int>, n: nat, c: int, i: nat)
    requires n <= |s|
    ensures Bit(BitmapOf(s, n, c), i) <==> i < n && s[i] == c
  {
    if n == 0 {
      NoBitOfZero(i);
    } else {
      var b := BitmapOf(s, n - 1, c);
      BitOfBitmap(s, n - 1, c, i);
      if s[n - 1] == c {
        BitOfAddTop(b, n - 1, i);
      } else if i >= n - 1 {
        NoBitAbove(b, n - 1, i);
      }
    }
  }

  /** Counting a carrier's bitmap up to m counts its slots below both n and m. */
  lemma {:induction false} OnesOfBitmap(s: seq<int>, n: nat, c: int, m: nat)
    requires n <= |s|
    ensures Ones(BitmapOf(s, n, c), m) == Count(s, if m < n then m else n, c)
  {
    if m > 0 {
      OnesOfBitmap(s, n, c, m - 1);
      BitOfBitmap(s, n, c, m - 1);
    }
  }

  /** A carrier placed into slots it did not hold ends up holding exactly
      as many slots as the bitmap has ones. */
  lemma PlacedCount(s: seq<int>, len: nat, bitmap: nat, c: int)
    requires IsSeq(s) && len <= CC_NUM
    requires Absent(s, len, c) && FitsIn(bitmap, len)
    ensures Count(Placed(s, len, bitmap, c), len, c) == Ones(bitmap, len)
  {
    BitmapOfPlaced(s, len, bitmap, c);
    OnesOfBitmap(Placed(s, len, bitmap, c), len, c, len);
  }

  /** After placing a carrier that held no slot, its bitmap reads back as the
      bitmap it was placed with. */
  lemma {:induction false} BitmapOfPlaced(s: seq<int>, len: nat, bitmap: nat, c: int)
    requires IsSeq(s) && len <= CC_NUM
    requires Absent(s, len, c) && FitsIn(bitmap, len)
    ensures BitmapOf(Placed(s, len, bitmap, c), len, c) == bitmap
  {
    var p := Placed(s, len, bitmap, c);
    BitmapOfPlacedPrefix(s, len, bitmap, c, len);
    LowBitsOfFit(bitmap, len);
  }

  lemma {:induction false} BitmapOfPlacedPrefix(s: seq<int>, len: nat, bitmap: nat, c: int, n: nat)
    requires IsSeq(s) && n <= len <= CC_NUM
    requires Absent(s, len, c)
    ensures BitmapOf(Placed(s, len, bitmap, c), n, c) == LowBits(bitmap, n)
  {
    if n > 0 {
      BitmapOfPlacedPrefix(s, len, bitmap, c, n - 1);
      LowBitsTop(bitmap, n - 1);
    }
  }

  /** Placing carrier c on free slots leaves the bitmap of every other
      carrier as it was. */
  lemma {:induction false} BitmapOfPlacedOther(s: seq<int>, len: nat, bitmap: nat, c: int, j: int, n: nat)
    requires IsSeq(s) && n <= len <= CC_NUM
    requires SlotsFree(s, len, bitmap) && j != c && j != SEQUENCE_ENTRY_NULL
    ensures BitmapOf(Placed(s, len, bitmap, c), n, j) == BitmapOf(s, n, j)
  {
    if n > 0 {
      BitmapOfPlacedOther(s, len, bitmap, c, j, n - 1);
    }
  }

  /** Removing a carrier that was just placed on free slots restores the
      sequence. */
  lemma ClearedPlaced(s: seq<int>, len: nat, bitmap: nat, c: int)
    requires IsSeq(s) && len <= CC_NUM
    requires Absent(s, len, c) && SlotsFree(s, len, bitmap)
    ensures Cleared(Placed(s, len, bitmap, c), len, c) == s
  {
    var p := Placed(s, len, bitmap, c);
    assert forall i :: 0 <= i < CC_NUM ==> Cleared(p, len, c)[i] == s[i];
  }

  /** After removal the carrier holds no slot below len, so its bitmap is 0,
      and the slots of other carriers stay where they were. */
  lemma {:induction false} BitmapOfCleared(s: seq<int>, len: nat, c: int, j: int, n: nat)
    requires IsSeq(s) && n <= len <= CC_NUM && j != SEQUENCE_ENTRY_NULL
    ensures BitmapOf(Cleared(s, len, c), n, j) == if j == c then 0 else BitmapOf(s, n, j)
  {
    if n > 0 {
      BitmapOfCleared(s, len, c, j, n - 1);
    }
  }

  /** Placing keeps a sequence well formed when the carrier ID is valid. */
  lemma PlacedWellFormed(s: seq<int>, len: nat, bitmap: nat, c: int)
    requires WellFormed(s) && len <= CC_NUM && 0 <= c < CC_NUM as int
    ensures WellFormed(Placed(s, len, bitmap, c))
  {
  }

  /** Removing keeps a sequence well formed. */
  lemma ClearedWellFormed(s: seq<int>, len: nat, c: int)
    requires WellFormed(s) && len <= CC_NUM
    ensures WellFormed(Cleared(s, len, c))
  {
  }

  /** Slot translation towards the sequence registers (SetNextCCCfg): an
      unused slot, and every slot at or beyond the sequence length, carries
      the not-used ID instead of -1. */
  function SeqToRegs(s: seq<int>, seqLength: nat, notUsedCCID: int): (r: seq<int>)
    requires IsSeq(s)
    ensures IsSeq(r)
  {
    seq(CC_NUM, i requires 0 <= i < CC_NUM =>
      if s[i] == SEQUENCE_ENTRY_NULL || i >= seqLength then notUsedCCID else s[i])
  }

  /** Slot translation back from the registers (GetCurrentCCCfg): a slot
      holding the not-used ID, and every slot at or beyond the sequence
      length, reads as -1. */
  function RegsToSeq(r: seq<int>, seqLength: nat, notUsedCCID: int): (s: seq<int>)
    requires IsSeq(r)
    ensures IsSeq(s)
  {
    seq(CC_NUM, i requires 0 <= i < CC_NUM =>
      if r[i] == notUsedCCID || i >= seqLength then SEQUENCE_ENTRY_NULL else r[i])
  }

  /** The sequence cut to its first seqLength slots. */
  function Truncated(s: seq<int>, seqLength: nat): (r: seq<int>)
    requires IsSeq(s)
    ensures IsSeq(r)
  {
    seq(CC_NUM, i requires 0 <= i < CC_NUM => if i < seqLength then s[i] else SEQUENCE_ENTRY_NULL)
  }

  /** The register values never contain -1: every slot holds a carrier ID or
      the not-used ID, which lies in [0, 16]. */
  lemma SeqToRegsRange(s: seq<int>, seqLength: nat)
    requires WellFormed(s)
    ensures forall i :: 0 <= i < CC_NUM ==> 0 <= SeqToRegs(s, seqLength, NotUsed(s))[i] <= CC_NUM as int
  {
  }

  /** Sentinel round trip: writing a well-formed sequence with its not-used
      ID and reading it back with the same ID gives the sequence cut to the
      sequence length. */
  lemma SentinelRoundTrip(s: seq<int>, seqLength: nat)
    requires WellFormed(s)
    ensures RegsToSeq(SeqToRegs(s, seqLength, NotUsed(s)), seqLength, NotUsed(s)) == Truncated(s, seqLength)
  {
    var nu := NotUsed(s);
    var back := RegsToSeq(SeqToRegs(s, seqLength, nu), seqLength, nu);
    forall i | 0 <= i < CC_NUM
      ensures back[i] == Truncated(s, seqLength)[i]
    {
      if i < seqLength && s[i] != SEQUENCE_ENTRY_NULL {
        assert s[i] in s;
        assert s[i] != nu;
      }
    }
  }

  /** A stale not-used ID breaks the round trip: a slot that holds the ID
      the registers treat as "unused" reads back as -1. */
  lemma SentinelStaleId()
    ensures var s := [3] + seq(15, i => SEQUENCE_ENTRY_NULL);
            IsSeq(s) && RegsToSeq(SeqToRegs(s, 16, 3), 16, 3)[0] == SEQUENCE_ENTRY_NULL
  {
  }

  /** AntennaCfg word written by SetNextCCCfg: the sum of Gain[i] << i over
      the first n antennas (u32 wrap-around is applied to the total). */
  function AntennaSum(gain: seq<nat>, n: nat): nat
    requires n <= |gain|
  {
    if n == 0 then 0 else AntennaSum(gain, n - 1) + gain[n - 1] * Pow2(n - 1)
  }

  function AntennaWord(gain: seq<nat>): nat
    requires |gain| == ANT_NUM_MAX
  {
    AntennaSum(gain, ANT_NUM_MAX) % U32_LIMIT
  }

  /** The gains read back by GetCurrentCCCfg: (word >> i) & 1 per antenna. */
  function AntennaGains(word: nat): (gain: seq<nat>)
    ensures |gain| == ANT_NUM_MAX
  {
    seq(ANT_NUM_MAX, i requires 0 <= i < ANT_NUM_MAX => if Bit(word, i) then 1 else 0)
  }

  predicate GainBits(gain: seq<nat>)
  {
    forall i :: 0 <= i < |gain| ==> gain[i] <= 1
  }

  lemma {:induction false} AntennaSumBits(gain: seq<nat>, n: nat, i: nat)
    requires n <= |gain| && GainBits(gain)
    ensures FitsIn(AntennaSum(gain, n), n)
    ensures Bit(AntennaSum(gain, n), i) <==> i < n && gain[i] == 1
  {
    if n == 0 {
      NoBitOfZero(i);
    } else {
      var b := AntennaSum(gain, n - 1);
      AntennaSumBits(gain, n - 1, i);
      if gain[n - 1] == 1 {
        BitOfAddTop(b, n - 1, i);
      } else if i >= n - 1 {
        NoBitAbove(b, n - 1, i);
      }
    }
  }

  /** Antenna round trip: one-bit gains survive packing and unpacking. */
  lemma AntennaRoundTrip(gain: seq<nat>)
    requires |gain| == ANT_NUM_MAX && GainBits(gain)
    ensures AntennaGains(AntennaWord(gain)) == gain
  {
    AntennaSumBits(gain, ANT_NUM_MAX, 0);
    assert Pow2(ANT_NUM_MAX) == 256;
    forall i | 0 <= i < ANT_NUM_MAX
      ensures AntennaGains(AntennaWord(gain))[i] == gain[i]
    {
      AntennaSumBits(gain, ANT_NUM_MAX, i);
    }
  }

  /** A gain wider than one bit does not survive: gain 2 on antenna 0 lands
      in antenna 1's bit. */
  lemma AntennaWideGain()
    ensures var g := [2, 0, 0, 0, 0, 0, 0, 0];
            AntennaGains(AntennaWord(g)) == [0, 1, 0, 0, 0, 0, 0, 0]
  {
    var g := [2, 0, 0, 0, 0, 0, 0, 0];
    assert AntennaSum(g, 1) == 2;
    assert AntennaSum(g, ANT_NUM_MAX) == 2;
    assert Bit(2, 1) && !Bit(2, 0);
    forall i: nat | 2 <= i
      ensures !Bit(2, i)
    {
      NoBitAbove(2, 2, i);
    }
  }
}
