/**
 * What the driver's allocation checks decide, stated on snapshot values:
 * the rate code FindRate derives from a carrier's slot count, the NCO
 * sub-block usage that NCOArch4Mode and NCOArch5Mode add up, and the
 * accept/reject rules of the add and move/update checks. The invariant
 * the checks are there to keep is Within: no sub-block is loaded beyond
 * its share of the sequence (a half in ARCH4, a quarter in ARCH5).
 */
module MixCapacity {
  import opened MixBits
  import opened MixTypes
  import opened MixSequence

  datatype Option<T> = None | Some(value: T)

  // ---------------------------------------------------------------------
  // Rate detection
  // ---------------------------------------------------------------------

  /** The rate code of an interpolation/decimation ratio, as the switch of
      XDfeMix_FindRate selects it; None is its default (failure) branch. */
  function RateOfRatio(ratio: nat): Option<nat>
  {
    if ratio == 1 then Some(RATE_1X)
    else if ratio == 2 then Some(RATE_2X)
    else if ratio == 4 then Some(RATE_4X)
    else if ratio == 8 then Some(RATE_8X)
    else if ratio == 16 then Some(RATE_16X)
    else None
  }

  /** A rate code r stands for the ratio 2^(r-1): the codes are the
      base-two logarithm of the ratio plus one, and only the powers of two
      from 1 to 16 have a code. */
  lemma RateOfRatioIsLog(ratio: nat)
    ensures RateOfRatio(ratio).Some? <==> ratio in {1, 2, 4, 8, 16}
    ensures RateOfRatio(ratio).Some? ==>
              1 <= RateOfRatio(ratio).value <= 5 && Pow2(RateOfRatio(ratio).value - 1) == ratio
  {
  }

  /** The conversion ratio of a carrier holding `ones` slots of a sequence
      of length seqLength: AntennaInterleave * (SequenceLength / ones) /
      MixerCps, with C's truncating unsigned division. */
  function ConversionRatio(antennaInterleave: nat, mixerCps: nat, seqLength: nat, ones: nat): nat
    requires mixerCps > 0 && ones > 0
  {
    (antennaInterleave * (seqLength / ones)) / mixerCps
  }

  /** Whether FindRate accepts a bitmap: it fits in the instance's sequence
      length, its slot count is 0 or a power of two, and a non-zero count
      gives a ratio with a rate code. */
  predicate RateFound(bitmap: nat, seqLength: nat, antennaInterleave: nat, mixerCps: nat)
    requires mixerCps > 0
  {
    var ones := Ones(bitmap, seqLength);
    FitsIn(bitmap, seqLength) && IsPowerOfTwoCount(ones)
    && (ones == 0 || RateOfRatio(ConversionRatio(antennaInterleave, mixerCps, seqLength, ones)).Some?)
  }

  /** The rate FindRate reports for an accepted bitmap: 0 (disabled) for an
      empty one, otherwise the code of its conversion ratio. */
  function FoundRate(bitmap: nat, seqLength: nat, antennaInterleave: nat, mixerCps: nat): (r: nat)
    requires mixerCps > 0 && RateFound(bitmap, seqLength, antennaInterleave, mixerCps)
    ensures r == CC_CONFIG_DISABLED <==> Ones(bitmap, seqLength) == 0
    ensures r <= RATE_16X
  {
    var ones := Ones(bitmap, seqLength);
    if ones == 0 then CC_CONFIG_DISABLED
    else RateOfRatio(ConversionRatio(antennaInterleave, mixerCps, seqLength, ones)).value
  }

  /** A bitmap that fits and has no set bit is zero, so a carrier FindRate
      calls disabled owns no slot of the instance's sequence. */
  lemma {:induction false} NoOnesIsZero(b: nat, n: nat)
    requires FitsIn(b, n) && Ones(b, n) == 0
    ensures b == 0
  {
    if b != 0 {
      LargeHasBitAbove(b, 0);
      var i: nat :| Bit(b, i);
      if i < n {
        OnesHasBit(b, n, i);
      } else {
        NoBitAbove(b, n, i);
      }
    }
  }

  lemma {:induction false} OnesHasBit(b: nat, n: nat, i: nat)
    requires i < n && Bit(b, i)
    ensures Ones(b, n) > 0
  {
    if i < n - 1 {
      OnesHasBit(b, n - 1, i);
    }
  }

  // ---------------------------------------------------------------------
  // Sub-blocks and their usage
  // ---------------------------------------------------------------------

  /** The architecture the model parameters select (XDFEMIX_IS_ARCH4_MODE is
      tested first); any other configuration is not capacity checked. */
  datatype Arch = Arch4 | Arch5 | Unchecked

  function ArchOf(p: ModelParams): Arch
  {
    if IsArch4(p) then Arch4 else if IsArch5(p) then Arch5 else Unchecked
  }

  /** The NCO sub-block of an NCO index: ARCH4 splits at 4 (low, high),
      ARCH5 has blocks 0-3, 4-7, 8-11 and everything from 12 on. */
  function BlockOf(arch: Arch, ncoIdx: nat): (r: nat)
    ensures arch != Unchecked ==> r < BlockCount(arch)
  {
    match arch
    case Arch4 => if ncoIdx < NCO_LOW_SUB_BLOCK_SIZE then 0 else 1
    case Arch5 =>
      if ncoIdx < 1 * NCO_LOW_SUB_BLOCK_SIZE then 0
      else if ncoIdx < 2 * NCO_LOW_SUB_BLOCK_SIZE then 1
      else if ncoIdx < 3 * NCO_LOW_SUB_BLOCK_SIZE then 2
      else 3
    case Unchecked => 0
  }

  function BlockCount(arch: Arch): nat
  {
    match arch
    case Arch4 => 2
    case Arch5 => 4
    case Unchecked => 0
  }

  /** The factor a block's usage is multiplied by before it is compared
      with the sequence length: 2 for 50 %, 4 for 25 %. */
  function Factor(arch: Arch): nat
  {
    match arch
    case Arch4 => 2
    case Arch5 => 4
    case Unchecked => 0
  }

  /** The slots of carrier c as the checks count them: the bitmap read from
      the snapshot's own length, its ones counted up to the instance's. */
  function CarrierOnes(s: seq<int>, snapLen: nat, instLen: nat, c: int): nat
    requires IsSeq(s) && snapLen <= CC_NUM
  {
    Ones(BitmapOf(s, snapLen, c), instLen)
  }

  /** What carrier j adds to block k: its slots when it is enabled (rate
      not 0) and its NCO lies in block k, nothing otherwise. */
  function Share(d: seq<DUCDDCCfg>, s: seq<int>, snapLen: nat, instLen: nat, arch: Arch, k: nat, j: nat): nat
    requires |d| == CC_NUM && IsSeq(s) && snapLen <= CC_NUM && j < CC_NUM
  {
    if d[j].rate != CC_CONFIG_DISABLED && BlockOf(arch, d[j].ncoIdx) == k
    then CarrierOnes(s, snapLen, instLen, j) else 0
  }

  /** The usage of block k among carriers 0 .. n-1, as NCOArch4Mode and
      NCOArch5Mode add it up. */
  function UsageUpTo(d: seq<DUCDDCCfg>, s: seq<int>, snapLen: nat, instLen: nat,
                     arch: Arch, k: nat, n: nat): nat
    requires |d| == CC_NUM && IsSeq(s) && snapLen <= CC_NUM && n <= CC_NUM
  {
    if n == 0 then 0
    else UsageUpTo(d, s, snapLen, instLen, arch, k, n - 1) + Share(d, s, snapLen, instLen, arch, k, n - 1)
  }

  function Usage(d: seq<DUCDDCCfg>, s: seq<int>, snapLen: nat, instLen: nat, arch: Arch, k: nat): nat
    requires |d| == CC_NUM && IsSeq(s) && snapLen <= CC_NUM
  {
    UsageUpTo(d, s, snapLen, instLen, arch, k, CC_NUM)
  }

  /** The capacity invariant: every sub-block stays within its share. */
  predicate Within(d: seq<DUCDDCCfg>, s: seq<int>, snapLen: nat, instLen: nat, arch: Arch)
    requires |d| == CC_NUM && IsSeq(s) && snapLen <= CC_NUM
  {
    forall k: nat :: k < BlockCount(arch) ==> Usage(d, s, snapLen, instLen, arch, k) * Factor(arch) <= instLen
  }

  /** A disabled carrier holds no slot of the snapshot's sequence. */
  predicate Coherent(d: seq<DUCDDCCfg>, s: seq<int>, snapLen: nat)
    requires |d| == CC_NUM && IsSeq(s) && snapLen <= CC_NUM
  {
    forall c :: 0 <= c < CC_NUM && d[c].rate == CC_CONFIG_DISABLED ==> Absent(s, snapLen, c)
  }

  // ---------------------------------------------------------------------
  // The decisions
  // ---------------------------------------------------------------------

  /** NCOArch4ModeInAddCC / NCOArch5ModeInAddCC: accept when the candidate's
      block, with the candidate's slots added, stays within its share. */
  predicate AddFits(d: seq<DUCDDCCfg>, s: seq<int>, snapLen: nat, instLen: nat,
                    arch: Arch, bitmap: nat, ncoIdx: nat)
    requires |d| == CC_NUM && IsSeq(s) && snapLen <= CC_NUM
  {
    arch == Unchecked
    || (Usage(d, s, snapLen, instLen, arch, BlockOf(arch, ncoIdx)) + Ones(bitmap, instLen)) * Factor(arch) <= instLen
  }

  /** NCOArch4ModeInMoveOrUpdateCC: a move into the other half checks that
      half; a move within a half is accepted without a check. */
  function Arch4MoveBlock(ncoIdx: nat, oldIdx: nat): Option<nat>
  {
    if ncoIdx < NCO_LOW_SUB_BLOCK_SIZE && oldIdx >= NCO_LOW_SUB_BLOCK_SIZE then Some(0)
    else if ncoIdx >= NCO_LOW_SUB_BLOCK_SIZE && oldIdx < NCO_LOW_SUB_BLOCK_SIZE then Some(1)
    else None
  }

  /** NCOArch5ModeInMoveOrUpdateCC as written: the first k in 0..2 with
      NCOIdx < 4(k+1) <= old NCOIdx picks block k; otherwise any NCOIdx below
      16 is checked against block 3, and only NCOIdx >= 16 is accepted
      unchecked. */
  function Arch5MoveBlockAsWritten(ncoIdx: nat, oldIdx: nat): Option<nat>
  {
    if ncoIdx < 1 * NCO_LOW_SUB_BLOCK_SIZE && oldIdx >= 1 * NCO_LOW_SUB_BLOCK_SIZE then Some(0)
    else if ncoIdx < 2 * NCO_LOW_SUB_BLOCK_SIZE && oldIdx >= 2 * NCO_LOW_SUB_BLOCK_SIZE then Some(1)
    else if ncoIdx < 3 * NCO_LOW_SUB_BLOCK_SIZE && oldIdx >= 3 * NCO_LOW_SUB_BLOCK_SIZE then Some(2)
    else if ncoIdx < 4 * NCO_LOW_SUB_BLOCK_SIZE then Some(3)
    else None
  }

  /** The ARCH5 move rule as ARCH4's shows it is meant: check the
      destination block when the carrier changes block, accept otherwise. */
  function Arch5MoveBlock(ncoIdx: nat, oldIdx: nat): Option<nat>
  {
    if BlockOf(Arch5, ncoIdx) != BlockOf(Arch5, oldIdx) then Some(BlockOf(Arch5, ncoIdx)) else None
  }

  /** The block a move/update of a carrier from oldIdx to ncoIdx checks. */
  function MoveBlock(arch: Arch, ncoIdx: nat, oldIdx: nat): (r: Option<nat>)
    ensures r.Some? ==> BlockOf(arch, ncoIdx) == r.value && BlockOf(arch, oldIdx) != r.value
    ensures r.None? ==> arch == Unchecked || BlockOf(arch, ncoIdx) == BlockOf(arch, oldIdx)
  {
    match arch
    case Arch4 => Arch4MoveBlock(ncoIdx, oldIdx)
    case Arch5 => Arch5MoveBlock(ncoIdx, oldIdx)
    case Unchecked => None
  }

  /** Whether the move/update check accepts moving carrier c to ncoIdx: the
      checked block, with the carrier's own slots added, stays within its
      share. */
  predicate MoveFits(d: seq<DUCDDCCfg>, s: seq<int>, snapLen: nat, instLen: nat,
                     arch: Arch, c: nat, ncoIdx: nat)
    requires |d| == CC_NUM && IsSeq(s) && snapLen <= CC_NUM && c < CC_NUM
  {
    match MoveBlock(arch, ncoIdx, d[c].ncoIdx)
    case None => true
    case Some(k) => (Usage(d, s, snapLen, instLen, arch, k) + CarrierOnes(s, snapLen, instLen, c)) * Factor(arch) <= instLen
  }

  /** The same decision with the ARCH5 rule as written. */
  predicate MoveFitsAsWritten(d: seq<DUCDDCCfg>, s: seq<int>, snapLen: nat, instLen: nat,
                              arch: Arch, c: nat, ncoIdx: nat)
    requires |d| == CC_NUM && IsSeq(s) && snapLen <= CC_NUM && c < CC_NUM
  {
    if arch == Arch5 then
      match Arch5MoveBlockAsWritten(ncoIdx, d[c].ncoIdx)
      case None => true
      case Some(k) => (Usage(d, s, snapLen, instLen, arch, k) + CarrierOnes(s, snapLen, instLen, c)) * Factor(arch) <= instLen
    else MoveFits(d, s, snapLen, instLen, arch, c, ncoIdx)
  }

  // ---------------------------------------------------------------------
  // How usage changes
  // ---------------------------------------------------------------------

  /** The descriptors after SetCCDDC gave carrier c its NCO, rate and gain. */
  function WithCarrier(d: seq<DUCDDCCfg>, c: nat, ncoIdx: nat, rate: nat, ccGain: nat): (r: seq<DUCDDCCfg>)
    requires |d| == CC_NUM && c < CC_NUM
    ensures |r| == CC_NUM
  {
    d[c := DUCDDCCfg(ncoIdx, rate, ccGain)]
  }

  /** The descriptors after UpdateCCDDC moved carrier c: NCO and gain
      replaced, rate kept. */
  function Moved(d: seq<DUCDDCCfg>, c: nat, ncoIdx: nat, ccGain: nat): (r: seq<DUCDDCCfg>)
    requires |d| == CC_NUM && c < CC_NUM
    ensures |r| == CC_NUM
  {
    d[c := d[c].(ncoIdx := ncoIdx, ccGain := ccGain)]
  }

  /** The descriptors after RemoveCCfromCCCfg disabled carrier c. */
  function Disabled(d: seq<DUCDDCCfg>, c: nat): (r: seq<DUCDDCCfg>)
    requires |d| == CC_NUM && c < CC_NUM
    ensures |r| == CC_NUM
  {
    d[c := d[c].(rate := CC_CONFIG_DISABLED)]
  }

  /** Adding a carrier that was disabled and held no slot adds its slots to
      its own block and nothing to any other. */
  lemma {:induction false} UsageAfterAdd(d: seq<DUCDDCCfg>, s: seq<int>, snapLen: nat, instLen: nat,
                                         arch: Arch, k: nat, n: nat,
                                         c: nat, bitmap: nat, ncoIdx: nat, rate: nat, ccGain: nat)
    requires |d| == CC_NUM && IsSeq(s) && snapLen <= CC_NUM && c < CC_NUM && n <= CC_NUM
    requires d[c].rate == CC_CONFIG_DISABLED && Absent(s, snapLen, c)
    requires SlotsFree(s, snapLen, bitmap) && FitsIn(bitmap, snapLen)
    ensures UsageUpTo(WithCarrier(d, c, ncoIdx, rate, ccGain), Placed(s, snapLen, bitmap, c), snapLen, instLen, arch, k, n)
         == UsageUpTo(d, s, snapLen, instLen, arch, k, n)
            + (if c < n && rate != CC_CONFIG_DISABLED && BlockOf(arch, ncoIdx) == k then Ones(bitmap, instLen) else 0)
  {
    if n > 0 {
      UsageAfterAdd(d, s, snapLen, instLen, arch, k, n - 1, c, bitmap, ncoIdx, rate, ccGain);
      if n - 1 == c {
        BitmapOfPlaced(s, snapLen, bitmap, c);
      } else {
        BitmapOfPlacedOther(s, snapLen, bitmap, c, n - 1, snapLen);
      }
    }
  }

  /** Moving carrier c takes its slots out of its old block and puts them
      into its new one; the sequence is not touched. */
  lemma {:induction false} UsageAfterMove(d: seq<DUCDDCCfg>, s: seq<int>, snapLen: nat, instLen: nat,
                                          arch: Arch, k: nat, n: nat, c: nat, ncoIdx: nat, ccGain: nat)
    requires |d| == CC_NUM && IsSeq(s) && snapLen <= CC_NUM && c < CC_NUM && n <= CC_NUM
    ensures UsageUpTo(Moved(d, c, ncoIdx, ccGain), s, snapLen, instLen, arch, k, n)
            + (if c < n then Share(d, s, snapLen, instLen, arch, k, c) else 0)
         == UsageUpTo(d, s, snapLen, instLen, arch, k, n)
            + (if c < n then Share(Moved(d, c, ncoIdx, ccGain), s, snapLen, instLen, arch, k, c) else 0)
  {
    if n > 0 {
      UsageAfterMove(d, s, snapLen, instLen, arch, k, n - 1, c, ncoIdx, ccGain);
    }
  }

  /** Removing carrier c takes its slots out of its block and leaves every
      other block as it was. */
  lemma {:induction false} UsageAfterRemove(d: seq<DUCDDCCfg>, s: seq<int>, snapLen: nat, instLen: nat,
                                            arch: Arch, k: nat, n: nat, c: nat)
    requires |d| == CC_NUM && IsSeq(s) && snapLen <= CC_NUM && c < CC_NUM && n <= CC_NUM
    ensures UsageUpTo(Disabled(d, c), Cleared(s, snapLen, c), snapLen, instLen, arch, k, n)
            + (if c < n then Share(d, s, snapLen, instLen, arch, k, c) else 0)
         == UsageUpTo(d, s, snapLen, instLen, arch, k, n)
  {
    if n > 0 {
      UsageAfterRemove(d, s, snapLen, instLen, arch, k, n - 1, c);
      if n - 1 != c {
        BitmapOfCleared(s, snapLen, c, n - 1, snapLen);
      }
    }
  }

  // ---------------------------------------------------------------------
  // The invariant the checks keep
  // ---------------------------------------------------------------------

  /** Multiplying by a block factor keeps an order. */
  lemma ScaleMono(a: nat, b: nat, arch: Arch)
    requires a <= b
    ensures a * Factor(arch) <= b * Factor(arch)
  {
  }

  /** An add the add-mode check accepted keeps every block within its
      share. */
  lemma AddKeepsWithin(d: seq<DUCDDCCfg>, s: seq<int>, snapLen: nat, instLen: nat, arch: Arch,
                       c: nat, bitmap: nat, ncoIdx: nat, rate: nat, ccGain: nat)
    requires |d| == CC_NUM && IsSeq(s) && snapLen <= CC_NUM && c < CC_NUM
    requires Within(d, s, snapLen, instLen, arch) && Coherent(d, s, snapLen)
    requires d[c].rate == CC_CONFIG_DISABLED
    requires SlotsFree(s, snapLen, bitmap) && FitsIn(bitmap, snapLen)
    requires AddFits(d, s, snapLen, instLen, arch, bitmap, ncoIdx)
    ensures Within(WithCarrier(d, c, ncoIdx, rate, ccGain), Placed(s, snapLen, bitmap, c), snapLen, instLen, arch)
  {
    var d' := WithCarrier(d, c, ncoIdx, rate, ccGain);
    var s' := Placed(s, snapLen, bitmap, c);
    assert Absent(s, snapLen, c);
    forall k: nat | k < BlockCount(arch)
      ensures Usage(d', s', snapLen, instLen, arch, k) * Factor(arch) <= instLen
    {
      UsageAfterAdd(d, s, snapLen, instLen, arch, k, CC_NUM, c, bitmap, ncoIdx, rate, ccGain);
      var u := Usage(d, s, snapLen, instLen, arch, k);
      if rate != CC_CONFIG_DISABLED && BlockOf(arch, ncoIdx) == k {
        assert Usage(d', s', snapLen, instLen, arch, k) == u + Ones(bitmap, instLen);
      } else {
        assert Usage(d', s', snapLen, instLen, arch, k) == u;
      }
    }
  }

  /** A successful add keeps disabled carriers slot-free: the added carrier
      is either enabled or was placed with an empty bitmap. */
  lemma AddKeepsCoherent(d: seq<DUCDDCCfg>, s: seq<int>, snapLen: nat,
                         c: nat, bitmap: nat, ncoIdx: nat, rate: nat, ccGain: nat)
    requires |d| == CC_NUM && IsSeq(s) && snapLen <= CC_NUM && c < CC_NUM
    requires Coherent(d, s, snapLen) && d[c].rate == CC_CONFIG_DISABLED
    requires rate != CC_CONFIG_DISABLED || bitmap == 0
    ensures Coherent(WithCarrier(d, c, ncoIdx, rate, ccGain), Placed(s, snapLen, bitmap, c), snapLen)
  {
    var d' := WithCarrier(d, c, ncoIdx, rate, ccGain);
    var s' := Placed(s, snapLen, bitmap, c);
    forall j | 0 <= j < CC_NUM && d'[j].rate == CC_CONFIG_DISABLED
      ensures Absent(s', snapLen, j)
    {
      assert d[j].rate == CC_CONFIG_DISABLED;
      assert Absent(s, snapLen, j);
      forall i | 0 <= i < snapLen
        ensures s'[i] != j
      {
        if j == c {
          NoBitOfZero(i);
        }
      }
    }
  }

  /** A move the (corrected) move/update check accepted keeps every block
      within its share. */
  lemma MoveKeepsWithin(d: seq<DUCDDCCfg>, s: seq<int>, snapLen: nat, instLen: nat, arch: Arch,
                        c: nat, ncoIdx: nat, ccGain: nat)
    requires |d| == CC_NUM && IsSeq(s) && snapLen <= CC_NUM && c < CC_NUM
    requires Within(d, s, snapLen, instLen, arch)
    requires MoveFits(d, s, snapLen, instLen, arch, c, ncoIdx)
    ensures Within(Moved(d, c, ncoIdx, ccGain), s, snapLen, instLen, arch)
  {
    var d' := Moved(d, c, ncoIdx, ccGain);
    forall k: nat | k < BlockCount(arch)
      ensures Usage(d', s, snapLen, instLen, arch, k) * Factor(arch) <= instLen
    {
      UsageAfterMove(d, s, snapLen, instLen, arch, k, CC_NUM, c, ncoIdx, ccGain);
      var u := Usage(d, s, snapLen, instLen, arch, k);
      var u' := Usage(d', s, snapLen, instLen, arch, k);
      var before := Share(d, s, snapLen, instLen, arch, k, c);
      var after := Share(d', s, snapLen, instLen, arch, k, c);
      assert u' + before == u + after;
      if after == 0 {
        ScaleMono(u', u, arch);
      } else if BlockOf(arch, d[c].ncoIdx) == k {
        assert before == after;
      } else {
        assert MoveBlock(arch, ncoIdx, d[c].ncoIdx) == Some(k);
        ScaleMono(u', u + CarrierOnes(s, snapLen, instLen, c), arch);
      }
    }
  }

  /** Removal never loads a block and keeps disabled carriers slot-free. */
  lemma RemoveKeepsWithin(d: seq<DUCDDCCfg>, s: seq<int>, snapLen: nat, instLen: nat, arch: Arch, c: nat)
    requires |d| == CC_NUM && IsSeq(s) && snapLen <= CC_NUM && c < CC_NUM
    requires Within(d, s, snapLen, instLen, arch) && Coherent(d, s, snapLen)
    ensures Within(Disabled(d, c), Cleared(s, snapLen, c), snapLen, instLen, arch)
    ensures Coherent(Disabled(d, c), Cleared(s, snapLen, c), snapLen)
  {
    var d' := Disabled(d, c);
    var s' := Cleared(s, snapLen, c);
    forall k: nat | k < BlockCount(arch)
      ensures Usage(d', s', snapLen, instLen, arch, k) * Factor(arch) <= instLen
    {
      UsageAfterRemove(d, s, snapLen, instLen, arch, k, CC_NUM, c);
      ScaleMono(Usage(d', s', snapLen, instLen, arch, k), Usage(d, s, snapLen, instLen, arch, k), arch);
    }
    forall j | 0 <= j < CC_NUM && d'[j].rate == CC_CONFIG_DISABLED
      ensures Absent(s', snapLen, j)
    {
      if j != c {
        assert d[j].rate == CC_CONFIG_DISABLED;
        assert Absent(s, snapLen, j);
      }
    }
  }

  /** Add then remove gives back the snapshot's sequence and its set of
      enabled carriers. */
  lemma AddThenRemove(d: seq<DUCDDCCfg>, s: seq<int>, snapLen: nat,
                      c: nat, bitmap: nat, ncoIdx: nat, rate: nat, ccGain: nat)
    requires |d| == CC_NUM && IsSeq(s) && snapLen <= CC_NUM && c < CC_NUM
    requires Coherent(d, s, snapLen) && d[c].rate == CC_CONFIG_DISABLED
    requires SlotsFree(s, snapLen, bitmap)
    ensures Cleared(Placed(s, snapLen, bitmap, c), snapLen, c) == s
    ensures var d' := Disabled(WithCarrier(d, c, ncoIdx, rate, ccGain), c);
            forall j :: 0 <= j < CC_NUM ==> (d'[j].rate == CC_CONFIG_DISABLED <==> d[j].rate == CC_CONFIG_DISABLED)
  {
    assert Absent(s, snapLen, c);
    ClearedPlaced(s, snapLen, bitmap, c);
  }

  // ---------------------------------------------------------------------
  // The whole add and move/update decisions
  // ---------------------------------------------------------------------

  /** CheckCarrierCfg's scan: no enabled carrier among the first n IDs (n is
      the instance's sequence length) uses NCO ncoIdx. The carrier being
      updated is not exempt, and IDs from n on are not looked at. */
  predicate NcoFree(d: seq<DUCDDCCfg>, n: nat, ncoIdx: nat)
    requires |d| == CC_NUM && n <= CC_NUM
  {
    forall j :: 0 <= j < n ==> !(d[j].ncoIdx == ncoIdx && d[j].rate != CC_CONFIG_DISABLED)
  }

  /** CheckCarrierCfginAddCC's verdict: the carrier is disabled, the NCO
      index is usable and free, and its block has room for the bitmap. */
  predicate AddChecked(d: seq<DUCDDCCfg>, s: seq<int>, snapLen: nat, instLen: nat, p: ModelParams,
                       c: nat, bitmap: nat, ncoIdx: nat)
    requires |d| == CC_NUM && IsSeq(s) && snapLen <= CC_NUM && instLen <= CC_NUM && c < CC_NUM
  {
    d[c].rate == CC_CONFIG_DISABLED && ncoIdx < p.maxUseableCcids && NcoFree(d, instLen, ncoIdx)
    && AddFits(d, s, snapLen, instLen, ArchOf(p), bitmap, ncoIdx)
  }

  /** CheckCarrierCfgInUpdateCC's verdict: the NCO index is usable and
      free, and the move/update rule accepts the move, with the ARCH5 rule
      as written. */
  predicate UpdateChecked(d: seq<DUCDDCCfg>, s: seq<int>, snapLen: nat, instLen: nat, p: ModelParams,
                          c: nat, ncoIdx: nat)
    requires |d| == CC_NUM && IsSeq(s) && snapLen <= CC_NUM && instLen <= CC_NUM && c < CC_NUM
  {
    ncoIdx < p.maxUseableCcids && NcoFree(d, instLen, ncoIdx)
    && MoveFitsAsWritten(d, s, snapLen, instLen, ArchOf(p), c, ncoIdx)
  }

  /** The same verdict with the ARCH5 move rule as it is meant. */
  predicate UpdateCheckedCorrected(d: seq<DUCDDCCfg>, s: seq<int>, snapLen: nat, instLen: nat, p: ModelParams,
                                   c: nat, ncoIdx: nat)
    requires |d| == CC_NUM && IsSeq(s) && snapLen <= CC_NUM && instLen <= CC_NUM && c < CC_NUM
  {
    ncoIdx < p.maxUseableCcids && NcoFree(d, instLen, ncoIdx)
    && MoveFits(d, s, snapLen, instLen, ArchOf(p), c, ncoIdx)
  }

  /** AddCCIDAndTranslateSeq's verdict: the bitmap fits in the snapshot's
      length, its ones count (up to the instance's length) is 0 or a power
      of two, and every slot it selects is free. */
  predicate SeqAccepts(s: seq<int>, snapLen: nat, instLen: nat, bitmap: nat)
    requires IsSeq(s) && snapLen <= CC_NUM
  {
    FitsIn(bitmap, snapLen) && IsPowerOfTwoCount(Ones(bitmap, instLen)) && SlotsFree(s, snapLen, bitmap)
  }

  /** A carrier accepted by all three stages of AddCCtoCCCfg leaves a
      snapshot that keeps both invariants: every block within its share,
      and disabled carriers without slots (an empty bitmap is given rate 0
      and no slot). */
  lemma AcceptedAddKeepsInvariant(d: seq<DUCDDCCfg>, s: seq<int>, snapLen: nat, instLen: nat, p: ModelParams,
                                  c: nat, bitmap: nat, ncoIdx: nat, ccGain: nat)
    requires |d| == CC_NUM && IsSeq(s) && snapLen <= CC_NUM && instLen <= CC_NUM && c < CC_NUM
    requires p.mixerCps > 0
    requires Within(d, s, snapLen, instLen, ArchOf(p)) && Coherent(d, s, snapLen)
    requires AddChecked(d, s, snapLen, instLen, p, c, bitmap, ncoIdx)
    requires SeqAccepts(s, snapLen, instLen, bitmap)
    requires RateFound(bitmap, instLen, p.antennaInterleave, p.mixerCps)
    ensures var rate := FoundRate(bitmap, instLen, p.antennaInterleave, p.mixerCps);
            var d' := WithCarrier(d, c, ncoIdx, rate, ccGain);
            var s' := Placed(s, snapLen, bitmap, c);
            Within(d', s', snapLen, instLen, ArchOf(p)) && Coherent(d', s', snapLen)
  {
    var rate := FoundRate(bitmap, instLen, p.antennaInterleave, p.mixerCps);
    AddKeepsWithin(d, s, snapLen, instLen, ArchOf(p), c, bitmap, ncoIdx, rate, ccGain);
    if rate == CC_CONFIG_DISABLED {
      NoOnesIsZero(bitmap, instLen);
    }
    AddKeepsCoherent(d, s, snapLen, c, bitmap, ncoIdx, rate, ccGain);
  }

  /** An update accepted by the corrected update check keeps both
      invariants. */
  lemma AcceptedUpdateKeepsInvariant(d: seq<DUCDDCCfg>, s: seq<int>, snapLen: nat, instLen: nat, p: ModelParams,
                                     c: nat, ncoIdx: nat, ccGain: nat)
    requires |d| == CC_NUM && IsSeq(s) && snapLen <= CC_NUM && instLen <= CC_NUM && c < CC_NUM
    requires Within(d, s, snapLen, instLen, ArchOf(p)) && Coherent(d, s, snapLen)
    requires UpdateCheckedCorrected(d, s, snapLen, instLen, p, c, ncoIdx)
    ensures Within(Moved(d, c, ncoIdx, ccGain), s, snapLen, instLen, ArchOf(p))
    ensures Coherent(Moved(d, c, ncoIdx, ccGain), s, snapLen)
  {
    MoveKeepsWithin(d, s, snapLen, instLen, ArchOf(p), c, ncoIdx, ccGain);
    var d' := Moved(d, c, ncoIdx, ccGain);
    forall j | 0 <= j < CC_NUM && d'[j].rate == CC_CONFIG_DISABLED
      ensures Absent(s, snapLen, j)
    {
      assert d[j].rate == CC_CONFIG_DISABLED;
    }
  }

  /** Outside ARCH5 the update check as written is the corrected one, so
      an update UpdateCCinCCCfg accepts on an ARCH4 or unchecked core keeps
      both invariants (on ARCH5 it need not: Arch5MoveAsWrittenBreaksWithin). */
  lemma AsWrittenUpdateKeepsInvariant(d: seq<DUCDDCCfg>, s: seq<int>, snapLen: nat, instLen: nat, p: ModelParams,
                                      c: nat, ncoIdx: nat, ccGain: nat)
    requires |d| == CC_NUM && IsSeq(s) && snapLen <= CC_NUM && instLen <= CC_NUM && c < CC_NUM
    requires ArchOf(p) != Arch5
    requires Within(d, s, snapLen, instLen, ArchOf(p)) && Coherent(d, s, snapLen)
    requires UpdateChecked(d, s, snapLen, instLen, p, c, ncoIdx)
    ensures Within(Moved(d, c, ncoIdx, ccGain), s, snapLen, instLen, ArchOf(p))
    ensures Coherent(Moved(d, c, ncoIdx, ccGain), s, snapLen)
  {
    assert UpdateCheckedCorrected(d, s, snapLen, instLen, p, c, ncoIdx);
    AcceptedUpdateKeepsInvariant(d, s, snapLen, instLen, p, c, ncoIdx, ccGain);
  }

  /** The NCO scan counts the carrier being updated: re-applying an enabled
      carrier's own NCO (to change only its gain, say) is refused when its
      ID is below the sequence length. */
  lemma NcoFreeRefusesOwnNco(d: seq<DUCDDCCfg>, n: nat, c: nat)
    requires |d| == CC_NUM && n <= CC_NUM && c < n
    requires d[c].rate != CC_CONFIG_DISABLED
    ensures !NcoFree(d, n, d[c].ncoIdx)
  {
    assert d[c].ncoIdx == d[c].ncoIdx && d[c].rate != CC_CONFIG_DISABLED;
  }

  /** The NCO scan stops at the sequence length: with length 4, carrier 5
      enabled on NCO 2 does not keep NCO 2 from being given to another
      carrier. */
  lemma NcoFreeSkipsHighIds()
    ensures var d := seq(CC_NUM, j requires 0 <= j < CC_NUM => if j == 5 then DUCDDCCfg(2, RATE_1X, 0) else ZeroDUCDDC);
            d[5].rate != CC_CONFIG_DISABLED && d[5].ncoIdx == 2 && NcoFree(d, 4, 2)
  {
  }

  // ---------------------------------------------------------------------
  // Worked cases
  // ---------------------------------------------------------------------

  /** A sequence of n slots for carrier 0 followed by free slots. */
  function FirstSlots(n: nat): (r: seq<int>)
    requires n <= CC_NUM
    ensures IsSeq(r)
  {
    seq(CC_NUM, i requires 0 <= i < CC_NUM => if i < n then 0 else SEQUENCE_ENTRY_NULL)
  }

  /** Every slot of carrier 0 is counted, every other carrier has none. */
  lemma {:induction false} CountFirstSlots(n: nat, m: nat, c: int)
    requires n <= CC_NUM && m <= CC_NUM && c != SEQUENCE_ENTRY_NULL
    ensures Count(FirstSlots(n), m, c) == if c == 0 then (if m < n then m else n) else 0
  {
    if m > 0 {
      CountFirstSlots(n, m - 1, c);
    }
  }

  /** A snapshot whose only enabled carrier, 0, uses NCO 0 and holds the
      first n slots. */
  function OneCarrier(): (r: seq<DUCDDCCfg>)
    ensures |r| == CC_NUM
  {
    seq(CC_NUM, i requires 0 <= i < CC_NUM => if i == 0 then DUCDDCCfg(0, RATE_1X, 0) else ZeroDUCDDC)
  }

  /** When only carriers 0 and 1 can be enabled, a block's usage is what
      those two add to it. */
  lemma {:induction false} UsageFirstTwo(d: seq<DUCDDCCfg>, s: seq<int>, snapLen: nat, instLen: nat,
                                         arch: Arch, k: nat, n: nat)
    requires |d| == CC_NUM && IsSeq(s) && snapLen <= CC_NUM && 2 <= n <= CC_NUM
    requires forall j :: 2 <= j < CC_NUM ==> d[j].rate == CC_CONFIG_DISABLED
    ensures UsageUpTo(d, s, snapLen, instLen, arch, k, n)
         == Share(d, s, snapLen, instLen, arch, k, 0) + Share(d, s, snapLen, instLen, arch, k, 1)
  {
    if n > 2 {
      UsageFirstTwo(d, s, snapLen, instLen, arch, k, n - 1);
    } else {
      assert UsageUpTo(d, s, snapLen, instLen, arch, k, 1) == Share(d, s, snapLen, instLen, arch, k, 0);
    }
  }

  lemma UsageOneCarrier(n: nat, arch: Arch)
    requires n <= CC_NUM
    ensures Usage(OneCarrier(), FirstSlots(n), CC_NUM, CC_NUM, arch, 0) == n
  {
    var d := OneCarrier();
    var s := FirstSlots(n);
    OnesOfBitmap(s, CC_NUM, 0, CC_NUM);
    CountFirstSlots(n, CC_NUM, 0);
    UsageFirstTwo(d, s, CC_NUM, CC_NUM, arch, 0, CC_NUM);
  }

  /** ARCH4 with sequence length 16: a half already using 7 slots takes one
      more (8 of 16), a half using 8 refuses the ninth. */
  lemma Arch4AddThreshold()
    ensures AddFits(OneCarrier(), FirstSlots(7), CC_NUM, CC_NUM, Arch4, 1, 0)
    ensures !AddFits(OneCarrier(), FirstSlots(8), CC_NUM, CC_NUM, Arch4, 1, 0)
  {
    UsageOneCarrier(7, Arch4);
    UsageOneCarrier(8, Arch4);
    OnesOfOne();
  }

  /** ARCH5 with sequence length 16: the fourth slot of a block passes, the
      fifth fails. */
  lemma Arch5AddThreshold()
    ensures AddFits(OneCarrier(), FirstSlots(3), CC_NUM, CC_NUM, Arch5, 1, 0)
    ensures !AddFits(OneCarrier(), FirstSlots(4), CC_NUM, CC_NUM, Arch5, 1, 0)
  {
    UsageOneCarrier(3, Arch5);
    UsageOneCarrier(4, Arch5);
    OnesOfOne();
  }

  lemma {:induction false} OnesOfOneUpTo(n: nat)
    requires n >= 1
    ensures Ones(1, n) == 1
  {
    if n > 1 {
      OnesOfOneUpTo(n - 1);
      NoBitAbove(1, 1, n - 1);
    }
  }

  lemma OnesOfOne()
    ensures Ones(1, CC_NUM) == 1
  {
    OnesOfOneUpTo(CC_NUM);
  }

  /** Rate detection with sequence length 16, interleave 1 and one clock per
      sample: four slots give ratio 4 and so RATE_4X; three slots are not a
      power of two. */
  lemma FindRateExamples()
    ensures RateFound(0xF, CC_NUM, 1, 1) && FoundRate(0xF, CC_NUM, 1, 1) == RATE_4X
    ensures !RateFound(0x7, CC_NUM, 1, 1)
  {
    OnesLowRun(4, CC_NUM);
    OnesLowRun(3, CC_NUM);
    assert Pow2(4) == 16 && Pow2(3) == 8;
  }

  /** Ones of 2^k - 1 up to n >= k is k. */
  lemma {:induction false} OnesLowRun(k: nat, n: nat)
    requires k <= n
    ensures Ones(Pow2(k) - 1, n) == k
  {
    OnesBeyondFit(Pow2(k) - 1, k, n);
    OnesLowRunExact(k);
  }

  lemma {:induction false} OnesLowRunExact(k: nat)
    ensures Ones(Pow2(k) - 1, k) == k
  {
    if k > 0 {
      var b := Pow2(k) - 1;
      var b' := Pow2(k - 1) - 1;
      assert b == b' + Pow2(k - 1);
      OnesLowRunExact(k - 1);
      OnesShiftTop(b', k - 1, k - 1);
      BitOfAddTop(b', k - 1, k - 1);
    }
  }

  /** Adding the top bit does not change the count below it. */
  lemma {:induction false} OnesShiftTop(x: nat, k: nat, m: nat)
    requires x < Pow2(k) && m <= k
    ensures Ones(x + Pow2(k), m) == Ones(x, m)
  {
    if m > 0 {
      OnesShiftTop(x, k, m - 1);
      BitOfAddTop(x, k, m - 1);
    }
  }

  // ---------------------------------------------------------------------
  // The ARCH5 move check as written
  // ---------------------------------------------------------------------

  /** A move to a higher ARCH5 block, or within one block, is checked
      against block 3. */
  lemma Arch5MoveAsWrittenChecksBlock3()
    ensures Arch5MoveBlockAsWritten(5, 0) == Some(3)
    ensures Arch5MoveBlock(5, 0) == Some(1)
    ensures Arch5MoveBlockAsWritten(13, 12) == Some(3)
    ensures Arch5MoveBlock(13, 12) == None
  {
  }

  /** Sequence length 4; carrier 0 on NCO 0 holds slot 0, carrier 1 on NCO 4
      holds slot 1: one slot per ARCH5 block, the most a quarter of 4 allows. */
  function TwoCarriers(): (r: seq<DUCDDCCfg>)
    ensures |r| == CC_NUM
  {
    seq(CC_NUM, i requires 0 <= i < CC_NUM =>
      if i == 0 then DUCDDCCfg(0, RATE_1X, 0)
      else if i == 1 then DUCDDCCfg(4, RATE_1X, 0)
      else ZeroDUCDDC)
  }

  function TwoSlots(): (r: seq<int>)
    ensures IsSeq(r)
  {
    [0, 1] + seq(14, i => SEQUENCE_ENTRY_NULL)
  }

  /** The slot counts of the two carriers at sequence length 4. */
  lemma TwoSlotsOnes()
    ensures CarrierOnes(TwoSlots(), 4, 4, 0) == 1
    ensures CarrierOnes(TwoSlots(), 4, 4, 1) == 1
  {
    var s := TwoSlots();
    assert BitmapOf(s, 4, 0) == 1 by {
      assert BitmapOf(s, 1, 0) == 1;
    }
    assert BitmapOf(s, 4, 1) == 2 by {
      assert BitmapOf(s, 2, 1) == 2;
    }
    OnesOfOneUpTo(4);
    assert Ones(2, 4) == 1 by {
      assert Ones(2, 2) == 1;
      NoBitAbove(2, 2, 2);
      NoBitAbove(2, 2, 3);
    }
  }

  /** Block usage before and after moving carrier 0 to NCO 5. */
  lemma TwoCarriersUsage(k: nat)
    requires k < 4
    ensures Usage(TwoCarriers(), TwoSlots(), 4, 4, Arch5, k) == (if k <= 1 then 1 else 0)
  {
    TwoSlotsOnes();
    UsageFirstTwo(TwoCarriers(), TwoSlots(), 4, 4, Arch5, k, CC_NUM);
  }

  /** After carrier 0 moves to NCO 5 both carriers sit in block 1. */
  lemma MovedCarriersUsage(k: nat)
    requires k < 4
    ensures Usage(Moved(TwoCarriers(), 0, 5, 0), TwoSlots(), 4, 4, Arch5, k) == (if k == 1 then 2 else 0)
  {
    TwoSlotsOnes();
    UsageFirstTwo(Moved(TwoCarriers(), 0, 5, 0), TwoSlots(), 4, 4, Arch5, k, CC_NUM);
  }

  /** The two carriers, one slot each in blocks 0 and 1, respect the
      capacity invariant. */
  lemma TwoCarriersWithin()
    ensures Within(TwoCarriers(), TwoSlots(), 4, 4, Arch5)
  {
    TwoCarriersUsage(0);
    TwoCarriersUsage(1);
    TwoCarriersUsage(2);
    TwoCarriersUsage(3);
  }

  /** The finding: the as-written check accepts moving carrier 0 from NCO 0
      to NCO 5 (it looks at block 3, which is empty), where the corrected
      check refuses it (block 1 is full) ... */
  lemma Arch5MoveAsWrittenAccepts()
    ensures Within(TwoCarriers(), TwoSlots(), 4, 4, Arch5)
    ensures MoveFitsAsWritten(TwoCarriers(), TwoSlots(), 4, 4, Arch5, 0, 5)
    ensures !MoveFits(TwoCarriers(), TwoSlots(), 4, 4, Arch5, 0, 5)
  {
    TwoCarriersWithin();
    assert TwoCarriers()[0].ncoIdx == 0;
    TwoSlotsOnes();
    assert MoveFitsAsWritten(TwoCarriers(), TwoSlots(), 4, 4, Arch5, 0, 5) by {
      assert Arch5MoveBlockAsWritten(5, 0) == Some(3);
      TwoCarriersUsage(3);
    }
    assert MoveBlock(Arch5, 5, 0) == Some(1);
    TwoCarriersUsage(1);
  }

  /** ... and after the move block 1 holds two of the four slots, twice its
      share. */
  lemma Arch5MoveAsWrittenBreaksWithin()
    ensures !Within(Moved(TwoCarriers(), 0, 5, 0), TwoSlots(), 4, 4, Arch5)
  {
    MovedCarriersUsage(1);
  }

  /** The as-written check also refuses a move inside block 3 that changes no
      usage: a carrier on NCO 12 holding one slot of four cannot move to
      NCO 13, because its own slot is counted twice. */
  lemma Arch5MoveAsWrittenRefusesSameBlock()
    ensures Within(Moved(TwoCarriers(), 0, 12, 0), TwoSlots(), 4, 4, Arch5)
    ensures !MoveFitsAsWritten(Moved(TwoCarriers(), 0, 12, 0), TwoSlots(), 4, 4, Arch5, 0, 13)
    ensures MoveFits(Moved(TwoCarriers(), 0, 12, 0), TwoSlots(), 4, 4, Arch5, 0, 13)
  {
    var d := Moved(TwoCarriers(), 0, 12, 0);
    var s := TwoSlots();
    TwoSlotsOnes();
    forall k: nat | k < 4
      ensures Usage(d, s, 4, 4, Arch5, k) == (if k == 1 || k == 3 then 1 else 0)
    {
      UsageFirstTwo(d, s, 4, 4, Arch5, k, CC_NUM);
    }
  }
}
