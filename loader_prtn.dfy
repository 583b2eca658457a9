/**
 * The bookkeeping half of the PLM partition loader (xloader_prtn_load.c):
 * the table of CPUs to hand off to after loading, the translation of R5
 * TCM-relative load addresses, the 16-byte rounding of a partition's
 * unencrypted length, and the chunked copy of a delay-loaded partition.
 *
 * Header constants follow xilpdi.h and xloader.h, which are not part of
 * this model. u32 quantities are naturals below U32_LIMIT; u64 addresses
 * are unbounded naturals.
 */
module LoaderPrtn {
  import opened MixBits

  /** The destination-CPU field of the partition attributes and its values. */
  const DSTN_CPU_SHIFT: nat := 0x100
  const DSTN_CPU_MASK: nat := 0xF00
  const DSTN_CPU_NONE: nat := 0x0
  const DSTN_CPU_A72_0: nat := 0x100
  const DSTN_CPU_A72_1: nat := 0x200
  const DSTN_CPU_R5_0: nat := 0x500
  const DSTN_CPU_R5_1: nat := 0x600
  const DSTN_CPU_R5_L: nat := 0x700
  const DSTN_CPU_PSM: nat := 0x800
  /** The A72 execution-state bit and the high-vector bit of the attributes. */
  const A72_EXEC_ST_MASK: nat := 0x8
  const HIVEC_MASK: nat := 0x800000

  const MAX_HANDOFF_CPUS: nat := 10

  /** R5 tightly coupled memory: bank A at 0, bank B at 0x20000, each 64 KiB,
      seen by the PMC at the cores' global TCM bases. */
  const R5_TCMA_LOAD_ADDRESS: nat := 0x0
  const R5_TCMB_LOAD_ADDRESS: nat := 0x20000
  const R5_TCM_BANK_LENGTH: nat := 0x10000
  const R5_0_TCMA_BASE_ADDR: nat := 0xFFE00000
  const R5_1_TCMA_BASE_ADDR: nat := 0xFFE90000

  const PRTN_WORD_LEN: nat := 4
  const DMA_LEN_ALIGN: nat := 0x10
  const CHUNK_SIZE: nat := 0x10000

  /** XST_SUCCESS, XST_FAILURE and the loader's error codes used here. */
  datatype LoaderStatus = Success | Failure | ErrNumHandoffCpus | ErrTcmAddrOutOfRange | ErrDelayLoad

  /** The partition header fields this part of the loader reads. */
  datatype PrtnHdr = PrtnHdr(prtnAttrb: nat, dstnExecutionAddr: nat)

  /** One handoff table entry. */
  datatype HandoffParam = HandoffParam(cpuSettings: nat, handoffAddr: nat)

  /** Where the boot image is read from (PdiSrc). */
  datatype PdiSrc = Jtag | Sbi | Smap | Pcie | Ddr | Ospi | Qspi24 | Qspi32 | OtherSrc

  // ---------------------------------------------------------------------
  // Attribute fields
  // ---------------------------------------------------------------------

  /** word & DSTN_CPU_MASK: bits 8 to 11 kept in place. */
  function DstnField(word: nat): (r: nat)
    ensures r % DSTN_CPU_SHIFT == 0 && r <= DSTN_CPU_MASK
  {
    (word / DSTN_CPU_SHIFT % 16) * DSTN_CPU_SHIFT
  }

  /** XilPdi_GetDstnCpu, XilPdi_GetA72ExecState and XilPdi_GetVecLocation. */
  function GetDstnCpu(h: PrtnHdr): nat
  {
    DstnField(h.prtnAttrb)
  }

  function GetA72ExecState(h: PrtnHdr): nat
  {
    (h.prtnAttrb / A72_EXEC_ST_MASK % 2) * A72_EXEC_ST_MASK
  }

  function GetVecLocation(h: PrtnHdr): nat
  {
    (h.prtnAttrb / HIVEC_MASK % 2) * HIVEC_MASK
  }

  /** The settings word stored for a CPU: the three fields ORed together;
      they share no bit, so the OR is their sum. */
  function CpuSettings(h: PrtnHdr): nat
  {
    GetDstnCpu(h) + GetA72ExecState(h) + GetVecLocation(h)
  }

  /** The destination CPU read back from a stored settings word is the one
      that was stored. */
  lemma DstnOfCpuSettings(h: PrtnHdr)
    ensures DstnField(CpuSettings(h)) == GetDstnCpu(h)
  {
    var d := h.prtnAttrb / DSTN_CPU_SHIFT % 16;
    var e := h.prtnAttrb / A72_EXEC_ST_MASK % 2;
    var v := h.prtnAttrb / HIVEC_MASK % 2;
    var w := CpuSettings(h);
    assert w == d * 256 + e * 8 + v * 0x800000;
    assert w / 256 == d + v * 0x8000 by {
      assert w == (d + v * 0x8000) * 256 + e * 8;
      assert e * 8 < 256;
    }
    assert (d + v * 0x8000) % 16 == d;
  }

  /** The CPUs a partition can be handed off to: above NONE, up to PSM. */
  predicate IsHandoffCpu(dstnCpu: nat)
  {
    DSTN_CPU_NONE < dstnCpu <= DSTN_CPU_PSM
  }

  function EntryCpu(e: HandoffParam): nat
  {
    DstnField(e.cpuSettings)
  }

  /** Some entry of the table is for CPU dstnCpu. */
  predicate Present(t: seq<HandoffParam>, dstnCpu: nat)
  {
    exists i :: 0 <= i < |t| && EntryCpu(t[i]) == dstnCpu
  }

  /** The table invariant: every entry names a handoff CPU, and no CPU has
      two entries. */
  predicate TableOk(t: seq<HandoffParam>)
  {
    && (forall i :: 0 <= i < |t| ==> IsHandoffCpu(EntryCpu(t[i])))
    && (forall i, j :: 0 <= i < j < |t| ==> EntryCpu(t[i]) != EntryCpu(t[j]))
  }

  /** The entry XLoader_UpdateHandoffParam writes for a partition. */
  function NewEntry(h: PrtnHdr): (e: HandoffParam)
    ensures EntryCpu(e) == GetDstnCpu(h)
  {
    DstnOfCpuSettings(h);
    HandoffParam(CpuSettings(h), h.dstnExecutionAddr)
  }

  /** The table XLoader_UpdateHandoffParam leaves, as a value: unchanged for
      a partition with no handoff CPU, for a CPU already listed and for a
      full table; otherwise extended by the partition's entry. */
  function Updated(t: seq<HandoffParam>, h: PrtnHdr): seq<HandoffParam>
  {
    if IsHandoffCpu(GetDstnCpu(h)) && !Present(t, GetDstnCpu(h)) && |t| < MAX_HANDOFF_CPUS
    then t + [NewEntry(h)] else t
  }

  /** Updating preserves the table invariant and the bound. */
  lemma UpdatedKeepsTableOk(t: seq<HandoffParam>, h: PrtnHdr)
    requires TableOk(t) && |t| <= MAX_HANDOFF_CPUS
    ensures TableOk(Updated(t, h)) && |Updated(t, h)| <= MAX_HANDOFF_CPUS
  {
    var t' := Updated(t, h);
    if t' != t {
      var d := GetDstnCpu(h);
      forall i, j | 0 <= i < j < |t'|
        ensures EntryCpu(t'[i]) != EntryCpu(t'[j])
      {
        if j == |t| {
          assert t'[i] == t[i];
          assert EntryCpu(t'[j]) == d;
          assert !Present(t, d);
          assert EntryCpu(t[i]) != d;
        }
      }
    }
  }

  /** Updating twice with the same partition is updating once. */
  lemma {:induction false} UpdatedIdempotent(t: seq<HandoffParam>, h: PrtnHdr)
    ensures Updated(Updated(t, h), h) == Updated(t, h)
  {
    var d := GetDstnCpu(h);
    var t' := Updated(t, h);
    if t' != t {
      assert EntryCpu(t'[|t|]) == d;
      assert Present(t', d);
    }
  }

  /** After an update the partition's CPU is listed, exactly when it is a
      handoff CPU and it was listed already or there was room. */
  lemma UpdatedLists(t: seq<HandoffParam>, h: PrtnHdr)
    ensures Present(Updated(t, h), GetDstnCpu(h))
            <==> Present(t, GetDstnCpu(h)) || (IsHandoffCpu(GetDstnCpu(h)) && |t| < MAX_HANDOFF_CPUS)
  {
    var d := GetDstnCpu(h);
    var t' := Updated(t, h);
    if t' != t {
      assert EntryCpu(t'[|t|]) == d;
    }
  }

  /** XilPdi as far as the handoff table goes. */
  class Pdi {
    /** HandoffParam[]: the first noOfHandoffCpus entries are in use. */
    const handoffParam: array<HandoffParam>
    var noOfHandoffCpus: nat
    /** MetaHdr.PrtnHdr[] and the partition being processed. */
    const prtnHdr: array<PrtnHdr>
    var prtnNum: nat

    ghost predicate Valid()
      reads this, handoffParam
    {
      handoffParam.Length == MAX_HANDOFF_CPUS && noOfHandoffCpus <= MAX_HANDOFF_CPUS
      && TableOk(handoffParam[..noOfHandoffCpus])
    }

    ghost function Entries(): seq<HandoffParam>
      requires noOfHandoffCpus <= handoffParam.Length
      reads this, handoffParam
    {
      handoffParam[..noOfHandoffCpus]
    }

    /** A PDI with the given partition headers and an empty handoff table. */
    constructor(hdrs: seq<PrtnHdr>)
      ensures Valid() && Entries() == [] && prtnHdr[..] == hdrs && prtnNum == 0
    {
      handoffParam := new HandoffParam[MAX_HANDOFF_CPUS](i => HandoffParam(0, 0));
      noOfHandoffCpus := 0;
      prtnHdr := new PrtnHdr[|hdrs|](i requires 0 <= i < |hdrs| => hdrs[i]);
      prtnNum := 0;
    }

    /** XLoader_CheckHandoffCpu: succeeds exactly when no entry in use is for
        dstnCpu. */
    method CheckHandoffCpu(dstnCpu: nat) returns (st: LoaderStatus)
      requires noOfHandoffCpus <= handoffParam.Length
      ensures st == Success <==> !Present(Entries(), dstnCpu)
      ensures st == Success || st == Failure
    {
      var index := 0;
      while index < noOfHandoffCpus
        invariant 0 <= index <= noOfHandoffCpus
        invariant forall i :: 0 <= i < index ==> EntryCpu(Entries()[i]) != dstnCpu
      {
        var cpuId := DstnField(handoffParam[index].cpuSettings);
        if cpuId == dstnCpu {
          assert EntryCpu(Entries()[index]) == dstnCpu;
          return Failure;
        }
        index := index + 1;
      }
      st := Success;
    }

    /** XLoader_UpdateHandoffParam: record the current partition's CPU and
        execution address, unless it has no handoff CPU or the CPU is
        listed already; a new CPU when all entries are in use is refused
        and nothing changes. */
    method UpdateHandoffParam() returns (st: LoaderStatus)
      requires Valid() && prtnNum < prtnHdr.Length
      modifies handoffParam, `noOfHandoffCpus
      ensures Valid()
      ensures Entries() == Updated(old(Entries()), prtnHdr[prtnNum])
      ensures var d := GetDstnCpu(prtnHdr[prtnNum]);
              st == (if IsHandoffCpu(d) && !Present(old(Entries()), d) && old(noOfHandoffCpus) == MAX_HANDOFF_CPUS
                     then ErrNumHandoffCpus else Success)
      ensures st == Success && noOfHandoffCpus != old(noOfHandoffCpus) ==>
                noOfHandoffCpus == old(noOfHandoffCpus) + 1
                && handoffParam[..] == old(handoffParam[..])[old(noOfHandoffCpus) := NewEntry(prtnHdr[prtnNum])]
      ensures noOfHandoffCpus == old(noOfHandoffCpus) ==> handoffParam[..] == old(handoffParam[..])
    {
      var h := prtnHdr[prtnNum];
      var dstnCpu := GetDstnCpu(h);
      UpdatedKeepsTableOk(Entries(), h);
      if DSTN_CPU_NONE < dstnCpu && dstnCpu <= DSTN_CPU_PSM {
        var cpuNo := noOfHandoffCpus;
        var found := CheckHandoffCpu(dstnCpu);
        if found == Success {
          if cpuNo == MAX_HANDOFF_CPUS {
            return ErrNumHandoffCpus;
          }
          handoffParam[cpuNo] := NewEntry(h);
          noOfHandoffCpus := noOfHandoffCpus + 1;
          assert Entries() == old(Entries()) + [NewEntry(h)];
        }
      }
      st := Success;
    }
  }

  // ---------------------------------------------------------------------
  // R5 TCM load addresses
  // ---------------------------------------------------------------------

  /** A load address the loader reads as relative to the destination R5's
      TCM: for a single core one of the two banks, for the lock-step pair
      the four banks seen as one. */
  predicate TcmRelative(dstnCpu: nat, address: nat)
  {
    if dstnCpu == DSTN_CPU_R5_0 || dstnCpu == DSTN_CPU_R5_1 then
      address < R5_TCMA_LOAD_ADDRESS + R5_TCM_BANK_LENGTH
      || (R5_TCMB_LOAD_ADDRESS <= address < R5_TCMB_LOAD_ADDRESS + R5_TCM_BANK_LENGTH)
    else dstnCpu == DSTN_CPU_R5_L && address < R5_TCM_BANK_LENGTH * 4
  }

  /** The longest partition that fits the TCM it targets. */
  function TcmLimit(dstnCpu: nat): nat
  {
    if dstnCpu == DSTN_CPU_R5_L then R5_TCM_BANK_LENGTH * 4 else R5_TCM_BANK_LENGTH
  }

  /** The global base of the destination core's TCM (core 0's for lock-step). */
  function TcmBase(dstnCpu: nat): nat
  {
    if dstnCpu == DSTN_CPU_R5_1 then R5_1_TCMA_BASE_ADDR else R5_0_TCMA_BASE_ADDR
  }

  /** XLoader_GetLoadAddr: translate a TCM-relative load address to the
      core's global TCM address, refusing a partition longer than that TCM;
      any other address passes unchanged, and on failure the address is
      left as it was. */
  method GetLoadAddr(dstnCpu: nat, loadAddr: nat, len: nat) returns (st: LoaderStatus, addr: nat)
    ensures st == Success || st == ErrTcmAddrOutOfRange
    ensures st == ErrTcmAddrOutOfRange <==> TcmRelative(dstnCpu, loadAddr) && len > TcmLimit(dstnCpu)
    ensures st == ErrTcmAddrOutOfRange ==> addr == loadAddr
    ensures st == Success ==> addr == loadAddr + (if TcmRelative(dstnCpu, loadAddr) then TcmBase(dstnCpu) else 0)
  {
    var address := loadAddr;
    addr := loadAddr;
    if dstnCpu == DSTN_CPU_R5_0
       && (address < R5_TCMA_LOAD_ADDRESS + R5_TCM_BANK_LENGTH
           || (address >= R5_TCMB_LOAD_ADDRESS && address < R5_TCMB_LOAD_ADDRESS + R5_TCM_BANK_LENGTH)) {
      if len > R5_TCM_BANK_LENGTH {
        return ErrTcmAddrOutOfRange, addr;
      }
      address := address + R5_0_TCMA_BASE_ADDR;
    } else if dstnCpu == DSTN_CPU_R5_1
       && (address < R5_TCMA_LOAD_ADDRESS + R5_TCM_BANK_LENGTH
           || (address >= R5_TCMB_LOAD_ADDRESS && address < R5_TCMB_LOAD_ADDRESS + R5_TCM_BANK_LENGTH)) {
      if len > R5_TCM_BANK_LENGTH {
        return ErrTcmAddrOutOfRange, addr;
      }
      address := address + R5_1_TCMA_BASE_ADDR;
    } else if dstnCpu == DSTN_CPU_R5_L && address < R5_TCM_BANK_LENGTH * 4 {
      if len > R5_TCM_BANK_LENGTH * 4 {
        return ErrTcmAddrOutOfRange, addr;
      }
      address := address + R5_0_TCMA_BASE_ADDR;
    }
    addr := address;
    st := Success;
  }

  /** The global TCM window of an R5 destination: from its base, three
      banks' span for one core (TCM-A, a gap, TCM-B), four banks for the
      lock-step pair. */
  predicate InGlobalTcm(dstnCpu: nat, addr: nat)
  {
    var banks := if dstnCpu == DSTN_CPU_R5_L then 4 else 3;
    TcmBase(dstnCpu) <= addr < TcmBase(dstnCpu) + banks * R5_TCM_BANK_LENGTH
  }

  /** A translated address lands in the destination core's TCM window. */
  lemma TranslatedInTcm(dstnCpu: nat, loadAddr: nat)
    requires TcmRelative(dstnCpu, loadAddr)
    ensures InGlobalTcm(dstnCpu, loadAddr + TcmBase(dstnCpu))
  {
  }

  /** The core-0 and core-1 windows do not overlap, so a translated address
      tells which core it belongs to. */
  lemma TcmWindowsDisjoint(addr: nat)
    ensures !(InGlobalTcm(DSTN_CPU_R5_0, addr) && InGlobalTcm(DSTN_CPU_R5_1, addr))
  {
  }

  // ---------------------------------------------------------------------
  // Partition lengths
  // ---------------------------------------------------------------------

  /** Word count times XIH_PRTN_WORD_LEN, as a u32: the product itself
      when it fits, and always a whole number of words, since 2^32 is a
      multiple of the word length. */
  function ByteLen(wordLen: nat): (r: nat)
    ensures IsU32(r)
    ensures wordLen * PRTN_WORD_LEN < U32_LIMIT ==> r == wordLen * PRTN_WORD_LEN
    ensures r % PRTN_WORD_LEN == 0
  {
    (wordLen * PRTN_WORD_LEN) % U32_LIMIT
  }

  /** The unencrypted length XLoader_ProcessPrtn hands on: the byte length
      raised to a multiple of DMA_LEN_ALIGN, in u32 arithmetic. */
  function AlignedLen(unEncDataWordLen: nat): nat
  {
    var len := ByteLen(unEncDataWordLen);
    var tempVal := len % DMA_LEN_ALIGN;
    if tempVal != 0 then (len + (DMA_LEN_ALIGN - tempVal)) % U32_LIMIT else len
  }

  /** Without u32 overflow the aligned length is the least multiple of 16
      not below the byte length. */
  lemma AlignedLenIsLeastMultiple(unEncDataWordLen: nat)
    requires unEncDataWordLen * PRTN_WORD_LEN + DMA_LEN_ALIGN <= U32_LIMIT
    ensures var r := AlignedLen(unEncDataWordLen);
            var bytes := unEncDataWordLen * PRTN_WORD_LEN;
            r % DMA_LEN_ALIGN == 0 && bytes <= r < bytes + DMA_LEN_ALIGN
  {
    var bytes := unEncDataWordLen * PRTN_WORD_LEN;
    assert ByteLen(unEncDataWordLen) == bytes;
  }

  /** Every multiple of 16 not below the byte length is at least the
      aligned length, so no smaller one exists. */
  lemma AlignedLenIsLeast(unEncDataWordLen: nat, m: nat)
    requires unEncDataWordLen * PRTN_WORD_LEN + DMA_LEN_ALIGN <= U32_LIMIT
    requires m % DMA_LEN_ALIGN == 0 && m >= unEncDataWordLen * PRTN_WORD_LEN
    ensures m >= AlignedLen(unEncDataWordLen)
  {
    AlignedLenIsLeastMultiple(unEncDataWordLen);
    var bytes := unEncDataWordLen * PRTN_WORD_LEN;
    var r := AlignedLen(unEncDataWordLen);
    assert r == (bytes + DMA_LEN_ALIGN - 1) / DMA_LEN_ALIGN * DMA_LEN_ALIGN;
    assert m == m / DMA_LEN_ALIGN * DMA_LEN_ALIGN;
    assert m / DMA_LEN_ALIGN >= (bytes + DMA_LEN_ALIGN - 1) / DMA_LEN_ALIGN;
  }

  /** Within 16 bytes of 4 GiB the u32 addition wraps: a byte length of
      0xFFFFFFFC rounds to 0. */
  lemma AlignedLenWraps()
    ensures ByteLen(0x3FFFFFFF) == 0xFFFFFFFC && AlignedLen(0x3FFFFFFF) == 0
  {
  }

  // ---------------------------------------------------------------------
  // Delay-load chunking
  // ---------------------------------------------------------------------

  /** One DeviceCopy call: source address and length. */
  datatype Transfer = Transfer(src: nat, len: nat)

  /** The boot sources the delay-load branch reads ahead from. */
  predicate Streams(src: PdiSrc)
  {
    src == Jtag || src == Sbi || src == Smap || src == Pcie
  }

  /** The transfers the delay-load loop makes for len bytes from src when
      every copy succeeds: chunks of CHUNK_SIZE, then the rest. */
  function Plan(src: nat, len: nat): seq<Transfer>
    decreases len
  {
    if len == 0 then []
    else
      var trfLen := if len > CHUNK_SIZE then CHUNK_SIZE else len;
      [Transfer(src, trfLen)] + Plan(src + trfLen, len - trfLen)
  }

  function TotalLen(ts: seq<Transfer>): nat
  {
    if ts == [] then 0 else ts[0].len + TotalLen(ts[1..])
  }

  /** The chunks add up to the partition length. */
  lemma {:induction false} PlanCovers(src: nat, len: nat)
    ensures TotalLen(Plan(src, len)) == len
    decreases len
  {
    if len > 0 {
      var trfLen := if len > CHUNK_SIZE then CHUNK_SIZE else len;
      PlanCovers(src + trfLen, len - trfLen);
      assert Plan(src, len)[1..] == Plan(src + trfLen, len - trfLen);
    }
  }

  /** Every chunk is non-empty and at most CHUNK_SIZE, and only the last
      one may be short. */
  lemma {:induction false} PlanChunks(src: nat, len: nat)
    ensures forall i :: 0 <= i < |Plan(src, len)| ==> 0 < Plan(src, len)[i].len <= CHUNK_SIZE
    ensures forall i :: 0 <= i < |Plan(src, len)| - 1 ==> Plan(src, len)[i].len == CHUNK_SIZE
    decreases len
  {
    if len > 0 {
      var trfLen := if len > CHUNK_SIZE then CHUNK_SIZE else len;
      PlanChunks(src + trfLen, len - trfLen);
    }
  }

  /** The chunks are read back to back from the start address. */
  lemma {:induction false} PlanContiguous(src: nat, len: nat)
    ensures len > 0 ==> Plan(src, len)[0].src == src
    ensures forall i :: 0 <= i < |Plan(src, len)| - 1 ==>
              Plan(src, len)[i + 1].src == Plan(src, len)[i].src + Plan(src, len)[i].len
    decreases len
  {
    if len > 0 {
      var trfLen := if len > CHUNK_SIZE then CHUNK_SIZE else len;
      PlanContiguous(src + trfLen, len - trfLen);
    }
  }

  /** The number of copies is the length divided by CHUNK_SIZE, rounded up. */
  lemma {:induction false} PlanCount(src: nat, len: nat)
    ensures |Plan(src, len)| == (len + CHUNK_SIZE - 1) / CHUNK_SIZE
    decreases len
  {
    if len > 0 {
      var trfLen := if len > CHUNK_SIZE then CHUNK_SIZE else len;
      PlanCount(src + trfLen, len - trfLen);
      if len > CHUNK_SIZE {
        assert (len + CHUNK_SIZE - 1) / CHUNK_SIZE == (len - CHUNK_SIZE + CHUNK_SIZE - 1) / CHUNK_SIZE + 1;
      }
    }
  }

  /** The delay-load branch of XLoader_ProcessPrtn: from a streaming boot
      source, read the partition's totalDataWordLen*4 bytes chunk by chunk
      into the loader's chunk buffer, stopping with ErrDelayLoad at the
      first copy that fails; from any other source do nothing. copy stands
      for DeviceCopy and tells whether the copy of a transfer succeeds. */
  method DelayLoad(pdiSrc: PdiSrc, totalDataWordLen: nat, srcAddr: nat, copy: Transfer -> bool)
    returns (st: LoaderStatus, transfers: seq<Transfer>)
    ensures st == Success || st == ErrDelayLoad
    ensures !Streams(pdiSrc) ==> st == Success && transfers == []
    ensures Streams(pdiSrc) ==>
              |transfers| <= |Plan(srcAddr, ByteLen(totalDataWordLen))|
              && transfers == Plan(srcAddr, ByteLen(totalDataWordLen))[..|transfers|]
    ensures st == Success ==> (forall i :: 0 <= i < |transfers| ==> copy(transfers[i]))
    ensures st == Success && Streams(pdiSrc) ==> transfers == Plan(srcAddr, ByteLen(totalDataWordLen))
    ensures st == ErrDelayLoad ==>
              |transfers| > 0 && !copy(transfers[|transfers| - 1])
              && (forall i :: 0 <= i < |transfers| - 1 ==> copy(transfers[i]))
  {
    transfers := [];
    if !Streams(pdiSrc) {
      return Success, transfers;
    }
    var len: nat := ByteLen(totalDataWordLen);
    ghost var plan := Plan(srcAddr, len);
    var addr: nat := srcAddr;
    while len > 0
      invariant transfers + Plan(addr, len) == plan
      invariant forall i :: 0 <= i < |transfers| ==> copy(transfers[i])
      decreases len
    {
      var trfLen := if len > CHUNK_SIZE then CHUNK_SIZE else len;
      var t := Transfer(addr, trfLen);
      var ok := copy(t);
      assert Plan(addr, len) == [t] + Plan(addr + trfLen, len - trfLen);
      assert (transfers + [t]) + Plan(addr + trfLen, len - trfLen) == plan;
      if !ok {
        transfers := transfers + [t];
        assert transfers == plan[..|transfers|];
        return ErrDelayLoad, transfers;
      }
      transfers := transfers + [t];
      len := len - trfLen;
      addr := addr + trfLen;
    }
    assert transfers == plan;
    st := Success;
  }

  /** A delay load that succeeds copies the whole partition, in chunks of at
      most CHUNK_SIZE. */
  lemma DelayLoadCopiesAll(srcAddr: nat, len: nat, transfers: seq<Transfer>)
    requires transfers == Plan(srcAddr, len)
    ensures TotalLen(transfers) == len
    ensures forall i :: 0 <= i < |transfers| ==> 0 < transfers[i].len <= CHUNK_SIZE
  {
    PlanCovers(srcAddr, len);
    PlanChunks(srcAddr, len);
  }
}
