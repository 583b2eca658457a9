/**
 * The DFE Mixer instance (XDfeMix): its state machine, the configuration
 * it reads at Configure, the sequence length fixed at Initialize, the
 * allocation checks run against a snapshot, and the commit of a snapshot
 * into the NEXT registers followed by the CC update trigger.
 *
 * The IP core's registers are fields of the instance. The NEXT register
 * sets, the control bits and the trigger enables are written by the
 * driver; the CURRENT register sets, the CC-update status bit, the
 * operational bit and the model parameters are owned by the hardware and
 * only read here.
 */
module Mixer {
  import opened MixBits
  import opened MixTypes
  import opened MixSequence
  import opened MixCapacity
  import opened MixSnapshot

  /** One set of carrier registers (NEXT or CURRENT), with every field
      already decoded from its word. */
  datatype RegisterSet = RegisterSet(
    seqLength: nat,               // SEQUENCE_LENGTH: the length minus one, or 0
    sequence: seq<int>,           // SEQUENCE[0..15]
    ccConfig: seq<DUCDDCCfg>,     // CC_CONFIG[0..15]: NCO, rate and gain
    aux: seq<AuxiliaryCfg>,       // AUXILIARY_ENABLE[0..3]
    antennaGain: nat,             // ANTENNA_GAIN: one gain bit per antenna
    nco: seq<NCO>)                // the NCO registers, 16 carrier + 4 auxiliary

  predicate RegsValid(r: RegisterSet)
  {
    |r.sequence| == CC_NUM && |r.ccConfig| == CC_NUM && |r.aux| == AUX_NCO_MAX && |r.nco| == NCO_MAX
  }

  const ZeroRegs := RegisterSet(0, seq(CC_NUM, i => 0), seq(CC_NUM, i => ZeroDUCDDC),
                                seq(AUX_NCO_MAX, i => ZeroAux), 0, seq(NCO_MAX, i => ZeroNCO))

  /** RESET, STATE_FIR_ENABLE, STATE_MIXER_ENABLE and the SWITCHABLE_CONTROL
      fields. */
  datatype Control = Control(resetOn: bool, firEnabled: bool, mixerEnabled: bool,
                             tuserSelect: nat, regBank: RegBank)

  /** The enable bits of the four triggers, and the state-output field of
      the activate trigger (true = enabled, false = disabled). */
  datatype Triggers = Triggers(activateEnable: bool, activateStateOutput: bool,
                               lowPowerEnable: bool, switchEnable: bool, ccUpdateEnable: bool)

  /** The SEQUENCE_LENGTH register value for a sequence length: lengths 0
      and 1 both write 0. */
  function SeqLengthReg(seqLength: nat): nat
  {
    if seqLength == 0 then 0 else seqLength - 1
  }

  /** The NEXT registers after SetNextCCCfg wrote a snapshot made of slots
      s, not-used ID nu, descriptors d, auxiliary settings a and antenna
      gains g; the antenna word is left alone when writeAntenna is false
      (the uplink bank in switchable mode). The NCO registers are written
      by a part of the driver not in this model. */
  function Committed(r: RegisterSet, seqLength: nat, s: seq<int>, nu: int, d: seq<DUCDDCCfg>,
                     a: seq<AuxiliaryCfg>, g: seq<nat>, writeAntenna: bool): (r': RegisterSet)
    requires IsSeq(s) && |g| == ANT_NUM_MAX
  {
    r.(seqLength := SeqLengthReg(seqLength), sequence := SeqToRegs(s, seqLength, nu),
       ccConfig := d, aux := a, antennaGain := if writeAntenna then AntennaWord(g) else r.antennaGain)
  }

  /** Commit and read-back agree: when the hardware has copied a commit of
      a well-formed sequence into CURRENT, reading it back with the same
      not-used ID gives the sequence cut to the instance's length, the same
      descriptors and auxiliary settings and, for one-bit gains, the same
      antenna gains. */
  lemma CommitThenReadBack(r: RegisterSet, seqLength: nat, s: seq<int>, d: seq<DUCDDCCfg>,
                           a: seq<AuxiliaryCfg>, g: seq<nat>)
    requires WellFormed(s) && |g| == ANT_NUM_MAX && GainBits(g)
    ensures var r' := Committed(r, seqLength, s, NotUsed(s), d, a, g, true);
            RegsToSeq(r'.sequence, seqLength, NotUsed(s)) == Truncated(s, seqLength)
            && r'.ccConfig == d && r'.aux == a && AntennaGains(r'.antennaGain) == g
  {
    SentinelRoundTrip(s, seqLength);
    AntennaRoundTrip(g);
  }

  /** The register value written for sequence length 1 equals the one for
      length 0, which is why the instance keeps the exact length itself. */
  lemma SeqLengthRegAmbiguous()
    ensures SeqLengthReg(0) == SeqLengthReg(1)
    ensures forall n: nat :: n >= 1 ==> SeqLengthReg(n) + 1 == n
  {
  }

  class Mixer {
    var stateId: StateId
    /** The model parameters as read at Configure. */
    var config: ModelParams
    /** The exact sequence length, set at Initialize. */
    var sequenceLength: nat
    /** The not-used IDs of the last committed downlink and uplink sequences. */
    var notUsedCCID: int
    var notUsedCCIDUL: int
    var ctrl: Control
    var triggers: Triggers
    /** NEXT registers per register bank (one bank unless switchable). */
    var next: map<RegBank, RegisterSet>

    /** Hardware-owned: the MODEL_PARAM registers, the CURRENT register
        sets, the CC_UPDATE_TRIGGERED status bit and STATE_OPERATIONAL. */
    var hwParams: ModelParams
    var current: map<RegBank, RegisterSet>
    var ccUpdateTriggered: bool
    var operational: bool

    ghost predicate Valid()
      reads this
    {
      sequenceLength <= SEQ_LENGTH_MAX && config.maxUseableCcids <= CC_NUM
      && hwParams.maxUseableCcids <= CC_NUM
      && (forall b: RegBank :: b in next && RegsValid(next[b]))
      && (forall b: RegBank :: b in current && RegsValid(current[b]))
    }

    /** The register bank the registers are addressed through: the selected
        one in switchable mode, the single (downlink) set otherwise. */
    function Bank(): RegBank
      reads this
    {
      if IsSwitchable(config) then ctrl.regBank else Downlink
    }

    /** The instance after XDfeMix_InstanceInit found its device: Ready,
        with the hardware's parameters and CURRENT registers given. */
    constructor(params: ModelParams, hwCurrent: map<RegBank, RegisterSet>)
      requires params.maxUseableCcids <= CC_NUM
      requires forall b: RegBank :: b in hwCurrent && RegsValid(hwCurrent[b])
      ensures Valid() && stateId == Ready && hwParams == params && current == hwCurrent
    {
      stateId := Ready;
      config := ModelParams(0, 0, 0, 0, 0, 0, 0, 0, 0, 0);
      sequenceLength := 0;
      notUsedCCID := 0;
      notUsedCCIDUL := 0;
      ctrl := Control(false, false, false, 0, Downlink);
      triggers := Triggers(false, false, false, false, false);
      var zero := map[Downlink := ZeroRegs, Uplink := ZeroRegs];
      forall b: RegBank
        ensures b in zero && RegsValid(zero[b])
      {
        assert b == Downlink || b == Uplink;
      }
      next := zero;
      hwParams := params;
      current := hwCurrent;
      ccUpdateTriggered := false;
      operational := false;
    }

    // -------------------------------------------------------------------
    // Life cycle
    // -------------------------------------------------------------------

    /** XDfeMix_Reset: put the core into reset. */
    method Reset()
      requires Valid() && stateId != NotReady
      modifies `stateId, `ctrl
      ensures Valid() && stateId == StateId.Reset && ctrl == old(ctrl).(resetOn := true)
    {
      ctrl := ctrl.(resetOn := true);
      stateId := StateId.Reset;
    }

    /** XDfeMix_Configure: read the model parameters into the instance and
        return them, take the core out of reset. */
    method Configure() returns (params: ModelParams)
      requires Valid() && stateId == StateId.Reset
      modifies `stateId, `ctrl, `config
      ensures Valid() && stateId == Configured && config == hwParams && params == hwParams
      ensures ctrl == old(ctrl).(resetOn := false)
    {
      config := hwParams;
      params := config;
      ctrl := ctrl.(resetOn := false);
      stateId := Configured;
    }

    /** XDfeMix_Initialize: enable the FIR and the mixer, select the tuser
        channel and the downlink bank in switchable mode (elsewhere the
        caller's tuser selection is overridden with 0), clear the not-used
        IDs and keep the exact sequence length. */
    method Initialize(init: Init) returns (initOut: Init)
      requires Valid() && stateId == Configured
      requires init.sequenceLength <= SEQ_LENGTH_MAX
      requires IsSwitchable(config) ==> init.tuserSelect <= TUSER_SEL_UPLINK
      modifies `stateId, `ctrl, `sequenceLength, `notUsedCCID, `notUsedCCIDUL
      ensures Valid() && stateId == Initialised && sequenceLength == init.sequenceLength
      ensures notUsedCCID == 0 && notUsedCCIDUL == 0
      ensures ctrl.firEnabled && ctrl.mixerEnabled && ctrl.resetOn == old(ctrl.resetOn)
      ensures IsSwitchable(config) ==>
                initOut == init && ctrl.tuserSelect == init.tuserSelect && ctrl.regBank == Downlink
      ensures !IsSwitchable(config) ==>
                initOut == init.(tuserSelect := 0)
                && ctrl.tuserSelect == old(ctrl.tuserSelect) && ctrl.regBank == old(ctrl.regBank)
    {
      ctrl := ctrl.(firEnabled := true, mixerEnabled := true);
      if IsSwitchable(config) {
        ctrl := ctrl.(tuserSelect := init.tuserSelect);
        SetRegBank(Downlink);
        initOut := init;
      } else {
        initOut := init.(tuserSelect := 0);
      }
      notUsedCCID := 0;
      notUsedCCIDUL := 0;
      sequenceLength := init.sequenceLength;
      stateId := Initialised;
    }

    /** XDfeMix_Activate: nothing when the core already reports that it is
        operational; otherwise arm the activate trigger (state output
        enabled), the low-power trigger when asked, the switch trigger in
        switchable mode, and enter Operational. */
    method Activate(enableLowPower: bool)
      requires Valid() && (stateId == Initialised || stateId == Operational)
      modifies `stateId, `triggers
      ensures Valid()
      ensures operational ==> stateId == old(stateId) && triggers == old(triggers)
      ensures !operational ==>
                stateId == Operational
                && triggers == old(triggers).(activateEnable := true, activateStateOutput := true,
                                              lowPowerEnable := old(triggers.lowPowerEnable) || enableLowPower,
                                              switchEnable := old(triggers.switchEnable) || IsSwitchable(config))
    {
      if operational {
        return;
      }
      triggers := triggers.(activateEnable := true, activateStateOutput := true);
      if enableLowPower {
        triggers := triggers.(lowPowerEnable := true);
      }
      if IsSwitchable(config) {
        triggers := triggers.(switchEnable := true);
      }
      stateId := Operational;
    }

    /** XDfeMix_Deactivate: nothing when the core reports that it is not
        operational; otherwise disarm the low-power trigger, arm the
        activate trigger with state output disabled, disarm the switch
        trigger in switchable mode, and go back to Initialised. */
    method Deactivate()
      requires Valid() && (stateId == Initialised || stateId == Operational)
      modifies `stateId, `triggers
      ensures Valid()
      ensures !operational ==> stateId == old(stateId) && triggers == old(triggers)
      ensures operational ==>
                stateId == Initialised
                && triggers == old(triggers).(activateEnable := true, activateStateOutput := false,
                                              lowPowerEnable := false,
                                              switchEnable := old(triggers.switchEnable) && !IsSwitchable(config))
    {
      if !operational {
        return;
      }
      triggers := triggers.(lowPowerEnable := false);
      triggers := triggers.(activateEnable := true, activateStateOutput := false);
      if IsSwitchable(config) {
        triggers := triggers.(switchEnable := false);
      }
      stateId := Initialised;
    }

    /** XDfeMix_SetRegBank: select the register bank. */
    method SetRegBank(bank: RegBank)
      modifies `ctrl
      ensures ctrl == old(ctrl).(regBank := bank)
    {
      ctrl := ctrl.(regBank := bank);
    }

    // -------------------------------------------------------------------
    // Slot counting, sequence placement, rate
    // -------------------------------------------------------------------

    /** XDfeMix_CountOnesInBitmap: the set bits of the bitmap below the
        instance's sequence length. */
    method CountOnesInBitmap(bitmap: nat) returns (ones: nat)
      ensures ones == Ones(bitmap, sequenceLength)
      ensures ones == |BitsBelow(bitmap, sequenceLength)|
    {
      ones := 0;
      var index := 0;
      while index < sequenceLength
        invariant 0 <= index <= sequenceLength
        invariant ones == Ones(bitmap, index)
      {
        if Bit(bitmap, index) {
          ones := ones + 1;
        }
        index := index + 1;
      }
      OnesIsPopcount(bitmap, sequenceLength);
    }

    /** XDfeMix_AddCCIDAndTranslateSeq: give carrier c the snapshot slots the
        bitmap selects. Refused, with the snapshot untouched, when the
        bitmap has a bit at or above the snapshot's length, when its ones
        count is not 0 or a power of two, or when a selected slot is taken. */
    method AddCCIDAndTranslateSeq(cfg: CCCfg, c: int, bitmap: nat) returns (st: Status)
      requires cfg.Valid()
      modifies cfg.ccid, cfg`notUsedCCID
      ensures st == Success <==> SeqAccepts(old(cfg.ccid[..]), cfg.length, sequenceLength, bitmap)
      ensures st == Success ==>
                cfg.ccid[..] == Placed(old(cfg.ccid[..]), cfg.length, bitmap, c)
                && cfg.notUsedCCID == NotUsed(cfg.ccid[..])
      ensures st == Failure ==> cfg.ccid[..] == old(cfg.ccid[..]) && cfg.notUsedCCID == old(cfg.notUsedCCID)
    {
      if !FitsIn(bitmap, cfg.length) {
        return Failure;
      }
      var ones := CountOnesInBitmap(bitmap);
      if !IsPowerOfTwoCount(ones) {
        return Failure;
      }
      var index := 0;
      while index < cfg.length
        invariant 0 <= index <= cfg.length
        invariant forall i :: 0 <= i < index && Bit(bitmap, i) ==> cfg.ccid[i] == SEQUENCE_ENTRY_NULL
      {
        if Bit(bitmap, index) && cfg.ccid[index] != SEQUENCE_ENTRY_NULL {
          return Failure;
        }
        index := index + 1;
      }
      index := 0;
      while index < cfg.length
        invariant 0 <= index <= cfg.length
        invariant forall i :: 0 <= i < CC_NUM ==>
          cfg.ccid[i] == (if i < index && Bit(bitmap, i) then c else old(cfg.ccid[i]))
      {
        if Bit(bitmap, index) {
          cfg.ccid[index] := c;
        }
        index := index + 1;
      }
      assert cfg.ccid[..] == Placed(old(cfg.ccid[..]), cfg.length, bitmap, c);
      cfg.notUsedCCID := cfg.GetNotUsedCCID();
      st := Success;
    }

    /** XDfeMix_FindRate: the rate code of a carrier's bitmap, refused when
        the bitmap reaches past the instance's sequence length, when its
        ones count is not 0 or a power of two, or when the conversion ratio
        has no code. MixerCps is the divisor of the ratio. */
    method FindRate(bitmap: nat) returns (st: Status, rate: nat)
      requires config.mixerCps > 0
      ensures st == Success <==> RateFound(bitmap, sequenceLength, config.antennaInterleave, config.mixerCps)
      ensures st == Success ==> rate == FoundRate(bitmap, sequenceLength, config.antennaInterleave, config.mixerCps)
    {
      rate := 0;
      if !FitsIn(bitmap, sequenceLength) {
        return Failure, rate;
      }
      var ones := CountOnesInBitmap(bitmap);
      if !IsPowerOfTwoCount(ones) {
        return Failure, rate;
      }
      if ones == 0 {
        rate := CC_CONFIG_DISABLED;
      } else {
        var ratio := ConversionRatio(config.antennaInterleave, config.mixerCps, sequenceLength, ones);
        match RateOfRatio(ratio)
        case None =>
          return Failure, rate;
        case Some(r) =>
          rate := r;
      }
      st := Success;
    }

    /** XDfeMix_SetCCDDC: store carrier c's descriptor with the rate found
        for its bitmap; refused, descriptors untouched, when the NCO index
        is not below MaxUseableCcids or no rate is found. */
    method SetCCDDC(cfg: CCCfg, c: nat, bitmap: nat, dd: DUCDDCCfg) returns (st: Status)
      requires cfg.Valid() && c < CC_NUM && config.mixerCps > 0
      modifies cfg.ducddc
      ensures st == Success <==>
                dd.ncoIdx < config.maxUseableCcids
                && RateFound(bitmap, sequenceLength, config.antennaInterleave, config.mixerCps)
      ensures st == Success ==>
                cfg.ducddc[..] == WithCarrier(old(cfg.ducddc[..]), c, dd.ncoIdx,
                                              FoundRate(bitmap, sequenceLength, config.antennaInterleave, config.mixerCps),
                                              dd.ccGain)
      ensures st == Failure ==> cfg.ducddc[..] == old(cfg.ducddc[..])
    {
      if dd.ncoIdx >= config.maxUseableCcids {
        return Failure;
      }
      var rate;
      st, rate := FindRate(bitmap);
      if st == Failure {
        return Failure;
      }
      cfg.ducddc[c] := DUCDDCCfg(dd.ncoIdx, rate, dd.ccGain);
    }

    /** XDfeMix_UpdateCCDDC: replace carrier c's NCO index and gain, keeping
        its rate; refused when the NCO index is not below MaxUseableCcids. */
    method UpdateCCDDC(cfg: CCCfg, c: nat, dd: DUCDDCCfg) returns (st: Status)
      requires cfg.Valid() && c < CC_NUM
      modifies cfg.ducddc
      ensures st == Success <==> dd.ncoIdx < config.maxUseableCcids
      ensures st == Success ==> cfg.ducddc[..] == Moved(old(cfg.ducddc[..]), c, dd.ncoIdx, dd.ccGain)
      ensures st == Failure ==> cfg.ducddc[..] == old(cfg.ducddc[..])
    {
      if dd.ncoIdx >= config.maxUseableCcids {
        return Failure;
      }
      cfg.ducddc[c] := cfg.ducddc[c].(ncoIdx := dd.ncoIdx, ccGain := dd.ccGain);
      st := Success;
    }

    // -------------------------------------------------------------------
    // NCO sub-block usage and the allocation checks
    // -------------------------------------------------------------------

    /** XDfeMix_NCOArch4Mode: the slots of the enabled carriers whose NCO is
        in the low (0-3) and in the high sub-block. */
    method NCOArch4Mode(cfg: CCCfg) returns (low: nat, high: nat)
      requires cfg.Valid()
      ensures low == Usage(cfg.ducddc[..], cfg.ccid[..], cfg.length, sequenceLength, Arch4, 0)
      ensures high == Usage(cfg.ducddc[..], cfg.ccid[..], cfg.length, sequenceLength, Arch4, 1)
    {
      low, high := 0, 0;
      var index := 0;
      while index < CC_NUM
        invariant 0 <= index <= CC_NUM
        invariant low == UsageUpTo(cfg.ducddc[..], cfg.ccid[..], cfg.length, sequenceLength, Arch4, 0, index)
        invariant high == UsageUpTo(cfg.ducddc[..], cfg.ccid[..], cfg.length, sequenceLength, Arch4, 1, index)
      {
        if cfg.ducddc[index].rate != CC_CONFIG_DISABLED {
          var bitmap := cfg.SeqBitmap(index);
          var ones := CountOnesInBitmap(bitmap);
          if cfg.ducddc[index].ncoIdx < NCO_LOW_SUB_BLOCK_SIZE {
            low := low + ones;
          } else {
            high := high + ones;
          }
        }
        index := index + 1;
      }
    }

    /** XDfeMix_NCOArch5Mode: the slots of the enabled carriers per NCO
        sub-block 0-3, 4-7, 8-11 and 12 up. */
    method NCOArch5Mode(cfg: CCCfg) returns (b0: nat, b1: nat, b2: nat, b3: nat)
      requires cfg.Valid()
      ensures b0 == Usage(cfg.ducddc[..], cfg.ccid[..], cfg.length, sequenceLength, Arch5, 0)
      ensures b1 == Usage(cfg.ducddc[..], cfg.ccid[..], cfg.length, sequenceLength, Arch5, 1)
      ensures b2 == Usage(cfg.ducddc[..], cfg.ccid[..], cfg.length, sequenceLength, Arch5, 2)
      ensures b3 == Usage(cfg.ducddc[..], cfg.ccid[..], cfg.length, sequenceLength, Arch5, 3)
    {
      b0, b1, b2, b3 := 0, 0, 0, 0;
      var index := 0;
      while index < CC_NUM
        invariant 0 <= index <= CC_NUM
        invariant b0 == UsageUpTo(cfg.ducddc[..], cfg.ccid[..], cfg.length, sequenceLength, Arch5, 0, index)
        invariant b1 == UsageUpTo(cfg.ducddc[..], cfg.ccid[..], cfg.length, sequenceLength, Arch5, 1, index)
        invariant b2 == UsageUpTo(cfg.ducddc[..], cfg.ccid[..], cfg.length, sequenceLength, Arch5, 2, index)
        invariant b3 == UsageUpTo(cfg.ducddc[..], cfg.ccid[..], cfg.length, sequenceLength, Arch5, 3, index)
      {
        if cfg.ducddc[index].rate != CC_CONFIG_DISABLED {
          var bitmap := cfg.SeqBitmap(index);
          var ones := CountOnesInBitmap(bitmap);
          var ncoIdx := cfg.ducddc[index].ncoIdx;
          if ncoIdx < 1 * NCO_LOW_SUB_BLOCK_SIZE {
            b0 := b0 + ones;
          } else if ncoIdx < 2 * NCO_LOW_SUB_BLOCK_SIZE {
            b1 := b1 + ones;
          } else if ncoIdx < 3 * NCO_LOW_SUB_BLOCK_SIZE {
            b2 := b2 + ones;
          } else {
            b3 := b3 + ones;
          }
        }
        index := index + 1;
      }
    }

    /** XDfeMix_NCOArch4ModeInAddCC: accept when the candidate's half, with
        the candidate's slots added, stays within half the sequence. */
    method NCOArch4ModeInAddCC(cfg: CCCfg, c: nat, bitmap: nat, ncoIdx: nat) returns (st: Status)
      requires cfg.Valid() && c < CC_NUM
      ensures st == Success <==> AddFits(cfg.ducddc[..], cfg.ccid[..], cfg.length, sequenceLength, Arch4, bitmap, ncoIdx)
    {
      var low, high := NCOArch4Mode(cfg);
      var ones := CountOnesInBitmap(bitmap);
      var usage := if ncoIdx < NCO_LOW_SUB_BLOCK_SIZE then low + ones else high + ones;
      st := if usage * 2 > sequenceLength then Failure else Success;
    }

    /** XDfeMix_NCOArch5ModeInAddCC: the same with four sub-blocks and a
        quarter of the sequence each. */
    method NCOArch5ModeInAddCC(cfg: CCCfg, c: nat, bitmap: nat, ncoIdx: nat) returns (st: Status)
      requires cfg.Valid() && c < CC_NUM
      ensures st == Success <==> AddFits(cfg.ducddc[..], cfg.ccid[..], cfg.length, sequenceLength, Arch5, bitmap, ncoIdx)
    {
      var b0, b1, b2, b3 := NCOArch5Mode(cfg);
      var ones := CountOnesInBitmap(bitmap);
      var usage;
      if ncoIdx < 1 * NCO_LOW_SUB_BLOCK_SIZE {
        usage := b0 + ones;
      } else if ncoIdx < 2 * NCO_LOW_SUB_BLOCK_SIZE {
        usage := b1 + ones;
      } else if ncoIdx < 3 * NCO_LOW_SUB_BLOCK_SIZE {
        usage := b2 + ones;
      } else {
        usage := b3 + ones;
      }
      st := if usage * 4 > sequenceLength then Failure else Success;
    }

    /** XDfeMix_NCOArch4ModeInMoveOrUpdateCC: a move of carrier c into the
        other half checks that half with the carrier's slots added; a move
        within a half is accepted. */
    method NCOArch4ModeInMoveOrUpdateCC(cfg: CCCfg, c: nat, ncoIdx: nat) returns (st: Status)
      requires cfg.Valid() && c < CC_NUM
      ensures st == Success <==> MoveFits(cfg.ducddc[..], cfg.ccid[..], cfg.length, sequenceLength, Arch4, c, ncoIdx)
    {
      var low, high := NCOArch4Mode(cfg);
      var bitmap := cfg.SeqBitmap(c);
      var oldIdx := cfg.ducddc[c].ncoIdx;
      var usage;
      if ncoIdx < NCO_LOW_SUB_BLOCK_SIZE && oldIdx >= NCO_LOW_SUB_BLOCK_SIZE {
        var ones := CountOnesInBitmap(bitmap);
        usage := low + ones;
      } else if ncoIdx >= NCO_LOW_SUB_BLOCK_SIZE && oldIdx < NCO_LOW_SUB_BLOCK_SIZE {
        var ones := CountOnesInBitmap(bitmap);
        usage := high + ones;
      } else {
        return Success;
      }
      st := if usage * 2 > sequenceLength then Failure else Success;
    }

    /** XDfeMix_NCOArch5ModeInMoveOrUpdateCC, branch for branch: the first
        k in 0..2 with NCOIdx < 4(k+1) <= old NCOIdx checks block k; failing
        that, any NCOIdx below 16 is checked against block 3; only NCOIdx
        at 16 or above is accepted unchecked. The checked block gets the
        carrier's own slots added. (The rule as meant is Arch5MoveBlock.) */
    method NCOArch5ModeInMoveOrUpdateCC(cfg: CCCfg, c: nat, ncoIdx: nat) returns (st: Status)
      requires cfg.Valid() && c < CC_NUM
      ensures st == Success <==> MoveFitsAsWritten(cfg.ducddc[..], cfg.ccid[..], cfg.length, sequenceLength, Arch5, c, ncoIdx)
    {
      var b0, b1, b2, b3 := NCOArch5Mode(cfg);
      var bitmap := cfg.SeqBitmap(c);
      var oldIdx := cfg.ducddc[c].ncoIdx;
      var usage;
      if ncoIdx < 1 * NCO_LOW_SUB_BLOCK_SIZE && oldIdx >= 1 * NCO_LOW_SUB_BLOCK_SIZE {
        var ones := CountOnesInBitmap(bitmap);
        usage := b0 + ones;
      } else if ncoIdx < 2 * NCO_LOW_SUB_BLOCK_SIZE && oldIdx >= 2 * NCO_LOW_SUB_BLOCK_SIZE {
        var ones := CountOnesInBitmap(bitmap);
        usage := b1 + ones;
      } else if ncoIdx < 3 * NCO_LOW_SUB_BLOCK_SIZE && oldIdx >= 3 * NCO_LOW_SUB_BLOCK_SIZE {
        var ones := CountOnesInBitmap(bitmap);
        usage := b2 + ones;
      } else if ncoIdx < 4 * NCO_LOW_SUB_BLOCK_SIZE {
        var ones := CountOnesInBitmap(bitmap);
        usage := b3 + ones;
      } else {
        return Success;
      }
      st := if usage * 4 > sequenceLength then Failure else Success;
    }

    /** XDfeMix_CheckCarrierCfg: refuse an NCO index not below
        MaxUseableCcids, and one already used by an enabled carrier among the
        first SequenceLength IDs. */
    method CheckCarrierCfg(cfg: CCCfg, ncoIdx: nat) returns (st: Status)
      requires Valid() && cfg.Valid()
      ensures st == Success <==> ncoIdx < config.maxUseableCcids && NcoFree(cfg.ducddc[..], sequenceLength, ncoIdx)
    {
      if ncoIdx >= config.maxUseableCcids {
        return Failure;
      }
      var index := 0;
      while index < sequenceLength
        invariant 0 <= index <= sequenceLength
        invariant NcoFree(cfg.ducddc[..], index, ncoIdx)
      {
        if cfg.ducddc[index].ncoIdx == ncoIdx && cfg.ducddc[index].rate != CC_CONFIG_DISABLED {
          return Failure;
        }
        index := index + 1;
      }
      st := Success;
    }

    /** XDfeMix_CheckCarrierCfginAddCC: the carrier must be disabled, the
        NCO usable and free, and the ARCH4 or ARCH5 add check must pass. */
    method CheckCarrierCfginAddCC(cfg: CCCfg, c: nat, bitmap: nat, ncoIdx: nat) returns (st: Status)
      requires Valid() && cfg.Valid() && c < CC_NUM
      ensures st == Success <==> AddChecked(cfg.ducddc[..], cfg.ccid[..], cfg.length, sequenceLength, config, c, bitmap, ncoIdx)
    {
      if cfg.ducddc[c].rate != CC_CONFIG_DISABLED {
        return Failure;
      }
      st := CheckCarrierCfg(cfg, ncoIdx);
      if st == Failure {
        return Failure;
      }
      if IsArch4(config) {
        st := NCOArch4ModeInAddCC(cfg, c, bitmap, ncoIdx);
      } else if IsArch5(config) {
        st := NCOArch5ModeInAddCC(cfg, c, bitmap, ncoIdx);
      }
    }

    /** XDfeMix_CheckCarrierCfgInUpdateCC: the NCO must be usable and free,
        and the ARCH4 or ARCH5 move/update check must pass. */
    method CheckCarrierCfgInUpdateCC(cfg: CCCfg, c: nat, ncoIdx: nat) returns (st: Status)
      requires Valid() && cfg.Valid() && c < CC_NUM
      ensures st == Success <==> UpdateChecked(cfg.ducddc[..], cfg.ccid[..], cfg.length, sequenceLength, config, c, ncoIdx)
    {
      st := CheckCarrierCfg(cfg, ncoIdx);
      if st == Failure {
        return Failure;
      }
      if IsArch4(config) {
        st := NCOArch4ModeInMoveOrUpdateCC(cfg, c, ncoIdx);
      } else if IsArch5(config) {
        st := NCOArch5ModeInMoveOrUpdateCC(cfg, c, ncoIdx);
      }
    }

    // -------------------------------------------------------------------
    // Building a snapshot
    // -------------------------------------------------------------------

    /** XDfeMix_GetEmptyCCCfg: a zeroed snapshot with every slot free and
        the instance's sequence length. */
    method GetEmptyCCCfg() returns (cfg: CCCfg)
      requires Valid()
      ensures fresh(cfg) && cfg.Valid() && cfg.length == sequenceLength
      ensures cfg.ccid[..] == seq(CC_NUM, i => SEQUENCE_ENTRY_NULL)
      ensures cfg.ducddc[..] == seq(CC_NUM, i => ZeroDUCDDC)
      ensures cfg.nco[..] == seq(NCO_MAX, i => ZeroNCO)
      ensures cfg.aux[..] == seq(AUX_NCO_MAX, i => ZeroAux)
      ensures cfg.antennaCfg == AntennaCfg(seq(ANT_NUM_MAX, i => 0))
      ensures cfg.notUsedCCID == 0
    {
      cfg := new CCCfg.Empty(sequenceLength);
    }

    /** XDfeMix_AddCCtoCCCfg: three stages, each of which can refuse. The
        checks leave the snapshot untouched; the sequence stage leaves it
        untouched when it refuses; when the descriptor stage (SetCCDDC)
        refuses, the slots have already been placed and stay placed. On
        success the carrier's descriptor carries its rate and its NCO is
        stored at its NCO index. */
    method AddCCtoCCCfg(cfg: CCCfg, c: nat, bitmap: nat, carrier: CarrierCfg, ncoCfg: NCO) returns (st: Status)
      requires Valid() && cfg.Valid() && c < CC_NUM && config.mixerCps > 0
      modifies cfg.ccid, cfg`notUsedCCID, cfg.ducddc, cfg.nco
      ensures var checked := AddChecked(old(cfg.ducddc[..]), old(cfg.ccid[..]), cfg.length, sequenceLength,
                                        config, c, bitmap, carrier.ducddc.ncoIdx);
              var placed := SeqAccepts(old(cfg.ccid[..]), cfg.length, sequenceLength, bitmap);
              var rated := RateFound(bitmap, sequenceLength, config.antennaInterleave, config.mixerCps);
              (st == Success <==> checked && placed && rated)
              && (!(checked && placed) ==>
                    cfg.ccid[..] == old(cfg.ccid[..]) && cfg.notUsedCCID == old(cfg.notUsedCCID))
              && (checked && placed ==>
                    cfg.ccid[..] == Placed(old(cfg.ccid[..]), cfg.length, bitmap, c)
                    && cfg.notUsedCCID == NotUsed(cfg.ccid[..]))
              && (st == Failure ==> cfg.ducddc[..] == old(cfg.ducddc[..]) && cfg.nco[..] == old(cfg.nco[..]))
      ensures st == Success ==>
                cfg.ducddc[..] == WithCarrier(old(cfg.ducddc[..]), c, carrier.ducddc.ncoIdx,
                                              FoundRate(bitmap, sequenceLength, config.antennaInterleave, config.mixerCps),
                                              carrier.ducddc.ccGain)
                && cfg.nco[..] == old(cfg.nco[..])[carrier.ducddc.ncoIdx := ncoCfg]
    {
      st := CheckCarrierCfginAddCC(cfg, c, bitmap, carrier.ducddc.ncoIdx);
      if st == Failure {
        return Failure;
      }
      st := AddCCIDAndTranslateSeq(cfg, c, bitmap);
      if st == Failure {
        return Failure;
      }
      st := SetCCDDC(cfg, c, bitmap, carrier.ducddc);
      if st == Failure {
        return Failure;
      }
      cfg.nco[cfg.ducddc[c].ncoIdx] := ncoCfg;
    }

    /** XDfeMix_UpdateCCinCCCfg: move carrier c to another NCO and gain when
        the update checks accept; the rate and the slots are kept. */
    method UpdateCCinCCCfg(cfg: CCCfg, c: nat, carrier: CarrierCfg) returns (st: Status)
      requires Valid() && cfg.Valid() && c < CC_NUM
      modifies cfg.ducddc
      ensures st == Success <==>
                UpdateChecked(old(cfg.ducddc[..]), cfg.ccid[..], cfg.length, sequenceLength, config, c, carrier.ducddc.ncoIdx)
      ensures st == Success ==>
                cfg.ducddc[..] == Moved(old(cfg.ducddc[..]), c, carrier.ducddc.ncoIdx, carrier.ducddc.ccGain)
      ensures st == Failure ==> cfg.ducddc[..] == old(cfg.ducddc[..])
    {
      st := CheckCarrierCfgInUpdateCC(cfg, c, carrier.ducddc.ncoIdx);
      if st == Failure {
        return Failure;
      }
      st := UpdateCCDDC(cfg, c, carrier.ducddc);
    }

    // -------------------------------------------------------------------
    // Commit and read-back
    // -------------------------------------------------------------------

    /** XDfeMix_SetNextCCCfg: write the snapshot into the NEXT registers of
        the addressed bank: every slot that is free or at or beyond the
        instance's length carries the snapshot's not-used ID, the length
        register gets the length minus one (0 for 0), the descriptors and
        auxiliary settings are copied, and the antenna gains are packed one
        bit per antenna except into the uplink bank in switchable mode. */
    method SetNextCCCfg(cfg: CCCfg)
      requires Valid() && cfg.Valid()
      modifies `next
      ensures Valid()
      ensures next[Bank()] == Committed(old(next[Bank()]), sequenceLength, cfg.ccid[..], cfg.notUsedCCID,
                                        cfg.ducddc[..], cfg.aux[..], cfg.antennaCfg.gain,
                                        !(IsSwitchable(config) && ctrl.regBank == Uplink))
      ensures forall b: RegBank :: b != Bank() ==> next[b] == old(next[b])
    {
      var nextCCID: seq<int> := [];
      var index := 0;
      while index < CC_NUM
        invariant 0 <= index <= CC_NUM
        invariant nextCCID == SeqToRegs(cfg.ccid[..], sequenceLength, cfg.notUsedCCID)[..index]
      {
        if cfg.ccid[index] == SEQUENCE_ENTRY_NULL || index >= sequenceLength {
          nextCCID := nextCCID + [cfg.notUsedCCID];
        } else {
          nextCCID := nextCCID + [cfg.ccid[index]];
        }
        index := index + 1;
      }
      assert nextCCID == SeqToRegs(cfg.ccid[..], sequenceLength, cfg.notUsedCCID);
      var regs := next[Bank()];
      var seqLength := if sequenceLength == 0 then 0 else sequenceLength - 1;
      var ccConfig: seq<DUCDDCCfg> := [];
      index := 0;
      while index < CC_NUM
        invariant 0 <= index <= CC_NUM
        invariant ccConfig == cfg.ducddc[..index]
      {
        ccConfig := ccConfig + [cfg.ducddc[index]];
        index := index + 1;
      }
      assert ccConfig == cfg.ducddc[..];
      var auxCfg: seq<AuxiliaryCfg> := [];
      index := 0;
      while index < AUX_NCO_MAX
        invariant 0 <= index <= AUX_NCO_MAX
        invariant auxCfg == cfg.aux[..index]
      {
        auxCfg := auxCfg + [cfg.aux[index]];
        index := index + 1;
      }
      assert auxCfg == cfg.aux[..];
      regs := regs.(seqLength := seqLength, sequence := nextCCID, ccConfig := ccConfig, aux := auxCfg);
      if !(IsSwitchable(config) && ctrl.regBank == Uplink) {
        var antenna := 0;
        index := 0;
        while index < ANT_NUM_MAX
          invariant 0 <= index <= ANT_NUM_MAX
          invariant antenna == AntennaSum(cfg.antennaCfg.gain, index)
        {
          antenna := antenna + cfg.antennaCfg.gain[index] * Pow2(index);
          index := index + 1;
        }
        regs := regs.(antennaGain := antenna % U32_LIMIT);
      }
      next := next[Bank() := regs];
    }

    /** XDfeMix_EnableCCUpdateTrigger: refused while the previous CC update
        is still reported as triggered; otherwise arm the CC update
        trigger. */
    method EnableCCUpdateTrigger() returns (st: Status)
      modifies `triggers
      ensures st == Success <==> !ccUpdateTriggered
      ensures st == Success ==> triggers == old(triggers).(ccUpdateEnable := true)
      ensures st == Failure ==> triggers == old(triggers)
    {
      if ccUpdateTriggered {
        return Failure;
      }
      triggers := triggers.(ccUpdateEnable := true);
      st := Success;
    }

    /** XDfeMix_SetNextCCCfgAndTrigger: write the snapshot, arm the update,
        and only when arming succeeds adopt the snapshot's not-used ID (the
        NEXT registers stay written either way). */
    method SetNextCCCfgAndTrigger(cfg: CCCfg) returns (st: Status)
      requires Valid() && cfg.Valid()
      modifies `next, `triggers, `notUsedCCID
      ensures Valid()
      ensures next[Bank()] == Committed(old(next[Bank()]), sequenceLength, cfg.ccid[..], cfg.notUsedCCID,
                                        cfg.ducddc[..], cfg.aux[..], cfg.antennaCfg.gain,
                                        !(IsSwitchable(config) && ctrl.regBank == Uplink))
      ensures forall b: RegBank :: b != Bank() ==> next[b] == old(next[b])
      ensures st == Success <==> !ccUpdateTriggered
      ensures st == Success ==> triggers == old(triggers).(ccUpdateEnable := true) && notUsedCCID == cfg.notUsedCCID
      ensures st == Failure ==> triggers == old(triggers) && notUsedCCID == old(notUsedCCID)
    {
      SetNextCCCfg(cfg);
      st := EnableCCUpdateTrigger();
      if st == Success {
        notUsedCCID := cfg.notUsedCCID;
      }
    }

    /** One half of XDfeMix_SetNextCCCfgAndTriggerSwitchable: select a bank
        and write a snapshot into it; the downlink bank gets the antenna
        gains, the uplink bank does not. */
    method CommitToBank(cfg: CCCfg, bank: RegBank)
      requires Valid() && cfg.Valid() && IsSwitchable(config)
      modifies `next, `ctrl
      ensures Valid() && ctrl == old(ctrl).(regBank := bank)
      ensures next[bank] == Committed(old(next[bank]), sequenceLength, cfg.ccid[..], cfg.notUsedCCID,
                                      cfg.ducddc[..], cfg.aux[..], cfg.antennaCfg.gain, bank == Downlink)
      ensures forall b: RegBank :: b != bank ==> next[b] == old(next[b])
    {
      SetRegBank(bank);
      SetNextCCCfg(cfg);
    }

    /** The two writes of XDfeMix_SetNextCCCfgAndTriggerSwitchable: the
        downlink snapshot into the downlink bank, then the uplink one into
        the uplink bank, which stays selected. */
    method CommitBothBanks(dl: CCCfg, ul: CCCfg)
      requires Valid() && dl.Valid() && ul.Valid() && IsSwitchable(config)
      modifies `next, `ctrl
      ensures Valid() && ctrl == old(ctrl).(regBank := Uplink)
      ensures next[Downlink] == Committed(old(next[Downlink]), sequenceLength, dl.ccid[..], dl.notUsedCCID,
                                          dl.ducddc[..], dl.aux[..], dl.antennaCfg.gain, true)
      ensures next[Uplink] == Committed(old(next[Uplink]), sequenceLength, ul.ccid[..], ul.notUsedCCID,
                                        ul.ducddc[..], ul.aux[..], ul.antennaCfg.gain, false)
    {
      CommitToBank(dl, Downlink);
      CommitToBank(ul, Uplink);
    }

    /** XDfeMix_SetNextCCCfgAndTriggerSwitchable: write the downlink snapshot
        into the downlink bank (with antenna gains) and the uplink snapshot
        into the uplink bank (without), arm the update once, adopt both
        not-used IDs on success, and restore the selected bank. */
    method SetNextCCCfgAndTriggerSwitchable(dl: CCCfg, ul: CCCfg) returns (st: Status)
      requires Valid() && dl.Valid() && ul.Valid() && IsSwitchable(config)
      modifies `next, `triggers, `notUsedCCID, `notUsedCCIDUL, `ctrl
      ensures Valid() && ctrl == old(ctrl)
      ensures next[Downlink] == Committed(old(next[Downlink]), sequenceLength, dl.ccid[..], dl.notUsedCCID,
                                          dl.ducddc[..], dl.aux[..], dl.antennaCfg.gain, true)
      ensures next[Uplink] == Committed(old(next[Uplink]), sequenceLength, ul.ccid[..], ul.notUsedCCID,
                                        ul.ducddc[..], ul.aux[..], ul.antennaCfg.gain, false)
      ensures st == Success <==> !ccUpdateTriggered
      ensures st == Success ==>
                triggers == old(triggers).(ccUpdateEnable := true)
                && notUsedCCID == dl.notUsedCCID && notUsedCCIDUL == ul.notUsedCCID
      ensures st == Failure ==>
                triggers == old(triggers) && notUsedCCID == old(notUsedCCID) && notUsedCCIDUL == old(notUsedCCIDUL)
    {
      var saved := ctrl.regBank;
      CommitBothBanks(dl, ul);
      st := EnableCCUpdateTrigger();
      if st == Success {
        notUsedCCID := dl.notUsedCCID;
        notUsedCCIDUL := ul.notUsedCCID;
      }
      SetRegBank(saved);
    }

    /** The sequence half of XDfeMix_GetCurrentCCCfgLocal: copy the slot
        registers, then turn every slot that holds the snapshot's not-used
        ID, or lies at or beyond the instance's length, back into -1. */
    method ReadSequence(cfg: CCCfg, regs: RegisterSet)
      requires Valid() && cfg.Valid() && RegsValid(regs)
      modifies cfg.ccid, cfg`length
      ensures cfg.Valid() && cfg.length == sequenceLength
      ensures cfg.ccid[..] == RegsToSeq(regs.sequence, sequenceLength, cfg.notUsedCCID)
    {
      var index := 0;
      while index < CC_NUM
        invariant 0 <= index <= CC_NUM
        invariant cfg.ccid[..index] == regs.sequence[..index]
        modifies cfg.ccid
      {
        cfg.ccid[index] := regs.sequence[index];
        index := index + 1;
      }
      cfg.length := sequenceLength;
      index := 0;
      while index < CC_NUM
        invariant 0 <= index <= CC_NUM
        invariant forall i :: 0 <= i < CC_NUM ==>
          cfg.ccid[i] == (if i < index then RegsToSeq(regs.sequence, sequenceLength, cfg.notUsedCCID)[i] else regs.sequence[i])
        modifies cfg.ccid
      {
        if cfg.ccid[index] == cfg.notUsedCCID || index >= sequenceLength {
          cfg.ccid[index] := SEQUENCE_ENTRY_NULL;
        }
        index := index + 1;
      }
    }

    /** The descriptor half of XDfeMix_GetCurrentCCCfgLocal: copy the
        carrier descriptors, the auxiliary settings and the NCOs. */
    method ReadDescriptors(cfg: CCCfg, regs: RegisterSet)
      requires cfg.Valid() && RegsValid(regs)
      modifies cfg.ducddc, cfg.aux, cfg.nco
      ensures cfg.ducddc[..] == regs.ccConfig && cfg.aux[..] == regs.aux && cfg.nco[..] == regs.nco
    {
      var index := 0;
      while index < CC_NUM
        invariant 0 <= index <= CC_NUM
        invariant cfg.ducddc[..index] == regs.ccConfig[..index]
        modifies cfg.ducddc
      {
        cfg.ducddc[index] := regs.ccConfig[index];
        index := index + 1;
      }
      index := 0;
      while index < AUX_NCO_MAX
        invariant 0 <= index <= AUX_NCO_MAX
        invariant cfg.aux[..index] == regs.aux[..index]
        modifies cfg.aux
      {
        cfg.aux[index] := regs.aux[index];
        index := index + 1;
      }
      index := 0;
      while index < NCO_MAX
        invariant 0 <= index <= NCO_MAX
        invariant cfg.nco[..index] == regs.nco[..index]
        modifies cfg.nco
      {
        cfg.nco[index] := regs.nco[index];
        index := index + 1;
      }
    }

    /** XDfeMix_GetCurrentCCCfgLocal: read the CURRENT registers of the
        addressed bank into the snapshot and unpack one gain bit per
        antenna. */
    method GetCurrentCCCfgLocal(cfg: CCCfg)
      requires Valid() && cfg.Valid()
      modifies cfg.ccid, cfg.ducddc, cfg.aux, cfg.nco, cfg`length, cfg`antennaCfg
      ensures cfg.Valid()
      ensures var regs := current[Bank()];
              cfg.ccid[..] == RegsToSeq(regs.sequence, sequenceLength, cfg.notUsedCCID)
              && cfg.length == sequenceLength
              && cfg.ducddc[..] == regs.ccConfig && cfg.aux[..] == regs.aux && cfg.nco[..] == regs.nco
              && cfg.antennaCfg == AntennaCfg(AntennaGains(regs.antennaGain))
    {
      var regs := current[Bank()];
      ReadSequence(cfg, regs);
      ReadDescriptors(cfg, regs);
      var gain: seq<nat> := [];
      var index := 0;
      while index < ANT_NUM_MAX
        invariant 0 <= index <= ANT_NUM_MAX
        invariant gain == AntennaGains(regs.antennaGain)[..index]
      {
        gain := gain + [if Bit(regs.antennaGain, index) then 1 else 0];
        index := index + 1;
      }
      cfg.antennaCfg := AntennaCfg(gain);
    }

    /** XDfeMix_GetCurrentCCCfg: the snapshot of what the hardware runs, with
        the instance's not-used ID. */
    method GetCurrentCCCfg(cfg: CCCfg)
      requires Valid() && cfg.Valid()
      modifies cfg.ccid, cfg.ducddc, cfg.aux, cfg.nco, cfg`length, cfg`antennaCfg, cfg`notUsedCCID
      ensures cfg.Valid() && cfg.notUsedCCID == notUsedCCID
      ensures var regs := current[Bank()];
              cfg.ccid[..] == RegsToSeq(regs.sequence, sequenceLength, notUsedCCID)
              && cfg.length == sequenceLength
              && cfg.ducddc[..] == regs.ccConfig && cfg.aux[..] == regs.aux && cfg.nco[..] == regs.nco
              && cfg.antennaCfg == AntennaCfg(AntennaGains(regs.antennaGain))
    {
      cfg.notUsedCCID := notUsedCCID;
      GetCurrentCCCfgLocal(cfg);
    }

    /** One half of XDfeMix_GetCurrentCCCfgSwitchable: select a bank and read
        it into a snapshot with the given not-used ID. */
    method ReadBank(cfg: CCCfg, bank: RegBank, nu: int)
      requires Valid() && cfg.Valid() && IsSwitchable(config)
      modifies cfg.ccid, cfg.ducddc, cfg.aux, cfg.nco, cfg`length, cfg`antennaCfg, cfg`notUsedCCID, `ctrl
      ensures Valid() && ctrl == old(ctrl).(regBank := bank) && cfg.Valid() && cfg.notUsedCCID == nu
      ensures cfg.ccid[..] == RegsToSeq(current[bank].sequence, sequenceLength, nu)
      ensures cfg.length == sequenceLength
      ensures cfg.ducddc[..] == current[bank].ccConfig && cfg.aux[..] == current[bank].aux
      ensures cfg.nco[..] == current[bank].nco
      ensures cfg.antennaCfg == AntennaCfg(AntennaGains(current[bank].antennaGain))
    {
      SetRegBank(bank);
      cfg.notUsedCCID := nu;
      GetCurrentCCCfgLocal(cfg);
    }

    /** XDfeMix_GetCurrentCCCfgSwitchable: read the downlink bank with the
        downlink not-used ID and the uplink bank with the uplink one, then
        restore the selected bank. */
    method GetCurrentCCCfgSwitchable(dl: CCCfg, ul: CCCfg)
      requires Valid() && dl.Valid() && ul.Valid() && IsSwitchable(config) && Disjoint(dl, ul)
      modifies dl.ccid, dl.ducddc, dl.aux, dl.nco, dl`length, dl`antennaCfg, dl`notUsedCCID
      modifies ul.ccid, ul.ducddc, ul.aux, ul.nco, ul`length, ul`antennaCfg, ul`notUsedCCID
      modifies `ctrl
      ensures Valid() && ctrl == old(ctrl) && dl.Valid() && ul.Valid()
      ensures dl.notUsedCCID == notUsedCCID && ul.notUsedCCID == notUsedCCIDUL
      ensures dl.ccid[..] == RegsToSeq(current[Downlink].sequence, sequenceLength, notUsedCCID)
      ensures ul.ccid[..] == RegsToSeq(current[Uplink].sequence, sequenceLength, notUsedCCIDUL)
      ensures dl.length == sequenceLength && ul.length == sequenceLength
      ensures dl.ducddc[..] == current[Downlink].ccConfig && ul.ducddc[..] == current[Uplink].ccConfig
      ensures dl.aux[..] == current[Downlink].aux && ul.aux[..] == current[Uplink].aux
      ensures dl.nco[..] == current[Downlink].nco && ul.nco[..] == current[Uplink].nco
      ensures dl.antennaCfg == AntennaCfg(AntennaGains(current[Downlink].antennaGain))
      ensures ul.antennaCfg == AntennaCfg(AntennaGains(current[Uplink].antennaGain))
    {
      var saved := ctrl.regBank;
      ReadBank(dl, Downlink, notUsedCCID);
      ReadBank(ul, Uplink, notUsedCCIDUL);
      SetRegBank(saved);
    }
  }
}
