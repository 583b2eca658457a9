/**
 * Constants and value types of the DFE Mixer driver: carrier, NCO and
 * auxiliary descriptors, model parameters, the state identifiers and the
 * status codes. Unsigned fields are natural numbers; a carrier ID is a
 * signed integer because a sequence slot holds -1 when it is unused.
 */
module MixTypes {

  /** Sequence slots and carrier IDs (XDFEMIX_CC_NUM, XDFEMIX_SEQ_LENGTH_MAX). */
  const CC_NUM: nat := 16
  const SEQ_LENGTH_MAX: nat := 16
  /** Auxiliary NCOs follow the carrier NCOs in the NCO array. */
  const AUX_NCO_MAX: nat := 4
  const NCO_MAX: nat := 20
  const ANT_NUM_MAX: nat := 8

  /** The value of a sequence slot that no carrier occupies. */
  const SEQUENCE_ENTRY_NULL: int := -1
  /** Width of one NCO sub-block. */
  const NCO_LOW_SUB_BLOCK_SIZE: nat := 4

  /** A carrier whose rate is this value is not in use. */
  const CC_CONFIG_DISABLED: nat := 0
  const RATE_1X: nat := 1
  const RATE_2X: nat := 2
  const RATE_4X: nat := 3
  const RATE_8X: nat := 4
  const RATE_16X: nat := 5

  const AUXILIARY_ENABLE_DISABLED: nat := 0
  /** The per-antenna gain field is one bit wide. */
  const ONE_ANTENNA_GAIN_ZERODB: nat := 1

  /** Values of the mode model parameter. */
  const MODE_DOWNLINK: nat := 0
  const MODE_UPLINK: nat := 1
  const MODE_SWITCHABLE: nat := 2
  /** The largest tuser selection (XDFEMIX_SWITCHABLE_CONTROL_TUSER_SEL_UPLINK). */
  const TUSER_SEL_UPLINK: nat := 1

  datatype Status = Success | Failure

  datatype StateId = NotReady | Ready | Reset | Configured | Initialised | Operational

  /** The register bank selected in switchable mode. */
  datatype RegBank = Downlink | Uplink

  /** The IP core's model parameters, as read at configuration time. */
  datatype ModelParams = ModelParams(
    mode: nat,
    numAntenna: nat,
    maxUseableCcids: nat,
    lanes: nat,
    antennaInterleave: nat,
    mixerCps: nat,
    numAuxiliary: nat,
    dataIWidth: nat,
    dataOWidth: nat,
    tuserWidth: nat)

  /** Carrier descriptor: its NCO, its rate code (0 = disabled) and its gain. */
  datatype DUCDDCCfg = DUCDDCCfg(ncoIdx: nat, rate: nat, ccGain: nat)

  /** A carrier as a caller describes it. */
  datatype CarrierCfg = CarrierCfg(ducddc: DUCDDCCfg)

  datatype PhaseOffset = PhaseOffset(phaseOffset: nat)

  datatype Frequency = Frequency(
    frequencyControlWord: nat,
    singleModCount: nat,
    dualModCount: nat,
    phaseOffset: PhaseOffset)

  datatype Phase = Phase(phaseAcc: nat, dualModCount: nat, dualModSel: nat)

  /** NCO descriptor: frequency, phase and output gain. */
  datatype NCO = NCO(frequencyCfg: Frequency, phaseCfg: Phase, ncoGain: nat)

  datatype AuxiliaryCfg = AuxiliaryCfg(enable: nat, auxGain: nat)

  /** The gain bit of every antenna. */
  datatype AntennaCfg = AntennaCfg(gain: seq<nat>)

  /** One-time initialisation values. */
  datatype Init = Init(sequenceLength: nat, tuserSelect: nat)

  const ZeroDUCDDC := DUCDDCCfg(0, 0, 0)
  const ZeroNCO := NCO(Frequency(0, 0, 0, PhaseOffset(0)), Phase(0, 0, 0), 0)
  const ZeroAux := AuxiliaryCfg(0, 0)

  /** XDFEMIX_IS_ARCH4_MODE: two NCO sub-blocks, each limited to half the
      sequence. */
  predicate IsArch4(p: ModelParams)
  {
    p.maxUseableCcids == 8 && p.lanes > 1
  }

  /** XDFEMIX_IS_ARCH5_MODE: four NCO sub-blocks, each limited to a quarter. */
  predicate IsArch5(p: ModelParams)
  {
    p.maxUseableCcids == 16
  }

  predicate IsSwitchable(p: ModelParams)
  {
    p.mode == MODE_SWITCHABLE
  }
}
