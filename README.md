# DFE Mixer allocation engine and PLM partition-load bookkeeping, in Dafny

This project models two pieces of the Xilinx embedded software repository and
proves properties of them.

**The DFE Mixer driver's carrier allocation engine** (`xdfemix.c`):

- **Sequence algebra.** The 16-slot carrier sequence uses -1 for a free slot.
  The model places and clears a carrier's slots, finds the smallest unused
  carrier ID, and reads a carrier's slots back as a bitmap.
- **Rate detector.** It turns slot occupancy into a rate code (RATE_1X..RATE_16X).
- **NCO sub-block capacity checks.**
  - ARCH4 has two halves of 4 NCOs, each limited to 50% of the sequence.
  - ARCH5 has four blocks of 4 NCOs, each limited to 25% of the sequence.
  - For each, there is a check in add mode and one in move/update mode.
  - The configuration checks are built on top of these.
- **Snapshot (`XDfeMix_CCCfg`).** This is a class over arrays that the builder
  operations edit in place. It holds the sequence, the carrier descriptors, the
  NCOs, the auxiliary NCOs and the antenna gains.
- **Driver instance.** This is a class holding:
  - the state machine: Reset, Configure, Initialize, Activate, Deactivate;
  - the cached not-used carrier IDs;
  - abstract NEXT and CURRENT register banks;
  - the two hardware bits the driver's decisions read (CC_UPDATE triggered, and operational).
- **The commit path.** Committing translates the sequence into registers and
  back, and arms the update trigger. The cached not-used ID changes only when
  the trigger arms. The switchable variants work on both links and restore the
  register bank that was selected before.
- **Pure arithmetic.** The bit-field helpers, and the phase-offset derivation
  with its rounding.

**The platform loader's partition bookkeeping** (`xloader_prtn_load.c`):

- **The handoff-CPU table.** It is a bounded append with duplicate suppression.
- **The R5 TCM load-address fix-up.**
- **16-byte length rounding.**
- **Delay-load chunking** of a partition streamed from a non-addressable boot source.

Layout:

- `mix_types.dfy` (MixTypes): constants, records, architecture tests.
- `mix_bits.dfy` (MixBits): u32 values as naturals below 2^32, bits, popcount,
  bit fields, phase offset.
- `mix_sequence.dfy` (MixSequence): the sequence as a value, the sentinel
  translation to and from registers, the antenna-gain word.
- `mix_capacity.dfy` (MixCapacity): rate mapping, sub-block usage, the
  capacity and configuration checks as predicates, and the invariants they
  keep. It also holds the ARCH5 finding below.
- `mix_snapshot.dfy` (MixSnapshot): class `CCCfg` and its in-place operations.
- `mixer.dfy` (Mixer): class `Mixer`, the driver instance.
- `loader_prtn.dfy` (LoaderPrtn): the loader pieces. Class `Pdi` holds the handoff table.

Modelling choices:

- **u32 arithmetic.** u32 values are naturals. Wrap-around is written out where
  the source relies on it: the phase difference, and the byte length.
- **Two sequence lengths.**
  - The snapshot's `Sequence.Length` governs the bitmap overflow test, the slot
    loops and the bitmap read-out.
  - The instance's `SequenceLength` governs the ones count, the rate, the
    NCO-in-use scan, the register translation and the read-back.
  - The model keeps the two apart, as the code does.
- **Where the specification and the code differ, the model follows the code.**
  - `XDfeMix_CheckCarrierCfg` rejects an NCO held by any active carrier with an
    index below `SequenceLength`. This includes the carrier being updated, so
    updating a carrier's gain on its own NCO is refused.
  - Carriers with indices at or above `SequenceLength` are not scanned.
  - `NcoFreeRefusesOwnNco` and `NcoFreeSkipsHighIds` state these two facts.
  - The ARCH5 move/update check is modelled as written, and the instance's
    update path uses it. The rule as meant is modelled beside it as a
    separate predicate (see "## Findings").
- **Helper lemmas.** Lemmas without a row, such as `ScaleMono`, `TwoSlotsOnes` and `NotUsedFromIs`, are proof steps for the lemmas that have rows. They state nothing further about the source.
- **No table constructor in the loader.** `xloader_prtn_load.c` never
  creates or empties the handoff table. The `Pdi` constructor has no
  counterpart there: it stands for a PDI whose handoff table is still empty.

## Model

| member | source | states |
|---|---|---|
| MixBits.FitsInIffNoHighBit | XilinxProcessorIPLib/drivers/dfemix/src/xdfemix.c:727-733 | the overflow mask test (bitmap below 2^n) holds exactly when no bit at or above n is set |
| MixBits.OnesIsPopcount | XilinxProcessorIPLib/drivers/dfemix/src/xdfemix.c:308-321 | the ones count below n equals the number of set bit positions below n |
| MixBits.OnesBeyondFit | XilinxProcessorIPLib/drivers/dfemix/src/xdfemix.c:308-321 | a bitmap that fits in n bits has the same ones count over any longer length |
| MixBits.RdBitField | XilinxProcessorIPLib/drivers/dfemix/src/xdfemix.c:236-240 | the extracted field is below 2^width |
| MixBits.RdOfWr | XilinxProcessorIPLib/drivers/dfemix/src/xdfemix.c:236-264 | reading back a field just written gives the low width bits of the written value |
| MixBits.WrOfRd | XilinxProcessorIPLib/drivers/dfemix/src/xdfemix.c:236-264 | writing back a field just read leaves the word unchanged |
| MixBits.WrKeepsOtherBits | XilinxProcessorIPLib/drivers/dfemix/src/xdfemix.c:254-264 | writing a field leaves every bit of the word below its offset or at or above offset + width as it was |
| MixBits.WrBitFieldU32 | XilinxProcessorIPLib/drivers/dfemix/src/xdfemix.c:254-264 | writing a field of a u32 gives a u32, whatever the value written |
| MixBits.DerivePhaseOffsetRoundsHalfUp | XilinxProcessorIPLib/drivers/dfemix/src/xdfemix.c:1338-1353 | the offset is the 32-bit wrapped difference of the accumulators divided by 2^14 and rounded half up (bit 13), and it stays a u32 |
| MixBits.DerivePhaseOffsetExamples | XilinxProcessorIPLib/drivers/dfemix/src/xdfemix.c:1338-1353 | one unit, a half unit rounding up, and a negative difference wrapping to 0x3FFFF |
| MixSequence.NotUsedFrom | XilinxProcessorIPLib/drivers/dfemix/src/xdfemix.c:278-297 | the result is absent from the sequence (or 16), and every smaller candidate is present |
| MixSequence.BitOfBitmap | XilinxProcessorIPLib/drivers/dfemix/src/xdfemix.c:2379-2385 | bit i of a carrier's bitmap is set iff slot i is below the length and holds that carrier |
| MixSequence.OnesOfBitmap | XilinxProcessorIPLib/drivers/dfemix/src/xdfemix.c:2379-2385 | the ones count of a carrier's bitmap is the number of its slots |
| MixSequence.PlacedCount | XilinxProcessorIPLib/drivers/dfemix/src/xdfemix.c:762-771 | a carrier placed into slots it did not hold ends up holding exactly as many slots as the bitmap has ones |
| MixSequence.BitmapOfPlaced | XilinxProcessorIPLib/drivers/dfemix/src/xdfemix.c:762-771 | reading back a placed carrier's bitmap gives the bitmap that placed it |
| MixSequence.BitmapOfPlacedOther | XilinxProcessorIPLib/drivers/dfemix/src/xdfemix.c:762-771 | placing one carrier into free slots does not change any other carrier's bitmap |
| MixSequence.ClearedPlaced | XilinxProcessorIPLib/drivers/dfemix/src/xdfemix.c:786-799 | removing a freshly placed carrier restores the sequence |
| MixSequence.BitmapOfCleared | XilinxProcessorIPLib/drivers/dfemix/src/xdfemix.c:786-799 | after removal the carrier has no slot and every other carrier keeps its bitmap |
| MixSequence.PlacedWellFormed | XilinxProcessorIPLib/drivers/dfemix/src/xdfemix.c:762-771 | placing a valid ID keeps every slot -1 or a carrier ID below 16 |
| MixSequence.ClearedWellFormed | XilinxProcessorIPLib/drivers/dfemix/src/xdfemix.c:786-799 | clearing keeps every slot -1 or a carrier ID below 16 |
| MixSequence.SeqToRegsRange | XilinxProcessorIPLib/drivers/dfemix/src/xdfemix.c:1037-1045 | with the not-used ID as sentinel, every value written to a slot register is in 0..16 |
| MixSequence.SentinelRoundTrip | XilinxProcessorIPLib/drivers/dfemix/src/xdfemix.c:1037-1045 | translating a sequence to registers with its not-used ID and back yields the sequence with slots beyond the length freed |
| MixSequence.SentinelStaleId | XilinxProcessorIPLib/drivers/dfemix/src/xdfemix.c:2196-2203 | read back with a sentinel that is also a live carrier ID, that carrier's slot comes back as free |
| MixSequence.AntennaSumBits | XilinxProcessorIPLib/drivers/dfemix/src/xdfemix.c:1107-1111 | for 0/1 gains, bit i of the packed word is exactly gain i |
| MixSequence.AntennaRoundTrip | XilinxProcessorIPLib/drivers/dfemix/src/xdfemix.c:2265-2270 | for 0/1 gains, unpacking the packed antenna word gives the gains back |
| MixSequence.AntennaWideGain | XilinxProcessorIPLib/drivers/dfemix/src/xdfemix.c:1107-1111 | a gain value of 2 is added into the word unmasked and reads back as antenna 1 set and antenna 0 clear |
| MixCapacity.RateOfRatioIsLog | XilinxProcessorIPLib/drivers/dfemix/src/xdfemix.c:857-882 | a ratio maps to a rate exactly when it is 1, 2, 4, 8 or 16, and then the rate code is 1 + log2 of the ratio |
| MixCapacity.FoundRate | XilinxProcessorIPLib/drivers/dfemix/src/xdfemix.c:827-882 | an accepted bitmap yields rate 0 exactly when it has no ones, and never more than RATE_16X |
| MixCapacity.FindRateExamples | XilinxProcessorIPLib/drivers/dfemix/src/xdfemix.c:827-882 | four slots in sixteen give RATE_4X, and three slots are refused |
| MixCapacity.MoveBlock | XilinxProcessorIPLib/drivers/dfemix/src/xdfemix.c:440-489 | a move is checked against a block exactly when that block is the destination and differs from the current one; the ARCH4 arm is the code at the cited lines, the ARCH5 arm is the corrected rule of the finding below |
| MixCapacity.UsageAfterAdd | XilinxProcessorIPLib/drivers/dfemix/src/xdfemix.c:338-370 | adding an enabled carrier in free slots raises its block's usage by its bitmap's ones and leaves other blocks alone |
| MixCapacity.UsageAfterMove | XilinxProcessorIPLib/drivers/dfemix/src/xdfemix.c:338-370 | moving a carrier changes usage only by its old share leaving and its new share arriving |
| MixCapacity.UsageAfterRemove | XilinxProcessorIPLib/drivers/dfemix/src/xdfemix.c:338-370 | removing a carrier lowers usage by exactly its share |
| MixCapacity.AddKeepsWithin | XilinxProcessorIPLib/drivers/dfemix/src/xdfemix.c:388-423 | an add that passes the capacity check keeps every block within its limit |
| MixCapacity.AddKeepsCoherent | XilinxProcessorIPLib/drivers/dfemix/src/xdfemix.c:2443-2484 | adding keeps "a disabled carrier owns no slot" |
| MixCapacity.MoveKeepsWithin | XilinxProcessorIPLib/drivers/dfemix/src/xdfemix.c:440-489 | a move that passes the move check keeps every block within its limit; for ARCH4 this is the code at the cited lines, for ARCH5 it holds for the corrected rule only (see Findings) |
| MixCapacity.RemoveKeepsWithin | XilinxProcessorIPLib/drivers/dfemix/src/xdfemix.c:2499-2510 | removing a carrier keeps the limits and keeps "a disabled carrier owns no slot" |
| MixCapacity.AddThenRemove | XilinxProcessorIPLib/drivers/dfemix/src/xdfemix.c:2443-2510 | add followed by remove restores the sequence and which carriers are enabled |
| MixCapacity.AcceptedAddKeepsInvariant | XilinxProcessorIPLib/drivers/dfemix/src/xdfemix.c:1652-1683 | a carrier the add path accepts leaves the snapshot within the limits and coherent |
| MixCapacity.AcceptedUpdateKeepsInvariant | XilinxProcessorIPLib/drivers/dfemix/src/xdfemix.c:1701-1724 | an update the corrected update check accepts (ARCH5 move rule as meant) leaves the snapshot within the limits and coherent |
| MixCapacity.AsWrittenUpdateKeepsInvariant | XilinxProcessorIPLib/drivers/dfemix/src/xdfemix.c:1701-1724 | on ARCH4 and unchecked cores, an update the update check as written accepts leaves the snapshot within the limits and coherent (on ARCH5 it need not: Arch5MoveAsWrittenBreaksWithin) |
| MixCapacity.NcoFreeRefusesOwnNco | XilinxProcessorIPLib/drivers/dfemix/src/xdfemix.c:1622-1631 | an active carrier's own NCO never counts as free, so it cannot be re-selected |
| MixCapacity.NcoFreeSkipsHighIds | XilinxProcessorIPLib/drivers/dfemix/src/xdfemix.c:1622-1631 | an NCO held by a carrier with an index at or above the sequence length counts as free |
| MixCapacity.UsageOneCarrier | XilinxProcessorIPLib/drivers/dfemix/src/xdfemix.c:338-370 | one carrier on NCO 0 holding the first n slots uses n in block 0 |
| MixCapacity.Arch4AddThreshold | XilinxProcessorIPLib/drivers/dfemix/src/xdfemix.c:388-423 | with 7 slots used in a half, one more fits in 16; with 8 used, it does not |
| MixCapacity.Arch5AddThreshold | XilinxProcessorIPLib/drivers/dfemix/src/xdfemix.c:567-614 | with 3 slots used in a block, one more fits in 16; with 4 used, it does not |
| MixCapacity.Arch5MoveAsWrittenChecksBlock3 | XilinxProcessorIPLib/drivers/dfemix/src/xdfemix.c:659-683 | as written, a move from NCO 0 to 5 is checked against block 3 instead of 1, and a move from 12 to 13 is checked at all |
| MixCapacity.Arch5MoveAsWrittenAccepts | XilinxProcessorIPLib/drivers/dfemix/src/xdfemix.c:631-695 | the move check as written accepts a move that the corrected check refuses |
| MixCapacity.Arch5MoveAsWrittenBreaksWithin | XilinxProcessorIPLib/drivers/dfemix/src/xdfemix.c:631-695 | that accepted move leaves block 1 over its 25% limit |
| MixCapacity.Arch5MoveAsWrittenRefusesSameBlock | XilinxProcessorIPLib/drivers/dfemix/src/xdfemix.c:631-695 | as written, a move inside block 3 that changes no usage is refused |
| MixSnapshot.CCCfg.Empty | XilinxProcessorIPLib/drivers/dfemix/src/xdfemix.c:2329-2343 | an empty snapshot has every slot free, all descriptors zero and the given length |
| MixSnapshot.CCCfg.GetNotUsedCCID | XilinxProcessorIPLib/drivers/dfemix/src/xdfemix.c:278-297 | returns the smallest ID in 0..15 that no slot holds, or 16 |
| MixSnapshot.CCCfg.SeqBitmap | XilinxProcessorIPLib/drivers/dfemix/src/xdfemix.c:2379-2385 | the loop builds the carrier's bitmap over the snapshot's length |
| MixSnapshot.CCCfg.GetCarrierCfgAndNCO | XilinxProcessorIPLib/drivers/dfemix/src/xdfemix.c:2360-2386 | bit i is set iff slot i is below the length and holds the carrier; copies the NCO index and gain, keeps the caller's rate, returns the carrier's NCO |
| MixSnapshot.CCCfg.RemoveCCID | XilinxProcessorIPLib/drivers/dfemix/src/xdfemix.c:786-799 | frees exactly the carrier's slots below the length and recomputes the not-used ID |
| MixSnapshot.CCCfg.RemoveCCfromCCCfg | XilinxProcessorIPLib/drivers/dfemix/src/xdfemix.c:2499-2510 | frees the carrier's slots, recomputes the not-used ID and sets only its rate to 0 |
| MixSnapshot.CCCfg.AddAuxNCOtoCCCfg | XilinxProcessorIPLib/drivers/dfemix/src/xdfemix.c:2524-2538 | stores the NCO at index 16 + aux ID and the auxiliary configuration, nothing else |
| MixSnapshot.CCCfg.RemoveAuxNCOfromCCCfg | XilinxProcessorIPLib/drivers/dfemix/src/xdfemix.c:2552-2561 | clears only that auxiliary NCO's enable |
| MixSnapshot.CCCfg.SetAntennaCfgInCCCfg | XilinxProcessorIPLib/drivers/dfemix/src/xdfemix.c:2398-2407 | replaces the antenna gains |
| Mixer.CommitThenReadBack | XilinxProcessorIPLib/drivers/dfemix/src/xdfemix.c:1026-1112 | a committed snapshot read back gives the sequence (cut to the length), the descriptors, the auxiliary NCOs and the 0/1 gains; the descriptor and auxiliary clauses hold because the registers are abstract records, so this is not a field-width round trip |
| Mixer.SeqLengthRegAmbiguous | XilinxProcessorIPLib/drivers/dfemix/src/xdfemix.c:1052-1057 | the length register holds length - 1, so lengths 0 and 1 write the same value |
| Mixer.Mixer.constructor | XilinxProcessorIPLib/drivers/dfemix/src/xdfemix.c:1835 | a new instance is in state Ready with the given hardware parameters |
| Mixer.Mixer.Reset | XilinxProcessorIPLib/drivers/dfemix/src/xdfemix.c:1883-1891 | asserts reset and moves to state Reset |
| Mixer.Mixer.Configure | XilinxProcessorIPLib/drivers/dfemix/src/xdfemix.c:1903-1987 | releases reset, caches and returns the model parameters, moves to Configured |
| Mixer.Mixer.Initialize | XilinxProcessorIPLib/drivers/dfemix/src/xdfemix.c:2000-2041 | sets the sequence length, zeroes the not-used IDs, enables FIR and mixer; only a switchable core takes the TUSER select and selects the downlink bank |
| Mixer.Mixer.Activate | XilinxProcessorIPLib/drivers/dfemix/src/xdfemix.c:2052-2084 | a no-op when already operational; otherwise arms the activate (and optionally low-power and switch) triggers and moves to Operational |
| Mixer.Mixer.Deactivate | XilinxProcessorIPLib/drivers/dfemix/src/xdfemix.c:2094-2124 | a no-op when not operational; otherwise arms deactivation and moves to Initialised |
| Mixer.Mixer.SetRegBank | XilinxProcessorIPLib/drivers/dfemix/src/xdfemix.c:3613-3621 | changes only the selected register bank |
| Mixer.Mixer.CountOnesInBitmap | XilinxProcessorIPLib/drivers/dfemix/src/xdfemix.c:308-321 | returns the number of set bits below the instance's sequence length |
| Mixer.Mixer.AddCCIDAndTranslateSeq | XilinxProcessorIPLib/drivers/dfemix/src/xdfemix.c:720-774 | succeeds iff the bitmap fits the snapshot length, has 0/1/2/4/8/16 ones and selects only free slots; then places the carrier and recomputes the not-used ID, else changes nothing |
| Mixer.Mixer.FindRate | XilinxProcessorIPLib/drivers/dfemix/src/xdfemix.c:817-884 | succeeds iff the bitmap is accepted by the rate rule, and then returns the rate it determines |
| Mixer.Mixer.SetCCDDC | XilinxProcessorIPLib/drivers/dfemix/src/xdfemix.c:902-927 | succeeds iff the NCO index is usable and a rate is found; then stores NCO, rate and gain for the carrier, else nothing changes |
| Mixer.Mixer.UpdateCCDDC | XilinxProcessorIPLib/drivers/dfemix/src/xdfemix.c:944-958 | succeeds iff the NCO index is usable; then stores NCO and gain and keeps the rate |
| Mixer.Mixer.NCOArch4Mode | XilinxProcessorIPLib/drivers/dfemix/src/xdfemix.c:338-370 | returns the slot usage of enabled carriers in each half |
| Mixer.Mixer.NCOArch5Mode | XilinxProcessorIPLib/drivers/dfemix/src/xdfemix.c:508-549 | returns the slot usage of enabled carriers in each of the four blocks |
| Mixer.Mixer.NCOArch4ModeInAddCC | XilinxProcessorIPLib/drivers/dfemix/src/xdfemix.c:388-423 | succeeds iff twice the destination half's usage plus the new ones is at most the length |
| Mixer.Mixer.NCOArch5ModeInAddCC | XilinxProcessorIPLib/drivers/dfemix/src/xdfemix.c:567-614 | succeeds iff four times the destination block's usage plus the new ones is at most the length (every NCO from 12 up counts in block 3) |
| Mixer.Mixer.NCOArch4ModeInMoveOrUpdateCC | XilinxProcessorIPLib/drivers/dfemix/src/xdfemix.c:440-489 | succeeds without a check inside one half; otherwise checks the destination half with the carrier's own ones |
| Mixer.Mixer.NCOArch5ModeInMoveOrUpdateCC | XilinxProcessorIPLib/drivers/dfemix/src/xdfemix.c:631-695 | succeeds iff the check as written passes: the first block k in 0..2 with NCOIdx < 4(k+1) <= old NCOIdx, else block 3 for any NCOIdx below 16, gets the carrier's ones added and must stay within 25%; NCOIdx from 16 up is accepted |
| Mixer.Mixer.CheckCarrierCfg | XilinxProcessorIPLib/drivers/dfemix/src/xdfemix.c:1608-1633 | succeeds iff the NCO index is below the usable count and no active carrier below the sequence length holds it |
| Mixer.Mixer.CheckCarrierCfginAddCC | XilinxProcessorIPLib/drivers/dfemix/src/xdfemix.c:1652-1683 | succeeds iff the carrier is disabled, the NCO is free and the architecture's add check passes |
| Mixer.Mixer.CheckCarrierCfgInUpdateCC | XilinxProcessorIPLib/drivers/dfemix/src/xdfemix.c:1701-1724 | succeeds iff the NCO is free and the architecture's move check passes, with the ARCH5 rule as written |
| Mixer.Mixer.GetEmptyCCCfg | XilinxProcessorIPLib/drivers/dfemix/src/xdfemix.c:2329-2343 | returns a fresh empty snapshot with the instance's sequence length, every slot free and the descriptors, NCOs, auxiliary NCOs, antenna gains and not-used ID all zero |
| Mixer.Mixer.AddCCtoCCCfg | XilinxProcessorIPLib/drivers/dfemix/src/xdfemix.c:2443-2484 | succeeds iff the checks pass, the slots are placed and a rate is found; the sequence changes only after the checks and placement pass; on success the descriptor and NCO are stored; on failure they are untouched |
| Mixer.Mixer.UpdateCCinCCCfg | XilinxProcessorIPLib/drivers/dfemix/src/xdfemix.c:2583-2608 | succeeds iff the update checks pass (ARCH5 rule as written); then moves the carrier to the new NCO and gain, else changes nothing |
| Mixer.Mixer.SetNextCCCfg | XilinxProcessorIPLib/drivers/dfemix/src/xdfemix.c:1026-1112 | the selected NEXT bank receives the translated sequence, length, descriptors, auxiliary NCOs and (except on a switchable uplink) antenna gains; the other bank is unchanged |
| Mixer.Mixer.EnableCCUpdateTrigger | XilinxProcessorIPLib/drivers/dfemix/src/xdfemix.c:1447-1468 | fails and changes nothing iff CC_UPDATE is already triggered; otherwise arms it |
| Mixer.Mixer.SetNextCCCfgAndTrigger | XilinxProcessorIPLib/drivers/dfemix/src/xdfemix.c:2624-2645 | commits the snapshot, and caches its not-used ID exactly when the trigger arms; the auxiliary NCOs are as `XDfeMix_SetNextCCCfg` writes them (see "## Left out") |
| Mixer.Mixer.CommitBothBanks | XilinxProcessorIPLib/drivers/dfemix/src/xdfemix.c:2745-2759 | the downlink snapshot goes to the downlink bank with antenna gains, the uplink one to the uplink bank without |
| Mixer.Mixer.SetNextCCCfgAndTriggerSwitchable | XilinxProcessorIPLib/drivers/dfemix/src/xdfemix.c:2728-2778 | commits both links, caches both not-used IDs exactly when the trigger arms, and restores the selected bank; the auxiliary NCOs are as `XDfeMix_SetNextCCCfg` writes them (see "## Left out") |
| Mixer.Mixer.ReadSequence | XilinxProcessorIPLib/drivers/dfemix/src/xdfemix.c:2185-2203 | the snapshot's sequence is the register sequence with the sentinel and slots beyond the length translated to -1 |
| Mixer.Mixer.ReadDescriptors | XilinxProcessorIPLib/drivers/dfemix/src/xdfemix.c:2205-2263 | the descriptors, auxiliary NCOs and NCOs are copied from the registers |
| Mixer.Mixer.GetCurrentCCCfgLocal | XilinxProcessorIPLib/drivers/dfemix/src/xdfemix.c:2177-2271 | the snapshot is the read-back of the selected CURRENT bank |
| Mixer.Mixer.GetCurrentCCCfg | XilinxProcessorIPLib/drivers/dfemix/src/xdfemix.c:2154-2162 | reads back the CURRENT bank using the cached not-used ID |
| Mixer.Mixer.ReadBank | XilinxProcessorIPLib/drivers/dfemix/src/xdfemix.c:2304-2312 | selects a bank and reads it back with the given not-used ID |
| Mixer.Mixer.GetCurrentCCCfgSwitchable | XilinxProcessorIPLib/drivers/dfemix/src/xdfemix.c:2288-2316 | reads back both links each with its own not-used ID and restores the selected bank |
| LoaderPrtn.DstnField | lib/sw_services/xilloader/src/xloader_prtn_load.c:436-437 | the destination-CPU field is a multiple of 0x100 within the mask 0xF00 |
| LoaderPrtn.DstnOfCpuSettings | lib/sw_services/xilloader/src/xloader_prtn_load.c:402-405 | masking the stored CPU settings gives back the partition's destination CPU |
| LoaderPrtn.NewEntry | lib/sw_services/xilloader/src/xloader_prtn_load.c:402-407 | a new table entry records the partition's destination CPU |
| LoaderPrtn.UpdatedKeepsTableOk | lib/sw_services/xilloader/src/xloader_prtn_load.c:380-415 | the table never holds more than the maximum, never lists a CPU twice, and lists only handoff CPUs |
| LoaderPrtn.UpdatedIdempotent | lib/sw_services/xilloader/src/xloader_prtn_load.c:380-415 | updating with the same partition twice equals updating once |
| LoaderPrtn.UpdatedLists | lib/sw_services/xilloader/src/xloader_prtn_load.c:380-415 | afterwards the CPU is listed iff it was listed before, or it is a handoff CPU and the table had room |
| LoaderPrtn.Pdi.CheckHandoffCpu | lib/sw_services/xilloader/src/xloader_prtn_load.c:428-445 | succeeds iff no stored entry's masked CPU equals the CPU |
| LoaderPrtn.Pdi.UpdateHandoffParam | lib/sw_services/xilloader/src/xloader_prtn_load.c:380-415 | fails with the handoff-count error iff a new handoff CPU meets a full table; appends the entry at the old count and increments it once; otherwise changes nothing |
| LoaderPrtn.GetLoadAddr | lib/sw_services/xilloader/src/xloader_prtn_load.c:818-873 | fails iff a TCM-relative address has a length beyond the window; then leaves the address alone, else adds the R5 TCM base or nothing |
| LoaderPrtn.TranslatedInTcm | lib/sw_services/xilloader/src/xloader_prtn_load.c:823-869 | a translated TCM-relative address lies in that core's global TCM window: three banks from the core's base for one core, four for the lock-step pair |
| LoaderPrtn.TcmWindowsDisjoint | lib/sw_services/xilloader/src/xloader_prtn_load.c:823-850 | no address is in both the R5_0 and the R5_1 global TCM windows |
| LoaderPrtn.ByteLen | lib/sw_services/xilloader/src/xloader_prtn_load.c:769 | the byte length is a u32 and a multiple of 4, and it is the exact product of the word count and 4 whenever that product fits in 32 bits |
| LoaderPrtn.AlignedLenIsLeastMultiple | lib/sw_services/xilloader/src/xloader_prtn_load.c:769-776 | without overflow, the rounded length is a multiple of 16 between the byte length and the byte length + 15 |
| LoaderPrtn.AlignedLenIsLeast | lib/sw_services/xilloader/src/xloader_prtn_load.c:769-776 | without overflow, every multiple of 16 at or above the byte length is at least the rounded length |
| LoaderPrtn.AlignedLenWraps | lib/sw_services/xilloader/src/xloader_prtn_load.c:769-776 | near 2^30 words the u32 arithmetic wraps and the rounded length becomes 0 |
| LoaderPrtn.PlanCovers | lib/sw_services/xilloader/src/xloader_prtn_load.c:716-731 | the chunk lengths add up to the whole length |
| LoaderPrtn.PlanChunks | lib/sw_services/xilloader/src/xloader_prtn_load.c:716-731 | every chunk is non-empty and at most CHUNK_SIZE, and all but the last are exactly CHUNK_SIZE |
| LoaderPrtn.PlanContiguous | lib/sw_services/xilloader/src/xloader_prtn_load.c:716-731 | chunks start at the source address and each begins where the previous one ended |
| LoaderPrtn.PlanCount | lib/sw_services/xilloader/src/xloader_prtn_load.c:716-731 | the number of chunks is the length divided by CHUNK_SIZE, rounded up |
| LoaderPrtn.DelayLoad | lib/sw_services/xilloader/src/xloader_prtn_load.c:711-731 | only JTAG, SBI, SMAP and PCIe stream; the copies issued are a prefix of the chunk plan; success means all of it was copied; failure means the last copy failed and all before it succeeded |
| LoaderPrtn.DelayLoadCopiesAll | lib/sw_services/xilloader/src/xloader_prtn_load.c:716-731 | a completed delay load transferred the whole length in chunks of at most CHUNK_SIZE |

## Left out

- Register I/O (libmetal reads and writes), register offsets and field widths: the NEXT and CURRENT banks are abstract records; the two hardware bits are fields only the environment changes.
- Device registration, lookup and the global instance table (`XDfeMix_InstanceInit`, `XDfeMix_InstanceClose`): platform plumbing; the constructor stands for the Ready state it produces.
- `XDfeMix_SetNCORegisters` and the NCO frequency, phase and gain register helpers: register-level writes; the auxiliary write uses an uninitialised value and one address for every auxiliary NCO, so its effect is not modelled. `XDfeMix_SetNextCCCfgAndTrigger` and its switchable variant call it after `XDfeMix_SetNextCCCfg`. As a result, those two methods' auxiliary-NCO postconditions, and the auxiliary clause of `CommitThenReadBack`, describe what `XDfeMix_SetNextCCCfg` writes, not the final NEXT register state. In the source, all four auxiliary NCOs are written to the same NEXT register, so it ends up holding the last one.
- `XDfeMix_SetPLMixerDelay` and the trigger helpers other than CC_UPDATE: register writes without decision logic; their effect is the trigger record.
- Trigger configuration get/set, DUC/DDC and mixer status, version, TUSER and TDATA delay and centre-tap lookups: read-outs with no decision logic.
- The deprecated one-shot `XDfeMix_AddCC`, `RemoveCC`, `MoveCC` and `UpdateCC`: they duplicate the builder-plus-commit path and depend on hardware phase capture.
- `XDfeMix_SetAntennaGain` and `XDfeMix_UpdateAntennaCfg`: read-modify-write of the CURRENT registers followed by a commit; not part of the builder core.
- Hardware double-buffering timing and trigger sampling: concurrency between hardware and software; only the software-side failure (CC_UPDATE already triggered) is modelled.
- `xdfemix_hw.h`, `xilpdi.h` and `xloader.h` are not part of this model; the named constants take the values of those headers (RATE_1X..RATE_16X = 1..5, destination-CPU mask 0xF00, CPU codes 0x100..0x800, A72 execution-state mask 0x8, HIVEC mask 0x800000, 10 handoff CPUs, TCM bank 0x10000, TCM-B at 0x20000, R5_0 and R5_1 TCM bases 0xFFE00000 and 0xFFE90000, DMA alignment 16, chunk 0x10000).
- Requirements the driver asserts or assumes and does not handle: sequence length at most 16, a non-zero MixerCps, at most 16 usable CCIDs, an NCO index below 20 when reading a carrier's NCO, a partition number below the header count.
- Loader DMA and device copy, secure copy, CDO and ELF processing, XPm power calls, ATF handoff, printing and timers: I/O and platform calls. The device copy is a parameter `copy` of the delay-load model.
- The PdiSrc/DeviceCopy swap-and-restore in `XLoader_ProcessPrtn`: state of the platform, not of the bookkeeping.
- Mixer.Mixer.GetCurrentCCCfgSwitchable: requires the downlink and uplink snapshots to be distinct objects, a framing need; the source also accepts one snapshot passed twice, where the uplink read overwrites the downlink one, and the model does not cover that call.
- u64 load and source addresses are unbounded naturals; no 64-bit overflow is modelled.
- LoaderPrtn.AlignedLenIsLeastMultiple: states the least-multiple property only where `UnEncDataWordLen*4 + 16` does not overflow u32; the wrapped case is shown separately by AlignedLenWraps.

## Findings

| source | as written | input that shows it | evidently intended | confidence | as-written member | corrected member |
|---|---|---|---|---|---|---|
| XilinxProcessorIPLib/drivers/dfemix/src/xdfemix.c:659-683 | in ARCH5 move/update mode, a move to a higher block or within a block falls through to the `NCOIdx < 16` branch and is checked against block 3's usage | sequence length 4; carrier 0 on NCO 0 in slot 0, carrier 1 on NCO 4 in slot 1; move carrier 0 to NCO 5: accepted, and block 1 then holds 2 of 4 slots (2*4 > 4); a move from NCO 12 to 13 is refused though it changes no usage | check the destination block, with the carrier's own ones, exactly when the block changes, as the ARCH4 variant does | not executed | MixCapacity.Arch5MoveBlockAsWritten, Mixer.Mixer.NCOArch5ModeInMoveOrUpdateCC, MixCapacity.Arch5MoveAsWrittenAccepts, MixCapacity.Arch5MoveAsWrittenBreaksWithin, MixCapacity.Arch5MoveAsWrittenRefusesSameBlock | MixCapacity.Arch5MoveBlock, MixCapacity.MoveKeepsWithin, MixCapacity.AcceptedUpdateKeepsInvariant |
