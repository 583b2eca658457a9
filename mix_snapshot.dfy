/**
 * The carrier configuration snapshot (XDfeMix_CCCfg): the caller's private
 * copy of the sequence, the carrier and NCO descriptors, the auxiliary
 * NCOs and the antenna gains. The driver edits it in place and only a
 * commit writes it to the NEXT registers, so it is a class over arrays.
 */
module MixSnapshot {
  import opened MixBits
  import opened MixTypes
  import opened MixSequence
  import opened MixCapacity

  class CCCfg {
    /** Sequence.CCID: the carrier of each of the 16 slots, or -1. */
    const ccid: array<int>
    /** Sequence.Length: the slots in use, copied from the instance. */
    var length: nat
    /** Sequence.NotUsedCCID: the ID written into unused slot registers. */
    var notUsedCCID: int
    /** DUCDDCCfg: per carrier its NCO, its rate (0 = disabled) and gain. */
    const ducddc: array<DUCDDCCfg>
    /** NCO: the 16 carrier NCOs followed by the 4 auxiliary ones. */
    const nco: array<NCO>
    const aux: array<AuxiliaryCfg>
    var antennaCfg: AntennaCfg

    ghost predicate Valid()
      reads this
    {
      ccid.Length == CC_NUM && ducddc.Length == CC_NUM && nco.Length == NCO_MAX
      && aux.Length == AUX_NCO_MAX && length <= SEQ_LENGTH_MAX
      && |antennaCfg.gain| == ANT_NUM_MAX
    }

    /** XDfeMix_GetEmptyCCCfg's result: everything zero, every slot -1, the
        given sequence length. */
    constructor Empty(seqLength: nat)
      requires seqLength <= SEQ_LENGTH_MAX
      ensures Valid() && length == seqLength && notUsedCCID == 0
      ensures ccid[..] == seq(CC_NUM, i => SEQUENCE_ENTRY_NULL)
      ensures ducddc[..] == seq(CC_NUM, i => ZeroDUCDDC)
      ensures nco[..] == seq(NCO_MAX, i => ZeroNCO)
      ensures aux[..] == seq(AUX_NCO_MAX, i => ZeroAux)
      ensures antennaCfg == AntennaCfg(seq(ANT_NUM_MAX, i => 0))
      ensures fresh(ccid) && fresh(ducddc) && fresh(nco) && fresh(aux)
    {
      ccid := new int[CC_NUM](i => SEQUENCE_ENTRY_NULL);
      ducddc := new DUCDDCCfg[CC_NUM](i => ZeroDUCDDC);
      nco := new NCO[NCO_MAX](i => ZeroNCO);
      aux := new AuxiliaryCfg[AUX_NCO_MAX](i => ZeroAux);
      length := seqLength;
      notUsedCCID := 0;
      antennaCfg := AntennaCfg(seq(ANT_NUM_MAX, i => 0));
    }

    /** XDfeMix_GetNotUsedCCID: for each candidate ID from 0 up, scan the
        16 slots; stop at the first ID that no slot holds. */
    method GetNotUsedCCID() returns (r: int)
      requires ccid.Length == CC_NUM
      ensures r == NotUsed(ccid[..])
      ensures 0 <= r <= CC_NUM as int
    {
      var nu := 0;
      while nu < CC_NUM
        invariant 0 <= nu <= CC_NUM
        invariant forall j: int :: 0 <= j < nu ==> j in ccid[..]
      {
        var index := 0;
        while index < CC_NUM
          invariant 0 <= index <= CC_NUM
          invariant forall i :: 0 <= i < index ==> ccid[i] != nu
        {
          if ccid[index] == nu {
            break;
          }
          index := index + 1;
        }
        if index == CC_NUM {
          assert nu !in ccid[..];
          NotUsedFromIs(ccid[..], 0, nu);
          return nu;
        }
        assert ccid[..][index] == nu;
        nu := nu + 1;
      }
      NotUsedFromIs(ccid[..], 0, nu);
      r := nu;
    }

    /** The bitmap loop of XDfeMix_GetCarrierCfgAndNCO: bit i is set when
        slot i, below the snapshot's length, belongs to carrier c. */
    method SeqBitmap(c: int) returns (bitmap: nat)
      requires Valid()
      ensures bitmap == BitmapOf(ccid[..], length, c)
    {
      bitmap := 0;
      var mask := 1;
      var index := 0;
      while index < length
        invariant 0 <= index <= length
        invariant mask == Pow2(index)
        invariant bitmap == BitmapOf(ccid[..], index, c)
      {
        if ccid[index] == c {
          // bitmap |= mask, where bit index of bitmap is still clear
          bitmap := bitmap + mask;
        }
        mask := 2 * mask;
        index := index + 1;
      }
    }

    /** XDfeMix_GetCarrierCfgAndNCO: carrier c's slot bitmap, its descriptor
        (NCO index and gain copied into the caller's carrier, whose rate is
        left as it was) and the NCO it uses. */
    method GetCarrierCfgAndNCO(c: nat, carrier: CarrierCfg) returns (bitmap: nat, carrierOut: CarrierCfg, ncoOut: NCO)
      requires Valid() && c < CC_NUM && ducddc[c].ncoIdx < NCO_MAX
      ensures forall i: nat :: Bit(bitmap, i) <==> i < length && ccid[i] == c
      ensures bitmap == BitmapOf(ccid[..], length, c)
      ensures carrierOut.ducddc == carrier.ducddc.(ncoIdx := ducddc[c].ncoIdx, ccGain := ducddc[c].ccGain)
      ensures ncoOut == nco[ducddc[c].ncoIdx]
    {
      carrierOut := carrier.(ducddc := carrier.ducddc.(ncoIdx := ducddc[c].ncoIdx, ccGain := ducddc[c].ccGain));
      ncoOut := nco[ducddc[c].ncoIdx];
      bitmap := SeqBitmap(c);
      forall i: nat
        ensures Bit(bitmap, i) <==> i < length && ccid[i] == c
      {
        BitOfBitmap(ccid[..], length, c, i);
      }
    }

    /** XDfeMix_RemoveCCID: free carrier c's slots below the length and
        recompute the not-used ID. */
    method RemoveCCID(c: int)
      requires Valid()
      modifies ccid, `notUsedCCID
      ensures ccid[..] == Cleared(old(ccid[..]), length, c)
      ensures notUsedCCID == NotUsed(ccid[..])
    {
      var index := 0;
      while index < length
        invariant 0 <= index <= length
        invariant forall i :: 0 <= i < CC_NUM ==>
          ccid[i] == (if i < index && old(ccid[i]) == c then SEQUENCE_ENTRY_NULL else old(ccid[i]))
      {
        if ccid[index] == c {
          ccid[index] := SEQUENCE_ENTRY_NULL;
        }
        index := index + 1;
      }
      notUsedCCID := GetNotUsedCCID();
    }

    /** XDfeMix_RemoveCCfromCCCfg: free the carrier's slots and mark its
        descriptor disabled (rate 0). */
    method RemoveCCfromCCCfg(c: nat)
      requires Valid() && c < CC_NUM
      modifies ccid, ducddc, `notUsedCCID
      ensures ccid[..] == Cleared(old(ccid[..]), length, c)
      ensures notUsedCCID == NotUsed(ccid[..])
      ensures ducddc[..] == Disabled(old(ducddc[..]), c)
    {
      RemoveCCID(c);
      ducddc[c] := ducddc[c].(rate := CC_CONFIG_DISABLED);
    }

    /** XDfeMix_AddAuxNCOtoCCCfg: store the auxiliary NCO after the 16
        carrier NCOs and copy its enable and gain. */
    method AddAuxNCOtoCCCfg(auxId: nat, ncoCfg: NCO, auxCfg: AuxiliaryCfg)
      requires Valid() && auxId < AUX_NCO_MAX
      modifies nco, aux
      ensures nco[..] == old(nco[..])[CC_NUM + auxId := ncoCfg]
      ensures aux[..] == old(aux[..])[auxId := auxCfg]
    {
      nco[CC_NUM + auxId] := ncoCfg;
      aux[auxId] := auxCfg;
    }

    /** XDfeMix_RemoveAuxNCOfromCCCfg: disable the auxiliary NCO; its gain
        and its NCO stay as they were. */
    method RemoveAuxNCOfromCCCfg(auxId: nat)
      requires Valid() && auxId < AUX_NCO_MAX
      modifies aux
      ensures aux[..] == old(aux[..])[auxId := old(aux[auxId]).(enable := AUXILIARY_ENABLE_DISABLED)]
    {
      aux[auxId] := aux[auxId].(enable := AUXILIARY_ENABLE_DISABLED);
    }

    /** XDfeMix_SetAntennaCfgInCCCfg: replace the antenna gains. */
    method SetAntennaCfgInCCCfg(antenna: AntennaCfg)
      requires Valid() && |antenna.gain| == ANT_NUM_MAX
      modifies `antennaCfg
      ensures antennaCfg == antenna && Valid()
    {
      antennaCfg := antenna;
    }
  }

  /** Two snapshots that share no storage (the switchable calls fill one
      for each link). */
  ghost predicate Disjoint(a: CCCfg, b: CCCfg)
    reads a, b
  {
    a != b && a.ccid != b.ccid && a.ducddc != b.ducddc && a.nco != b.nco && a.aux != b.aux
  }
}
