/**
 Properties of the AU915-928 band: the shape of its tables, the behaviour
 of the RX1 derivations, and the consistency between the tables.
 */
module AU915928Properties {
  import opened BandTypes
  import opened AU915928

  // ----- Channel tables -----

  /**
   Uplink entry i < 64 lies on the 200 kHz grid from 915.2 MHz with DR0-DR3;
   entry 64 + j lies on the 1.6 MHz grid from 915.9 MHz with DR4; within
   each block the frequencies strictly increase.
   */
  lemma UplinkChannelTableShape()
    ensures forall i :: 0 <= i < 64 ==>
      UplinkChannelTable()[i].frequency == 915200000 + 200000 * i
      && UplinkChannelTable()[i].dataRateIndexes == [0, 1, 2, 3]
    ensures forall j :: 0 <= j < 8 ==>
      UplinkChannelTable()[64 + j].frequency == 915900000 + 1600000 * j
      && UplinkChannelTable()[64 + j].dataRateIndexes == [4]
    ensures forall i, k :: 0 <= i < k < 64 ==>
      UplinkChannelTable()[i].frequency < UplinkChannelTable()[k].frequency
    ensures forall i, k :: 64 <= i < k < 72 ==>
      UplinkChannelTable()[i].frequency < UplinkChannelTable()[k].frequency
  {
    var t := UplinkChannelTable();
    forall i | 0 <= i < 64 ensures t[i] == UplinkGrid200k(i) { }
    forall j | 0 <= j < 8
      ensures t[64 + j].frequency == 915900000 + 1600000 * j && t[64 + j].dataRateIndexes == [4]
    {
      assert t[64 + j] == UplinkGrid1600k(j);
    }
  }

  /** Downlink entry i lies on the 600 kHz grid from 923.3 MHz with DR8-DR13; frequencies strictly increase. */
  lemma DownlinkChannelTableShape()
    ensures forall i :: 0 <= i < 8 ==>
      DownlinkChannelTable()[i].frequency == 923300000 + 600000 * i
      && DownlinkChannelTable()[i].dataRateIndexes == [8, 9, 10, 11, 12, 13]
    ensures forall i, k :: 0 <= i < k < 8 ==>
      DownlinkChannelTable()[i].frequency < DownlinkChannelTable()[k].frequency
  {
  }

  // ----- Data-rate and TX offset tables -----

  /** The data-rate table has 16 slots, and exactly slots 7, 14 and 15 are RFU. */
  lemma DataRateTableSlots()
    ensures |DataRateTable| == 16
    ensures forall k :: 0 <= k < 16 ==> (IsRFU(DataRateTable[k]) <==> k == 7 || k == 14 || k == 15)
  {
  }

  /** Offsets -2*i for power indexes 0..14, strictly decreasing, and index 15 left at 0. */
  lemma TxOffsetTableShape()
    ensures forall i :: 0 <= i < 15 ==> TxOffsetTable()[i] == -2 * i
    ensures TxOffsetTable()[15] == 0
    ensures forall i, k :: 0 <= i < k < 15 ==> TxOffsetTable()[k] < TxOffsetTable()[i]
  {
  }

  // ----- RX1 channel -----

  /**
   Every uplink channel maps to one of the 8 downlink channels, and the
   j-th channel of the 1.6 MHz-grid block (index 64 + j) maps to downlink channel j.
   */
  lemma Rx1ChannelCoversUplink()
    ensures forall k: uint32 :: k < 72 ==>
      Rx1Channel(k).Ok? && (Rx1Channel(k).value as int) < |DownlinkChannelTable()|
    ensures forall j: uint32 :: j < 8 ==> Rx1Channel(64 + j) == Ok(j)
  {
    forall j: uint32 | j < 8 ensures Rx1Channel(64 + j) == Ok(j) {
      assert (64 + j) % 8 == j;
    }
  }

  // ----- RX1 data rate -----

  /** Clamp x into [lo, hi]: the reference definition Rx1DataRate is measured against. */
  function Clamp(x: int, lo: int, hi: int): (r: int)
    requires lo <= hi
    ensures lo <= r <= hi
    ensures lo <= x <= hi ==> r == x
    ensures x < lo ==> r == lo
    ensures x > hi ==> r == hi
  {
    if x < lo then lo else if x > hi then hi else x
  }

  /**
   On valid parameters the uint32 computation of `idx + 8 - offset` does not
   wrap (its least value is 3), the result is that value clamped to [8, 13],
   and the boolean argument makes no difference.
   */
  lemma Rx1DataRateIsClamped(idx: uint32, offset: uint32, flag: bool)
    requires idx <= 6 && offset <= 5
    ensures Sub32(Add32(idx, 8), offset) as int == idx as int + 8 - offset as int >= 3
    ensures Rx1DataRate(idx, offset, flag) == Ok(Clamp(idx as int + 8 - offset as int, 8, 13) as uint32)
    ensures Rx1DataRate(idx, offset, flag) == Rx1DataRate(idx, offset, !flag)
  {
  }

  /** The worked examples of the RX1 data-rate table, and the order of the two parameter checks. */
  lemma Rx1DataRateExamples()
    ensures Rx1DataRate(0, 0, false) == Ok(8)
    ensures Rx1DataRate(6, 0, false) == Ok(13)
    ensures Rx1DataRate(0, 5, false) == Ok(8)
    ensures Rx1DataRate(3, 2, false) == Ok(9)
    ensures Rx1DataRate(7, 0, false) == Err(LoRaWANParametersInvalid(DataRateIndexTooHigh))
    ensures Rx1DataRate(0, 6, false) == Err(LoRaWANParametersInvalid(OffsetTooHigh))
    ensures Rx1DataRate(7, 6, true) == Err(LoRaWANParametersInvalid(DataRateIndexTooHigh))
  {
  }

  /** A faster uplink data rate never gives a slower RX1 rate; a larger offset never gives a faster one. */
  lemma Rx1DataRateMonotone(idx: uint32, idx': uint32, offset: uint32, offset': uint32, flag: bool)
    requires idx <= idx' <= 6 && offset' <= offset <= 5
    ensures Rx1DataRate(idx, offset, flag).value <= Rx1DataRate(idx', offset', flag).value
  {
  }

  /** Every downlink data rate DR8-DR13 is the RX1 data rate of some valid uplink rate and offset. */
  lemma Rx1DataRateOnto(dr: uint32)
    requires 8 <= dr <= 13
    ensures exists idx: uint32, offset: uint32 :: idx <= 6 && offset <= 5 && Rx1DataRate(idx, offset, false) == Ok(dr)
  {
    var idx: uint32 := dr - 8;
    Rx1DataRateIsClamped(idx, 0, false);
    assert Rx1DataRate(idx, 0, false) == Ok(dr);
  }

  /** Every successful RX1 data rate is legal on every downlink channel and names a populated slot. */
  lemma Rx1DataRateIsDownlinkRate(idx: uint32, offset: uint32, flag: bool)
    requires Rx1DataRate(idx, offset, flag).Ok?
    ensures forall c :: c in DownlinkChannelTable() ==>
      (Rx1DataRate(idx, offset, flag).value as int) in c.dataRateIndexes
    ensures NamesPopulatedSlot(DataRateTable, Rx1DataRate(idx, offset, flag).value as int)
  {
  }

  // ----- Cross-table consistency -----

  /**
   The uplink channel rate lists and the data-rate table follow two
   layouts of the band. The 1.6 MHz-grid block lists only DR4, which the
   table makes SF8BW125, a 125 kHz rate; the 500 kHz uplink rate SF8BW500
   is DR6. No uplink channel lists DR5 or DR6, yet Rx1DataRate accepts
   both as uplink data rates.
   */
  lemma UplinkRatesDisagreeWithDataRateTable()
    ensures forall k :: 64 <= k < 72 ==> UplinkChannelTable()[k].dataRateIndexes == [4]
    ensures DataRateTable[4].loRa == "SF8BW125" && DataRateTable[6].loRa == "SF8BW500"
    ensures forall c :: c in UplinkChannelTable() ==> 5 !in c.dataRateIndexes && 6 !in c.dataRateIndexes
    ensures Rx1DataRate(5, 0, false).Ok? && Rx1DataRate(6, 0, false).Ok?
  {
    UplinkChannelTableShape();
  }

  /** The single duty-cycle sub-band [902 MHz, 928 MHz] contains every uplink and downlink channel. */
  lemma ChannelsInsideDutyCycleBand()
    ensures forall c :: c in UplinkChannelTable() ==> 902000000 <= c.frequency <= 928000000
    ensures forall c :: c in DownlinkChannelTable() ==> 902000000 <= c.frequency <= 928000000
  {
  }

  lemma ChannelsConsistent()
    ensures forall c :: c in UplinkChannelTable() ==> ChannelConsistent(c, DataRateTable, DutyCycleTable)
    ensures forall c :: c in DownlinkChannelTable() ==> ChannelConsistent(c, DataRateTable, DutyCycleTable)
  {
    UplinkChannelTableShape();
    DownlinkChannelTableShape();
    DataRateTableSlots();
    ChannelsInsideDutyCycleBand();
    forall c | c in UplinkChannelTable() ensures ChannelConsistent(c, DataRateTable, DutyCycleTable) {
      assert DutyCycleTable[0].minFrequency <= c.frequency <= DutyCycleTable[0].maxFrequency;
    }
    forall c | c in DownlinkChannelTable() ensures ChannelConsistent(c, DataRateTable, DutyCycleTable) {
      assert DutyCycleTable[0].minFrequency <= c.frequency <= DutyCycleTable[0].maxFrequency;
    }
  }

  /** The band built by Init keeps every band invariant. */
  lemma InitialisedBandIsWellFormed(b: Band, d: RegionDefaults)
    requires IsAU915928(b, d)
    ensures WellFormed(b)
  {
    ChannelsConsistent();
    DataRateTableSlots();
    forall idx, offset, flag | b.rx1DataRate(idx, offset, flag).Ok?
      ensures NamesPopulatedSlot(b.dataRates, b.rx1DataRate(idx, offset, flag).value as int)
    {
      Rx1DataRateIsDownlinkRate(idx, offset, flag);
    }
  }

  /**
   The default RX2 parameters (DR8 at 923.3 MHz) are downlink channel 0
   at one of its legal rates, and the beacon data rate names a populated slot.
   */
  lemma DefaultRx2IsDownlinkChannel0(b: Band, d: RegionDefaults)
    requires IsAU915928(b, d)
    ensures b.defaultRx2Parameters.frequency == b.downlinkChannels[0].frequency
    ensures (b.defaultRx2Parameters.dataRateIndex as int) in b.downlinkChannels[0].dataRateIndexes
    ensures NamesPopulatedSlot(b.dataRates, b.defaultRx2Parameters.dataRateIndex)
    ensures NamesPopulatedSlot(b.dataRates, b.beacon.dataRateIndex)
  {
  }
}
