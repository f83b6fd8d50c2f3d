/**
 The AU915-928 band of the LoRaWAN Regional Parameters: 64 + 8 uplink
 channels, 8 downlink channels, a 16-slot data-rate table, one duty-cycle
 sub-band, the TX power offset table, and the RX1 channel and data-rate
 derivations.

 The channel lists and the offset table are built by loops, as in the
 band's initialisation; each loop is proved to produce the closed-form
 table given here as a function.
 */
module AU915928 {
  import opened BandTypes

  const ID: string := "AU_915_928"

  // ----- Closed forms of the loop-built tables -----

  /** Uplink channel i (0..63) of the first block: 200 kHz grid from 915.2 MHz, DR0-DR3. */
  function UplinkGrid200k(i: nat): (c: Channel) {
    Channel(915200000 + 200000 * i, [0, 1, 2, 3])
  }

  /** Uplink channel j (0..7) of the second block: 1.6 MHz grid from 915.9 MHz, DR4. */
  function UplinkGrid1600k(j: nat): (c: Channel) {
    Channel(915900000 + 1600000 * j, [4])
  }

  /** Downlink channel i (0..7): 600 kHz grid from 923.3 MHz, DR8-DR13. */
  function Downlink(i: nat): (c: Channel) {
    Channel(923300000 + 600000 * i, [8, 9, 10, 11, 12, 13])
  }

  /** The 72 uplink channels: the 64 channels of the 200 kHz-grid block, then the 8 of the 1.6 MHz-grid block. */
  function UplinkChannelTable(): (t: seq<Channel>)
    ensures |t| == 72
  {
    seq(64, i requires 0 <= i => UplinkGrid200k(i)) + seq(8, j requires 0 <= j => UplinkGrid1600k(j))
  }

  function DownlinkChannelTable(): (t: seq<Channel>)
    ensures |t| == 8
  {
    seq(8, i requires 0 <= i => Downlink(i))
  }

  /** TX power offsets: -2 dB per power index for indexes 0..14; index 15 stays 0. */
  function TxOffsetTable(): (t: seq<int>)
    ensures |t| == 16
  {
    seq(16, i => if i < 15 then -2 * i else 0)
  }

  // ----- Literal tables -----

  /** The single duty-cycle sub-band: the whole 902-928 MHz range, unrestricted. */
  const DutyCycleTable: seq<DutyCycle> := [DutyCycle(902000000, 928000000, 1.0)]

  /**
   The data-rate array literal as written: 15 elements, slots 0-14, with
   the zero value (RFU) in slots 7 and 14.
   */
  const DataRateLiteral: seq<DataRate> := [
    DataRate("SF12BW125", MaxPayloadSize(59, 51), MaxPayloadSize(59, 51)),
    DataRate("SF11BW125", MaxPayloadSize(59, 51), MaxPayloadSize(59, 51)),
    DataRate("SF10BW125", MaxPayloadSize(59, 51), MaxPayloadSize(59, 51)),
    DataRate("SF9BW125", MaxPayloadSize(123, 115), MaxPayloadSize(123, 115)),
    DataRate("SF8BW125", MaxPayloadSize(230, 222), MaxPayloadSize(250, 242)),
    DataRate("SF7BW125", MaxPayloadSize(230, 222), MaxPayloadSize(250, 242)),
    DataRate("SF8BW500", MaxPayloadSize(230, 222), MaxPayloadSize(250, 242)),
    EmptyDataRate,
    DataRate("SF12BW500", MaxPayloadSize(41, 33), MaxPayloadSize(61, 53)),
    DataRate("SF11BW500", MaxPayloadSize(117, 109), MaxPayloadSize(137, 129)),
    DataRate("SF10BW500", MaxPayloadSize(230, 222), MaxPayloadSize(250, 242)),
    DataRate("SF9BW500", MaxPayloadSize(230, 222), MaxPayloadSize(250, 242)),
    DataRate("SF8BW500", MaxPayloadSize(230, 222), MaxPayloadSize(250, 242)),
    DataRate("SF7BW500", MaxPayloadSize(230, 222), MaxPayloadSize(250, 242)),
    EmptyDataRate
  ]

  /**
   Go's fixed-size array literal semantics: a literal shorter than the
   array leaves the remaining slots at the zero value.
   */
  function PadDataRates(literal: seq<DataRate>): (slots: seq<DataRate>)
    requires |literal| <= 16
    ensures |slots| == 16
    ensures forall k :: 0 <= k < |literal| ==> slots[k] == literal[k]
    ensures forall k :: |literal| <= k < 16 ==> IsRFU(slots[k])
  {
    literal + seq(16 - |literal|, _ => EmptyDataRate)
  }

  /** The band's 16 data-rate slots. */
  const DataRateTable: seq<DataRate> := PadDataRates(DataRateLiteral)

  const DefaultRx2: Rx2Parameters := Rx2Parameters(8, 923300000)

  const DefaultMaxEIRP: int := 30

  // ----- RX1 derivations -----

  /** The RX1 downlink channel for uplink channel `idx`: the index modulo 8. It never fails. */
  function Rx1Channel(idx: uint32): (r: Result<uint32>)
    ensures r.Ok? && r.value < 8
    ensures (idx as int - r.value as int) % 8 == 0
  {
    Ok(idx % 8)
  }

  /**
   The RX1 data-rate index for uplink data rate `idx` and RX1 offset
   `offset`. Rejects `idx > 6` first, then `offset > 5`; otherwise
   `idx + 8 - offset`, computed in uint32, is clamped to [8, 13].
   The boolean argument is ignored.
   */
  function Rx1DataRate(idx: uint32, offset: uint32, unused: bool): (r: Result<uint32>)
    ensures idx > 6 ==> r == Err(LoRaWANParametersInvalid(DataRateIndexTooHigh))
    ensures idx <= 6 && offset > 5 ==> r == Err(LoRaWANParametersInvalid(OffsetTooHigh))
    ensures r.Ok? <==> idx <= 6 && offset <= 5
    ensures r.Ok? ==> 8 <= r.value <= 13
  {
    if idx > 6 then Err(LoRaWANParametersInvalid(DataRateIndexTooHigh))
    else if offset > 5 then Err(LoRaWANParametersInvalid(OffsetTooHigh))
    else
      var si := Sub32(Add32(idx, 8), offset) as int;
      if si <= 8 then Ok(8)
      else if si >= 13 then Ok(13)
      else Ok(si as uint32)
  }

  // ----- Initialisation -----

  /**
   The constants the band takes from the package's shared defaults, which
   are defined outside this file: receive and join-accept delays, the
   frame-counter gap, the ADR limits, the acknowledgement timeout and its
   margin, and the US/AU beacon frequencies.
   */
  datatype RegionDefaults = RegionDefaults(
    receiveDelay1: int,
    receiveDelay2: int,
    joinAcceptDelay1: int,
    joinAcceptDelay2: int,
    maxFCntGap: int,
    adrAckLimit: int,
    adrAckDelay: int,
    ackTimeout: int,
    ackTimeoutMargin: int,
    beaconFrequencies: seq<nat>
  )

  /** Builds the uplink channel list by appending, block by block. */
  method BuildUplinkChannels() returns (channels: seq<Channel>)
    ensures channels == UplinkChannelTable()
  {
    channels := [];
    var i := 0;
    while i < 64
      invariant 0 <= i <= 64
      invariant channels == seq(i, k requires 0 <= k => UplinkGrid200k(k))
    {
      channels := channels + [Channel(915200000 + 200000 * i, [0, 1, 2, 3])];
      i := i + 1;
    }
    i := 0;
    while i < 8
      invariant 0 <= i <= 8
      invariant channels == seq(64, k requires 0 <= k => UplinkGrid200k(k)) + seq(i, k requires 0 <= k => UplinkGrid1600k(k))
    {
      channels := channels + [Channel(915900000 + 1600000 * i, [4])];
      i := i + 1;
    }
  }

  /** Builds the downlink channel list by appending. */
  method BuildDownlinkChannels() returns (channels: seq<Channel>)
    ensures channels == DownlinkChannelTable()
  {
    channels := [];
    var i := 0;
    while i < 8
      invariant 0 <= i <= 8
      invariant channels == seq(i, k requires 0 <= k => Downlink(k))
    {
      channels := channels + [Channel(923300000 + 600000 * i, [8, 9, 10, 11, 12, 13])];
      i := i + 1;
    }
  }

  /** Fills a zeroed 16-entry array with -2*i for i in 0..14; entry 15 is not touched. */
  method BuildTxOffset() returns (offsets: seq<int>)
    ensures offsets == TxOffsetTable()
  {
    var a := new int[16](_ => 0);
    var i := 0;
    while i < 15
      invariant 0 <= i <= 15
      invariant forall k :: 0 <= k < i ==> a[k] == 0 - 2 * k
      invariant forall k :: i <= k < 16 ==> a[k] == 0
    {
      a[i] := 0 - 2 * i;
      i := i + 1;
    }
    offsets := a[..];
  }

  /** Every field of `b` holds what the AU915-928 definition assigns it, given the shared defaults `d`. */
  ghost predicate IsAU915928(b: Band, d: RegionDefaults) {
    && b.id == ID
    && b.uplinkChannels == UplinkChannelTable()
    && b.downlinkChannels == DownlinkChannelTable()
    && b.bandDutyCycles == DutyCycleTable
    && b.dataRates == DataRateTable
    && b.receiveDelay1 == d.receiveDelay1
    && b.receiveDelay2 == d.receiveDelay2
    && b.joinAcceptDelay1 == d.joinAcceptDelay2
    && b.joinAcceptDelay2 == d.joinAcceptDelay2
    && b.maxFCntGap == d.maxFCntGap
    && b.adrAckLimit == d.adrAckLimit
    && b.adrAckDelay == d.adrAckDelay
    && b.minAckTimeout == d.ackTimeout - d.ackTimeoutMargin
    && b.maxAckTimeout == d.ackTimeout + d.ackTimeoutMargin
    && b.defaultMaxEIRP == DefaultMaxEIRP
    && b.txOffset == TxOffsetTable()
    && b.implementsCFList
    && b.cfListType == Frequencies
    && (forall idx :: b.rx1Channel(idx) == Rx1Channel(idx))
    && (forall idx, offset, flag :: b.rx1DataRate(idx, offset, flag) == Rx1DataRate(idx, offset, flag))
    && b.defaultRx2Parameters == DefaultRx2
    && b.beacon == Beacon(8, "4/5", d.beaconFrequencies)
  }

  /**
   Builds the band: the three loops, then the record. The join-accept
   delay 1 takes the shared default for join-accept delay 2, as the
   definition assigns it.
   */
  method Init(d: RegionDefaults) returns (b: Band)
    ensures IsAU915928(b, d)
  {
    var uplink := BuildUplinkChannels();
    var downlink := BuildDownlinkChannels();
    var txOffset := BuildTxOffset();
    b := Band(
      id := ID,
      uplinkChannels := uplink,
      downlinkChannels := downlink,
      bandDutyCycles := DutyCycleTable,
      dataRates := DataRateTable,
      receiveDelay1 := d.receiveDelay1,
      receiveDelay2 := d.receiveDelay2,
      joinAcceptDelay1 := d.joinAcceptDelay2,
      joinAcceptDelay2 := d.joinAcceptDelay2,
      maxFCntGap := d.maxFCntGap,
      adrAckLimit := d.adrAckLimit,
      adrAckDelay := d.adrAckDelay,
      minAckTimeout := d.ackTimeout - d.ackTimeoutMargin,
      maxAckTimeout := d.ackTimeout + d.ackTimeoutMargin,
      defaultMaxEIRP := DefaultMaxEIRP,
      txOffset := txOffset,
      implementsCFList := true,
      cfListType := Frequencies,
      rx1Channel := Rx1Channel,
      rx1DataRate := Rx1DataRate,
      defaultRx2Parameters := DefaultRx2,
      beacon := Beacon(8, "4/5", d.beaconFrequencies)
    );
  }
}
