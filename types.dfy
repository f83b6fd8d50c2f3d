/**
 The record that describes one LoRaWAN regional band: its channel plan,
 its 16-slot data-rate table, its duty-cycle sub-bands, its timing constants
 and the two derivation functions for the first receive window (RX1).

 Only what the AU915-928 definition uses is modelled here; the generic
 package code that declares these types is not part of this model.
 */
module BandTypes {

  /** Go's `uint32`. Arithmetic on it wraps modulo 2^32 (see Add32, Sub32). */
  newtype uint32 = x: int | 0 <= x < 0x1_0000_0000

  const Modulus32: int := 0x1_0000_0000

  /** Unsigned 32-bit addition with Go's wrap-around. */
  function Add32(a: uint32, b: uint32): (r: uint32)
    ensures a as int + b as int < Modulus32 ==> r as int == a as int + b as int
    ensures a as int + b as int >= Modulus32 ==> r as int == a as int + b as int - Modulus32
  {
    ((a as int + b as int) % Modulus32) as uint32
  }

  /** Unsigned 32-bit subtraction with Go's wrap-around. */
  function Sub32(a: uint32, b: uint32): (r: uint32)
    ensures b <= a ==> r as int == a as int - b as int
    ensures a < b ==> r as int == a as int - b as int + Modulus32
  {
    ((a as int - b as int) % Modulus32) as uint32
  }

  /** Why a derivation function rejected its parameters. */
  datatype Cause = DataRateIndexTooHigh | OffsetTooHigh

  /** The error kinds the band derivation functions return. */
  datatype Error = LoRaWANParametersInvalid(cause: Cause)

  datatype Result<T> = Ok(value: T) | Err(error: Error)

  /** A radio channel: a centre frequency in Hz and the data-rate indexes legal on it. */
  datatype Channel = Channel(frequency: nat, dataRateIndexes: seq<int>)

  /** Maximum MAC payload sizes, without and with the FOpts field in use. */
  datatype MaxPayloadSize = MaxPayloadSize(withoutFOpts: nat, withFOpts: nat)

  /** One slot of the data-rate table; `loRa` names the modulation, e.g. "SF12BW125". */
  datatype DataRate = DataRate(loRa: string, defaultMaxSize: MaxPayloadSize, noRepeaterMaxSize: MaxPayloadSize)

  /** The zero value of DataRate, which the band tables use to mark a reserved (RFU) slot. */
  const EmptyDataRate: DataRate := DataRate("", MaxPayloadSize(0, 0), MaxPayloadSize(0, 0))

  predicate IsRFU(d: DataRate) {
    d == EmptyDataRate
  }

  /** A sub-band [minFrequency, maxFrequency] with its maximum duty cycle. */
  datatype DutyCycle = DutyCycle(minFrequency: nat, maxFrequency: nat, dutyCycle: real)

  datatype Rx2Parameters = Rx2Parameters(dataRateIndex: nat, frequency: nat)

  /** Class B beacon parameters (the broadcast-channel function is not part of this model). */
  datatype Beacon = Beacon(dataRateIndex: nat, codingRate: string, pingSlotChannels: seq<nat>)

  datatype CFListType = Frequencies | ChannelMasks

  /**
   A regional band. Durations are integers in the unit of the package's
   duration constants; `dataRates` and `txOffset` stand for Go's
   fixed-size arrays `[16]DataRate` and `[16]float32`.
   */
  datatype Band = Band(
    id: string,
    uplinkChannels: seq<Channel>,
    downlinkChannels: seq<Channel>,
    bandDutyCycles: seq<DutyCycle>,
    dataRates: seq<DataRate>,
    receiveDelay1: int,
    receiveDelay2: int,
    joinAcceptDelay1: int,
    joinAcceptDelay2: int,
    maxFCntGap: int,
    adrAckLimit: int,
    adrAckDelay: int,
    minAckTimeout: int,
    maxAckTimeout: int,
    defaultMaxEIRP: int,
    txOffset: seq<int>,
    implementsCFList: bool,
    cfListType: CFListType,
    rx1Channel: uint32 -> Result<uint32>,
    rx1DataRate: (uint32, uint32, bool) -> Result<uint32>,
    defaultRx2Parameters: Rx2Parameters,
    beacon: Beacon
  )

  /** True when some sub-band of `dcs` contains frequency `f`. */
  predicate CoveredByDutyCycle(dcs: seq<DutyCycle>, f: nat) {
    exists k :: 0 <= k < |dcs| && dcs[k].minFrequency <= f <= dcs[k].maxFrequency
  }

  /** `dr` names a populated slot of a 16-slot data-rate table. */
  predicate NamesPopulatedSlot(dataRates: seq<DataRate>, dr: int) {
    0 <= dr < 16 && dr < |dataRates| && !IsRFU(dataRates[dr])
  }

  /**
   A channel is consistent with its band: positive frequency inside a
   duty-cycle sub-band, and only data-rate indexes that name populated slots.
   */
  predicate ChannelConsistent(c: Channel, dataRates: seq<DataRate>, dcs: seq<DutyCycle>) {
    && c.frequency > 0
    && CoveredByDutyCycle(dcs, c.frequency)
    && forall dr :: dr in c.dataRateIndexes ==> NamesPopulatedSlot(dataRates, dr)
  }

  /**
   The invariants every band definition keeps: 16 data-rate slots and 16
   TX power offsets, non-empty channel lists of consistent channels,
   duty cycles in (0, 1], and RX1 derivations that only ever produce a
   downlink channel index of the band and a populated data-rate slot.
   */
  ghost predicate WellFormed(b: Band) {
    && |b.dataRates| == 16
    && |b.txOffset| == 16
    && |b.uplinkChannels| > 0
    && |b.downlinkChannels| > 0
    && (forall c :: c in b.uplinkChannels ==> ChannelConsistent(c, b.dataRates, b.bandDutyCycles))
    && (forall c :: c in b.downlinkChannels ==> ChannelConsistent(c, b.dataRates, b.bandDutyCycles))
    && (forall d :: d in b.bandDutyCycles ==> 0.0 < d.dutyCycle <= 1.0 && d.minFrequency <= d.maxFrequency)
    && (forall idx :: b.rx1Channel(idx).Ok? ==> (b.rx1Channel(idx).value as int) < |b.downlinkChannels|)
    && (forall idx, offset, ack ::
          b.rx1DataRate(idx, offset, ack).Ok? ==>
            NamesPopulatedSlot(b.dataRates, b.rx1DataRate(idx, offset, ack).value as int))
  }
}
