# AU915-928 regional band, modelled in Dafny

This project models the AU915-928 band definition of a LoRaWAN network
stack (`pkg/band/au_915_928.go`), which follows the "AU915-928MHz" chapter of
the LoRaWAN Regional Parameters. The band is one value of the package's
`Band` record, built once at initialisation:

- 72 uplink channels. Channels 0-63 sit on a 200 kHz grid from 915.2 MHz
  with DR0-DR3. Channels 64-71 sit on a 1.6 MHz grid from 915.9 MHz with DR4.
- 8 downlink channels on a 600 kHz grid from 923.3 MHz, with DR8-DR13.
- A 16-slot data-rate table and a single duty-cycle sub-band, 902-928 MHz,
  with duty cycle 1.
- A 16-entry TX power offset table.
- The timing and ADR constants, default RX2 parameters (DR8, 923.3 MHz),
  beacon data rate and coding rate, and the CFList settings.
- Two derivation closures. `Rx1Channel` maps an uplink channel index to
  `idx % 8`. `Rx1DataRate` rejects `idx > 6`, then `offset > 5`, and
  otherwise clamps `idx + 8 - offset` to [8, 13].

Files:

- `types.dfy` (module `BandTypes`) holds the band record and its parts.
  It also has Go's `uint32` with explicit wrap-around, the error result
  type, and `WellFormed`, the invariants every band keeps.
- `au_915_928.dfy` (module `AU915928`) holds the closed-form tables. It
  has the loop methods that build the channel lists and the offset table,
  proved equal to those tables, plus the two RX1 derivations and `Init`.
  `Init` assembles the band; `IsAU915928` states the value of every field.
- `au_915_928_properties.dfy` (module `AU915928Properties`) holds the
  lemmas: table shapes, RX1 behaviour, and consistency between the tables.

Modelling notes:

- The band record stores `Rx1Channel` and `Rx1DataRate` as function-valued
  fields, as the Go record stores closures.
- The data-rate array literal has 15 elements. Go gives slot 15 the zero
  value, and slots 7 and 14 are written as the zero value. So three slots
  are reserved (RFU): 7, 14 and 15. The source comment on the last literal
  element speaks of the slot LinkADRReq uses from Regional Parameters 1.1,
  but that element is slot 14. The model follows the code:
  `PadDataRates` applies the zero-fill and `DataRateTableSlots` states the
  result.
- RFU slots are Go's zero value of `DataRate` (`EmptyDataRate`), as in
  the source.
- The uplink rate lists and the data-rate table follow two different
  layouts of the band. The 1.6 MHz-grid channels list only DR4, which the
  table defines as SF8BW125, a 125 kHz rate. The 500 kHz uplink rate
  SF8BW500 is DR6. No uplink channel lists DR5 or DR6, yet `Rx1DataRate`
  accepts uplink data rates up to 6. The model keeps the code as written;
  `UplinkRatesDisagreeWithDataRateTable` states the mismatch.
- `JoinAcceptDelay1` gets the shared default for join-accept delay 2,
  exactly as the definition assigns it.
- `Rx1DataRate` computes `idx + 8 - offset` in uint32 with explicit
  wrap-around. `Rx1DataRateIsClamped` shows that the computation never
  wraps on the inputs that pass the checks.

## Model

| member | source | states |
|---|---|---|
| `AU915928.BuildUplinkChannels` | pkg/band/au_915_928.go:31-43 | the two append loops produce exactly the 72-entry closed-form uplink table (64 channels of the 200 kHz-grid block, then 8 of the 1.6 MHz-grid block) |
| `AU915928.BuildDownlinkChannels` | pkg/band/au_915_928.go:45-51 | the append loop produces exactly the 8-entry closed-form downlink table |
| `AU915928.BuildTxOffset` | pkg/band/au_915_928.go:96-102 | filling a zeroed 16-entry array for i in 0..14 gives -2*i at i < 15 and 0 at index 15 |
| `AU915928.PadDataRates` | pkg/band/au_915_928.go:67-83 | a fixed-size array literal keeps its listed elements and zero-fills the rest up to 16 slots |
| `AU915928.Rx1Channel` | pkg/band/au_915_928.go:107-109 | never fails; the result is below 8 and congruent to the uplink index modulo 8 |
| `AU915928.Rx1DataRate` | pkg/band/au_915_928.go:110-126 | index error exactly when idx > 6 (checked first); offset error when idx <= 6 and offset > 5; success iff both are in range, with a result in [8, 13] |
| `AU915928.Init` | pkg/band/au_915_928.go:30-140 | the built band has the closed-form channel and offset tables, the data-rate and duty-cycle tables, the shared timing defaults (join-accept delay 1 taken from delay 2), the ack timeout window, EIRP 30, CFList of frequencies, both RX1 closures, RX2 (DR8, 923.3 MHz) and beacon (DR8, 4/5) |
| `AU915928Properties.UplinkChannelTableShape` | pkg/band/au_915_928.go:31-43 | entry i < 64 is 915200000 + 200000*i with rates [0,1,2,3]; entry 64+j is 915900000 + 1600000*j with rate [4]; frequencies strictly increase within each block |
| `AU915928Properties.DownlinkChannelTableShape` | pkg/band/au_915_928.go:45-51 | entry i is 923300000 + 600000*i with rates [8..13]; frequencies strictly increase |
| `AU915928Properties.DataRateTableSlots` | pkg/band/au_915_928.go:67-83 | the table has 16 slots and a slot is RFU exactly when it is 7, 14 or 15 |
| `AU915928Properties.TxOffsetTableShape` | pkg/band/au_915_928.go:96-102 | offset[i] = -2*i for i in 0..14, strictly decreasing, and offset[15] = 0 |
| `AU915928Properties.Rx1ChannelCoversUplink` | pkg/band/au_915_928.go:107-109 | every uplink index below 72 maps to a valid index of the 8 downlink channels; channel 64+j of the 1.6 MHz-grid block maps to downlink channel j |
| `AU915928Properties.Rx1DataRateIsClamped` | pkg/band/au_915_928.go:110-126 | on valid inputs the uint32 value idx + 8 - offset does not wrap (it is at least 3), the result equals clamp(idx + 8 - offset, 8, 13), and the boolean argument is ignored |
| `AU915928Properties.Rx1DataRateExamples` | pkg/band/au_915_928.go:110-126 | (0,0)->8, (6,0)->13, (0,5)->8, (3,2)->9; (7,0) is an index error, (0,6) an offset error, and (7,6) reports the index error |
| `AU915928Properties.Rx1DataRateMonotone` | pkg/band/au_915_928.go:118-125 | the RX1 rate does not decrease as the uplink rate rises and does not increase as the offset rises |
| `AU915928Properties.Rx1DataRateOnto` | pkg/band/au_915_928.go:118-125 | every downlink rate DR8-DR13 is the RX1 rate of some valid uplink rate and offset |
| `AU915928Properties.Rx1DataRateIsDownlinkRate` | pkg/band/au_915_928.go:45-126 | every successful RX1 rate is legal on every downlink channel and names a populated data-rate slot |
| `AU915928Properties.UplinkRatesDisagreeWithDataRateTable` | pkg/band/au_915_928.go:35-111 | the 1.6 MHz-grid channels list only DR4, which the table makes SF8BW125, while SF8BW500 is DR6; no uplink channel lists DR5 or DR6, yet the RX1 data-rate rule accepts both |
| `AU915928Properties.ChannelsInsideDutyCycleBand` | pkg/band/au_915_928.go:31-65 | every uplink and downlink frequency lies in the duty-cycle sub-band [902000000, 928000000] |
| `AU915928Properties.ChannelsConsistent` | pkg/band/au_915_928.go:31-83 | every channel has a positive frequency inside a duty-cycle sub-band, and every data-rate index it lists names a populated slot |
| `AU915928Properties.InitialisedBandIsWellFormed` | pkg/band/au_915_928.go:53-140 | the built band keeps every band invariant: 16 data-rate slots, 16 offsets, non-empty consistent channel lists, duty cycles in (0, 1], RX1 channel results that index the downlink list, RX1 rates in populated slots |
| `AU915928Properties.DefaultRx2IsDownlinkChannel0` | pkg/band/au_915_928.go:128-131 | the default RX2 frequency is downlink channel 0's frequency, and its DR8 is legal there and populated; the beacon data rate is populated too |

## Left out

- The shared defaults are defined outside this file. They become fields
  of the `RegionDefaults` parameter of `Init`: the receive and join-accept
  delays, `MaxFCntGap`, the ADR limit and delay, the ack timeout and its
  margin, and the US/AU beacon frequencies. Their values are not modelled.
- The beacon's `BroadcastChannel` comes from `beaconChannelFromFrequencies`,
  which is not part of this model. The field is omitted from `Beacon`;
  `PingSlotChannels` is the beacon-frequency parameter.
- The version overlays (`auDataRates1_0_1`, `bandIdentity`) are not part
  of this model, nor are the fields that hold them.
- Appending the band to the global `All` list is left out. So are the
  registry, lookup by ID and version, duty-cycle lookup and the legal-rate
  predicate, which live elsewhere in the package.
- `TxOffset` and `DefaultMaxEIRP` are `float32` in the source. All their
  values are small exact integers, so the model uses `int` and does not
  model float semantics. The duty cycle is a `real`.
- A `DataRate` keeps only the LoRa modulation name of the rate
  descriptor. Other descriptor fields (FSK) are not used by this band.
- Durations are plain integers. Go's `time.Duration` overflow is not
  modelled, because the defaults are not known here.
- Frequencies are `nat`. The `uint64` conversion in the channel loops
  cannot overflow for these values.
