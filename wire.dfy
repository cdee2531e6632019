/**
 * The two fixed binary records the driver exchanges with an Oculus sonar:
 * the simple-fire command it sends and the status broadcast it receives.
 *
 * The exact layouts live in the vendor SDK header (Oculus/Oculus.h), which
 * is not part of this model.  Their sizes and the native-order byte image of
 * the command are therefore carried by a `Layout` value: every property
 * proved here holds for any layout whose header is shorter than the command
 * and whose encoder always yields exactly one command's worth of bytes.
 */
module Wire {

  type uint8 = x: int | 0 <= x < 0x100
  type uint16 = x: int | 0 <= x < 0x1_0000

  /** The protocol identifier at the start of every message header. */
  const OculusId: uint16 := 0x4f53

  /** `masterMode` 2: high frequency (narrow aperture). */
  const OculusHighFreq: uint8 := 2

  /** Message kinds of the SDK's message header; the driver sends only simple-fire commands. */
  datatype MessageType = MessageSimpleFire | MessagePingResult | MessageSimplePingResult | MessageUserConfig | MessageDummy

  /** The SDK's maximum ping-rate classes. */
  datatype PingRate = PingRateNormal | PingRateHigh | PingRateHighest | PingRateLow | PingRateLowest | PingRateStandby

  /** The standard message header that starts every Oculus message. */
  datatype MessageHeader = MessageHeader(
    oculusId: uint16,
    msgId: MessageType,
    srcDeviceId: uint16,
    dstDeviceId: uint16,
    payloadSize: nat)

  /**
   * The simple-fire command.  The four doubles of the C struct are reals:
   * the driver only compares them with constants and copies them.
   */
  datatype SimpleFireMessage = SimpleFireMessage(
    head: MessageHeader,
    masterMode: uint8,
    pingRate: PingRate,
    networkSpeed: uint8,
    gammaCorrection: uint8,
    flags: uint8,
    range: real,
    gainPercent: real,
    speedOfSound: real,
    salinity: real)

  /**
   * Sizes of the SDK records and the byte image of a command, i.e.
   * sizeof(OculusMessageHeader), sizeof(OculusSimpleFireMessage),
   * sizeof(OculusStatusMsg) and the bytes reinterpret_cast exposes.
   */
  datatype Layout = Layout(
    headerSize: nat,
    fireSize: nat,
    statusSize: nat,
    encodeFire: SimpleFireMessage -> seq<uint8>)

  /** What any C layout guarantees: a struct is larger than its first member and its bytes are exactly sizeof. */
  ghost predicate ValidLayout(layout: Layout)
  {
    && layout.headerSize < layout.fireSize
    && 0 < layout.statusSize
    && forall m: SimpleFireMessage :: |layout.encodeFire(m)| == layout.fireSize
  }

  /** Bit `bit` of a flags byte. */
  predicate FlagBit(flags: uint8, bit: nat)
    requires bit < 8
  {
    (flags / Pow2(bit)) % 2 == 1
  }

  function Pow2(n: nat): (p: nat)
    ensures p >= 1
  {
    if n == 0 then 1 else 2 * Pow2(n - 1)
  }

  /** flags bit 0: interpret range as meters (clear: as percent). */
  predicate RangeInMeters(flags: uint8) { FlagBit(flags, 0) }
  /** flags bit 1: 16-bit data (clear: 8-bit data). */
  predicate Data16Bit(flags: uint8) { FlagBit(flags, 1) }
  /** flags bit 2: send gain. */
  predicate SendGain(flags: uint8) { FlagBit(flags, 2) }
  /** flags bit 3: send the simple return message (clear: the full one). */
  predicate SimpleReturn(flags: uint8) { FlagBit(flags, 3) }
}
