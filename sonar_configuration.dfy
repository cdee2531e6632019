/**
 * The sonar configuration: one live simple-fire command that the driver
 * mutates field by field, notifying a single registered observer after
 * every mutation, and serialises on demand.
 *
 * The pure functions below say what each operation does to the abstract
 * state (`ConfigState`); the class `SonarConfiguration` is the object the
 * driver updates in place, and each of its methods is proved to perform
 * exactly the corresponding abstract step.
 */
module Configuration {
  import opened Wire

  /** Largest accepted range in meters (the 1200d model's maximum). */
  const MaxRange: real := 40.0
  /** Largest accepted gain, in percent. */
  const MaxGainPercent: real := 100.0
  /** Largest accepted gamma correction, and so the largest value the 8-bit field takes. */
  const MaxGammaByte: uint8 := 127
  const MaxGamma: real := MaxGammaByte as real

  predicate RangeAccepted(input: real) { input <= MaxRange && input > 0.0 }
  predicate GainAccepted(input: real) { input <= MaxGainPercent && input > 0.0 }
  predicate GammaAccepted(input: real) { input <= MaxGamma && input > 0.0 }

  /** The header every command carries: protocol id, simple-fire kind, device ids 0, payload = record minus header. */
  predicate HeaderFixed(layout: Layout, head: MessageHeader)
  {
    && layout.headerSize < layout.fireSize
    && head.oculusId == OculusId
    && head.msgId == MessageSimpleFire
    && head.srcDeviceId == 0
    && head.dstDeviceId == 0
    && head.payloadSize == layout.fireSize - layout.headerSize
  }

  /** The bounds the setters maintain: range in (0, 40], gain in (0, 100], gamma in [0, 127]. */
  predicate InBounds(m: SimpleFireMessage)
  {
    && 0.0 < m.range <= MaxRange
    && 0.0 < m.gainPercent <= MaxGainPercent
    && m.gammaCorrection <= MaxGammaByte
  }

  predicate Consistent(layout: Layout, m: SimpleFireMessage)
  {
    HeaderFixed(layout, m.head) && InBounds(m)
  }

  /** The command as the constructor leaves it. */
  function DefaultMessage(layout: Layout): (m: SimpleFireMessage)
    requires layout.headerSize < layout.fireSize
    ensures Consistent(layout, m)
    ensures RangeInMeters(m.flags) && SimpleReturn(m.flags)
    ensures !Data16Bit(m.flags) && !SendGain(m.flags)
  {
    SimpleFireMessage(
      MessageHeader(OculusId, MessageSimpleFire, 0, 0, layout.fireSize - layout.headerSize),
      OculusHighFreq, PingRateNormal, 0xff, 127, 0x19,
      2.0, 50.0, 0.0, 0.0)
  }

  /** setRange: the field takes the input exactly when it lies in (0, 40]; nothing else changes. */
  function WithRange(m: SimpleFireMessage, input: real): (r: SimpleFireMessage)
    ensures RangeAccepted(input) ==> r.range == input
    ensures !RangeAccepted(input) ==> r == m
    ensures r.(range := m.range) == m
    ensures 0.0 < m.range <= MaxRange ==> 0.0 < r.range <= MaxRange
  {
    if RangeAccepted(input) then m.(range := input) else m
  }

  /** setGainPercent: the field takes the input exactly when it lies in (0, 100]; nothing else changes. */
  function WithGain(m: SimpleFireMessage, input: real): (r: SimpleFireMessage)
    ensures GainAccepted(input) ==> r.gainPercent == input
    ensures !GainAccepted(input) ==> r == m
    ensures r.(gainPercent := m.gainPercent) == m
    ensures 0.0 < m.gainPercent <= MaxGainPercent ==> 0.0 < r.gainPercent <= MaxGainPercent
  {
    if GainAccepted(input) then m.(gainPercent := input) else m
  }

  /**
   * setGamma: for an input in (0, 127] the 8-bit field takes the input
   * truncated to an integer (so 0.5 stores 0); otherwise nothing changes.
   */
  function WithGamma(m: SimpleFireMessage, input: real): (r: SimpleFireMessage)
    ensures GammaAccepted(input) ==> r.gammaCorrection as real <= input < r.gammaCorrection as real + 1.0
    ensures !GammaAccepted(input) ==> r == m
    ensures r.(gammaCorrection := m.gammaCorrection) == m
    ensures m.gammaCorrection <= MaxGammaByte ==> r.gammaCorrection <= MaxGammaByte
  {
    if GammaAccepted(input) then m.(gammaCorrection := input.Floor) else m
  }

  /** One call of a public setter, with its argument. */
  datatype Setting =
    | RangeTo(range: real)
    | GainTo(gain: real)
    | GammaTo(gamma: real)
    | PingRateTo(rate: PingRate)
    | FreqModeTo(mode: uint8)

  /** The command after one setter; ping rate and frequency mode are assigned without any check. */
  function Apply(m: SimpleFireMessage, setting: Setting): (r: SimpleFireMessage)
    ensures r.head == m.head
    ensures InBounds(m) ==> InBounds(r)
    ensures setting.PingRateTo? ==> r.pingRate == setting.rate && r.(pingRate := m.pingRate) == m
    ensures setting.FreqModeTo? ==> r.masterMode == setting.mode && r.(masterMode := m.masterMode) == m
  {
    match setting
    case RangeTo(x) => WithRange(m, x)
    case GainTo(x) => WithGain(m, x)
    case GammaTo(x) => WithGamma(m, x)
    case PingRateTo(rate) => m.(pingRate := rate)
    case FreqModeTo(mode) => m.(masterMode := mode)
  }

  /**
   * The observable state of a configuration object: its command, the
   * postpone flag, whether an observer is registered, and (as a record of
   * the observer's invocations) the command each notification carried.
   */
  datatype ConfigState = ConfigState(
    sfm: SimpleFireMessage,
    postponed: bool,
    hasCallback: bool,
    notified: seq<SimpleFireMessage>)

  /** postponeCallback: raises the postpone flag. */
  function Postpone(s: ConfigState): (r: ConfigState)
    ensures r.postponed
    ensures r.(postponed := s.postponed) == s
  {
    s.(postponed := true)
  }

  /**
   * sendCallback: clears the postpone flag and only then tests it, so the
   * flag never suppresses a notification: a registered observer is always
   * called, with the current command.
   */
  function Notify(s: ConfigState): (r: ConfigState)
    ensures !r.postponed
    ensures r.sfm == s.sfm && r.hasCallback == s.hasCallback
    ensures s.hasCallback ==> r.notified == s.notified + [s.sfm]
    ensures !s.hasCallback ==> r.notified == s.notified
  {
    var cleared := s.(postponed := false);
    if cleared.hasCallback && !cleared.postponed then
      cleared.(notified := cleared.notified + [cleared.sfm])
    else
      cleared
  }

  /** A public setter: update the command, then sendCallback, whatever the outcome of the bound check. */
  function Step(s: ConfigState, setting: Setting): (r: ConfigState)
    ensures r.sfm == Apply(s.sfm, setting)
    ensures !r.postponed && r.hasCallback == s.hasCallback
    ensures |r.notified| == |s.notified| + (if s.hasCallback then 1 else 0)
  {
    Notify(s.(sfm := Apply(s.sfm, setting)))
  }

  /** A batch of setter calls, in order. */
  function Run(s: ConfigState, settings: seq<Setting>): ConfigState
    decreases |settings|
  {
    if settings == [] then s else Run(Step(s, settings[0]), settings[1..])
  }

  /** The bounds and the header hold after any batch of setter calls. */
  lemma {:induction false} RunKeepsConsistent(layout: Layout, s: ConfigState, settings: seq<Setting>)
    requires Consistent(layout, s.sfm)
    ensures Consistent(layout, Run(s, settings).sfm)
    ensures Run(s, settings).sfm.head == s.sfm.head
    decreases |settings|
  {
    if settings != [] {
      RunKeepsConsistent(layout, Step(s, settings[0]), settings[1..]);
    }
  }

  /**
   * Every setter call notifies a registered observer exactly once, in order,
   * each time with the command as that call left it; a batch ends with the
   * postpone flag down.
   */
  lemma {:induction false} RunNotifiesEachCall(s: ConfigState, settings: seq<Setting>)
    requires s.hasCallback
    ensures Run(s, settings).hasCallback
    ensures |Run(s, settings).notified| == |s.notified| + |settings|
    ensures Run(s, settings).notified[..|s.notified|] == s.notified
    ensures forall j :: |s.notified| <= j < |Run(s, settings).notified| ==>
      Run(s, settings).notified[j] == Run(s, settings[..j - |s.notified| + 1]).sfm
    ensures settings != [] ==> !Run(s, settings).postponed
    decreases |settings|
  {
    if settings != [] {
      var s1 := Step(s, settings[0]);
      var rest := settings[1..];
      RunNotifiesEachCall(s1, rest);
      var r := Run(s, settings);
      assert r == Run(s1, rest);
      assert s1.notified == s.notified + [s1.sfm];
      forall j | |s.notified| <= j < |r.notified|
        ensures r.notified[j] == Run(s, settings[..j - |s.notified| + 1]).sfm
      {
        var k := j - |s.notified|;
        if k == 0 {
          assert r.notified[j] == r.notified[..|s1.notified|][j];
          assert settings[..1][1..] == [];
        } else {
          assert settings[..k + 1][1..] == rest[..k];
        }
      }
    }
  }

  /** Without an observer no notification is recorded, whatever the batch. */
  lemma {:induction false} RunWithoutObserverIsSilent(s: ConfigState, settings: seq<Setting>)
    requires !s.hasCallback
    ensures Run(s, settings).notified == s.notified
    decreases |settings|
  {
    if settings != [] {
      RunWithoutObserverIsSilent(Step(s, settings[0]), settings[1..]);
    }
  }

  /**
   * postponeCallback has no lasting effect: after any non-empty batch the
   * state, notifications included, is the same as without it.
   */
  lemma PostponeHasNoEffect(s: ConfigState, settings: seq<Setting>)
    requires settings != []
    ensures Run(Postpone(s), settings) == Run(s, settings)
  {
  }

  /** A caller-owned byte stream that serialisation appends to. */
  class StreamBuf {
    var contents: seq<uint8>

    constructor ()
      ensures contents == []
    {
      contents := [];
    }
  }

  class SonarConfiguration {
    const layout: Layout
    var sfm: SimpleFireMessage
    var postponed: bool
    var hasCallback: bool
    /** The command each observer invocation carried, oldest first. */
    ghost var notified: seq<SimpleFireMessage>

    ghost predicate Valid()
      reads this
    {
      ValidLayout(layout) && Consistent(layout, sfm)
    }

    ghost function State(): ConfigState
      reads this
    {
      ConfigState(sfm, postponed, hasCallback, notified)
    }

    constructor (layout: Layout)
      requires ValidLayout(layout)
      ensures Valid() && this.layout == layout
      ensures sfm.head == MessageHeader(OculusId, MessageSimpleFire, 0, 0, layout.fireSize - layout.headerSize)
      ensures sfm.masterMode == OculusHighFreq && sfm.networkSpeed == 0xff
      ensures sfm.gammaCorrection == 127 && sfm.pingRate == PingRateNormal
      ensures sfm.range == 2.0 && sfm.gainPercent == 50.0 && sfm.flags == 0x19
      ensures sfm.speedOfSound == 0.0 && sfm.salinity == 0.0
      ensures !postponed && !hasCallback && notified == []
    {
      this.layout := layout;
      sfm := DefaultMessage(layout);
      postponed := false;
      hasCallback := false;
      notified := [];
    }

    /** Registers the observer (the single callback slot is then occupied). */
    method SetCallback()
      modifies this
      ensures State() == old(State()).(hasCallback := true)
    {
      hasCallback := true;
    }

    method PostponeCallback()
      modifies this
      ensures State() == Postpone(old(State()))
    {
      postponed := true;
    }

    method SendCallback()
      modifies this
      ensures State() == Notify(old(State()))
    {
      postponed := false;
      if hasCallback && !postponed {
        notified := notified + [sfm];
      }
    }

    method SetRange(input: real)
      requires Valid()
      modifies this
      ensures Valid()
      ensures State() == Step(old(State()), RangeTo(input))
    {
      if input <= MaxRange && input > 0.0 {
        sfm := sfm.(range := input);
      }
      SendCallback();
    }

    method SetGainPercent(input: real)
      requires Valid()
      modifies this
      ensures Valid()
      ensures State() == Step(old(State()), GainTo(input))
    {
      if input <= MaxGainPercent && input > 0.0 {
        sfm := sfm.(gainPercent := input);
      }
      SendCallback();
    }

    method SetGamma(input: real)
      requires Valid()
      modifies this
      ensures Valid()
      ensures State() == Step(old(State()), GammaTo(input))
    {
      if input <= MaxGamma && input > 0.0 {
        sfm := sfm.(gammaCorrection := input.Floor);
      }
      SendCallback();
    }

    method SetPingRate(newRate: PingRate)
      requires Valid()
      modifies this
      ensures Valid()
      ensures State() == Step(old(State()), PingRateTo(newRate))
    {
      sfm := sfm.(pingRate := newRate);
      SendCallback();
    }

    method SetFreqMode(input: uint8)
      requires Valid()
      modifies this
      ensures Valid()
      ensures State() == Step(old(State()), FreqModeTo(input))
    {
      sfm := sfm.(masterMode := input);
      SendCallback();
    }

    /** Appends the command's byte image to the stream; the configuration itself is not changed. */
    method SerializeTo(stream: StreamBuf)
      requires Valid()
      modifies stream
      ensures stream.contents == old(stream.contents) + layout.encodeFire(sfm)
      ensures |stream.contents| == |old(stream.contents)| + layout.fireSize
    {
      stream.contents := stream.contents + layout.encodeFire(sfm);
    }
  }
}
