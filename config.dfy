/** The configuration mirror of the PlutoSDR source as a value: what each
    setter does to it, what each getter reads from it, and the snapshot that a
    commit hands to the driver. */
module PlutoConfig {
  import opened PlutoCapabilities

  /** `unsigned long long`, and `unsigned long` on an LP64 platform. */
  const U64_LIMIT: int := 0x1_0000_0000_0000_0000
  type U64 = x: int | 0 <= x < 0x1_0000_0000_0000_0000

  /** The doubles whose conversion to a 64-bit unsigned integer is defined:
      the ones whose truncation toward zero is representable. */
  predicate InCastRange(x: real) {
    -1.0 < x < U64_LIMIT as real
  }

  /** The C++ conversion of a double to an unsigned integer: truncation toward zero. */
  function TruncateToU64(x: real): (r: U64)
    requires InCastRange(x)
    ensures 0.0 <= x ==> r as real <= x < r as real + 1.0
    ensures x < 0.0 ==> r == 0
  {
    if x < 0.0 then 0 else x.Floor
  }

  /** The bandwidth a request for bandwidth 0 resolves to: 0.8 times the sample rate. */
  function AutoBandwidth(sampleRate: U64): (r: U64)
    ensures r as real <= 0.8 * (sampleRate as real) < r as real + 1.0
    ensures r <= sampleRate
  {
    TruncateToU64(0.8 * (sampleRate as real))
  }

  /** The constructor's defaults. */
  const DEFAULT_FREQUENCY: U64 := 434000000
  const DEFAULT_SAMPLE_RATE: U64 := 2500000
  const DEFAULT_BANDWIDTH: U64 := 2000000
  const DEFAULT_GAIN1_MODE: string := "fast_attack"
  const DEFAULT_GAIN1_VALUE: real := 64.0
  const DEFAULT_RF_PORT: string := "A_BALANCED"
  const DEFAULT_FILTER: string := ""

  /** The part of the mirrored state that setters change or commits carry. */
  datatype Config = Config(
    frequency: U64,
    sampleRate: U64,
    bandwidth: U64,
    quadrature: bool,
    rfdc: bool,
    bbdc: bool,
    gain1Mode: string,
    gain1Value: real,
    gain2Value: real,
    filter: string,
    freqCorr: real)

  /** The argument list of one call of the driver's `set_params`. */
  datatype Snapshot = Snapshot(
    frequency: U64,
    sampleRate: U64,
    bandwidth: U64,
    quadrature: bool,
    rfdc: bool,
    bbdc: bool,
    gain1Mode: string,
    gain1Value: real,
    filter: string)

  /** What a commit sends: the whole state except the second gain and the frequency correction. */
  function SnapshotOf(c: Config): Snapshot {
    Snapshot(c.frequency, c.sampleRate, c.bandwidth, c.quadrature, c.rfdc, c.bbdc,
             c.gain1Mode, c.gain1Value, c.filter)
  }

  /** One call of a state-changing setter, with its argument. */
  datatype Setting =
    | SampleRateTo(rate: real)
    | CenterFreqTo(freq: real)
    | BandwidthTo(bw: real)
    | GainTo(gain: real)
    | NamedGainTo(gain: real, name: string)
    | FreqCorrTo(ppm: real)

  /** One call of a getter of the mirrored state. */
  datatype Query =
    | SampleRateOf
    | CenterFreqOf
    | BandwidthOf
    | GainOf
    | NamedGainOf(name: string)
    | FreqCorrOf

  /** The setter calls whose double-to-unsigned conversions are defined. */
  predicate Admissible(s: Setting) {
    match s
    case SampleRateTo(rate) => InCastRange(rate)
    case CenterFreqTo(freq) => InCastRange(freq)
    case BandwidthTo(bw) => bw == 0.0 || InCastRange(bw)
    case _ => true
  }

  /** The effect of one setter call: the new state, the value returned, and
      whether the call committed the state to the driver. */
  datatype Outcome = Outcome(config: Config, returned: real, committed: bool)

  function Step(c: Config, s: Setting): Outcome
    requires Admissible(s)
  {
    match s
    case SampleRateTo(rate) =>
      var sr := TruncateToU64(rate);
      Outcome(c.(sampleRate := sr), sr as real, true)
    case CenterFreqTo(freq) =>
      Outcome(c.(frequency := TruncateToU64(freq)), freq, true)
    case BandwidthTo(bw) =>
      var b := if bw == 0.0 then AutoBandwidth(c.sampleRate) else TruncateToU64(bw);
      Outcome(c.(bandwidth := b), b as real, true)
    case GainTo(v) =>
      Outcome(c.(gain1Value := v, gain2Value := v), v, true)
    case NamedGainTo(v, name) =>
      var c' := if name == "RX1" then c.(gain1Value := v)
                else if name == "RX2" then c.(gain2Value := v)
                else c;
      Outcome(c', v, true)
    case FreqCorrTo(ppm) =>
      Outcome(c.(freqCorr := ppm), ppm, false)
  }

  /** What each getter returns for a given state. */
  function Read(c: Config, q: Query): real {
    match q
    case SampleRateOf => c.sampleRate as real
    case CenterFreqOf => c.frequency as real
    case BandwidthOf => c.bandwidth as real
    case GainOf => c.gain1Value
    case NamedGainOf(name) =>
      if name == "RX1" then c.gain1Value
      else if name == "RX2" then c.gain2Value
      else 0.0
    case FreqCorrOf => c.freqCorr
  }

  /** The routing table: which getters a setter call affects. The channel-less
      gain setter reaches both stages; the named one reaches only the stage
      it names (and the channel-less getter, which reads the first stage);
      an unknown name reaches nothing. */
  predicate Touches(s: Setting, q: Query) {
    match s
    case SampleRateTo(_) => q == SampleRateOf
    case CenterFreqTo(_) => q == CenterFreqOf
    case BandwidthTo(_) => q == BandwidthOf
    case GainTo(_) => q == GainOf || (q.NamedGainOf? && q.name in GetGainNames())
    case NamedGainTo(_, name) =>
      (name == "RX1" && (q == GainOf || q == NamedGainOf("RX1"))) ||
      (name == "RX2" && q == NamedGainOf("RX2"))
    case FreqCorrTo(_) => q == FreqCorrOf
  }

  /** The value a touched getter reads after the call, in the state `c` the
      call starts from: the value the setter stores, as `Step` stores it. What
      `StepReadBack` adds beyond it is the routing (`Touches`) and the frame. */
  function WrittenValue(c: Config, s: Setting): real
    requires Admissible(s)
  {
    match s
    case SampleRateTo(rate) => TruncateToU64(rate) as real
    case CenterFreqTo(freq) => TruncateToU64(freq) as real
    case BandwidthTo(bw) =>
      if bw == 0.0 then AutoBandwidth(c.sampleRate) as real else TruncateToU64(bw) as real
    case GainTo(v) => v
    case NamedGainTo(v, _) => v
    case FreqCorrTo(ppm) => ppm
  }

  /** Read after write: a getter the call touches reads the written value;
      every other getter reads what it read before the call. */
  lemma StepReadBack(c: Config, s: Setting, q: Query)
    requires Admissible(s)
    ensures Read(Step(c, s).config, q) == if Touches(s, q) then WrittenValue(c, s) else Read(c, q)
  {
  }

  /** What each setter returns, and that every setter but the frequency
      correction commits. The center frequency setter hands back its argument,
      not the truncated value it stored; the others return what the getter
      now reads. */
  lemma StepOutcome(c: Config, s: Setting)
    requires Admissible(s)
    ensures Step(c, s).committed <==> !s.FreqCorrTo?
    ensures s.CenterFreqTo? ==> Step(c, s).returned == s.freq
    ensures !s.CenterFreqTo? ==> Step(c, s).returned == WrittenValue(c, s)
    ensures s.SampleRateTo? ==> Step(c, s).returned == Read(Step(c, s).config, SampleRateOf)
    ensures s.BandwidthTo? ==> Step(c, s).returned == Read(Step(c, s).config, BandwidthOf)
  {
  }

  /** Setting a gain by stage name: a name among the gain names sets
      that stage and no other; any other name leaves the state as it was. */
  lemma NamedGainRouting(c: Config, v: real, name: string)
    ensures name in GetGainNames() ==> Read(Step(c, NamedGainTo(v, name)).config, NamedGainOf(name)) == v
    ensures name == GetGainNames()[0] ==> Step(c, NamedGainTo(v, name)).config.gain2Value == c.gain2Value
    ensures name == GetGainNames()[1] ==> Step(c, NamedGainTo(v, name)).config.gain1Value == c.gain1Value
    ensures name !in GetGainNames() ==> Step(c, NamedGainTo(v, name)).config == c
    ensures Step(c, NamedGainTo(v, name)).committed
  {
  }

  /** The channel-less getter reads the first stage; an unknown stage name reads 0. */
  lemma GainQueries(c: Config, name: string)
    ensures Read(c, GainOf) == Read(c, NamedGainOf(GetGainNames()[0]))
    ensures name !in GetGainNames() ==> Read(c, NamedGainOf(name)) == 0.0
  {
  }

  /** Setting the second stage commits a snapshot identical to the one the
      state before the call would give: the second gain never reaches the driver. */
  lemma SecondStageNotCommitted(c: Config, v: real)
    ensures SnapshotOf(Step(c, NamedGainTo(v, "RX2")).config) == SnapshotOf(c)
    ensures Step(c, NamedGainTo(v, "RX2")).committed
  {
  }

  /** The center frequency is not checked against the advertised range:
      every convertible frequency is stored and committed, and 1 Hz is one
      that lies outside the range. */
  lemma CenterFreqNotChecked(c: Config, f: real)
    requires InCastRange(f)
    ensures Step(c, CenterFreqTo(f)).committed
    ensures Read(Step(c, CenterFreqTo(f)).config, CenterFreqOf) == TruncateToU64(f) as real
    ensures InCastRange(1.0) && !Covers(GetFreqRange(), 1.0)
    ensures Read(Step(c, CenterFreqTo(1.0)).config, CenterFreqOf) == 1.0
  {
  }

  /** The defaults lie inside the advertised capabilities, and the default
      bandwidth is the automatic bandwidth of the default sample rate. */
  lemma DefaultsWithinCapabilities()
    ensures Covers(GetFreqRange(), DEFAULT_FREQUENCY as real)
    ensures Covers(GetSampleRates(), DEFAULT_SAMPLE_RATE as real)
    ensures Covers(GetGainRange(), DEFAULT_GAIN1_VALUE)
    ensures DEFAULT_RF_PORT == GetAntenna()
    ensures AutoBandwidth(DEFAULT_SAMPLE_RATE) == DEFAULT_BANDWIDTH
  {
    assert GetFreqRange()[0].start <= DEFAULT_FREQUENCY as real <= GetFreqRange()[0].stop;
    assert GetSampleRates()[0].start <= DEFAULT_SAMPLE_RATE as real <= GetSampleRates()[0].stop;
    assert GetGainRange()[0].start <= DEFAULT_GAIN1_VALUE <= GetGainRange()[0].stop;
  }
}
