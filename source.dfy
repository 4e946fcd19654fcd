/** The PlutoSDR source object: the mirrored configuration as fields updated
    in place, with the driver standing behind a ghost log of committed
    snapshots. */
module PlutoSource {
  import opened PlutoCapabilities
  import opened PlutoConfig
  import opened PlutoHistory

  class PlutoSdrSource {
    // Fields this variant assigns only in the constructor.
    const uri: string
    const decimation: U64
    const ch1En: bool
    const ch2En: bool
    const ch3En: bool
    const ch4En: bool
    const bufferSize: U64
    const quadrature: bool
    const rfdc: bool
    const bbdc: bool
    const gain1Mode: string
    const rfPortSelect: string
    const filter: string

    // Fields the setters update.
    var frequency: U64
    var sampleRate: U64
    var bandwidth: U64
    var gain1Value: real
    var gain2Mode: string  // never assigned nor read
    var gain2Value: real   // arbitrary until a gain setter writes it
    var freqCorr: real     // arbitrary until the frequency correction is set

    // The driver as the model sees it: the state at construction, the setter
    // calls made since, and the snapshots received through `set_params`.
    ghost var initial: Config
    ghost var history: seq<Setting>
    ghost var commits: seq<Snapshot>

    /** The mirrored configuration as a value. */
    function Mirror(): Config
      reads this
    {
      Config(frequency, sampleRate, bandwidth, quadrature, rfdc, bbdc,
             gain1Mode, gain1Value, gain2Value, filter, freqCorr)
    }

    /** The object is the replay of its call history from its initial state,
        and the driver has received exactly the snapshots of that replay. */
    ghost predicate Valid()
      reads this
    {
      AllAdmissible(history) && Run(initial, history) == History(Mirror(), commits)
    }

    constructor ()
      ensures Valid() && history == [] && commits == [] && initial == Mirror()
      ensures uri == "ip:pluto.local"
      ensures frequency == DEFAULT_FREQUENCY && sampleRate == DEFAULT_SAMPLE_RATE
      ensures decimation == 0 && bandwidth == DEFAULT_BANDWIDTH
      ensures ch1En && ch2En && !ch3En && !ch4En
      ensures bufferSize == 1024 * 128
      ensures quadrature && rfdc && bbdc
      ensures gain1Mode == DEFAULT_GAIN1_MODE && gain1Value == DEFAULT_GAIN1_VALUE
      ensures rfPortSelect == DEFAULT_RF_PORT && filter == DEFAULT_FILTER
    {
      uri := "ip:pluto.local";
      frequency := DEFAULT_FREQUENCY;
      sampleRate := DEFAULT_SAMPLE_RATE;
      decimation := 0;
      bandwidth := DEFAULT_BANDWIDTH;
      ch1En, ch2En := true, true;
      ch3En, ch4En := false, false;
      bufferSize := 1024 * 128;
      quadrature := true;
      rfdc, bbdc := true, true;
      gain1Mode := DEFAULT_GAIN1_MODE;
      gain1Value := DEFAULT_GAIN1_VALUE;
      rfPortSelect := DEFAULT_RF_PORT;
      filter := DEFAULT_FILTER;
      new;
      initial := Mirror();
      history := [];
      commits := [];
    }

    /** `set_params`: hand the whole current snapshot to the driver. Private in
        the source: an internal step of each setter, taken between the field
        update and `Record`; called on its own it does not keep `Valid()`. */
    method SetParams()
      modifies this`commits
      ensures commits == old(commits) + [SnapshotOf(Mirror())]
    {
      commits := commits + [SnapshotOf(Mirror())];
    }

    /** Records a call in the history; `Valid()` holds again when the state
        and the log are the replay of that one more step. */
    ghost method Record(s: Setting, before: Config, log: seq<Snapshot>)
      requires AllAdmissible(history) && Admissible(s)
      requires Run(initial, history) == History(before, log)
      requires Step(before, s).config == Mirror()
      requires commits == log + if Step(before, s).committed then [SnapshotOf(Mirror())] else []
      modifies this`history
      ensures history == old(history) + [s]
      ensures Valid()
    {
      RunSnoc(initial, history, s);
      history := history + [s];
    }

    method SetSampleRate(rate: real) returns (r: real)
      requires Valid() && InCastRange(rate)
      modifies this
      ensures gain2Mode == old(gain2Mode)
      ensures Valid() && initial == old(initial) && history == old(history) + [SampleRateTo(rate)]
      ensures Mirror() == old(Mirror()).(sampleRate := TruncateToU64(rate))
      ensures r == sampleRate as real
      ensures commits == old(commits) + [SnapshotOf(Mirror())]
    {
      ghost var before, log := Mirror(), commits;
      sampleRate := TruncateToU64(rate);
      SetParams();
      r := sampleRate as real;
      Record(SampleRateTo(rate), before, log);
    }

    method SetCenterFreq(freq: real) returns (r: real)
      requires Valid() && InCastRange(freq)
      modifies this
      ensures gain2Mode == old(gain2Mode)
      ensures Valid() && initial == old(initial) && history == old(history) + [CenterFreqTo(freq)]
      ensures Mirror() == old(Mirror()).(frequency := TruncateToU64(freq))
      ensures r == freq
      ensures commits == old(commits) + [SnapshotOf(Mirror())]
    {
      ghost var before, log := Mirror(), commits;
      frequency := TruncateToU64(freq);
      SetParams();
      r := freq;
      Record(CenterFreqTo(freq), before, log);
    }

    method SetFreqCorr(ppm: real) returns (r: real)
      requires Valid()
      modifies this
      ensures gain2Mode == old(gain2Mode)
      ensures Valid() && initial == old(initial) && history == old(history) + [FreqCorrTo(ppm)]
      ensures Mirror() == old(Mirror()).(freqCorr := ppm)
      ensures r == ppm
      ensures commits == old(commits)
    {
      ghost var before, log := Mirror(), commits;
      freqCorr := ppm;
      r := ppm;
      Record(FreqCorrTo(ppm), before, log);
    }

    /** The channel-less setter: both gain stages take the value. */
    method SetGain(gain: real) returns (r: real)
      requires Valid()
      modifies this
      ensures gain2Mode == old(gain2Mode)
      ensures Valid() && initial == old(initial) && history == old(history) + [GainTo(gain)]
      ensures Mirror() == old(Mirror()).(gain1Value := gain, gain2Value := gain)
      ensures r == gain
      ensures commits == old(commits) + [SnapshotOf(Mirror())]
    {
      ghost var before, log := Mirror(), commits;
      gain1Value := gain;
      gain2Value := gain;
      SetParams();
      r := gain;
      Record(GainTo(gain), before, log);
    }

    /** The named setter: only the stage called `name` takes the value; an
        unknown name changes nothing, and the state is committed either way. */
    method SetNamedGain(gain: real, name: string) returns (r: real)
      requires Valid()
      modifies this
      ensures gain2Mode == old(gain2Mode)
      ensures Valid() && initial == old(initial) && history == old(history) + [NamedGainTo(gain, name)]
      ensures name == "RX1" ==> Mirror() == old(Mirror()).(gain1Value := gain)
      ensures name == "RX2" ==> Mirror() == old(Mirror()).(gain2Value := gain)
      ensures name != "RX1" && name != "RX2" ==> Mirror() == old(Mirror())
      ensures r == gain
      ensures commits == old(commits) + [SnapshotOf(Mirror())]
    {
      ghost var before, log := Mirror(), commits;
      if name == "RX1" {
        gain1Value := gain;
      } else if name == "RX2" {
        gain2Value := gain;
      }
      SetParams();
      r := gain;
      Record(NamedGainTo(gain, name), before, log);
    }

    /** Bandwidth 0 asks for the automatic bandwidth of the current sample rate. */
    method SetBandwidth(bw: real) returns (r: real)
      requires Valid() && (bw == 0.0 || InCastRange(bw))
      modifies this
      ensures gain2Mode == old(gain2Mode)
      ensures Valid() && initial == old(initial) && history == old(history) + [BandwidthTo(bw)]
      ensures bw == 0.0 ==> bandwidth == AutoBandwidth(old(sampleRate))
      ensures bw != 0.0 ==> bandwidth == TruncateToU64(bw)
      ensures Mirror() == old(Mirror()).(bandwidth := bandwidth)
      ensures r == bandwidth as real
      ensures commits == old(commits) + [SnapshotOf(Mirror())]
    {
      ghost var before, log := Mirror(), commits;
      var requested := bw;
      if requested == 0.0 {
        requested := 0.8 * (sampleRate as real);
      }
      bandwidth := TruncateToU64(requested);
      SetParams();
      r := bandwidth as real;
      Record(BandwidthTo(bw), before, log);
    }

    function GetSampleRate(): real
      reads this
    {
      Read(Mirror(), SampleRateOf)
    }

    function GetCenterFreq(): real
      reads this
    {
      Read(Mirror(), CenterFreqOf)
    }

    function GetBandwidth(): real
      reads this
    {
      Read(Mirror(), BandwidthOf)
    }

    function GetFreqCorr(): real
      reads this
    {
      Read(Mirror(), FreqCorrOf)
    }

    function GetGain(): real
      reads this
    {
      Read(Mirror(), GainOf)
    }

    function GetNamedGain(name: string): real
      reads this
    {
      Read(Mirror(), NamedGainOf(name))
    }
  }

  /** Tuning a fresh source to 2.4 GHz: the frequency reads back, and the
      driver receives one snapshot that carries it beside the defaults. */
  method ScenarioCenterFrequency() returns (freq: real, ghost log: seq<Snapshot>)
    ensures freq == 2400000000.0
    ensures log == [Snapshot(2400000000, DEFAULT_SAMPLE_RATE, DEFAULT_BANDWIDTH, true, true, true,
                             DEFAULT_GAIN1_MODE, DEFAULT_GAIN1_VALUE, DEFAULT_FILTER)]
  {
    var src := new PlutoSdrSource();
    var returned := src.SetCenterFreq(2400000000.0);
    freq := src.GetCenterFreq();
    log := src.commits;
  }

  /** Setting the two stages one after the other: each reads back its own
      value, and two commits are issued; the second is identical to the first
      because the second stage is not part of a snapshot. */
  method ScenarioGainPerStage() returns (rx1: real, rx2: real, ghost log: seq<Snapshot>)
    ensures rx1 == 40.0 && rx2 == 50.0
    ensures |log| == 2 && log[1] == log[0]
    ensures log[0] == Snapshot(DEFAULT_FREQUENCY, DEFAULT_SAMPLE_RATE, DEFAULT_BANDWIDTH, true, true, true,
                               DEFAULT_GAIN1_MODE, 40.0, DEFAULT_FILTER)
  {
    var src := new PlutoSdrSource();
    var g1 := src.SetNamedGain(40.0, "RX1");
    var g2 := src.SetNamedGain(50.0, "RX2");
    rx1 := src.GetNamedGain("RX1");
    rx2 := src.GetNamedGain("RX2");
    log := src.commits;
  }

  /** An automatic bandwidth at the default sample rate stays put when the
      sample rate is raised and the second stage is set afterwards; a
      frequency correction commits nothing. The bandwidth is obtained from the
      replay of the object's history. */
  method ScenarioAutoBandwidth() returns (bw: real, rate: real, corr: real, ghost commitCount: nat)
    ensures bw == 2000000.0 && rate == 10000000.0 && corr == 1.5
    ensures commitCount == 3
  {
    var src := new PlutoSdrSource();
    var b := src.SetBandwidth(0.0);
    var r := src.SetSampleRate(10000000.0);
    var g := src.SetNamedGain(3.0, "RX2");
    var c := src.SetFreqCorr(1.5);
    assert src.history == [BandwidthTo(0.0), SampleRateTo(10000000.0), NamedGainTo(3.0, "RX2"), FreqCorrTo(1.5)];
    AutoBandwidthNotRecomputed(src.initial, src.history, 0);
    assert src.bandwidth == AutoBandwidth(DEFAULT_SAMPLE_RATE);
    DefaultsWithinCapabilities();
    bw := src.GetBandwidth();
    rate := src.GetSampleRate();
    corr := src.GetFreqCorr();
    commitCount := |src.commits|;
  }
}
