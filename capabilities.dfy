/** The capability queries of the PlutoSDR source: constants of the hardware,
    independent of the mirrored configuration. */
module PlutoCapabilities {

  /** An osmosdr range: the values from `start` to `stop` in increments of
      `step`; a range built from a single value has `start == stop` and step 0. */
  datatype Range = Range(start: real, stop: real, step: real)

  /** An osmosdr meta range: an ordered list of ranges. */
  type MetaRange = seq<Range>

  /** The one-value range osmosdr builds from `range_t(value)`. */
  function Point(v: real): Range {
    Range(v, v, 0.0)
  }

  /** `x` lies between the bounds of one of the ranges of `m` (the step is not consulted). */
  predicate Covers(m: MetaRange, x: real) {
    exists i :: 0 <= i < |m| && m[i].start <= x <= m[i].stop
  }

  /** The device descriptors this source advertises to the device registry. */
  function GetDevices(): seq<string> {
    ["plutosdr,label='PlutoSDR'"]
  }

  function Name(): string {
    "PlutoSDR"
  }

  /** The four discrete sample rates, in Hz. */
  function GetSampleRates(): MetaRange {
    [Point(2500000.0), Point(5000000.0), Point(10000000.0), Point(20000000.0)]
  }

  /** 70 MHz to 6000 MHz in steps of 1 Hz, on every channel. */
  function GetFreqRange(): MetaRange {
    [Range(70000000.0, 6000000000.0, 1.0)]
  }

  /** The gain stage names, in order; the same whatever channels are enabled. */
  function GetGainNames(): seq<string> {
    ["RX1", "RX2"]
  }

  /** 0 to 72 dB in steps of 1. */
  function GetGainRange(): MetaRange {
    [Range(0.0, 72.0, 1.0)]
  }

  /** The per-stage overload: the same range whatever the stage name. */
  function GetGainRangeNamed(name: string): MetaRange {
    [Range(0.0, 72.0, 1.0)]
  }

  /** The antenna is a fixed literal, not the configured RF port. */
  function GetAntenna(): string {
    "A_BALANCED"
  }

  function GetAntennas(): seq<string> {
    [GetAntenna()]
  }

  /** Selecting an antenna is accepted and ignored: no state, no commit. */
  function SetAntenna(antenna: string): string {
    GetAntenna()
  }

  lemma AntennaIsFixed(antenna: string)
    ensures SetAntenna(antenna) == GetAntenna() == "A_BALANCED"
    ensures GetAntennas() == [GetAntenna()]
  {
  }

  lemma GainRangeIgnoresName(name: string)
    ensures GetGainRangeNamed(name) == GetGainRange()
    ensures |GetGainRange()| == 1 && GetGainRange()[0] == Range(0.0, 72.0, 1.0)
  {
  }
}
