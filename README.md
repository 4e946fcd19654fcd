# PlutoSDR source: configuration mirror

This project models the configuration logic of `plutosdr_source_c`, the osmosdr
radio source for the ADALM-PLUTO receiver. The source keeps an in-memory copy of
the device configuration: center frequency, sample rate, bandwidth, the gains of
the two stages `RX1` and `RX2`, and the frequency correction. Each setter updates
at most two fields of that copy: `set_antenna` and `set_gain` with an unknown
stage name write nothing. All
setters except the frequency correction and `set_antenna` then call
`set_params`, which pushes the whole current configuration to the IIO driver in
a single call. The getters read the copy back. The capability queries (sample
rates, frequency and gain ranges, gain names, antennas, device descriptors, name)
return constants.

The model has four modules:

- `PlutoCapabilities` (`capabilities.dfy`): the constant queries `GetDevices`,
  `Name`, `GetSampleRates`, `GetFreqRange`, `GetGainNames`, `GetGainRange`,
  `GetGainRangeNamed`, `GetAntenna`, `GetAntennas` and `SetAntenna`. They are pure
  functions. `SetAntenna` ignores its argument and so can change no state.
- `PlutoConfig` (`config.dfy`): the configuration as a value (`Config`) and the
  snapshot one `set_params` call carries (`Snapshot`). `Step` is what one setter
  call does: the new configuration, the value returned, and whether it commits.
  `Read` is what each getter returns. `Touches` and `WrittenValue` are an
  independent routing table: which getters each setter reaches, and the value
  they then read. It also has the double-to-unsigned conversion
  (`TruncateToU64`) and the automatic bandwidth (`AutoBandwidth`).
- `PlutoHistory` (`history.dfy`): `Run` replays any sequence of setter calls and
  collects the log of snapshots the driver receives. The lemmas here cover
  read-after-write, the commit count, what each commit contains, and the fact
  that the second gain never reaches the driver, for every sequence of calls.
- `PlutoSource` (`source.dfy`): the class `PlutoSdrSource`, with the header's
  fields. Fields the source assigns only in its constructor are `const`. The
  setters are methods with `modifies this`; the getters are functions with
  `reads this`. The driver is a ghost log `commits`, and every `set_params` call
  (`SetParams`) appends one snapshot to it. `Valid()` says that the object's state
  and its log are exactly `Run` of its recorded call history from its initial
  state, so every `PlutoHistory` lemma applies to the object. Three client
  methods replay end-to-end uses: tuning a fresh source, setting each gain stage,
  and automatic bandwidth. The last one reads its bandwidth through
  `PlutoHistory.AutoBandwidthNotRecomputed` applied to the object's history.

## Model

| member | source | states |
|---|---|---|
| `PlutoConfig.TruncateToU64` | lib/plutosdr/plutosdr_source_c.cc:107 | The C++ cast of a double to `unsigned long`/`unsigned long long` (lines 107, 129, 241) truncates toward zero: for a non-negative argument the result is its floor, and a negative argument above -1 gives 0. |
| `PlutoConfig.AutoBandwidth` | lib/plutosdr/plutosdr_source_c.cc:236-241 | Bandwidth 0 resolves to the integer part of 0.8 × sample rate, which never exceeds the sample rate. |
| `PlutoConfig.StepReadBack` | lib/plutosdr/plutosdr_source_c.cc:105-249 | After any setter call, every getter the routing table says the call reaches reads the written value, and every other getter reads what it read before. |
| `PlutoConfig.StepOutcome` | lib/plutosdr/plutosdr_source_c.cc:105-249 | Every state-changing setter commits except `set_freq_corr`. `set_center_freq` returns its unconverted argument. `set_sample_rate` and `set_bandwidth` return the stored value, which is what their getters then read. The gain setters return the gain, and `set_freq_corr` returns the correction. |
| `PlutoConfig.NamedGainRouting` | lib/plutosdr/plutosdr_source_c.cc:190-199 | The named gain setter sets the stage it names when the name is one of the gain names, and leaves the other stage alone. Any other name leaves the whole state unchanged. It commits in every case. |
| `PlutoConfig.GainQueries` | lib/plutosdr/plutosdr_source_c.cc:201-214 | The channel-less `get_gain` reads the first stage, like `get_gain("RX1")`. A name that is not a gain name reads 0. |
| `PlutoConfig.SecondStageNotCommitted` | lib/plutosdr/plutosdr_source_c.cc:251-256 | Setting `RX2` commits a snapshot identical to the one the state before the call gives, because the second gain is not among the `set_params` arguments. |
| `PlutoConfig.CenterFreqNotChecked` | lib/plutosdr/plutosdr_source_c.cc:118-133 | `set_center_freq` does not check the advertised range: every convertible frequency is stored truncated, read back and committed, inside the range or not. 1 Hz, outside 70 MHz–6 GHz, is one such frequency. |
| `PlutoConfig.DefaultsWithinCapabilities` | lib/plutosdr/plutosdr_source_c.cc:41-57 | The default frequency, sample rate and gain lie inside the advertised ranges. The default RF port equals the fixed antenna. The default bandwidth of 2 MHz is the automatic bandwidth of the default 2.5 MHz sample rate. |
| `PlutoCapabilities.AntennaIsFixed` | lib/plutosdr/plutosdr_source_c.cc:216-234 | `set_antenna(x)` returns `get_antenna()` for every `x`, which is the literal `A_BALANCED`. `get_antennas` is the one-element list holding `get_antenna()`. |
| `PlutoCapabilities.GainRangeIgnoresName` | lib/plutosdr/plutosdr_source_c.cc:161-178 | Both `get_gain_range` overloads return the single range 0–72 in steps of 1, whatever the stage name. |
| `PlutoHistory.RunUntouched` | lib/plutosdr/plutosdr_source_c.cc:105-249 | A sequence of calls none of which reaches a getter leaves what that getter reads unchanged. |
| `PlutoHistory.RunReadAfterWrite` | lib/plutosdr/plutosdr_source_c.cc:105-249 | For any sequence of calls, a getter reads the value written by the last call that reaches it, computed in the state that call started from. |
| `PlutoHistory.AutoBandwidthNotRecomputed` | lib/plutosdr/plutosdr_source_c.cc:236-244 | After `set_bandwidth(0)`, the bandwidth stays the automatic bandwidth of the sample rate at the time of that call, whatever sample-rate changes follow, until the next `set_bandwidth`. |
| `PlutoHistory.RunLogLength` | lib/plutosdr/plutosdr_source_c.cc:105-256 | The driver receives exactly one snapshot per setter call, except for `set_freq_corr` calls. |
| `PlutoHistory.RunLogEntry` | lib/plutosdr/plutosdr_source_c.cc:251-256 | The snapshot committed by a call is the whole committed state right after that call. It is stored in the log directly after the commits of the calls before it. |
| `PlutoHistory.RunIgnoresUncommitted` | lib/plutosdr/plutosdr_source_c.cc:251-256 | Two states that differ only in the second gain and the frequency correction produce the same commit log under every sequence of calls. |
| `PlutoHistory.SecondGainNeverCommitted` | lib/plutosdr/plutosdr_source_c.cc:181-197 | The value the second gain starts with never changes what the driver receives. |
| `PlutoSource.PlutoSdrSource.constructor` | lib/plutosdr/plutosdr_source_c.cc:36-57 | The state starts at the constructor's defaults: 434 MHz, 2.5 MS/s, 2 MHz bandwidth, `fast_attack` at 64, port `A_BALANCED`, empty filter, channels 1 and 2 enabled, buffer size 131072. The commit log starts empty. |
| `PlutoSource.PlutoSdrSource.SetParams` | lib/plutosdr/plutosdr_source_c.cc:251-256 | Appends the snapshot of frequency, sample rate, bandwidth, quadrature, rfdc, bbdc, gain1 mode, gain1 value and filter, and changes nothing else. |
| `PlutoSource.PlutoSdrSource.SetSampleRate` | lib/plutosdr/plutosdr_source_c.cc:105-116 | Stores the truncated rate and changes no other field. It returns the stored value and appends exactly one snapshot of the new state. |
| `PlutoSource.PlutoSdrSource.SetCenterFreq` | lib/plutosdr/plutosdr_source_c.cc:127-138 | Stores the truncated frequency and changes no other field. It returns the original argument and appends exactly one snapshot. |
| `PlutoSource.PlutoSdrSource.SetFreqCorr` | lib/plutosdr/plutosdr_source_c.cc:140-149 | Stores the correction and returns it. It changes no other field and appends nothing. |
| `PlutoSource.PlutoSdrSource.SetGain` | lib/plutosdr/plutosdr_source_c.cc:181-188 | Sets both stage gains. It returns the gain and appends exactly one snapshot. |
| `PlutoSource.PlutoSdrSource.SetNamedGain` | lib/plutosdr/plutosdr_source_c.cc:190-199 | `RX1` changes only the first gain and `RX2` only the second. Any other name changes nothing. Every call appends exactly one snapshot and returns the gain. |
| `PlutoSource.PlutoSdrSource.SetBandwidth` | lib/plutosdr/plutosdr_source_c.cc:236-249 | Bandwidth 0 stores the automatic bandwidth of the sample rate at call time, and any other value stores its truncation. No other field changes. It returns the stored bandwidth and appends exactly one snapshot. |
| `PlutoSource.ScenarioCenterFrequency` | lib/plutosdr/plutosdr_source_c.cc:127-138 | On a fresh source, tuning to 2.4 GHz reads back 2.4 GHz. The driver has received exactly one snapshot: that frequency with every other field at its default. |
| `PlutoSource.ScenarioGainPerStage` | lib/plutosdr/plutosdr_source_c.cc:190-214 | Setting `RX1` to 40 and then `RX2` to 50 reads back 40 and 50. Two snapshots are committed, and both are identical, carrying gain 40. |
| `PlutoSource.ScenarioAutoBandwidth` | lib/plutosdr/plutosdr_source_c.cc:236-249 | Automatic bandwidth at the default rate gives 2 MHz, and that holds after the rate is raised to 10 MS/s. A later `RX2` gain does not disturb it. A frequency correction of 1.5 reads back and adds no commit, so the log has three entries. The bandwidth is derived from the object's call history by `AutoBandwidthNotRecomputed`. |

The getters of `PlutoSdrSource` (`GetSampleRate`, `GetCenterFreq`,
`GetBandwidth`, `GetFreqCorr`, `GetGain`, `GetNamedGain`; lines 113-116, 135-138,
146-149, 201-214, 246-249) read the mirror through `PlutoConfig.Read`. The
constant queries of `PlutoCapabilities` model lines 72-86, 93-103, 118-125,
151-178 and 216-234. Both are used by the rows above.

Three points about the code are easy to miss:
- The commit does not send the entire state. `gain2_value`, `gain2_mode`,
  `rf_port_select` and the frequency correction are never passed to
  `set_params`.
- `get_antenna` returns a literal, not the `rf_port_select` field.
- This source supports one device, 70 MHz–6 GHz and 0–72, and wires no
  sample-format converter.

## Left out

- The GNU Radio graph plumbing is not modelled: the `hier_block2` base, the IO
  signatures, `connect`, and `get_num_channels`, which reads the framework's
  output signature. They belong to the framework.
- The IIO driver `pluto_source` is an external library whose code is not part of
  this model. Its construction, register I/O, sample streaming and any failure of
  `set_params` are not modelled. It is modelled only as the ghost log of
  snapshots it receives, and every commit is taken to be accepted.
- The `short_to_float` and `float_to_complex` members are declared but never
  created or connected in this variant, so there is no sample conversion to model.
- Doubles are modelled as exact reals: there is no NaN, no infinity, and no
  signed zero. `0.8 * samplerate` is computed exactly before truncation. Returning
  an unsigned field as a double is taken to be exact, although above 2^53 the
  source rounds.
- `unsigned long` is taken as 64 bits, as on LP64 platforms. Where it is 32 bits,
  the sample rate and bandwidth casts would have a 2^32 bound.
- Setters whose double argument lies outside (-1, 2^64) are excluded by a
  `requires`, because that conversion is undefined behaviour in C++.
- The `make_plutosdr_source_c` factory, `shared_ptr` handling, the unused `args`
  string and the ignored `chan` parameters are not modelled.
- `gain2_mode` is never assigned or read. `gain2_value` and `_freq_corr` start
  arbitrary. No property describes reading them before a setter writes them.
- `Covers` checks only the bounds of a range and ignores its step.
