/** Sequences of setter calls on the PlutoSDR source: the state they leave
    behind and the log of snapshots the driver receives. */
module PlutoHistory {
  import opened PlutoConfig

  /** The state after a sequence of calls and the snapshots committed on the way. */
  datatype History = History(config: Config, log: seq<Snapshot>)

  predicate AllAdmissible(calls: seq<Setting>) {
    forall i :: 0 <= i < |calls| ==> Admissible(calls[i])
  }

  /** Replays `calls` from `c`; each committing call appends the snapshot of
      the state it leaves. */
  function Run(c: Config, calls: seq<Setting>): History
    requires AllAdmissible(calls)
    decreases |calls|
  {
    if calls == [] then History(c, [])
    else
      var h := Run(c, calls[..|calls| - 1]);
      var o := Step(h.config, calls[|calls| - 1]);
      History(o.config, h.log + if o.committed then [SnapshotOf(o.config)] else [])
  }

  /** The number of calls in `calls` that commit. */
  function CommitCount(calls: seq<Setting>): nat
    decreases |calls|
  {
    if calls == [] then 0
    else CommitCount(calls[..|calls| - 1]) + if calls[|calls| - 1].FreqCorrTo? then 0 else 1
  }

  /** One more call extends the replay by exactly one step. */
  lemma RunSnoc(c: Config, calls: seq<Setting>, s: Setting)
    requires AllAdmissible(calls) && Admissible(s)
    ensures AllAdmissible(calls + [s])
    ensures var h := Run(c, calls); var o := Step(h.config, s);
            Run(c, calls + [s]) == History(o.config, h.log + if o.committed then [SnapshotOf(o.config)] else [])
  {
    assert (calls + [s])[..|calls|] == calls;
  }

  /** Replaying `a` then `b` is replaying `b` from where `a` left off; the logs concatenate. */
  lemma {:induction false} RunAppend(c: Config, a: seq<Setting>, b: seq<Setting>)
    requires AllAdmissible(a) && AllAdmissible(b)
    ensures AllAdmissible(a + b)
    ensures Run(c, a + b).config == Run(Run(c, a).config, b).config
    ensures Run(c, a + b).log == Run(c, a).log + Run(Run(c, a).config, b).log
    decreases |b|
  {
    if b == [] {
      assert a + b == a;
    } else {
      var b', t := b[..|b| - 1], b[|b| - 1];
      assert b == b' + [t];
      assert a + b == (a + b') + [t];
      RunAppend(c, a, b');
      RunSnoc(c, a + b', t);
      RunSnoc(Run(c, a).config, b', t);
    }
  }

  /** Calls that do not touch a getter leave what it reads unchanged. */
  lemma {:induction false} RunUntouched(c: Config, calls: seq<Setting>, q: Query)
    requires AllAdmissible(calls)
    requires forall i :: 0 <= i < |calls| ==> !Touches(calls[i], q)
    ensures Read(Run(c, calls).config, q) == Read(c, q)
    decreases |calls|
  {
    if calls != [] {
      var prefix := calls[..|calls| - 1];
      RunUntouched(c, prefix, q);
      StepReadBack(Run(c, prefix).config, calls[|calls| - 1], q);
    }
  }

  /** Read after write over any sequence of calls: a getter reads the value
      written by the last call `k` that touches it, computed in the state that
      call started from. */
  lemma RunReadAfterWrite(c: Config, calls: seq<Setting>, k: nat, q: Query)
    requires AllAdmissible(calls)
    requires k < |calls| && Touches(calls[k], q)
    requires forall i :: k < i < |calls| ==> !Touches(calls[i], q)
    ensures Read(Run(c, calls).config, q) == WrittenValue(Run(c, calls[..k]).config, calls[k])
  {
    var upTo, rest := calls[..k + 1], calls[k + 1..];
    assert calls == upTo + rest;
    assert upTo == calls[..k] + [calls[k]];
    RunSnoc(c, calls[..k], calls[k]);
    RunAppend(c, upTo, rest);
    RunUntouched(Run(c, upTo).config, rest, q);
    StepReadBack(Run(c, calls[..k]).config, calls[k], q);
  }

  /** An automatic bandwidth is resolved from the sample rate at the time of
      the call `k` and is not recomputed when the sample rate changes later. */
  lemma AutoBandwidthNotRecomputed(c: Config, calls: seq<Setting>, k: nat)
    requires AllAdmissible(calls)
    requires k < |calls| && calls[k] == BandwidthTo(0.0)
    requires forall i :: k < i < |calls| ==> !calls[i].BandwidthTo?
    ensures Run(c, calls).config.bandwidth == AutoBandwidth(Run(c, calls[..k]).config.sampleRate)
  {
    RunReadAfterWrite(c, calls, k, BandwidthOf);
  }

  /** The driver receives one snapshot per call, except for the frequency correction calls. */
  lemma {:induction false} RunLogLength(c: Config, calls: seq<Setting>)
    requires AllAdmissible(calls)
    ensures |Run(c, calls).log| == CommitCount(calls)
    decreases |calls|
  {
    if calls != [] {
      RunLogLength(c, calls[..|calls| - 1]);
    }
  }

  /** The snapshot committed by call `k` is the whole state right after that
      call, and it sits in the log behind the commits of the calls before it. */
  lemma RunLogEntry(c: Config, calls: seq<Setting>, k: nat)
    requires AllAdmissible(calls)
    requires k < |calls| && !calls[k].FreqCorrTo?
    ensures CommitCount(calls[..k]) < |Run(c, calls).log|
    ensures Run(c, calls).log[CommitCount(calls[..k])] == SnapshotOf(Run(c, calls[..k + 1]).config)
  {
    var upTo, rest := calls[..k + 1], calls[k + 1..];
    assert calls == upTo + rest;
    assert upTo == calls[..k] + [calls[k]];
    RunAppend(c, upTo, rest);
    RunSnoc(c, calls[..k], calls[k]);
    RunLogLength(c, calls[..k]);
  }

  /** Two states that differ only in what a commit does not carry. */
  predicate AgreeOnCommitted(a: Config, b: Config) {
    a.(gain2Value := b.gain2Value, freqCorr := b.freqCorr) == b
  }

  /** One call keeps two such states in agreement, and both commit the same snapshot or neither commits. */
  lemma StepIgnoresUncommitted(a: Config, b: Config, s: Setting)
    requires Admissible(s)
    requires AgreeOnCommitted(a, b)
    ensures AgreeOnCommitted(Step(a, s).config, Step(b, s).config)
    ensures Step(a, s).committed == Step(b, s).committed
    ensures SnapshotOf(Step(a, s).config) == SnapshotOf(Step(b, s).config)
  {
    match s
    case NamedGainTo(v, name) =>
      if name == "RX1" {
      } else if name == "RX2" {
      }
    case _ =>
  }

  /** The second gain and the frequency correction never influence what the
      driver receives. */
  lemma {:induction false} RunIgnoresUncommitted(a: Config, b: Config, calls: seq<Setting>)
    requires AllAdmissible(calls)
    requires AgreeOnCommitted(a, b)
    ensures Run(a, calls).log == Run(b, calls).log
    ensures AgreeOnCommitted(Run(a, calls).config, Run(b, calls).config)
    decreases |calls|
  {
    if calls != [] {
      var prefix := calls[..|calls| - 1];
      RunIgnoresUncommitted(a, b, prefix);
      StepIgnoresUncommitted(Run(a, prefix).config, Run(b, prefix).config, calls[|calls| - 1]);
    }
  }

  /** Whatever value the second gain starts with, the driver sees the same commits. */
  lemma SecondGainNeverCommitted(c: Config, g: real, calls: seq<Setting>)
    requires AllAdmissible(calls)
    ensures Run(c.(gain2Value := g), calls).log == Run(c, calls).log
  {
    RunIgnoresUncommitted(c.(gain2Value := g), c, calls);
  }
}
