/** The spectrum geometry shared by both scripts, and the whole first-phase
    pipeline: reduce to one channel, compute the duration and time axis, then
    the half-spectrum and its frequency axis. The FFT and the decibel
    conversion are not modelled: `binDb` stands for `20 * log10(|yf[k]| + 1e-6)`
    of every FFT bin `k`, one per frame. */
module Spectrum {
  import opened Outcomes
  import opened Channels
  import opened Spacing

  /** `len(data) / rate`: the duration in seconds, with the division by zero
      that a zero sample rate raises. */
  function Duration(frames: nat, rate: nat): (r: Result<real>)
    ensures r.Ok? <==> rate > 0
    ensures r.Err? ==> r.failure == DivisionByZero
    ensures r.Ok? ==> r.value >= 0.0 && r.value * rate as real == frames as real
  {
    if rate == 0 then Err(DivisionByZero) else Ok(frames as real / rate as real)
  }

  /** `np.linspace(0, duration, num=n)`: one instant per frame, from 0 to the
      duration inclusive. */
  function TimeAxis(duration: real, n: nat): (t: seq<real>)
    requires duration >= 0.0
    ensures |t| == n
    ensures n >= 1 ==> t[0] == 0.0
    ensures n >= 2 ==> t[n - 1] == duration && SpacedBy(t, duration / (n - 1) as real)
    ensures forall i :: 0 <= i < n ==> 0.0 <= t[i] <= duration
  {
    LinspaceWithin(0.0, duration, n);
    LinspaceSpacing(0.0, duration, n);
    Linspace(0.0, duration, n)
  }

  /** `np.linspace(0.0, rate / 2.0, n // 2)`: one frequency per retained bin,
      from 0 up to and including half the sample rate. */
  function FrequencyAxis(rate: nat, n: nat): (xf: seq<real>)
    ensures |xf| == n / 2
    ensures n / 2 >= 1 ==> xf[0] == 0.0
    ensures n / 2 >= 2 ==> xf[n / 2 - 1] == rate as real / 2.0
    ensures n / 2 >= 2 ==> SpacedBy(xf, (rate as real / 2.0) / (n / 2 - 1) as real)
    ensures forall i :: 0 <= i < |xf| ==> 0.0 <= xf[i] <= rate as real / 2.0
    ensures rate > 0 ==> StrictlyIncreasing(xf)
  {
    var half := n / 2;
    var nyquist := rate as real / 2.0;
    LinspaceWithin(0.0, nyquist, half);
    LinspaceSpacing(0.0, nyquist, half);
    LinspaceIncreasing(0.0, nyquist, half);
    Linspace(0.0, nyquist, half)
  }

  /** What the first phase shows for one recording. */
  datatype Summary<T> = Summary(
    rate: nat,
    samples: seq<T>,
    duration: real,
    time: seq<real>,
    freqs: seq<real>,
    db: seq<real>)

  /** The first-phase pipeline. It fails exactly when channel 0 is missing,
      the sample rate is zero, or there are no frames to transform; with a
      single frame it succeeds with an empty half-spectrum. */
  function Summarize<T>(audio: Audio<T>, rate: nat, binDb: seq<real>): (r: Result<Summary<T>>)
    requires WellShaped(audio) && |binDb| == FrameCount(audio)
    ensures r.Ok? <==> HasChannelZero(audio) && rate > 0 && FrameCount(audio) >= 1
    ensures !HasChannelZero(audio) ==> r == Err(MissingChannel)
    ensures HasChannelZero(audio) && rate == 0 ==> r == Err(DivisionByZero)
    ensures HasChannelZero(audio) && rate > 0 && FrameCount(audio) == 0 ==> r == Err(EmptyTransform)
    ensures r.Ok? ==>
      var s := r.value;
      var n := FrameCount(audio);
      && s.rate == rate
      && Ok(s.samples) == ReduceChannels(audio)
      && s.duration * rate as real == n as real
      && s.time == TimeAxis(s.duration, n)
      && s.freqs == FrequencyAxis(rate, n)
      && s.db == binDb[..n / 2]
      && |s.samples| == |s.time| == n
      && |s.freqs| == |s.db| == n / 2
  {
    var samples :- ReduceChannels(audio);
    var duration :- Duration(|samples|, rate);
    var n := |samples|;
    if n == 0 then Err(EmptyTransform)
    else Ok(Summary(rate, samples, duration, TimeAxis(duration, n), FrequencyAxis(rate, n), binDb[..n / 2]))
  }

  /** One frame: the first phase succeeds with an empty half-spectrum, because
      it searches no peak. */
  lemma SingleFrameSummary<T>(x: T, rate: nat, b: real)
    requires rate > 0
    ensures Summarize(Mono([x]), rate, [b]).Ok?
    ensures Summarize(Mono([x]), rate, [b]).value.freqs == []
    ensures Summarize(Mono([x]), rate, [b]).value.db == []
  {
  }
}
