/** Channel reduction: a decoded recording is either one sample per frame or a
    frame-by-channel array; only channel 0 is kept. */
module Channels {
  import opened Outcomes

  /** What the WAV decoder hands over: a one-dimensional array of samples, or a
      two-dimensional array with one row per frame and `channels` columns. */
  datatype Audio<T> = Mono(samples: seq<T>) | Multi(channels: nat, frames: seq<seq<T>>)

  /** A two-dimensional array is rectangular: every frame has `channels` entries. */
  predicate WellShaped<T>(a: Audio<T>) {
    a.Multi? ==> forall i :: 0 <= i < |a.frames| ==> |a.frames[i]| == a.channels
  }

  /** The number of frames, `len(data)` before the reduction. */
  function FrameCount<T>(a: Audio<T>): nat {
    match a
    case Mono(s) => |s|
    case Multi(_, fs) => |fs|
  }

  /** Whether column 0 exists, so that `data[:, 0]` does not raise. */
  predicate HasChannelZero<T>(a: Audio<T>) {
    a.Mono? || a.channels > 0
  }

  /** `if data.ndim > 1: data = data[:, 0]`: keep channel 0 of every frame;
      a mono signal passes through unchanged. */
  function ReduceChannels<T>(a: Audio<T>): (r: Result<seq<T>>)
    requires WellShaped(a)
    ensures r.Ok? <==> HasChannelZero(a)
    ensures r.Err? ==> r.failure == MissingChannel
    ensures r.Ok? ==> |r.value| == FrameCount(a)
    ensures r.Ok? && a.Mono? ==> r.value == a.samples
    ensures r.Ok? && a.Multi? ==> forall i :: 0 <= i < |r.value| ==> r.value[i] == a.frames[i][0]
  {
    match a
    case Mono(s) => Ok(s)
    case Multi(c, fs) =>
      if c == 0 then Err(MissingChannel)
      else Ok(seq(|fs|, i requires 0 <= i < |fs| => fs[i][0]))
  }

  /** Only channel 0 matters: two frame arrays that agree in column 0 reduce
      to the same signal, whatever their other channels hold. */
  lemma OnlyChannelZeroMatters<T>(a: Audio<T>, b: Audio<T>)
    requires WellShaped(a) && WellShaped(b)
    requires a.Multi? && b.Multi? && a.channels > 0 && b.channels > 0
    requires |a.frames| == |b.frames|
    requires forall i :: 0 <= i < |a.frames| ==> a.frames[i][0] == b.frames[i][0]
    ensures ReduceChannels(a) == ReduceChannels(b)
  {
    var ra, rb := ReduceChannels(a).value, ReduceChannels(b).value;
    assert |ra| == |rb|;
    forall i | 0 <= i < |ra|
      ensures ra[i] == rb[i]
    {
      assert ra[i] == a.frames[i][0] && rb[i] == b.frames[i][0];
    }
    assert ra == rb;
  }
}
