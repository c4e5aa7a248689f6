/** NumPy's `linspace(start, stop, num)` with its default `endpoint=True`,
    over exact reals: `num` points from `start` to `stop`, both included. */
module Spacing {

  /** Consecutive entries of `s` differ by exactly `step`. */
  predicate SpacedBy(s: seq<real>, step: real) {
    forall i :: 0 <= i < |s| - 1 ==> s[i + 1] - s[i] == step
  }

  predicate StrictlyIncreasing(s: seq<real>) {
    forall i, j :: 0 <= i < j < |s| ==> s[i] < s[j]
  }

  /** Entry `i` is `start + i * step` with `step = (stop - start) / (num - 1)`;
      one point is `[start]` and zero points are `[]`. */
  function Linspace(start: real, stop: real, num: nat): (r: seq<real>)
    ensures |r| == num
    ensures num >= 1 ==> r[0] == start
    ensures num >= 2 ==> r[num - 1] == stop
  {
    if num == 0 then []
    else if num == 1 then [start]
    else
      var step := (stop - start) / (num - 1) as real;
      seq(num, i requires 0 <= i < num => start + (i as real) * step)
  }

  /** The points are evenly spaced, `(stop - start) / (num - 1)` apart. */
  lemma LinspaceSpacing(start: real, stop: real, num: nat)
    ensures num >= 2 ==> SpacedBy(Linspace(start, stop, num), (stop - start) / (num - 1) as real)
  {
  }

  /** An evenly spaced sequence is its first entry plus `i` steps. */
  lemma {:induction false} SpacedFromFirst(s: seq<real>, step: real, i: nat)
    requires SpacedBy(s, step) && i < |s|
    ensures s[i] == s[0] + (i as real) * step
  {
    if i > 0 {
      SpacedFromFirst(s, step, i - 1);
      assert s[i] - s[i - 1] == step;
    }
  }

  /** With `start <= stop` every point lies in `[start, stop]`. */
  lemma LinspaceWithin(start: real, stop: real, num: nat)
    requires start <= stop
    ensures forall i :: 0 <= i < num ==> start <= Linspace(start, stop, num)[i] <= stop
  {
    if num >= 2 {
      var r := Linspace(start, stop, num);
      var step := (stop - start) / (num - 1) as real;
      assert step >= 0.0;
      assert ((num - 1) as real) * step == stop - start;
      forall i | 0 <= i < num
        ensures start <= r[i] <= stop
      {
        assert r[i] == start + (i as real) * step;
        assert ((num - 1 - i) as real) * step >= 0.0;
        assert ((num - 1) as real) * step == (i as real) * step + ((num - 1 - i) as real) * step;
      }
    }
  }

  /** With `start < stop` the points strictly increase. */
  lemma LinspaceIncreasing(start: real, stop: real, num: nat)
    ensures start < stop ==> StrictlyIncreasing(Linspace(start, stop, num))
  {
    if start < stop && num >= 2 {
      var r := Linspace(start, stop, num);
      var step := (stop - start) / (num - 1) as real;
      assert step > 0.0;
      forall i, j | 0 <= i < j < num
        ensures r[i] < r[j]
      {
        assert r[j] - r[i] == ((j - i) as real) * step;
      }
    }
  }

  /** The step of an evenly spaced run is its span divided by the number of gaps. */
  lemma StepFromSpan(step: real, gaps: real, span: real)
    requires gaps > 0.0 && gaps * step == span
    ensures step == span / gaps
  {
  }

  /** `Linspace` is the only sequence of `num >= 2` evenly spaced points that
      starts at `start` and ends at `stop`. */
  lemma LinspaceUnique(s: seq<real>, step: real, start: real, stop: real)
    requires |s| >= 2 && SpacedBy(s, step)
    requires s[0] == start && s[|s| - 1] == stop
    ensures s == Linspace(start, stop, |s|)
  {
    var num := |s|;
    var r := Linspace(start, stop, num);
    SpacedFromFirst(s, step, num - 1);
    StepFromSpan(step, (num - 1) as real, stop - start);
    forall i | 0 <= i < num
      ensures s[i] == r[i]
    {
      SpacedFromFirst(s, step, i);
      if 1 <= i < num - 1 {
        assert r[i] == start + (i as real) * step;
      }
    }
  }
}
