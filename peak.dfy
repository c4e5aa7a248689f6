/** `np.argmax`: the index of the first largest value. */
module Peak {
  import opened Outcomes

  /** `k` is the first index of the maximum of `s`: nothing is larger than
      `s[k]`, and everything before `k` is strictly smaller. */
  predicate IsFirstMax(s: seq<real>, k: nat) {
    && k < |s|
    && (forall i :: 0 <= i < |s| ==> s[i] <= s[k])
    && (forall i :: 0 <= i < k ==> s[i] < s[k])
  }

  /** The first index of the maximum of a non-empty sequence: scan left to
      right and move only on a strictly larger value. */
  function FirstMaxIndex(s: seq<real>): (k: nat)
    requires |s| > 0
    ensures IsFirstMax(s, k)
  {
    if |s| == 1 then 0
    else
      var j := FirstMaxIndex(s[..|s| - 1]);
      if s[j] < s[|s| - 1] then |s| - 1 else j
  }

  /** `np.argmax(s)`, which raises on an empty sequence. */
  function ArgMax(s: seq<real>): (r: Result<nat>)
    ensures r.Err? <==> |s| == 0
    ensures r.Err? ==> r.failure == EmptyArgMax
    ensures r.Ok? ==> IsFirstMax(s, r.value)
  {
    if |s| == 0 then Err(EmptyArgMax) else Ok(FirstMaxIndex(s))
  }

  /** The first-maximum property pins the index down: no other index has it. */
  lemma FirstMaxUnique(s: seq<real>, j: nat, k: nat)
    requires IsFirstMax(s, j) && IsFirstMax(s, k)
    ensures j == k
  {
    assert s[k] <= s[j] && s[j] <= s[k];
  }
}
