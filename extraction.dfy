/** Reading one request's answer off the model's log-probability rows: the slice
    `[inplen - contlen, inplen)`, the gathered sum at the continuation token ids, and the
    exact-greedy flag. Log-probabilities are `real`, so sums are exact. */
module Extraction {
  import opened Outcomes

  /** `(log prob, is-exact-match)`. */
  datatype Answer = Answer(logProb: real, isGreedy: bool)

  /** The per-position argmax. Ties go to the lowest index; the properties below that matter
      for the engine are stated for a unique maximum, where every tie rule agrees. */
  function Argmax(dist: seq<real>): (t: nat)
    requires |dist| > 0
    ensures t < |dist|
    ensures forall j :: 0 <= j < |dist| ==> dist[j] <= dist[t]
    ensures forall j :: 0 <= j < t ==> dist[j] < dist[t]
  {
    if |dist| == 1 then 0
    else
      var t := Argmax(dist[..|dist| - 1]);
      if dist[|dist| - 1] > dist[t] then |dist| - 1 else t
  }

  /** `t` is the only position holding the row's maximum. */
  predicate UniqueMax(dist: seq<real>, t: int)
  {
    0 <= t < |dist| && forall j :: 0 <= j < |dist| && j != t ==> dist[j] < dist[t]
  }

  lemma ArgmaxOfUniqueMax(dist: seq<real>, t: int)
    requires UniqueMax(dist, t)
    ensures Argmax(dist) == t
  {
  }

  /** Every index the extraction uses is inside the log-prob rows; torch raises otherwise. */
  predicate Fits(m: seq<seq<real>>, inplen: nat, cont: seq<int>)
  {
    && |cont| <= inplen <= |m|
    && forall k :: 0 <= k < |cont| ==> 0 <= cont[k] < |m[inplen - |cont| + k]|
  }

  /** Sum over `k` of `m[off + k][cont[k]]` (the gather and the sum). */
  function Gathered(m: seq<seq<real>>, off: nat, cont: seq<int>): real
    requires off + |cont| <= |m|
    requires forall k :: 0 <= k < |cont| ==> 0 <= cont[k] < |m[off + k]|
    decreases |cont|
  {
    if cont == [] then 0.0 else m[off][cont[0]] + Gathered(m, off + 1, cont[1..])
  }

  /** The argmax at every position of the span is the continuation token there. */
  predicate AllGreedy(m: seq<seq<real>>, off: nat, cont: seq<int>)
    requires off + |cont| <= |m|
    requires forall k :: 0 <= k < |cont| ==> 0 <= cont[k] < |m[off + k]|
  {
    forall k :: 0 <= k < |cont| ==> 0 <= cont[k] < |m[off + k]| && cont[k] == Argmax(m[off + k])
  }

  /** One row's answer (huggingface.py:255-275). */
  function Extract(m: seq<seq<real>>, inplen: nat, cont: seq<int>): (r: Result<Answer>)
    ensures r.Success? <==> Fits(m, inplen, cont)
    ensures r.Failure? ==> r.error == IndexOutOfRange
  {
    if Fits(m, inplen, cont) then
      Success(Answer(Gathered(m, inplen - |cont|, cont), AllGreedy(m, inplen - |cont|, cont)))
    else Failure(IndexOutOfRange)
  }

  /** The extraction reads no row at or after `inplen`: whatever the model produced at the
      padded positions, the answer is the same. */
  lemma {:induction false} ExtractReadsOnlyPrefix(m1: seq<seq<real>>, m2: seq<seq<real>>, inplen: nat, cont: seq<int>)
    requires inplen <= |m1| && inplen <= |m2| && m1[..inplen] == m2[..inplen]
    ensures Extract(m1, inplen, cont) == Extract(m2, inplen, cont)
  {
    forall i | 0 <= i < inplen ensures m1[i] == m2[i] {
      assert m1[..inplen][i] == m2[..inplen][i];
    }
    if Fits(m1, inplen, cont) {
      GatheredReadsOnlySpan(m1, m2, inplen - |cont|, cont);
    }
  }

  lemma {:induction false} GatheredReadsOnlySpan(m1: seq<seq<real>>, m2: seq<seq<real>>, off: nat, cont: seq<int>)
    requires off + |cont| <= |m1| && off + |cont| <= |m2|
    requires forall i :: off <= i < off + |cont| ==> m1[i] == m2[i]
    requires forall k :: 0 <= k < |cont| ==> 0 <= cont[k] < |m1[off + k]|
    ensures Gathered(m1, off, cont) == Gathered(m2, off, cont)
    decreases |cont|
  {
    if cont != [] {
      GatheredReadsOnlySpan(m1, m2, off + 1, cont[1..]);
    }
  }

  /** Entries of a log-softmax are never positive, and neither is the summed score. */
  lemma {:induction false} GatheredNonPositive(m: seq<seq<real>>, off: nat, cont: seq<int>)
    requires off + |cont| <= |m|
    requires forall k :: 0 <= k < |cont| ==> 0 <= cont[k] < |m[off + k]|
    requires forall i, t :: off <= i < off + |cont| && 0 <= t < |m[i]| ==> m[i][t] <= 0.0
    ensures Gathered(m, off, cont) <= 0.0
    decreases |cont|
  {
    if cont != [] {
      GatheredNonPositive(m, off + 1, cont[1..]);
    }
  }

  /** The score splits at any point of the continuation: the first `n` tokens, then the rest. */
  lemma {:induction false} GatheredSplit(m: seq<seq<real>>, off: nat, cont: seq<int>, n: nat)
    requires off + |cont| <= |m| && n <= |cont|
    requires forall k :: 0 <= k < |cont| ==> 0 <= cont[k] < |m[off + k]|
    ensures Gathered(m, off, cont) == Gathered(m, off, cont[..n]) + Gathered(m, off + n, cont[n..])
    decreases n
  {
    if n > 0 {
      GatheredSplit(m, off + 1, cont[1..], n - 1);
      assert cont[1..][..n - 1] == cont[..n][1..];
      assert cont[1..][n - 1..] == cont[n..];
    }
  }

  /** When every position's unique maximum is the continuation token, the answer is greedy. */
  lemma GreedyWhenEveryMaxMatches(m: seq<seq<real>>, inplen: nat, cont: seq<int>)
    requires |cont| <= inplen <= |m|
    requires forall k :: 0 <= k < |cont| ==> UniqueMax(m[inplen - |cont| + k], cont[k])
    ensures Extract(m, inplen, cont).Success?
    ensures Extract(m, inplen, cont).value.isGreedy
  {
    forall k | 0 <= k < |cont|
      ensures 0 <= cont[k] < |m[inplen - |cont| + k]| && cont[k] == Argmax(m[inplen - |cont| + k])
    {
      ArgmaxOfUniqueMax(m[inplen - |cont| + k], cont[k]);
    }
  }

  /** ...and moving one position's unique maximum to a different token makes it not greedy. */
  lemma NotGreedyWhenOneMaxDiffers(m: seq<seq<real>>, inplen: nat, cont: seq<int>, k: nat, t: int)
    requires Fits(m, inplen, cont)
    requires k < |cont| && t != cont[k] && UniqueMax(m[inplen - |cont| + k], t)
    ensures !Extract(m, inplen, cont).value.isGreedy
  {
    ArgmaxOfUniqueMax(m[inplen - |cont| + k], t);
  }
}
