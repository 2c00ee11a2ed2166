/** Turning a (context, continuation) request into the token row fed to the model:
    tokenisation with the end-of-text substitute for an empty context, left truncation
    to the model's window, dropping the final token, and right padding to the batch width. */
module Encoding {

  /** An encoded request: context tokens and continuation tokens. */
  datatype Pair = Pair(context: seq<int>, continuation: seq<int>)

  /** `loglikelihood`'s per-request encoding (huggingface.py:126-135); `tok` is the tokenizer. */
  function EncodeRequest(tok: string -> seq<int>, eot: int, context: string, continuation: string): (p: Pair)
    ensures context == "" ==> p.context == [eot]
    ensures context != "" ==> p.context == tok(context)
    ensures p.continuation == tok(continuation)
    ensures context == "" ==> |p.context| > 0
  {
    Pair(if context == "" then [eot] else tok(context), tok(continuation))
  }

  /** The three sanity asserts of `_loglikelihood_tokens`. */
  predicate WellFormed(p: Pair, maxLength: nat)
  {
    |p.context| > 0 && |p.continuation| > 0 && |p.continuation| <= maxLength
  }

  function TotalLength(p: Pair): nat
  {
    |p.context| + |p.continuation|
  }

  function Min(a: int, b: int): int
  {
    if a <= b then a else b
  }

  /** Python's `s[-n:]` for `n >= 1`: the last `n` elements, or all of `s` when it is shorter. */
  function TakeLast(s: seq<int>, n: nat): (r: seq<int>)
    requires n >= 1
    ensures |r| == Min(|s|, n)
    ensures r == s[|s| - |r|..]
  {
    s[|s| - Min(|s|, n)..]
  }

  /** Python's `s[:-1]`. */
  function DropLast(s: seq<int>): seq<int>
  {
    if s == [] then [] else s[..|s| - 1]
  }

  /** The tokens the model may see before dropping the last one: `(ctx + cont)[-(maxLength + 1):]`. */
  function Window(p: Pair, maxLength: nat): seq<int>
  {
    TakeLast(p.context + p.continuation, maxLength + 1)
  }

  /** The unpadded input row `(ctx + cont)[-(maxLength + 1):][:-1]`. Only the oldest (leftmost)
      tokens are cut, then the final token, which has nothing left to predict it from. */
  function InputRow(p: Pair, maxLength: nat): (row: seq<int>)
    ensures |row| <= maxLength
  {
    DropLast(Window(p, maxLength))
  }

  /** The row's length is `min(len(ctx + cont), maxLength + 1) - 1`, and it is the stretch of
      `ctx + cont` that ends just before the last token: truncation removes only the oldest tokens. */
  lemma InputRowTruncates(p: Pair, maxLength: nat)
    ensures TotalLength(p) == 0 ==> InputRow(p, maxLength) == []
    ensures TotalLength(p) > 0 ==> |InputRow(p, maxLength)| == Min(TotalLength(p), maxLength + 1) - 1
    ensures TotalLength(p) > 0 ==>
              InputRow(p, maxLength)
              == (p.context + p.continuation)[TotalLength(p) - Min(TotalLength(p), maxLength + 1) .. TotalLength(p) - 1]
  {
  }

  /** Alignment of the continuation span (the diagram at huggingface.py:210-215): under the
      asserts the span `[inplen - contlen, inplen)` lies inside the row, the row is the window
      minus its last token, and the output at row position `inplen - contlen + k` is the
      prediction of window token `inplen - contlen + k + 1`, which is continuation token `k`. */
  lemma ContinuationAligned(p: Pair, maxLength: nat)
    requires WellFormed(p, maxLength)
    ensures |p.continuation| <= |InputRow(p, maxLength)|
    ensures |Window(p, maxLength)| == |InputRow(p, maxLength)| + 1
    ensures InputRow(p, maxLength) == Window(p, maxLength)[..|InputRow(p, maxLength)|]
    ensures forall k :: 0 <= k < |p.continuation| ==>
              Window(p, maxLength)[|InputRow(p, maxLength)| - |p.continuation| + 1 + k] == p.continuation[k]
  {
    var whole := p.context + p.continuation;
    var w := Window(p, maxLength);
    forall k | 0 <= k < |p.continuation|
      ensures w[|InputRow(p, maxLength)| - |p.continuation| + 1 + k] == p.continuation[k]
    {
      assert w[|w| - |p.continuation| + k] == whole[|whole| - |p.continuation| + k];
    }
  }

  /** A longer request never gets a shorter input row. */
  lemma InputRowMonotone(p: Pair, q: Pair, maxLength: nat)
    requires TotalLength(p) >= TotalLength(q)
    ensures |InputRow(p, maxLength)| >= |InputRow(q, maxLength)|
  {
  }

  /** Right padding with zeros: `torch.cat([inp, torch.zeros(padding_length - inplen)])`. */
  function PadRow(row: seq<int>, padLen: nat): (r: seq<int>)
    requires |row| <= padLen
    ensures |r| == padLen
  {
    row + seq(padLen - |row|, _ => 0)
  }

  /** The padded row starts with the row and continues with zeros only. */
  lemma PaddedShape(row: seq<int>, padLen: nat)
    requires |row| <= padLen
    ensures PadRow(row, padLen)[..|row|] == row
    ensures forall i :: |row| <= i < padLen ==> PadRow(row, padLen)[i] == 0
  {
  }

  /** Requests listed in non-increasing total length, as the sort key puts them. */
  predicate Descending(ps: seq<Pair>)
  {
    forall i, j :: 0 <= i < j < |ps| ==> TotalLength(ps[i]) >= TotalLength(ps[j])
  }

  /** In a descending group the first row is the widest, so `padding_length - inplen`
      is never negative. */
  lemma PaddingFits(ps: seq<Pair>, maxLength: nat)
    requires ps != [] && Descending(ps)
    ensures forall k :: 0 <= k < |ps| ==> |InputRow(ps[k], maxLength)| <= |InputRow(ps[0], maxLength)|
  {
    forall k | 0 <= k < |ps| ensures |InputRow(ps[k], maxLength)| <= |InputRow(ps[0], maxLength)| {
      InputRowMonotone(ps[0], ps[k], maxLength);
    }
  }
}
