/** `_loglikelihood_tokens`: sort the encoded requests longest first, cut them into
    batches, encode and pad each batch's rows, run the model, extract every row's answer
    and hand the answers back in the caller's order.

    The model is a parameter: for one input row it gives one log-probability distribution
    per position (the forward pass followed by `log_softmax`). The batched call is taken to
    act on each row independently, as a causal language model's forward pass does. */
module Likelihood {
  import opened Outcomes
  import opened Reorder
  import opened Chunking
  import opened Encoding
  import opened Extraction

  type Model = seq<int> -> seq<seq<real>>

  /** `_collate`'s key `(-len(ctx + cont), tuple(ctx + cont))`. */
  function LikelihoodKey(p: Pair): Key
  {
    Key(-(TotalLength(p) as int), p.context + p.continuation)
  }

  function LikelihoodKeys(ps: seq<Pair>): (keys: seq<Key>)
    ensures |keys| == |ps| && forall i :: 0 <= i < |ps| ==> keys[i] == LikelihoodKey(ps[i])
  {
    seq(|ps|, i requires 0 <= i < |ps| => LikelihoodKey(ps[i]))
  }

  /** Sorting by the key puts the requests in non-increasing total length. */
  lemma SortedIsDescending(ps: seq<Pair>, o: seq<nat>)
    requires IsPermutation(o, |ps|) && SortedBy(LikelihoodKeys(ps), o)
    ensures Descending(Reordered(ps, o))
  {
    var keys := LikelihoodKeys(ps);
    var r := Reordered(ps, o);
    forall i, j | 0 <= i < j < |r| ensures TotalLength(r[i]) >= TotalLength(r[j]) {
      assert Before(keys, o[i], o[j]);
    }
  }

  predicate ChunksOk(cs: seq<seq<Pair>>)
  {
    forall c :: 0 <= c < |cs| ==> cs[c] != [] && Descending(cs[c])
  }

  /** Every batch cut from a descending list is itself descending. */
  lemma ChunksDescending(s: seq<Pair>, size: nat)
    requires size >= 1 && Descending(s)
    ensures ChunksOk(Chunks(s, size))
  {
    var cs := Chunks(s, size);
    forall c | 0 <= c < |cs| ensures Descending(cs[c]) {
      FlattenSlice(cs, c);
    }
  }

  /** One row of a batch: pad to the batch width, run the model, extract. */
  function RowAnswer(p: Pair, padLen: nat, maxLength: nat, model: Model): Result<Answer>
    requires |InputRow(p, maxLength)| <= padLen
  {
    var row := InputRow(p, maxLength);
    Extract(model(PadRow(row, padLen)), |row|, p.continuation)
  }

  /** One batch (huggingface.py:194-277): the asserts on every row first, then the extraction
      of every row, with the padding width taken from the first row. */
  function ScoreChunk(chunk: seq<Pair>, maxLength: nat, model: Model): (r: Result<seq<Answer>>)
    requires chunk != [] && Descending(chunk)
    ensures r.Success? ==> |r.value| == |chunk|
  {
    if exists k :: 0 <= k < |chunk| && !WellFormed(chunk[k], maxLength) then Failure(AssertionFailed)
    else Collect(ChunkRows(chunk, maxLength, model))
  }

  /** Every row's answer in a batch padded to its first row's width. */
  function ChunkRows(chunk: seq<Pair>, maxLength: nat, model: Model): (rows: seq<Result<Answer>>)
    requires chunk != [] && Descending(chunk)
    ensures |rows| == |chunk|
    ensures forall k :: 0 <= k < |chunk| ==> |InputRow(chunk[k], maxLength)| <= |InputRow(chunk[0], maxLength)|
    ensures forall k :: 0 <= k < |chunk| ==>
              rows[k] == RowAnswer(chunk[k], |InputRow(chunk[0], maxLength)|, maxLength, model)
  {
    PaddingFits(chunk, maxLength);
    var padLen := |InputRow(chunk[0], maxLength)|;
    seq(|chunk|, k requires 0 <= k < |chunk| => RowAnswer(chunk[k], padLen, maxLength, model))
  }

  /** The batches in order, stopping at the first exception. */
  function RunChunks(cs: seq<seq<Pair>>, maxLength: nat, model: Model): (r: Result<seq<Answer>>)
    requires ChunksOk(cs)
    ensures r.Success? ==> |r.value| == |Flatten(cs)|
  {
    if cs == [] then Success([])
    else
      match RunChunks(cs[..|cs| - 1], maxLength, model)
      case Failure(e) => Failure(e)
      case Success(done) =>
        match ScoreChunk(cs[|cs| - 1], maxLength, model)
        case Failure(e) => Failure(e)
        case Success(a) => Success(done + a)
  }

  /** What `_loglikelihood_tokens` returns, or the exception it raises. */
  function LoglikelihoodTokensSpec(requests: seq<Pair>, batchSize: nat, maxLength: nat, model: Model)
    : (r: Result<seq<Answer>>)
    requires batchSize >= 1
    ensures r.Success? ==> |r.value| == |requests|
  {
    var order := SortOrder(LikelihoodKeys(requests));
    var reordered := Reordered(requests, order);
    SortedIsDescending(requests, order);
    ChunksDescending(reordered, batchSize);
    match RunChunks(Chunks(reordered, batchSize), maxLength, model)
    case Failure(e) => Failure(e)
    case Success(res) => Success(Restore(order, res))
  }

  /** Once a batch has raised, the later batches change nothing. */
  lemma {:induction false} RunChunksPrefixFailure(cs: seq<seq<Pair>>, n: nat, maxLength: nat, model: Model)
    requires ChunksOk(cs) && n <= |cs|
    requires RunChunks(cs[..n], maxLength, model).Failure?
    ensures RunChunks(cs, maxLength, model) == RunChunks(cs[..n], maxLength, model)
    decreases |cs| - n
  {
    if n < |cs| {
      assert cs[..n + 1][..n] == cs[..n];
      RunChunksPrefixFailure(cs, n + 1, maxLength, model);
    } else {
      assert cs[..n] == cs;
    }
  }

  /** Every row of a batch, truncated and right-padded to `width`. */
  function PaddedRows(chunk: seq<Pair>, maxLength: nat, width: nat): (rows: seq<seq<int>>)
    requires forall i :: 0 <= i < |chunk| ==> |InputRow(chunk[i], maxLength)| <= width
    ensures |rows| == |chunk|
    ensures forall i {:trigger rows[i]} :: 0 <= i < |chunk| ==> rows[i] == PadRow(InputRow(chunk[i], maxLength), width)
  {
    seq(|chunk|, i requires 0 <= i < |chunk| => PadRow(InputRow(chunk[i], maxLength), width))
  }

  /** The unpadded length of every row of a batch. */
  function RowLengths(chunk: seq<Pair>, maxLength: nat): (ls: seq<nat>)
    ensures |ls| == |chunk|
    ensures forall i {:trigger ls[i]} :: 0 <= i < |chunk| ==> ls[i] == |InputRow(chunk[i], maxLength)|
  {
    seq(|chunk|, i requires 0 <= i < |chunk| => |InputRow(chunk[i], maxLength)|)
  }

  /** The row loop of one batch (huggingface.py:204-244): the asserts, the truncated row,
      `padding_length` fixed by the first row, and the right-padded rows. */
  method EncodeBatch(chunk: seq<Pair>, maxLength: nat)
    returns (ok: bool, inps: seq<seq<int>>, contToksList: seq<seq<int>>, inplens: seq<nat>)
    requires chunk != [] && Descending(chunk)
    ensures ok <==> forall i :: 0 <= i < |chunk| ==> WellFormed(chunk[i], maxLength)
    ensures ok ==> |inps| == |contToksList| == |inplens| == |chunk|
    ensures ok ==> forall i :: 0 <= i < |chunk| ==>
              && inplens[i] == |InputRow(chunk[i], maxLength)| <= |InputRow(chunk[0], maxLength)|
              && inps[i] == PadRow(InputRow(chunk[i], maxLength), |InputRow(chunk[0], maxLength)|)
              && contToksList[i] == chunk[i].continuation
  {
    PaddingFits(chunk, maxLength);
    ghost var width := |InputRow(chunk[0], maxLength)|;
    ghost var padded := PaddedRows(chunk, maxLength, width);
    ghost var lengths := RowLengths(chunk, maxLength);
    inps, contToksList, inplens := [], [], [];
    var paddingLength: Option<nat> := None;
    for k := 0 to |chunk|
      invariant inps == padded[..k] && inplens == lengths[..k]
      invariant |contToksList| == k && forall i :: 0 <= i < k ==> contToksList[i] == chunk[i].continuation
      invariant forall i :: 0 <= i < k ==> WellFormed(chunk[i], maxLength)
      invariant paddingLength == if k == 0 then None else Some(width)
    {
      var p := chunk[k];
      if !(|p.context| > 0 && |p.continuation| > 0 && |p.continuation| <= maxLength) {
        return false, inps, contToksList, inplens;
      }
      var inp := InputRow(p, maxLength);
      var inplen := |inp|;
      if paddingLength.None? {
        paddingLength := Some(inplen);
      }
      var row := PadRow(inp, paddingLength.value);
      PrefixStep(padded, k, row);
      PrefixStep(lengths, k, inplen);
      inps := inps + [row];
      contToksList := contToksList + [p.continuation];
      inplens := inplens + [inplen];
    }
    assert padded[..|chunk|] == padded && lengths[..|chunk|] == lengths;
    ok := true;
  }

  /** The answers for already-encoded rows: the row's log-prob distributions from the
      model, then the extraction. */
  function BatchAnswers(inps: seq<seq<int>>, inplens: seq<nat>, conts: seq<seq<int>>, model: Model)
    : (rows: seq<Result<Answer>>)
    requires |inps| == |inplens| == |conts|
    ensures |rows| == |inps|
    ensures forall k :: 0 <= k < |inps| ==> rows[k] == Extract(model(inps[k]), inplens[k], conts[k])
  {
    seq(|inps|, k requires 0 <= k < |inps| => Extract(model(inps[k]), inplens[k], conts[k]))
  }

  /** The forward pass over a batch and the extraction loop (huggingface.py:246-277). */
  method ExtractBatch(inps: seq<seq<int>>, inplens: seq<nat>, contToksList: seq<seq<int>>, model: Model)
    returns (r: Result<seq<Answer>>)
    requires |inps| == |inplens| == |contToksList|
    ensures r == Collect(BatchAnswers(inps, inplens, contToksList, model))
  {
    ghost var rows := BatchAnswers(inps, inplens, contToksList, model);
    var res: seq<Answer> := [];
    for k := 0 to |inps|
      invariant Collect(rows[..k]) == Success(res)
    {
      var logits := model(inps[k]);
      var a := Extract(logits, inplens[k], contToksList[k]);
      if a.Failure? {
        CollectStopsAt(rows, k);
        return Failure(a.error);
      }
      CollectStep(rows, k, res, a.value);
      res := res + [a.value];
    }
    assert rows[..|rows|] == rows;
    return Success(res);
  }

  /** One batch: encode the rows, then run the model and extract (huggingface.py:194-277). */
  method ScoreBatch(chunk: seq<Pair>, maxLength: nat, model: Model) returns (r: Result<seq<Answer>>)
    requires chunk != [] && Descending(chunk)
    ensures r == ScoreChunk(chunk, maxLength, model)
  {
    var ok, inps, contToksList, inplens := EncodeBatch(chunk, maxLength);
    if !ok {
      return Failure(AssertionFailed);
    }
    assert BatchAnswers(inps, inplens, contToksList, model) == ChunkRows(chunk, maxLength, model);
    r := ExtractBatch(inps, inplens, contToksList, model);
  }

  /** One step of `RunChunks`: the batches before the last, then the last one. */
  lemma RunChunksStep(cs: seq<seq<Pair>>, maxLength: nat, model: Model)
    requires ChunksOk(cs) && cs != []
    ensures RunChunks(cs, maxLength, model).Success?
            <==> RunChunks(cs[..|cs| - 1], maxLength, model).Success?
                 && ScoreChunk(cs[|cs| - 1], maxLength, model).Success?
    ensures RunChunks(cs, maxLength, model).Success? ==>
              RunChunks(cs, maxLength, model).value
              == RunChunks(cs[..|cs| - 1], maxLength, model).value + ScoreChunk(cs[|cs| - 1], maxLength, model).value
    ensures RunChunks(cs[..|cs| - 1], maxLength, model).Success? && ScoreChunk(cs[|cs| - 1], maxLength, model).Failure? ==>
              RunChunks(cs, maxLength, model) == ScoreChunk(cs[|cs| - 1], maxLength, model)
  {
  }

  /** The batch loop of `_loglikelihood_tokens` over the sorted requests (huggingface.py:194-277). */
  method RunBatches(chunks: seq<seq<Pair>>, maxLength: nat, model: Model) returns (out: Result<seq<Answer>>)
    requires ChunksOk(chunks)
    ensures out == RunChunks(chunks, maxLength, model)
  {
    var res: seq<Answer> := [];
    for c := 0 to |chunks|
      invariant RunChunks(chunks[..c], maxLength, model) == Success(res)
    {
      var answers := ScoreBatch(chunks[c], maxLength, model);
      var done := chunks[..c + 1];
      assert done[..c] == chunks[..c] && done[c] == chunks[c];
      RunChunksStep(done, maxLength, model);
      if answers.Failure? {
        RunChunksPrefixFailure(chunks, c + 1, maxLength, model);
        return Failure(answers.error);
      }
      res := res + answers.value;
    }
    assert chunks[..|chunks|] == chunks;
    return Success(res);
  }

  /** `_loglikelihood_tokens` (huggingface.py:174-279): sort, run the batches, restore the order. */
  method LoglikelihoodTokens(requests: seq<Pair>, batchSize: nat, maxLength: nat, model: Model)
    returns (out: Result<seq<Answer>>)
    requires batchSize >= 1
    ensures out == LoglikelihoodTokensSpec(requests, batchSize, maxLength, model)
  {
    var order := SortOrder(LikelihoodKeys(requests));
    var reordered := Reordered(requests, order);
    SortedIsDescending(requests, order);
    ChunksDescending(reordered, batchSize);
    var res := RunBatches(Chunks(reordered, batchSize), maxLength, model);
    if res.Failure? {
      return Failure(res.error);
    }
    return Success(Restore(order, res.value));
  }
}
