/** What the batching engine guarantees about its answers: with a causal model, the
    answer for each request is the one it gets when scored alone, so neither the sort,
    the batch size, the padding nor the other requests change it, and the answers come
    back in the caller's order. */
module LikelihoodProperties {
  import opened Outcomes
  import opened Reorder
  import opened Chunking
  import opened Encoding
  import opened Extraction
  import opened Likelihood

  /** A causal model: the distributions at the first `n` positions of a row depend only on
      the first `n` tokens, and a row of `n` tokens gets `n` distributions. */
  ghost predicate Causal(model: Model)
  {
    forall row: seq<int>, n: nat {:trigger model(row[..n])} :: n <= |row| ==> n <= |model(row)| && model(row[..n]) == model(row)[..n]
  }

  /** A request scored on its own: the asserts, then its unpadded row through the model. */
  function ScoreAlone(p: Pair, maxLength: nat, model: Model): Result<Answer>
  {
    if !WellFormed(p, maxLength) then Failure(AssertionFailed)
    else
      var row := InputRow(p, maxLength);
      Extract(model(row), |row|, p.continuation)
  }

  lemma CausalAt(model: Model, row: seq<int>, n: nat)
    requires Causal(model) && n <= |row|
    ensures n <= |model(row)| && model(row[..n]) == model(row)[..n]
  {
  }

  /** Padding invariance: a padded row gets exactly the answer of the unpadded one. */
  lemma PaddingInvariance(p: Pair, padLen: nat, maxLength: nat, model: Model)
    requires Causal(model) && WellFormed(p, maxLength) && |InputRow(p, maxLength)| <= padLen
    ensures RowAnswer(p, padLen, maxLength, model) == ScoreAlone(p, maxLength, model)
  {
    var row := InputRow(p, maxLength);
    var padded := PadRow(row, padLen);
    CausalAt(model, padded, |row|);
    CausalAt(model, row, |row|);
    assert padded[..|row|] == row;
    assert row[..|row|] == row;
    ExtractReadsOnlyPrefix(model(padded), model(row), |row|, p.continuation);
  }

  /** Every request scored on its own, in the caller's order. */
  function ScoredAlone(ps: seq<Pair>, maxLength: nat, model: Model): (rs: seq<Result<Answer>>)
    ensures |rs| == |ps| && forall j :: 0 <= j < |ps| ==> rs[j] == ScoreAlone(ps[j], maxLength, model)
  {
    seq(|ps|, j requires 0 <= j < |ps| => ScoreAlone(ps[j], maxLength, model))
  }

  lemma ScoredAloneConcat(a: seq<Pair>, b: seq<Pair>, maxLength: nat, model: Model)
    ensures ScoredAlone(a + b, maxLength, model) == ScoredAlone(a, maxLength, model) + ScoredAlone(b, maxLength, model)
  {
  }

  lemma ScoredAloneReordered(ps: seq<Pair>, o: seq<nat>, maxLength: nat, model: Model)
    requires IsPermutation(o, |ps|)
    ensures ScoredAlone(Reordered(ps, o), maxLength, model) == Reordered(ScoredAlone(ps, maxLength, model), o)
  {
  }

  /** A batch gives its requests the answers they get alone. */
  lemma ScoreChunkAlone(chunk: seq<Pair>, maxLength: nat, model: Model)
    requires chunk != [] && Descending(chunk) && Causal(model)
    ensures ScoreChunk(chunk, maxLength, model).Success?
            <==> Collect(ScoredAlone(chunk, maxLength, model)).Success?
    ensures ScoreChunk(chunk, maxLength, model).Success? ==>
              ScoreChunk(chunk, maxLength, model) == Collect(ScoredAlone(chunk, maxLength, model))
  {
    var alone := ScoredAlone(chunk, maxLength, model);
    if forall k :: 0 <= k < |chunk| ==> WellFormed(chunk[k], maxLength) {
      var rows := ChunkRows(chunk, maxLength, model);
      forall k | 0 <= k < |chunk| ensures rows[k] == alone[k] {
        PaddingInvariance(chunk[k], |InputRow(chunk[0], maxLength)|, maxLength, model);
      }
      assert rows == alone;
    } else {
      var k :| 0 <= k < |chunk| && !WellFormed(chunk[k], maxLength);
      assert alone[k].Failure?;
    }
  }

  lemma {:induction false} RunChunksAlone(cs: seq<seq<Pair>>, maxLength: nat, model: Model)
    requires ChunksOk(cs) && Causal(model)
    ensures RunChunks(cs, maxLength, model).Success?
            <==> Collect(ScoredAlone(Flatten(cs), maxLength, model)).Success?
    ensures RunChunks(cs, maxLength, model).Success? ==>
              RunChunks(cs, maxLength, model) == Collect(ScoredAlone(Flatten(cs), maxLength, model))
  {
    if cs != [] {
      var init := cs[..|cs| - 1];
      var last := cs[|cs| - 1];
      RunChunksAlone(init, maxLength, model);
      ScoreChunkAlone(last, maxLength, model);
      RunChunksStep(cs, maxLength, model);
      assert Flatten(cs) == Flatten(init) + last;
      ScoredAloneConcat(Flatten(init), last, maxLength, model);
      CollectConcat(ScoredAlone(Flatten(init), maxLength, model), ScoredAlone(last, maxLength, model));
    }
  }

  /** `LoglikelihoodTokensSpec` unfolded: the batches run over the sorted requests and the
      answers are scattered back. */
  lemma SpecShape(requests: seq<Pair>, batchSize: nat, maxLength: nat, model: Model)
    requires batchSize >= 1
    ensures var order := SortOrder(LikelihoodKeys(requests));
            var cs := Chunks(Reordered(requests, order), batchSize);
            && ChunksOk(cs)
            && (LoglikelihoodTokensSpec(requests, batchSize, maxLength, model).Success?
                <==> RunChunks(cs, maxLength, model).Success?)
            && (RunChunks(cs, maxLength, model).Success? ==>
                  LoglikelihoodTokensSpec(requests, batchSize, maxLength, model).value
                  == Restore(order, RunChunks(cs, maxLength, model).value))
  {
    var order := SortOrder(LikelihoodKeys(requests));
    SortedIsDescending(requests, order);
    ChunksDescending(Reordered(requests, order), batchSize);
  }

  /** The main guarantee of `_loglikelihood_tokens`: with a causal model the batched call
      gives exactly what scoring each request alone, in the caller's order, gives: it
      succeeds exactly when every request succeeds alone, and answer `i` is then request
      `i`'s own answer. Sorting, batching and padding are invisible. */
  lemma BatchingIsInvisible(requests: seq<Pair>, batchSize: nat, maxLength: nat, model: Model)
    requires batchSize >= 1 && Causal(model)
    ensures LoglikelihoodTokensSpec(requests, batchSize, maxLength, model).Success?
            <==> Collect(ScoredAlone(requests, maxLength, model)).Success?
    ensures LoglikelihoodTokensSpec(requests, batchSize, maxLength, model).Success? ==>
              LoglikelihoodTokensSpec(requests, batchSize, maxLength, model)
              == Collect(ScoredAlone(requests, maxLength, model))
  {
    SpecShape(requests, batchSize, maxLength, model);
    var order := SortOrder(LikelihoodKeys(requests));
    var reordered := Reordered(requests, order);
    var cs := Chunks(reordered, batchSize);
    RunChunksAlone(cs, maxLength, model);
    var alone := ScoredAlone(requests, maxLength, model);
    ScoredAloneReordered(requests, order, maxLength, model);
    CollectReordered(alone, order);
    if Collect(alone).Success? {
      RestoreReordered(Collect(alone).value, order);
    }
  }

  /** No answer is ever produced for a request that trips one of the asserts: a request
      with an empty context, an empty continuation or a continuation longer than the window
      makes the whole call fail. This holds for every model. */
  lemma {:induction false} RunChunksWellFormed(cs: seq<seq<Pair>>, maxLength: nat, model: Model)
    requires ChunksOk(cs) && RunChunks(cs, maxLength, model).Success?
    ensures forall j :: 0 <= j < |Flatten(cs)| ==> WellFormed(Flatten(cs)[j], maxLength)
  {
    if cs != [] {
      var init := cs[..|cs| - 1];
      var last := cs[|cs| - 1];
      RunChunksWellFormed(init, maxLength, model);
      assert Flatten(cs) == Flatten(init) + last;
    }
  }

  lemma MalformedRequestAborts(requests: seq<Pair>, batchSize: nat, maxLength: nat, model: Model, i: nat)
    requires batchSize >= 1 && i < |requests| && !WellFormed(requests[i], maxLength)
    ensures LoglikelihoodTokensSpec(requests, batchSize, maxLength, model).Failure?
  {
    SpecShape(requests, batchSize, maxLength, model);
    var order := SortOrder(LikelihoodKeys(requests));
    var cs := Chunks(Reordered(requests, order), batchSize);
    if RunChunks(cs, maxLength, model).Success? {
      RunChunksWellFormed(cs, maxLength, model);
      ReorderedAll(requests, order, p => WellFormed(p, maxLength));
      assert false;
    }
  }

  /** Order preservation: permuting the requests permutes the answers the same way. */
  lemma PermutedRequests(requests: seq<Pair>, p: seq<nat>, batchSize: nat, maxLength: nat, model: Model)
    requires batchSize >= 1 && Causal(model) && IsPermutation(p, |requests|)
    ensures LoglikelihoodTokensSpec(Reordered(requests, p), batchSize, maxLength, model).Success?
            <==> LoglikelihoodTokensSpec(requests, batchSize, maxLength, model).Success?
    ensures LoglikelihoodTokensSpec(requests, batchSize, maxLength, model).Success? ==>
              LoglikelihoodTokensSpec(Reordered(requests, p), batchSize, maxLength, model).value
              == Reordered(LoglikelihoodTokensSpec(requests, batchSize, maxLength, model).value, p)
  {
    var alone := ScoredAlone(requests, maxLength, model);
    BatchingIsInvisible(requests, batchSize, maxLength, model);
    BatchingIsInvisible(Reordered(requests, p), batchSize, maxLength, model);
    ScoredAloneReordered(requests, p, maxLength, model);
    CollectReordered(alone, p);
  }

  /** The batch size changes no answer. */
  lemma BatchSizeIrrelevant(requests: seq<Pair>, b1: nat, b2: nat, maxLength: nat, model: Model)
    requires b1 >= 1 && b2 >= 1 && Causal(model)
    requires LoglikelihoodTokensSpec(requests, b1, maxLength, model).Success?
    ensures LoglikelihoodTokensSpec(requests, b1, maxLength, model)
            == LoglikelihoodTokensSpec(requests, b2, maxLength, model)
  {
    BatchingIsInvisible(requests, b1, maxLength, model);
    BatchingIsInvisible(requests, b2, maxLength, model);
  }
}
