/** The request-level entry points of the Hugging Face causal-LM adapter: `loglikelihood`
    encodes each request's strings, runs the batching engine and writes every answer back
    onto its request object; `loglikelihood_rolling` scores whole documents as the sum of
    their windows' scores. The tokenizer, the end-of-text id and the window construction
    are parameters. */
module Requests {
  import opened Outcomes
  import opened Reorder
  import opened Encoding
  import opened Extraction
  import opened Likelihood
  import opened LikelihoodProperties

  /** A `(context, continuation)` request; `resps` is set by `loglikelihood`. */
  class LikelihoodRequest {
    const context: string
    const continuation: string
    var resps: Option<Answer>

    constructor (context: string, continuation: string)
      ensures this.context == context && this.continuation == continuation && resps == None
    {
      this.context := context;
      this.continuation := continuation;
      resps := None;
    }
  }

  /** The encoded requests handed to `_loglikelihood_tokens`, in the caller's order. */
  function EncodeAll(requests: seq<LikelihoodRequest>, tok: string -> seq<int>, eot: int): (ps: seq<Pair>)
    ensures |ps| == |requests|
    ensures forall i :: 0 <= i < |requests| ==>
              ps[i] == EncodeRequest(tok, eot, requests[i].context, requests[i].continuation)
  {
    seq(|requests|, i requires 0 <= i < |requests| =>
      EncodeRequest(tok, eot, requests[i].context, requests[i].continuation))
  }

  /** No later position of `requests` holds the same object as position `i`. */
  predicate LastOccurrence(requests: seq<LikelihoodRequest>, i: nat)
    requires i < |requests|
  {
    forall j :: i < j < |requests| ==> requests[j] != requests[i]
  }

  /** The encoding loop of `loglikelihood` (huggingface.py:124-135). */
  method EncodeRequests(requests: seq<LikelihoodRequest>, tok: string -> seq<int>, eot: int)
    returns (newReqs: seq<Pair>)
    ensures newReqs == EncodeAll(requests, tok, eot)
  {
    newReqs := [];
    for k := 0 to |requests|
      invariant newReqs == EncodeAll(requests[..k], tok, eot)
    {
      var req := requests[k];
      var contextEnc := if req.context == "" then [eot] else tok(req.context);
      var continuationEnc := tok(req.continuation);
      newReqs := newReqs + [Pair(contextEnc, continuationEnc)];
    }
    assert requests[..|requests|] == requests;
  }

  /** `for req, resp in zip(requests, resps): req.resps = resp` (huggingface.py:139-140):
      every object gets the answer of its last position, objects not listed are untouched. */
  method WriteBack(requests: seq<LikelihoodRequest>, answers: seq<Answer>)
    requires |answers| == |requests|
    modifies set r | r in requests
    ensures forall i :: 0 <= i < |requests| && LastOccurrence(requests, i) ==>
              requests[i].resps == Some(answers[i])
  {
    for k := 0 to |requests|
      invariant forall i :: 0 <= i < k && (forall j :: i < j < k ==> requests[j] != requests[i]) ==>
                  requests[i].resps == Some(answers[i])
    {
      requests[k].resps := Some(answers[k]);
    }
  }

  /** `loglikelihood` (huggingface.py:123-140). When the engine raises, no request is
      touched; otherwise every request object holds the answer computed for it, and an
      object listed twice keeps the answer of its last position, as the sequential
      `req.resps = resp` loop leaves it. Nothing but the `resps` fields changes. */
  method Loglikelihood(requests: seq<LikelihoodRequest>, tok: string -> seq<int>, eot: int,
                       batchSize: nat, maxLength: nat, model: Model)
    returns (err: Option<Error>)
    requires batchSize >= 1
    modifies set r | r in requests
    ensures var spec := LoglikelihoodTokensSpec(EncodeAll(requests, tok, eot), batchSize, maxLength, model);
            && (spec.Failure? ==> err == Some(spec.error) && forall r :: r in requests ==> r.resps == old(r.resps))
            && (spec.Success? ==>
                  err == None
                  && forall i :: 0 <= i < |requests| && LastOccurrence(requests, i) ==>
                       requests[i].resps == Some(spec.value[i]))
  {
    var newReqs := EncodeRequests(requests, tok, eot);
    var resps := LoglikelihoodTokens(newReqs, batchSize, maxLength, model);
    if resps.Failure? {
      return Some(resps.error);
    }
    WriteBack(requests, resps.value);
    err := None;
  }

  /** Python's `sum` over the log-probabilities, with the greedy flags discarded. */
  function SumLogProbs(answers: seq<Answer>): real
  {
    if answers == [] then 0.0 else SumLogProbs(answers[..|answers| - 1]) + answers[|answers| - 1].logProb
  }

  /** `sum(x[0] for x in string_nll)`. */
  method Sum(answers: seq<Answer>) returns (total: real)
    ensures total == SumLogProbs(answers)
  {
    total := 0.0;
    for w := 0 to |answers|
      invariant total == SumLogProbs(answers[..w])
    {
      assert answers[..w + 1][..w] == answers[..w];
      total := total + answers[w].logProb;
    }
    assert answers[..|answers|] == answers;
  }

  /** One document's rolling score: its windows through the engine, then the sum. */
  function DocumentScore(doc: string, tok: string -> seq<int>, windows: seq<int> -> seq<Pair>,
                         batchSize: nat, maxLength: nat, model: Model): Result<real>
    requires batchSize >= 1
  {
    match LoglikelihoodTokensSpec(windows(tok(doc)), batchSize, maxLength, model)
    case Failure(e) => Failure(e)
    case Success(answers) => Success(SumLogProbs(answers))
  }

  function DocumentScores(docs: seq<string>, tok: string -> seq<int>, windows: seq<int> -> seq<Pair>,
                          batchSize: nat, maxLength: nat, model: Model): (rs: seq<Result<real>>)
    requires batchSize >= 1
    ensures |rs| == |docs|
    ensures forall i :: 0 <= i < |docs| ==> rs[i] == DocumentScore(docs[i], tok, windows, batchSize, maxLength, model)
  {
    seq(|docs|, i requires 0 <= i < |docs| => DocumentScore(docs[i], tok, windows, batchSize, maxLength, model))
  }

  /** The body of the document loop (huggingface.py:146-169): the windows through the engine,
      the greedy flags discarded, the log-probabilities summed. */
  method ScoreDocument(doc: string, tok: string -> seq<int>, windows: seq<int> -> seq<Pair>,
                       batchSize: nat, maxLength: nat, model: Model) returns (r: Result<real>)
    requires batchSize >= 1
    ensures r == DocumentScore(doc, tok, windows, batchSize, maxLength, model)
  {
    var rollingTokenWindows := windows(tok(doc));
    var stringNll := LoglikelihoodTokens(rollingTokenWindows, batchSize, maxLength, model);
    if stringNll.Failure? {
      return Failure(stringNll.error);
    }
    var total := Sum(stringNll.value);
    return Success(total);
  }

  /** `loglikelihood_rolling` (huggingface.py:142-172): the documents one after another;
      the first exception aborts the call. `windows` stands for the rolling-window
      construction applied to a document's tokens. */
  method LoglikelihoodRolling(docs: seq<string>, tok: string -> seq<int>, windows: seq<int> -> seq<Pair>,
                              batchSize: nat, maxLength: nat, model: Model)
    returns (out: Result<seq<real>>)
    requires batchSize >= 1
    ensures out == Collect(DocumentScores(docs, tok, windows, batchSize, maxLength, model))
  {
    ghost var scores := DocumentScores(docs, tok, windows, batchSize, maxLength, model);
    var loglikelihoods: seq<real> := [];
    for k := 0 to |docs|
      invariant Collect(scores[..k]) == Success(loglikelihoods)
    {
      var stringNll := ScoreDocument(docs[k], tok, windows, batchSize, maxLength, model);
      if stringNll.Failure? {
        CollectStopsAt(scores, k);
        return Failure(stringNll.error);
      }
      CollectStep(scores, k, loglikelihoods, stringNll.value);
      loglikelihoods := loglikelihoods + [stringNll.value];
    }
    assert scores[..|docs|] == scores;
    return Success(loglikelihoods);
  }

  /** The sum splits at any point: the score of a document is additive over its windows. */
  lemma {:induction false} SumLogProbsConcat(a: seq<Answer>, b: seq<Answer>)
    ensures SumLogProbs(a + b) == SumLogProbs(a) + SumLogProbs(b)
  {
    if b != [] {
      assert (a + b)[..|a + b| - 1] == a + b[..|b| - 1];
      SumLogProbsConcat(a, b[..|b| - 1]);
    } else {
      assert a + b == a;
    }
  }

  /** Each window scores between minus infinity and zero, and so does the document. */
  lemma {:induction false} SumLogProbsNonPositive(answers: seq<Answer>)
    requires forall i :: 0 <= i < |answers| ==> answers[i].logProb <= 0.0
    ensures SumLogProbs(answers) <= 0.0
  {
    if answers != [] {
      SumLogProbsNonPositive(answers[..|answers| - 1]);
    }
  }

  /** With a causal model a document's rolling score is the sum of its windows' scores,
      each window scored on its own: the batching inside the engine changes nothing. */
  lemma RollingScoreIsSumOfWindows(doc: string, tok: string -> seq<int>, windows: seq<int> -> seq<Pair>,
                                   batchSize: nat, maxLength: nat, model: Model)
    requires batchSize >= 1 && Causal(model)
    ensures DocumentScore(doc, tok, windows, batchSize, maxLength, model).Success?
            <==> Collect(ScoredAlone(windows(tok(doc)), maxLength, model)).Success?
    ensures DocumentScore(doc, tok, windows, batchSize, maxLength, model).Success? ==>
              DocumentScore(doc, tok, windows, batchSize, maxLength, model).value
              == SumLogProbs(Collect(ScoredAlone(windows(tok(doc)), maxLength, model)).value)
  {
    BatchingIsInvisible(windows(tok(doc)), batchSize, maxLength, model);
  }
}
