# Hugging Face causal-LM adapter: batching, scoring and greedy decoding

A Dafny model of the request-processing core of the evaluation harness's Hugging Face
adapter (`lm_eval/models/huggingface.py`). It covers:

- `loglikelihood`: the encoding of every `(context, continuation)` request, with `[eot]`
  standing in for an empty context, and the write-back of each answer onto its request object.
- `_loglikelihood_tokens`:
  - the sort key `(-len(ctx + cont), tuple(ctx + cont))`;
  - the stable reordering and its inverse, and the cut into batches of `batch_size`;
  - the three sanity asserts;
  - left truncation to the window, dropping the last token, and right padding to the first
    row's width;
  - the slice `[inplen - contlen, inplen)` of the log-probability rows, the gathered sum, the
    exact-greedy flag, and the restoration of the caller's order.
- `loglikelihood_rolling`: the per-document loop and the sum of its windows' scores.
- `greedy_until`:
  - the sort by context length;
  - the single-token primary stop string;
  - the context slice `[max_gen_toks - max_length:]`;
  - decoding only the generated suffix;
  - the sequential `s.split(term)[0]` loop.

Python's exceptions are values. `Outcomes.Result` carries either the results or the first
error raised (a failed assert, an index out of range, an empty stop list, a stop string
that is not one token, an empty separator). Loops that stop at the first exception are
specified by `Outcomes.Collect`.

The main theorem is `LikelihoodProperties.BatchingIsInvisible`. It assumes the model is
causal: the distributions at the first `n` positions of a row depend only on its first `n`
tokens. Under that assumption, `_loglikelihood_tokens` succeeds exactly when every request
succeeds when scored on its own. It then returns each request's own answer, in the caller's
order, so the sort, the batch size, the padding and the other requests in a batch do not
change the answers. When the call fails, which exception it raises can depend on the sort
and the batch size: an earlier batch may raise an index error before a later batch reaches
a failing assert. `PermutedRequests` and `BatchSizeIrrelevant` follow from the theorem.

On the generation side:

- the stop-string loop is proved to return a prefix of the decoded text that contains no
  stop string;
- running the loop twice changes nothing;
- the example `"abc<STOP1>def<STOP2>ghi"` with `["<STOP2>", "<STOP1>"]` gives `"abc"`;
- applying the stop strings one after another is shown to differ from cutting at the
  earliest match of any of them.

Behaviour a reader might not expect, modelled as the code has it:

- **Stop strings.** The strings are applied one after another, each cutting what the
  previous one left. This is not "the first occurrence of any stop string". A stop string
  that straddles an earlier cut no longer matches (`Generation.SequentialIsNotEarliest`).
- **Context slice.** The generation context is cut with Python's slice
  `[max_gen_toks - max_length:]`. It leaves room for the 256 generated tokens only when
  `max_length > 256`. With `max_length == 256` the slice is `[0:]` and keeps the whole
  context. With a smaller window it drops tokens from the front
  (`Generation.ContextSliceForSmallWindows`).
- **End-of-sequence token.** Generation stops at the first stop string's token, not at the
  tokenizer's end-of-text token.

## Model

| member | source | states |
|---|---|---|
| Encoding.EncodeRequest | lm_eval/models/huggingface.py:126-135 | an empty context encodes as `[eot]`, any other context as its tokens; the continuation is always its tokens |
| Requests.LikelihoodRequest.constructor | lm_eval/models/huggingface.py:126 | a request holds its context and continuation and has no answer yet |
| Requests.EncodeAll | lm_eval/models/huggingface.py:124-135 | the encoded list has one pair per request, pair `i` being request `i`'s encoding |
| Requests.EncodeRequests | lm_eval/models/huggingface.py:124-135 | the encoding loop builds exactly `EncodeAll` of the requests, in their order |
| Requests.WriteBack | lm_eval/models/huggingface.py:139-140 | after `req.resps = resp` over the zipped lists, every request object holds the answer at its last position in the list |
| Requests.Loglikelihood | lm_eval/models/huggingface.py:123-140 | when the engine raises, the error is returned and no request object changes; otherwise every request object holds the engine's answer for it (the last one when it is listed twice) |
| Requests.Sum | lm_eval/models/huggingface.py:167-169 | the loop total is the sum of the windows' log-probabilities, the greedy flags discarded |
| Requests.ScoreDocument | lm_eval/models/huggingface.py:146-169 | one document's score is its windows through the engine, summed, or the engine's error |
| Requests.LoglikelihoodRolling | lm_eval/models/huggingface.py:142-172 | the documents are scored in order and the first error aborts: the result is the list of every document's score, or the first document error |
| Requests.SumLogProbs | lm_eval/models/huggingface.py:165-169 | the document score is the sum of the windows' log-probabilities with the greedy flags discarded; `Requests.Sum` computes it with a loop |
| Requests.DocumentScore | lm_eval/models/huggingface.py:146-169 | one document: its windows go through the batched scoring and the log-probabilities are summed, and any failure of the scoring is the document's failure |
| Requests.SumLogProbsConcat | lm_eval/models/huggingface.py:169 | the rolling sum splits at any point: windows `a + b` score `sum(a) + sum(b)` |
| Requests.SumLogProbsNonPositive | lm_eval/models/huggingface.py:169 | if every window's log-probability is at most zero, so is the document's |
| Requests.RollingScoreIsSumOfWindows | lm_eval/models/huggingface.py:162-169 | with a causal model a document succeeds exactly when each of its windows succeeds alone, and its score is the sum of those windows' own scores |
| Reorder.Insert | lm_eval/models/huggingface.py:190 | inserting an index into a list keeps its multiset plus that index, within range |
| Reorder.InsertSorted | lm_eval/models/huggingface.py:190 | inserting a new index into a list sorted by (key, index) keeps it sorted |
| Reorder.SortIndices | lm_eval/models/huggingface.py:190 | the insertion sort returns a permutation of its input indices |
| Reorder.SortIndicesSorted | lm_eval/models/huggingface.py:190 | the insertion sort of distinct indices is sorted by key, equal keys in original order (Python's stable sort) |
| Reorder.SortOrder | lm_eval/models/huggingface.py:190-192 | the sort order is a permutation of the positions and is sorted by (key, original position) |
| Reorder.Reordered | lm_eval/models/huggingface.py:191-192 | `get_reordered()` has item `o[j]` at position `j` |
| Reorder.Restore | lm_eval/models/huggingface.py:279 | `get_original(res)` gives one result per original position; where each result lands is stated by `Reorder.RestorePlaces` |
| Reorder.RestorePlaces | lm_eval/models/huggingface.py:279 | `get_original(res)` puts result `j` back at the original position `o[j]` of the item it was computed for |
| Reorder.RestoreReordered | lm_eval/models/huggingface.py:279 | `get_original(get_reordered())` is the original list |
| Reorder.ReorderedAll | lm_eval/models/huggingface.py:191-192 | a property holds of every reordered item exactly when it holds of every original item |
| Reorder.CollectReordered | lm_eval/models/huggingface.py:191-193 | running steps in the sorted order succeeds exactly when the original order does, with the same values permuted |
| Reorder.LexTrichotomy | lm_eval/models/huggingface.py:187 | Python's tuple order on token tuples is total |
| Reorder.LexTransitive | lm_eval/models/huggingface.py:187 | Python's tuple order on token tuples is transitive |
| Reorder.KeyTrichotomy | lm_eval/models/huggingface.py:187 | the `(length, tuple)` key order is total |
| Reorder.KeyTransitive | lm_eval/models/huggingface.py:187 | the `(length, tuple)` key order is transitive |
| Chunking.Chunks | lm_eval/models/huggingface.py:191-193 | the batches concatenate back to the sorted list; each has 1 to `batch_size` requests and all but the last have exactly `batch_size` |
| Chunking.FlattenSlice | lm_eval/models/huggingface.py:191-193 | each batch is the contiguous stretch of the sorted list starting where the earlier batches end |
| Encoding.WellFormed | lm_eval/models/huggingface.py:206-208 | the three asserts: a non-empty context, a non-empty continuation, and a continuation of at most `max_length` tokens; `Likelihood.EncodeBatch` passes exactly when every request meets them |
| Encoding.TakeLast | lm_eval/models/huggingface.py:219 | `s[-n:]` keeps `min(len(s), n)` tokens, and they are the last ones of `s` |
| Encoding.Window | lm_eval/models/huggingface.py:219 | `(ctx + cont)[-(max_length + 1):]`, the last `max_length + 1` tokens of the request, through `Encoding.TakeLast` |
| Encoding.DropLast | lm_eval/models/huggingface.py:219 | Python's `[:-1]`: everything but the last element, and nothing for an empty list; `Encoding.InputRowTruncates` states the row it yields |
| Encoding.InputRow | lm_eval/models/huggingface.py:218-222 | the input row never exceeds the window `max_length` |
| Encoding.InputRowTruncates | lm_eval/models/huggingface.py:217-222 | the row has `min(len(ctx + cont), max_length + 1) - 1` tokens and is the stretch of `ctx + cont` ending just before its last token: only the oldest tokens are cut |
| Encoding.ContinuationAligned | lm_eval/models/huggingface.py:210-222 | under the asserts the continuation fits in the row, the row is the window minus its last token, and row position `inplen - contlen + k` is followed in the window by continuation token `k` |
| Encoding.InputRowMonotone | lm_eval/models/huggingface.py:226-229 | a longer request never gets a shorter input row |
| Encoding.PaddingFits | lm_eval/models/huggingface.py:226-236 | in a batch sorted longest first, the first row is the widest, so `padding_length - inplen` is never negative |
| Encoding.PadRow | lm_eval/models/huggingface.py:231-240 | the padded row has exactly the batch width |
| Encoding.PaddedShape | lm_eval/models/huggingface.py:231-240 | the padded row starts with the unpadded row and holds zeros after it |
| Extraction.Argmax | lm_eval/models/huggingface.py:262 | the argmax is a position holding the row's maximum, with no earlier position holding it |
| Extraction.ArgmaxOfUniqueMax | lm_eval/models/huggingface.py:262 | a unique maximum is the argmax |
| Extraction.Extract | lm_eval/models/huggingface.py:255-275 | a row's answer exists exactly when the span `[inplen - contlen, inplen)` and the gathered token ids are inside the model output; otherwise it is an index error |
| Extraction.ExtractReadsOnlyPrefix | lm_eval/models/huggingface.py:255-275 | the answer depends only on the first `inplen` output positions: padded positions are never read |
| Extraction.Gathered | lm_eval/models/huggingface.py:270-275 | the gather of the continuation tokens' log-probabilities and their sum; its additivity, locality and sign are stated by the three lemmas below |
| Extraction.AllGreedy | lm_eval/models/huggingface.py:261-266 | the per-token argmax equals the continuation token at every position of the span; `Extraction.Extract` returns it as the answer's flag |
| Extraction.GatheredReadsOnlySpan | lm_eval/models/huggingface.py:270-275 | the gathered sum depends only on the output positions of the continuation span |
| Extraction.GatheredNonPositive | lm_eval/models/huggingface.py:247-275 | with log-softmax outputs (every entry at most zero) the summed log-probability is at most zero |
| Extraction.GatheredSplit | lm_eval/models/huggingface.py:270-275 | the score is additive over any split of the continuation |
| Extraction.GreedyWhenEveryMaxMatches | lm_eval/models/huggingface.py:261-266 | when each span position's unique maximum is the continuation token there, the answer exists and is greedy |
| Extraction.NotGreedyWhenOneMaxDiffers | lm_eval/models/huggingface.py:261-266 | when one span position's unique maximum is a different token, the answer is not greedy |
| Likelihood.LikelihoodKeys | lm_eval/models/huggingface.py:178-187 | each request's key is `(-len(ctx + cont), tuple(ctx + cont))` |
| Likelihood.SortedIsDescending | lm_eval/models/huggingface.py:178-190 | sorting by that key orders the requests by non-increasing total length |
| Likelihood.ChunksDescending | lm_eval/models/huggingface.py:191-193 | every batch cut from the sorted list is non-empty and longest first |
| Likelihood.ChunkRows | lm_eval/models/huggingface.py:226-275 | every row of a batch fits the first row's width and gets its answer from its row padded to that width |
| Likelihood.RowAnswer | lm_eval/models/huggingface.py:231-275 | one row: its input row padded to the batch width, the model run on it, and the extraction at that row's own `inplen` and continuation |
| Likelihood.ScoreChunk | lm_eval/models/huggingface.py:194-277 | a batch that succeeds gives one answer per request |
| Likelihood.RunChunks | lm_eval/models/huggingface.py:191-277 | a run over the batches that succeeds gives one answer per sorted request |
| Likelihood.RunChunksPrefixFailure | lm_eval/models/huggingface.py:191-277 | once a batch has raised, the later batches change nothing |
| Likelihood.LoglikelihoodTokensSpec | lm_eval/models/huggingface.py:174-279 | a successful call gives one answer per request |
| Likelihood.PaddedRows | lm_eval/models/huggingface.py:231-242 | row `i` of a batch is request `i`'s input row padded to the batch width |
| Likelihood.EncodeBatch | lm_eval/models/huggingface.py:204-244 | the row loop passes exactly when every request passes the three asserts; then `inplens[i]` is the row length (at most the first row's), `inps[i]` the row padded to the first row's width, and `cont_toks_list[i]` the continuation |
| Likelihood.ExtractBatch | lm_eval/models/huggingface.py:246-277 | the extraction loop gives every row's answer in order, or the first row's error |
| Likelihood.ScoreBatch | lm_eval/models/huggingface.py:194-277 | encoding then extracting a batch gives exactly the batch's specified answers or error |
| Likelihood.RunBatches | lm_eval/models/huggingface.py:191-277 | the batch loop gives the concatenated batch answers, or the first batch error |
| Likelihood.LoglikelihoodTokens | lm_eval/models/huggingface.py:174-279 | sort, batch loop and `get_original` give exactly the specified answers in the caller's order, or the first error |
| LikelihoodProperties.PaddingInvariance | lm_eval/models/huggingface.py:231-259 | with a causal model a padded row gets exactly the answer of the unpadded row |
| LikelihoodProperties.ScoredAlone | lm_eval/models/huggingface.py:204-275 | item `j` is request `j` scored on its own (the asserts, then its unpadded row) |
| LikelihoodProperties.ScoreChunkAlone | lm_eval/models/huggingface.py:194-277 | a batch succeeds exactly when each of its requests succeeds alone, and then gives each request its own answer |
| LikelihoodProperties.RunChunksAlone | lm_eval/models/huggingface.py:191-277 | the batch loop succeeds exactly when every sorted request succeeds alone, with their own answers |
| LikelihoodProperties.SpecShape | lm_eval/models/huggingface.py:174-279 | the sorted batches are well formed, and the call succeeds exactly when the batch loop does, its answers scattered back by `get_original` |
| LikelihoodProperties.BatchingIsInvisible | lm_eval/models/huggingface.py:174-279 | with a causal model the call succeeds exactly when every request succeeds alone, and answer `i` is then request `i`'s own answer |
| LikelihoodProperties.RunChunksWellFormed | lm_eval/models/huggingface.py:204-208 | a batch loop that succeeds has only requests that pass the three asserts |
| LikelihoodProperties.MalformedRequestAborts | lm_eval/models/huggingface.py:204-208 | any request with an empty context, an empty continuation or a continuation longer than the window makes the whole call fail, for every model |
| LikelihoodProperties.PermutedRequests | lm_eval/models/huggingface.py:190-279 | permuting the requests permutes the answers in the same way and keeps success |
| LikelihoodProperties.BatchSizeIrrelevant | lm_eval/models/huggingface.py:191-193 | any two batch sizes give the same answers |
| Generation.StopTerms | lm_eval/models/huggingface.py:294-295 | a single stop string becomes the one-element list |
| Generation.FindFrom | lm_eval/models/huggingface.py:310 | the search returns the first occurrence at or after the start, or reports that there is none |
| Generation.SplitHead | lm_eval/models/huggingface.py:310 | `s.split(t)[0]` fails exactly for an empty `t`; otherwise it is a prefix of `s` holding no `t`, ending at the first occurrence of `t` or at the end of `s` |
| Generation.TruncateAtStops | lm_eval/models/huggingface.py:309-310 | the stop loop succeeds exactly when no stop string is empty |
| Generation.ApplyStops | lm_eval/models/huggingface.py:309-310 | the loop rewriting `s` once per term gives exactly the sequential truncation |
| Generation.TruncatedIsPrefix | lm_eval/models/huggingface.py:309-310 | the result is a prefix of the decoded text |
| Generation.TruncatedHasNoStop | lm_eval/models/huggingface.py:309-310 | no stop string occurs in the result |
| Generation.NoStopsUnchanged | lm_eval/models/huggingface.py:309-310 | a text holding none of the stop strings is returned unchanged |
| Generation.TruncateIdempotent | lm_eval/models/huggingface.py:309-310 | running the loop on its own result changes nothing |
| Generation.CutPointIsAnOccurrence | lm_eval/models/huggingface.py:309-310 | the result is the whole text or ends where some stop string occurs in the original text |
| Generation.EarliestCut | lm_eval/models/huggingface.py:309-310 | the earliest-match reference: no stop string occurs before it, and one occurs at it unless it is the end |
| Generation.EarliestIsPrefixOfSequential | lm_eval/models/huggingface.py:309-310 | the sequential loop never cuts earlier than the earliest match of any stop string |
| Generation.SplitAtFirst | lm_eval/models/huggingface.py:310 | `split` cuts at the first occurrence |
| Generation.StopExample | lm_eval/models/huggingface.py:309-310 | `"abc<STOP1>def<STOP2>ghi"` with `["<STOP2>", "<STOP1>"]` gives `"abc"` |
| Generation.SequentialIsNotEarliest | lm_eval/models/huggingface.py:309-310 | on `"abcd"` with `["c", "bcd"]` the loop keeps `"ab"` where an earliest-match rule keeps `"a"` |
| Generation.PySliceFrom | lm_eval/models/huggingface.py:300 | Python's `s[a:]` is a suffix of `s` of length `len(s) - min(a, len(s))` for `a >= 0` and `min(-a, len(s))` for `a < 0` |
| Generation.ContextLeavesRoomForGeneration | lm_eval/models/huggingface.py:299-305 | with `max_length > 256` the context keeps its last `max_length - 256` tokens, so context plus 256 generated tokens fit the window |
| Generation.GenerationContext | lm_eval/models/huggingface.py:299-301 | the context is sliced from `max_gen_toks - max_length` with Python's negative-index rule; what it keeps is stated by the two lemmas around it |
| Generation.ContextSliceForSmallWindows | lm_eval/models/huggingface.py:299-301 | with `max_length == 256` the whole context is kept, and with a smaller window the first `256 - max_length` tokens are dropped |
| Generation.PrimaryStopToken | lm_eval/models/huggingface.py:297 | an empty stop list raises; otherwise the first stop string must encode to exactly one token, which becomes the end-of-sequence id |
| Generation.GeneratedSuffixOnly | lm_eval/models/huggingface.py:307 | slicing the generator output at the context length yields exactly the generated tokens |
| Generation.GenerateOne | lm_eval/models/huggingface.py:293-311 | one request: the single-token primary stop (or its error), the sliced context, the generator bounded at `len(context) + 256`, the decoded new tokens cut at every stop string |
| Generation.GenerateOneStops | lm_eval/models/huggingface.py:293-310 | a request's text is a prefix of the decoded generated suffix and holds no stop string; its first stop string is one token |
| Generation.GenerationKeys | lm_eval/models/huggingface.py:287-289 | each request's key is `(len(tok(context)), context)` |
| Generation.GreedyUntilSpec | lm_eval/models/huggingface.py:281-317 | a successful call gives one text per request |
| Generation.GenerateFor | lm_eval/models/huggingface.py:293-311 | the loop body gives exactly the request's specified text or error |
| Generation.GenerateInOrder | lm_eval/models/huggingface.py:293-315 | the request loop gives every text in order, or the first error |
| Generation.GreedyUntil | lm_eval/models/huggingface.py:281-317 | sort, request loop and `get_original` give exactly the specified texts |
| Generation.GreedyUntilPerRequest | lm_eval/models/huggingface.py:291-317 | the call succeeds exactly when every request succeeds on its own, and text `i` is then request `i`'s own text |

## Left out

- `lm_eval/utils.py` is not part of this model.
  - `Reorderer` is modelled by its contract: a stable sort by key, equal keys kept in
    original order, with the inverse scatter for `get_original`. Any merging of requests
    with identical keys that the class may do is not modelled.
  - `chunks` is modelled as contiguous groups of `batch_size`.
  - `get_rolling_token_windows` and `make_disjoint_window` are replaced by the parameter
    `windows`.
- The tokenizer, the decoder, the forward pass with its `log_softmax`, and `generate` are
  parameters (`tok`, `decode`, `model`, `generate`).
  - The batched forward pass is taken to act on each row on its own.
  - Padding invariance and the batching theorems also assume the `Causal` hypothesis on
    the model.
- Model loading, devices, the `max_length` and `batch_size` properties, and the tensor
  dtypes are left out. `max_length` and `batch_size` are parameters, with a batch size
  of at least 1.
- `cache_hook.add_partial` and the `tqdm` progress bars are left out. They do not affect
  results.
- Floating point: log-probabilities are `real`, so the sums are exact and `float()`
  rounding is not modelled.
- Token ids are unbounded integers. The 64-bit `torch.long` width is not modelled.
- The `(context, continuation)` item at the head of each encoded request is dropped: it is
  bound as `cache_key` at huggingface.py:251 and never used.
- Requests.LoglikelihoodRolling: returns the list of document scores. The code stores them with
  `requests.resps = loglikelihoods` (huggingface.py:172) and returns nothing. The model assumes
  `requests` is an object that accepts a `resps` attribute. On a plain Python list of 1-tuples,
  which the loop at huggingface.py:145 unpacks, that assignment raises `AttributeError` after
  every document has been scored.
- Extraction.Extract: any index outside the model output is a single `IndexOutOfRange`
  error. torch's different behaviours for an out-of-range slice and an out-of-range
  `gather` are not told apart.
- Extraction.Argmax: ties go to the lowest index, which is the rule `torch.argmax` documents
  (the first maximal value). The greedy-flag lemmas are stated only for a unique maximum.
- Likelihood.ScoreChunk: its own contract states only the answer count. What the answers
  are is stated by `LikelihoodProperties.ScoreChunkAlone`.
- Generation.GreedyUntilSpec: its own contract states only the answer count. What the texts
  are is stated by `Generation.GreedyUntilPerRequest` and `Generation.GenerateOneStops`.
