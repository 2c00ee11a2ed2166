/** `greedy_until`: for each (context, until) request, sorted shortest context first, the
    context tokens are cut to leave room for the generated tokens, the model generates
    greedily with the first stop string's single token as end-of-sequence, only the
    generated suffix is decoded, and the text is cut at each stop string in list order.
    The tokenizer, the decoder and the generator are parameters. */
module Generation {
  import opened Outcomes
  import opened Reorder
  import opened Encoding

  /** `self.max_gen_toks`. */
  const MaxGenToks: nat := 256

  /** The `until` argument: a single stop string or a list of them. */
  datatype Until = OneStop(term: string) | StopList(terms: seq<string>)

  datatype GenerationRequest = GenerationRequest(context: string, until: Until)

  /** `if isinstance(until, str): until = [until]`. */
  function StopTerms(u: Until): (ts: seq<string>)
    ensures u.OneStop? ==> ts == [u.term]
    ensures u.StopList? ==> ts == u.terms
  {
    match u
    case OneStop(t) => [t]
    case StopList(ts) => ts
  }

  /** `t` occurs in `s` starting at position `i`. */
  predicate OccursAt(s: string, t: string, i: nat)
  {
    i + |t| <= |s| && s[i..i + |t|] == t
  }

  predicate Contains(s: string, t: string)
  {
    exists i :: 0 <= i <= |s| && OccursAt(s, t, i)
  }

  /** The first occurrence of a non-empty `t` in `s` at or after `from`. */
  function FindFrom(s: string, t: string, from: nat): (r: Option<nat>)
    requires t != []
    ensures r.Some? ==> from <= r.value && OccursAt(s, t, r.value)
    ensures r.Some? ==> forall j :: from <= j < r.value ==> !OccursAt(s, t, j)
    ensures r.None? ==> forall j :: from <= j ==> !OccursAt(s, t, j)
    decreases |s| - from
  {
    if from + |t| > |s| then None
    else if OccursAt(s, t, from) then Some(from)
    else FindFrom(s, t, from + 1)
  }

  /** An occurrence inside a prefix is an occurrence in the whole string. */
  lemma OccursInPrefix(a: string, b: string, t: string, i: nat)
    requires a <= b && OccursAt(a, t, i)
    ensures OccursAt(b, t, i)
  {
    assert b[i..i + |t|] == a[i..i + |t|];
  }

  /** Python's `s.split(t)[0]`: the text before the first occurrence of `t`, all of `s` when
      there is none; an empty separator raises. */
  function SplitHead(s: string, t: string): (r: Result<string>)
    ensures r.Failure? <==> t == []
    ensures r.Failure? ==> r.error == EmptySeparator
    ensures r.Success? ==> r.value <= s && !Contains(r.value, t)
    ensures r.Success? ==> forall j :: 0 <= j < |r.value| ==> !OccursAt(s, t, j)
    ensures r.Success? ==> r.value == s || OccursAt(s, t, |r.value|)
  {
    if t == [] then Failure(EmptySeparator)
    else
      match FindFrom(s, t, 0)
      case None => Success(s)
      case Some(i) =>
        var h := s[..i];
        assert !Contains(h, t) by {
          forall j: nat | OccursAt(h, t, j) ensures false {
            OccursInPrefix(h, s, t, j);
          }
        }
        Success(h)
  }

  /** The stop-string loop's result: `s = s.split(term)[0]` for each term in list order. */
  function TruncateAtStops(s: string, terms: seq<string>): (r: Result<string>)
    ensures r.Success? <==> forall k :: 0 <= k < |terms| ==> terms[k] != []
    ensures r.Failure? ==> r.error == EmptySeparator
    decreases |terms|
  {
    if terms == [] then Success(s)
    else
      match SplitHead(s, terms[0])
      case Failure(e) => Failure(e)
      case Success(h) => TruncateAtStops(h, terms[1..])
  }

  /** `for term in until: s = s.split(term)[0]` (huggingface.py:309-310). */
  method ApplyStops(s: string, terms: seq<string>) returns (r: Result<string>)
    ensures r == TruncateAtStops(s, terms)
  {
    var cur := s;
    for k := 0 to |terms|
      invariant TruncateAtStops(s, terms) == TruncateAtStops(cur, terms[k..])
    {
      assert terms[k..][1..] == terms[k + 1..];
      var split := SplitHead(cur, terms[k]);
      if split.Failure? {
        return split;
      }
      cur := split.value;
    }
    return Success(cur);
  }

  /** The result is a prefix of the decoded text. */
  lemma {:induction false} TruncatedIsPrefix(s: string, terms: seq<string>)
    requires TruncateAtStops(s, terms).Success?
    ensures TruncateAtStops(s, terms).value <= s
    decreases |terms|
  {
    if terms != [] {
      TruncatedIsPrefix(SplitHead(s, terms[0]).value, terms[1..]);
    }
  }

  /** A prefix of a text without `t` has no `t` either. */
  lemma NoStopInPrefix(a: string, b: string, t: string)
    requires a <= b && !Contains(b, t)
    ensures !Contains(a, t)
  {
    forall i: nat | OccursAt(a, t, i) ensures false {
      OccursInPrefix(a, b, t, i);
    }
  }

  /** No stop term occurs anywhere in the result. */
  lemma {:induction false} TruncatedHasNoStop(s: string, terms: seq<string>)
    requires TruncateAtStops(s, terms).Success?
    ensures forall k :: 0 <= k < |terms| ==> !Contains(TruncateAtStops(s, terms).value, terms[k])
    decreases |terms|
  {
    if terms != [] {
      var h := SplitHead(s, terms[0]).value;
      var r := TruncateAtStops(s, terms).value;
      TruncatedHasNoStop(h, terms[1..]);
      TruncatedIsPrefix(h, terms[1..]);
      NoStopInPrefix(r, h, terms[0]);
      forall k | 1 <= k < |terms| ensures !Contains(r, terms[k]) {
        assert terms[k] == terms[1..][k - 1];
      }
    }
  }

  /** A text holding none of the (non-empty) stop terms is left as it is. */
  lemma {:induction false} NoStopsUnchanged(s: string, terms: seq<string>)
    requires forall k :: 0 <= k < |terms| ==> terms[k] != [] && !Contains(s, terms[k])
    ensures TruncateAtStops(s, terms) == Success(s)
    decreases |terms|
  {
    if terms != [] {
      NoStopsUnchanged(s, terms[1..]);
    }
  }

  /** Running the stop-string loop a second time changes nothing. */
  lemma TruncateIdempotent(s: string, terms: seq<string>)
    requires TruncateAtStops(s, terms).Success?
    ensures TruncateAtStops(TruncateAtStops(s, terms).value, terms) == TruncateAtStops(s, terms)
  {
    TruncatedHasNoStop(s, terms);
    NoStopsUnchanged(TruncateAtStops(s, terms).value, terms);
  }

  /** Where the loop stops cutting: the whole text, or a position where some stop term
      occurs in the original text. */
  lemma {:induction false} CutPointIsAnOccurrence(s: string, terms: seq<string>)
    requires TruncateAtStops(s, terms).Success?
    ensures var r := TruncateAtStops(s, terms).value;
            r == s || exists k :: 0 <= k < |terms| && OccursAt(s, terms[k], |r|)
    decreases |terms|
  {
    if terms != [] {
      var h := SplitHead(s, terms[0]).value;
      var r := TruncateAtStops(s, terms).value;
      CutPointIsAnOccurrence(h, terms[1..]);
      if r != h {
        var k :| 0 <= k < |terms[1..]| && OccursAt(h, terms[1..][k], |r|);
        OccursInPrefix(h, s, terms[1..][k], |r|);
        assert OccursAt(s, terms[k + 1], |r|);
      } else if h != s {
        assert OccursAt(s, terms[0], |r|);
      }
    }
  }

  /** The cut an earliest-global-match rule would make: the first position where any stop
      term occurs, or the end of the text. */
  function EarliestCut(s: string, terms: seq<string>): (m: nat)
    requires forall k :: 0 <= k < |terms| ==> terms[k] != []
    ensures m <= |s|
    ensures forall k, j :: 0 <= k < |terms| && 0 <= j < m ==> !OccursAt(s, terms[k], j)
    ensures m == |s| || exists k :: 0 <= k < |terms| && OccursAt(s, terms[k], m)
    decreases |terms|
  {
    if terms == [] then |s|
    else
      var rest := EarliestCut(s, terms[1..]);
      assert forall k :: 1 <= k < |terms| ==> terms[k] == terms[1..][k - 1];
      match FindFrom(s, terms[0], 0)
      case Some(i) => if i < rest then i else rest
      case None => rest
  }

  /** The sequential loop never cuts earlier than the earliest global match: the earliest-
      match text is always a prefix of the loop's result. */
  lemma EarliestIsPrefixOfSequential(s: string, terms: seq<string>)
    requires forall k :: 0 <= k < |terms| ==> terms[k] != []
    ensures s[..EarliestCut(s, terms)] <= TruncateAtStops(s, terms).value
  {
    var r := TruncateAtStops(s, terms).value;
    TruncatedIsPrefix(s, terms);
    CutPointIsAnOccurrence(s, terms);
    assert EarliestCut(s, terms) <= |r|;
  }

  /** `split` cuts at the first occurrence. */
  lemma SplitAtFirst(s: string, t: string, i: nat)
    requires t != [] && OccursAt(s, t, i) && forall j :: 0 <= j < i ==> !OccursAt(s, t, j)
    ensures SplitHead(s, t) == Success(s[..i])
  {
  }

  /** Where the stop strings sit in `"abc<STOP1>def<STOP2>ghi"`. */
  lemma StopExampleText()
    ensures forall j :: 0 <= j < 13 ==> !OccursAt("abc<STOP1>def<STOP2>ghi", "<STOP2>", j)
    ensures OccursAt("abc<STOP1>def<STOP2>ghi", "<STOP2>", 13)
    ensures "abc<STOP1>def<STOP2>ghi"[..13] == "abc<STOP1>def"
    ensures forall j :: 0 <= j < 3 ==> !OccursAt("abc<STOP1>def", "<STOP1>", j)
    ensures OccursAt("abc<STOP1>def", "<STOP1>", 3)
    ensures "abc<STOP1>def"[..3] == "abc"
  {
    var s := "abc<STOP1>def<STOP2>ghi";
    forall j | 0 <= j < 13 ensures !OccursAt(s, "<STOP2>", j) {
      assert s[j..j + 7][0] == s[j] && s[j..j + 7][5] == s[j + 5];
      assert j == 0 || j == 1 || j == 2 || j == 3 || j == 4 || j == 5 || j == 6
          || j == 7 || j == 8 || j == 9 || j == 10 || j == 11 || j == 12;
    }
    var h := "abc<STOP1>def";
    forall j | 0 <= j < 3 ensures !OccursAt(h, "<STOP1>", j) {
      assert h[j..j + 7][0] == h[j];
      assert j == 0 || j == 1 || j == 2;
    }
  }

  /** An example of the ordering: `"abc<STOP1>def<STOP2>ghi"` with `["<STOP2>", "<STOP1>"]`
      gives `"abc"`. */
  lemma StopExample()
    ensures TruncateAtStops("abc<STOP1>def<STOP2>ghi", ["<STOP2>", "<STOP1>"]) == Success("abc")
  {
    StopExampleText();
    SplitAtFirst("abc<STOP1>def<STOP2>ghi", "<STOP2>", 13);
    SplitAtFirst("abc<STOP1>def", "<STOP1>", 3);
    assert ["<STOP2>", "<STOP1>"][1..] == ["<STOP1>"];
    assert ["<STOP1>"][1..] == [];
  }

  /** Where the stop strings sit in `"abcd"`. */
  lemma StraddleText()
    ensures !OccursAt("abcd", "c", 0) && !OccursAt("abcd", "c", 1) && OccursAt("abcd", "c", 2)
    ensures "abcd"[..2] == "ab"
    ensures !OccursAt("abcd", "bcd", 0) && OccursAt("abcd", "bcd", 1)
  {
    assert "abcd"[0..1][0] == 'a' && "abcd"[1..2][0] == 'b' && "abcd"[0..3][0] == 'a';
  }

  /** A stop string that straddles an earlier cut no longer matches: on `"abcd"` with
      `["c", "bcd"]` the loop keeps `"ab"`, while the earliest global match would keep `"a"`. */
  lemma SequentialIsNotEarliest()
    ensures TruncateAtStops("abcd", ["c", "bcd"]) == Success("ab")
    ensures "abcd"[..EarliestCut("abcd", ["c", "bcd"])] == "a"
  {
    StraddleText();
    forall j | 0 <= j < 2 ensures !OccursAt("abcd", "c", j) {
      assert j == 0 || j == 1;
    }
    SplitAtFirst("abcd", "c", 2);
    assert ["c", "bcd"][1..] == ["bcd"];
    assert ["bcd"][1..] == [];
    assert SplitHead("ab", "bcd") == Success("ab");
    var m := EarliestCut("abcd", ["c", "bcd"]);
    assert m == 1;
  }

  /** Python's `s[a:]` for any integer `a`: a negative start counts from the end. */
  function PySliceFrom(s: seq<int>, a: int): (r: seq<int>)
    ensures |r| <= |s| && r == s[|s| - |r|..]
    ensures a >= 0 ==> |r| == |s| - Min(a, |s|)
    ensures a < 0 ==> |r| == Min(-a, |s|)
  {
    if a >= 0 then (if a <= |s| then s[a..] else [])
    else if -a <= |s| then s[|s| + a..] else s
  }

  /** `self.tok_encode(context)[self.max_gen_toks - self.max_length:]`. */
  function GenerationContext(toks: seq<int>, maxLength: nat): seq<int>
  {
    PySliceFrom(toks, MaxGenToks - maxLength)
  }

  /** With a window longer than 256 the context keeps its last `maxLength - 256` tokens, so
      context plus generated tokens fit the window. */
  lemma ContextLeavesRoomForGeneration(toks: seq<int>, maxLength: nat)
    requires maxLength > MaxGenToks
    ensures |GenerationContext(toks, maxLength)| == Min(|toks|, maxLength - MaxGenToks)
    ensures GenerationContext(toks, maxLength) == toks[|toks| - |GenerationContext(toks, maxLength)|..]
    ensures |GenerationContext(toks, maxLength)| + MaxGenToks <= maxLength
  {
  }

  /** With a window of exactly 256 the slice is `[0:]` and keeps the whole context, and with a
      smaller window it drops the first `256 - maxLength` tokens: the cut leaves room for the
      generated tokens only when the window is longer than 256. */
  lemma ContextSliceForSmallWindows(toks: seq<int>, maxLength: nat)
    requires maxLength <= MaxGenToks
    ensures maxLength == MaxGenToks ==> GenerationContext(toks, maxLength) == toks
    ensures GenerationContext(toks, maxLength) == toks[Min(MaxGenToks - maxLength, |toks|)..]
  {
  }

  /** `(primary_until,) = self.tok_encode(until[0])`: the first stop string must encode to
      exactly one token. */
  function PrimaryStopToken(terms: seq<string>, tok: string -> seq<int>): (r: Result<int>)
    ensures terms == [] ==> r == Failure(StopListEmpty)
    ensures terms != [] ==> (r.Success? <==> |tok(terms[0])| == 1)
    ensures terms != [] && r.Failure? ==> r.error == StopNotOneToken
    ensures r.Success? ==> tok(terms[0]) == [r.value]
  {
    if terms == [] then Failure(StopListEmpty)
    else
      var enc := tok(terms[0]);
      if |enc| == 1 then Success(enc[0]) else Failure(StopNotOneToken)
  }

  /** `self.tok_decode(cont[0].tolist()[context_enc.shape[1]:])`: the generator returns the
      context followed by the new tokens, and only the new tokens are decoded. */
  lemma GeneratedSuffixOnly(ctx: seq<int>, generated: seq<int>)
    ensures PySliceFrom(ctx + generated, |ctx|) == generated
  {
  }

  /** The generator: context, total length bound, end-of-sequence token. */
  type Generator = (seq<int>, nat, int) -> seq<int>

  /** One request of `greedy_until` (huggingface.py:293-311). */
  function GenerateOne(req: GenerationRequest, maxLength: nat, tok: string -> seq<int>,
                       decode: seq<int> -> string, generate: Generator): Result<string>
  {
    var terms := StopTerms(req.until);
    match PrimaryStopToken(terms, tok)
    case Failure(e) => Failure(e)
    case Success(primary) =>
      var ctx := GenerationContext(tok(req.context), maxLength);
      var out := generate(ctx, |ctx| + MaxGenToks, primary);
      TruncateAtStops(decode(PySliceFrom(out, |ctx|)), terms)
  }

  /** A generated answer is a prefix of the decoded continuation and holds no stop string. */
  lemma GenerateOneStops(req: GenerationRequest, maxLength: nat, tok: string -> seq<int>,
                         decode: seq<int> -> string, generate: Generator)
    requires GenerateOne(req, maxLength, tok, decode, generate).Success?
    ensures var terms := StopTerms(req.until);
            var ctx := GenerationContext(tok(req.context), maxLength);
            var text := decode(PySliceFrom(generate(ctx, |ctx| + MaxGenToks, tok(terms[0])[0]), |ctx|));
            var r := GenerateOne(req, maxLength, tok, decode, generate).value;
            && terms != [] && |tok(terms[0])| == 1
            && r <= text
            && forall k :: 0 <= k < |terms| ==> !Contains(r, terms[k])
  {
    var terms := StopTerms(req.until);
    var ctx := GenerationContext(tok(req.context), maxLength);
    var text := decode(PySliceFrom(generate(ctx, |ctx| + MaxGenToks, tok(terms[0])[0]), |ctx|));
    TruncatedIsPrefix(text, terms);
    TruncatedHasNoStop(text, terms);
  }

  /** The character codes of a string, compared as Python compares strings. */
  function CodePoints(s: string): (r: seq<int>)
    ensures |r| == |s| && forall i :: 0 <= i < |s| ==> r[i] == s[i] as int
  {
    seq(|s|, i requires 0 <= i < |s| => s[i] as int)
  }

  /** `greedy_until`'s `_collate` key `(len(toks), context)`: shortest context first. */
  function GenerationKeys(requests: seq<GenerationRequest>, tok: string -> seq<int>): (keys: seq<Key>)
    ensures |keys| == |requests|
    ensures forall i :: 0 <= i < |requests| ==>
              keys[i] == Key(|tok(requests[i].context)|, CodePoints(requests[i].context))
  {
    seq(|requests|, i requires 0 <= i < |requests| =>
      Key(|tok(requests[i].context)|, CodePoints(requests[i].context)))
  }

  /** Every request's own outcome, in the order given. */
  function GenerateAll(requests: seq<GenerationRequest>, maxLength: nat, tok: string -> seq<int>,
                       decode: seq<int> -> string, generate: Generator): (rs: seq<Result<string>>)
    ensures |rs| == |requests|
    ensures forall i :: 0 <= i < |requests| ==> rs[i] == GenerateOne(requests[i], maxLength, tok, decode, generate)
  {
    seq(|requests|, i requires 0 <= i < |requests| => GenerateOne(requests[i], maxLength, tok, decode, generate))
  }

  /** What `greedy_until` returns, or the exception it raises: the requests in sorted order,
      the first exception aborting, the texts put back in the caller's order. */
  function GreedyUntilSpec(requests: seq<GenerationRequest>, maxLength: nat, tok: string -> seq<int>,
                           decode: seq<int> -> string, generate: Generator): (r: Result<seq<string>>)
    ensures r.Success? ==> |r.value| == |requests|
  {
    var order := SortOrder(GenerationKeys(requests, tok));
    match Collect(GenerateAll(Reordered(requests, order), maxLength, tok, decode, generate))
    case Failure(e) => Failure(e)
    case Success(res) => Success(Restore(order, res))
  }

  /** The body of the request loop for one request. */
  method GenerateFor(req: GenerationRequest, maxLength: nat, tok: string -> seq<int>,
                     decode: seq<int> -> string, generate: Generator) returns (r: Result<string>)
    ensures r == GenerateOne(req, maxLength, tok, decode, generate)
  {
    var until := StopTerms(req.until);
    if until == [] {
      return Failure(StopListEmpty);
    }
    var primaryEnc := tok(until[0]);
    if |primaryEnc| != 1 {
      return Failure(StopNotOneToken);
    }
    var primaryUntil := primaryEnc[0];
    var contextEnc := GenerationContext(tok(req.context), maxLength);
    var cont := generate(contextEnc, |contextEnc| + MaxGenToks, primaryUntil);
    var s := decode(PySliceFrom(cont, |contextEnc|));
    r := ApplyStops(s, until);
  }

  /** The request loop of `greedy_until` over the sorted requests (huggingface.py:293-315):
      one text per request, the first exception aborting the loop. */
  method GenerateInOrder(reordered: seq<GenerationRequest>, maxLength: nat, tok: string -> seq<int>,
                         decode: seq<int> -> string, generate: Generator) returns (out: Result<seq<string>>)
    ensures out == Collect(GenerateAll(reordered, maxLength, tok, decode, generate))
  {
    ghost var outcomes := GenerateAll(reordered, maxLength, tok, decode, generate);
    var res: seq<string> := [];
    for k := 0 to |reordered|
      invariant Collect(outcomes[..k]) == Success(res)
    {
      var s := GenerateFor(reordered[k], maxLength, tok, decode, generate);
      if s.Failure? {
        CollectStopsAt(outcomes, k);
        return Failure(s.error);
      }
      CollectStep(outcomes, k, res, s.value);
      res := res + [s.value];
    }
    assert outcomes[..|outcomes|] == outcomes;
    return Success(res);
  }

  /** `greedy_until` (huggingface.py:281-317). */
  method GreedyUntil(requests: seq<GenerationRequest>, maxLength: nat, tok: string -> seq<int>,
                     decode: seq<int> -> string, generate: Generator) returns (out: Result<seq<string>>)
    ensures out == GreedyUntilSpec(requests, maxLength, tok, decode, generate)
  {
    var order := SortOrder(GenerationKeys(requests, tok));
    var res := GenerateInOrder(Reordered(requests, order), maxLength, tok, decode, generate);
    if res.Failure? {
      return Failure(res.error);
    }
    return Success(Restore(order, res.value));
  }

  /** The sort is invisible: `greedy_until` succeeds exactly when every request succeeds on
      its own, and then text `i` is request `i`'s own text. */
  lemma GreedyUntilPerRequest(requests: seq<GenerationRequest>, maxLength: nat, tok: string -> seq<int>,
                              decode: seq<int> -> string, generate: Generator)
    ensures GreedyUntilSpec(requests, maxLength, tok, decode, generate).Success?
            <==> Collect(GenerateAll(requests, maxLength, tok, decode, generate)).Success?
    ensures GreedyUntilSpec(requests, maxLength, tok, decode, generate).Success? ==>
              GreedyUntilSpec(requests, maxLength, tok, decode, generate)
              == Collect(GenerateAll(requests, maxLength, tok, decode, generate))
  {
    var order := SortOrder(GenerationKeys(requests, tok));
    var all := GenerateAll(requests, maxLength, tok, decode, generate);
    assert GenerateAll(Reordered(requests, order), maxLength, tok, decode, generate) == Reordered(all, order);
    CollectReordered(all, order);
    if Collect(all).Success? {
      RestoreReordered(Collect(all).value, order);
    }
  }
}
