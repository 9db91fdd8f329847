// Greedy generation: a declarative specification, the full-recompute loop that is the repository's
// baseline, and the prefill-then-decode loop that must return the same tokens and finish reason.
module Generation {
  import opened Common
  import opened KvCache
  import opened LanguageModel
  import opened Engines

  datatype Request = Request(prompt: seq<Token>, maxTokens: int, stop: set<Token>)

  datatype Reason = Stop | Length

  datatype Generation = Generation(output: seq<Token>, reason: Reason)

  // Every token of out is what `next` chooses after the prompt and the tokens before it.
  ghost predicate Chain(next: seq<Token> -> Token, prompt: seq<Token>, out: seq<Token>) {
    out != [] ==>
      var k := |out| - 1;
      Chain(next, prompt, out[..k]) && out[k] == next(prompt + out[..k])
  }

  function GreedyChoice(lm: Lm): seq<Token> -> Token {
    ids => if ids == [] then 0 else NextToken(lm, ids)
  }

  // Some number of greedy tokens, none of them after a stop token or past the limit.
  ghost predicate Greedy(lm: Lm, q: Request, out: seq<Token>) {
    && q.prompt != [] && Chain(GreedyChoice(lm), q.prompt, out)
    && |out| <= q.maxTokens
    && (forall i :: 0 <= i < |out| - 1 ==> out[i] !in q.stop)
  }

  // A finished generation: it ended at a stop token, or at the limit without one.
  ghost predicate Completion(lm: Lm, q: Request, g: Generation) {
    && Greedy(lm, q, g.output) && g.output != []
    && (g.reason == Stop <==> g.output[|g.output| - 1] in q.stop)
    && (g.reason == Length ==> |g.output| == q.maxTokens)
  }

  // What generate_ids owes its caller: a refusal exactly for the two bad requests, else a completion.
  ghost predicate Generates(lm: Lm, q: Request, r: Result<Generation>) {
    && (r.Err? <==> q.maxTokens < 1 || q.prompt == [])
    && (r.Ok? ==> Completion(lm, q, r.value))
  }

  function Logits(lm: Lm, ids: seq<Token>): Logits
    requires ids != []
  {
    Run(lm, EmptyCache(lm), Ones(|ids|), ids, Arange(0, |ids|)).logits
  }

  lemma RunRecomputes(lm: Lm, prefix: seq<Token>, suffix: seq<Token>, mask: seq<bool>, positions: seq<nat>)
    requires suffix != [] && mask == Ones(|prefix| + |suffix|) && positions == Arange(|prefix|, |suffix|)
    ensures Run(lm, KvOf(lm, prefix), mask, suffix, positions) == Recompute(lm, prefix + suffix)
  {
    ForwardFromPrefix(lm, prefix, suffix, mask, positions);
  }

  lemma PrefillRecomputes(lm: Lm, ids: seq<Token>)
    requires ids != []
    ensures Prefill(lm, ids) == Ok(Recompute(lm, ids))
    ensures Logits(lm, ids) == LogitsOf(lm, ids)
  {
    RunRecomputes(lm, [], ids, Ones(|ids|), Arange(0, |ids|));
    assert KvOf(lm, []) == EmptyCache(lm);
    assert [] + ids == ids;
  }

  lemma SuffixPrefillRecomputes(lm: Lm, prefix: seq<Token>, suffix: seq<Token>)
    requires suffix != []
    ensures PrefillFromPrefix(lm, suffix, KvOf(lm, prefix)) == Ok(Recompute(lm, prefix + suffix))
  {
    var kv, mask, positions := KvOf(lm, prefix), Ones(|prefix| + |suffix|), Arange(|prefix|, |suffix|);
    assert PrefillFromPrefix(lm, suffix, kv) == Ok(Run(lm, kv, mask, suffix, positions));
    RunRecomputes(lm, prefix, suffix, mask, positions);
  }

  lemma DecodeRecomputes(lm: Lm, ids: seq<Token>, token: Token)
    ensures Decode(lm, token, KvOf(lm, ids)) == Recompute(lm, ids + [token])
  {
    RunRecomputes(lm, ids, [token], Ones(|ids| + 1), Arange(|ids|, 1));
  }

  // The first token of a request: greedy on the logits of its prompt.
  lemma PrefillStep(lm: Lm, q: Request)
    requires q.prompt != [] && q.maxTokens >= 1
    ensures Greedy(lm, q, [Argmax(LogitsOf(lm, q.prompt))])
  {
    assert q.prompt + [] == q.prompt;
    GreedyAppend(lm, q, [], NextToken(lm, q.prompt));
    assert [] + [NextToken(lm, q.prompt)] == [NextToken(lm, q.prompt)];
  }

  lemma PromptThere(lm: Lm, q: Request, out: seq<Token>)
    requires Greedy(lm, q, out)
    ensures q.prompt != []
  {
  }

  // A later token: decoding the last token over the cache of everything before it.
  lemma DecodeStep(lm: Lm, q: Request, out: seq<Token>, kv: Cache)
    requires out != [] && Greedy(lm, q, out) && |out| < q.maxTokens
    requires forall i :: 0 <= i < |out| ==> out[i] !in q.stop
    requires kv == KvOf(lm, q.prompt + out[..|out| - 1])
    ensures var next := Decode(lm, out[|out| - 1], kv);
      && next.cache == KvOf(lm, q.prompt + out)
      && Greedy(lm, q, out + [Argmax(next.logits)])
  {
    hide Run, Forward, Step, KvOf, LogitsOf, Greedy, Decode;
    var k := |out| - 1;
    var ids := q.prompt + out[..k];
    PromptThere(lm, q, out);
    assert ids + [out[k]] == q.prompt + out;
    DecodeRecomputes(lm, ids, out[k]);
    GreedyAppend(lm, q, out, NextToken(lm, q.prompt + out));
  }

  // NaiveEngine.generate_ids: the whole sequence through the model for every token.
  method NaiveGenerateIds(lm: Lm, q: Request) returns (r: Result<Generation>)
    ensures Generates(lm, q, r)
  {
    if q.maxTokens < 1 { return Err; }
    if q.prompt == [] { return Err; }
    var inputIds, output, reason := q.prompt, [], Length;
    for step := 0 to q.maxTokens
      invariant inputIds == q.prompt + output && reason == Length
      invariant |output| == step && Greedy(lm, q, output)
      invariant forall i :: 0 <= i < |output| ==> output[i] !in q.stop
    {
      PrefillRecomputes(lm, inputIds);
      var token := Argmax(Logits(lm, inputIds));
      GreedyAppend(lm, q, output, token);
      output := output + [token];
      if token in q.stop {
        reason := Stop;
        break;
      }
      inputIds := inputIds + [token];
    }
    return Ok(Generation(output, reason));
  }

  // CachedEngine.generate_ids: one prefill, then one decode per token over the growing cache, which
  // in the end holds the KV of the prompt and of all but the last token.
  method CachedGenerateIds(lm: Lm, q: Request) returns (r: Result<Generation>, ghost cache: Cache)
    ensures Generates(lm, q, r)
    ensures r.Ok? ==> cache == KvOf(lm, q.prompt + r.value.output[..|r.value.output| - 1])
  {
    hide Run, Forward, Step, KvOf, LogitsOf, Decode, Chain;
    cache := [];
    if q.maxTokens < 1 { return Err, cache; }
    var first := Prefill(lm, q.prompt);
    if first.Err? { return Err, cache; }
    PrefillRecomputes(lm, q.prompt);
    var logits, kv := first.value.logits, first.value.cache;
    var token := Argmax(logits);
    PrefillStep(lm, q);
    var output, reason := [token], Length;
    assert q.prompt + output[..0] == q.prompt;
    if token in q.stop {
      reason := Stop;
    } else {
      var lastToken := token;
      for step := 1 to q.maxTokens
        invariant |output| == step && reason == Length && lastToken == output[step - 1]
        invariant Greedy(lm, q, output)
        invariant forall i :: 0 <= i < |output| ==> output[i] !in q.stop
        invariant kv == KvOf(lm, q.prompt + output[..step - 1])
      {
        DecodeStep(lm, q, output, kv);
        var next := Decode(lm, lastToken, kv);
        logits, kv := next.logits, next.cache;
        token := Argmax(logits);
        assert (output + [token])[..step] == output;
        output := output + [token];
        if token in q.stop {
          reason := Stop;
          break;
        }
        lastToken := token;
      }
    }
    cache := kv;
    return Ok(Generation(output, reason)), cache;
  }

  lemma GreedyAppend(lm: Lm, q: Request, out: seq<Token>, token: Token)
    requires Greedy(lm, q, out) && |out| < q.maxTokens
    requires forall i :: 0 <= i < |out| ==> out[i] !in q.stop
    requires token == NextToken(lm, q.prompt + out)
    ensures Greedy(lm, q, out + [token])
  {
    assert (out + [token])[..|out|] == out;
  }

  // Greedy runs of one prompt agree token by token, so the shorter is a prefix of the longer.
  lemma {:induction false} ChainsAgree(next: seq<Token> -> Token, prompt: seq<Token>, a: seq<Token>, b: seq<Token>)
    requires Chain(next, prompt, a) && Chain(next, prompt, b) && |a| <= |b|
    ensures a <= b
    decreases |b|
  {
    if a != [] {
      var k := |b| - 1;
      if |a| < |b| {
        ChainsAgree(next, prompt, a, b[..k]);
      } else {
        ChainsAgree(next, prompt, a[..k], b[..k]);
        assert a[..k] == b[..k];
        assert a == a[..k] + [a[k]] && b == b[..k] + [b[k]];
      }
    }
  }

  // A completed generation cannot be extended, so every greedy run is a prefix of it.
  lemma GreedyIsPrefixOfCompletion(lm: Lm, q: Request, out: seq<Token>, g: Generation)
    requires Greedy(lm, q, out) && Completion(lm, q, g)
    ensures out <= g.output
  {
    if |out| <= |g.output| {
      ChainsAgree(GreedyChoice(lm), q.prompt, out, g.output);
    } else {
      ChainsAgree(GreedyChoice(lm), q.prompt, g.output, out);
      assert false;
    }
  }

  // There is at most one completed generation, so any two engines that produce one agree.
  lemma CompletionIsUnique(lm: Lm, q: Request, g: Generation, h: Generation)
    requires Completion(lm, q, g) && Completion(lm, q, h)
    ensures g == h
  {
    GreedyIsPrefixOfCompletion(lm, q, g.output, h);
    GreedyIsPrefixOfCompletion(lm, q, h.output, g);
    assert |g.output| == |h.output|;
    assert g.output == h.output;
  }

  // Whatever two engines return for one request, if both keep the promise they return the same
  // tokens, finish reason and errors.
  lemma GeneratesIsUnique(lm: Lm, q: Request, a: Result<Generation>, b: Result<Generation>)
    requires Generates(lm, q, a) && Generates(lm, q, b)
    ensures a == b
  {
    if a.Ok? { CompletionIsUnique(lm, q, a.value, b.value); }
  }

  // KV-cached generation is naive generation, errors included.
  method EnginesAgree(lm: Lm, q: Request) returns (naive: Result<Generation>, cached: Result<Generation>)
    ensures naive == cached && Generates(lm, q, naive)
  {
    naive := NaiveGenerateIds(lm, q);
    ghost var cache;
    cached, cache := CachedGenerateIds(lm, q);
    GeneratesIsUnique(lm, q, naive, cached);
  }
}
