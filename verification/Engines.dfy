// The two reference engines. NaiveEngine recomputes the whole sequence for every token and is the
// specification; CachedEngine prefills once and decodes over a cache, alone or in a padded batch.
module Engines {
  import opened Common
  import opened KvCache
  import opened LanguageModel
  import opened Batching

  datatype Output = Output(logits: Logits, cache: Cache)

  datatype BatchOutput = BatchOutput(logits: seq<Logits>, caches: seq<Cache>)

  // Greedy choice: the first index of a maximal logit.
  function Argmax(logits: seq<real>): (best: nat)
    requires logits != []
    ensures best < |logits|
    ensures forall i :: 0 <= i < |logits| ==> logits[i] <= logits[best]
    ensures forall i :: 0 <= i < best ==> logits[i] < logits[best]
  {
    var k := |logits| - 1;
    if k == 0 then 0
    else
      var before := Argmax(logits[..k]);
      assert logits[..k][before] == logits[before];
      assert forall i :: 0 <= i < k ==> logits[..k][i] == logits[i];
      if logits[k] > logits[before] then k else before
  }

  function NextToken(lm: Lm, ids: seq<Token>): Token
    requires ids != []
  {
    Argmax(LogitsOf(lm, ids))
  }

  // What full recompute gives for a sequence of ids.
  function Recompute(lm: Lm, ids: seq<Token>): Output
    requires ids != []
  {
    Output(LogitsOf(lm, ids), KvOf(lm, ids))
  }

  // ---- CachedEngine ----

  function Run(lm: Lm, past: Cache, mask: seq<bool>, tokens: seq<Token>, positions: seq<nat>): Output
    requires tokens != [] && |positions| == |tokens|
    requires |tokens| <= |mask| && Shaped(lm, past, |mask| - |tokens|)
  {
    var (cache, logits) := Forward(lm, past, mask, tokens, positions);
    Output(logits, cache)
  }

  // An empty prompt has no last position to take logits from.
  function Prefill(lm: Lm, prompt: seq<Token>): Result<Output> {
    if prompt == [] then Err
    else Ok(Run(lm, EmptyCache(lm), Ones(|prompt|), prompt, Arange(0, |prompt|)))
  }

  function PrefillFromPrefix(lm: Lm, suffix: seq<Token>, prefixKv: Cache): Result<Output>
    requires Shaped(lm, prefixKv, SeqLen(prefixKv))
  {
    if suffix == [] then Err
    else
      var past := SeqLen(prefixKv);
      Ok(Run(lm, prefixKv, Ones(past + |suffix|), suffix, Arange(past, |suffix|)))
  }

  function Decode(lm: Lm, lastToken: Token, kv: Cache): Output
    requires Shaped(lm, kv, SeqLen(kv))
  {
    var past := SeqLen(kv);
    Run(lm, kv, Ones(past + 1), [lastToken], Arange(past, 1))
  }

  predicate AllShaped(lm: Lm, caches: seq<Cache>) {
    forall r :: 0 <= r < |caches| ==> Shaped(lm, caches[r], SeqLen(caches[r]))
  }

  ghost predicate FitsBatch(lm: Lm, past: seq<BatchLayer>, masks: seq<seq<bool>>, r: nat) {
    && |past| == lm.layers && HasRow(past, r)
    && r < |masks| && |masks[r]| > 0 && Shaped(lm, RowOf(past, r), |masks[r]| - 1)
  }

  // The model on a [B, 1] batch: every row attends to the unmasked part of its own row.
  function RunRows(lm: Lm, past: seq<BatchLayer>, masks: seq<seq<bool>>, positions: seq<nat>,
          tokens: seq<Token>): seq<Output>
    requires |tokens| == |positions|
    requires forall r :: 0 <= r < |tokens| ==> FitsBatch(lm, past, masks, r)
  {
    seq(|tokens|, r requires 0 <= r < |tokens| && FitsBatch(lm, past, masks, r) =>
      Run(lm, RowOf(past, r), masks[r], [tokens[r]], [positions[r]]))
  }

  function DecodeMasks(lengths: seq<nat>): seq<seq<bool>> {
    seq(|lengths|, r requires 0 <= r < |lengths| => DecodeMask(lengths[r], Max(lengths)))
  }

  lemma StackedRows(lm: Lm, caches: seq<Cache>, zero: Vec)
    requires caches != [] && AllShaped(lm, caches)
    ensures Uniform(caches)
    ensures forall r :: 0 <= r < |caches| ==> FitsBatch(lm, Stack(caches, zero), DecodeMasks(Lengths(caches)), r)
  {
    assert |caches[0]| == lm.layers;
    assert forall r :: 0 <= r < |caches| ==> Rect(caches[r], SeqLen(caches[r]));
    forall r | 0 <= r < |caches|
      ensures HasRow(Stack(caches, zero), r) && Rect(RowOf(Stack(caches, zero), r), Max(Lengths(caches)))
    {
      PaddedAttention(caches, zero, r, Max(Lengths(caches)));
    }
  }

  // The model's batched past and the private caches cut out of it.
  ghost predicate Grown(rows: seq<Output>, layers: nat, lengths: seq<nat>, n: nat) {
    && |rows| == |lengths|
    && forall r :: 0 <= r < |rows| ==> |rows[r].cache| == layers && lengths[r] < n && Rect(rows[r].cache, n)
  }

  function Caches(rows: seq<Output>): seq<Cache> {
    seq(|rows|, r requires 0 <= r < |rows| => rows[r].cache)
  }

  lemma JoinedRow(rows: seq<Cache>, layers: nat, r: nat)
    requires (forall i :: 0 <= i < |rows| ==> |rows[i]| == layers) && r < |rows|
    ensures HasRow(Join(rows, layers), r) && RowOf(Join(rows, layers), r) == rows[r]
    ensures forall n: nat :: n > 0 && Rect(rows[r], n) ==>
      forall l :: 0 <= l < layers ==> |Join(rows, layers)[l].keys[r]| == |Join(rows, layers)[l].values[r]| == n
  {
    forall l | 0 <= l < layers ensures RowOf(Join(rows, layers), r)[l] == rows[r][l] { }
  }

  function SplitRow(rows: seq<Output>, layers: nat, lengths: seq<nat>, r: nat): Cache
    requires Grown(rows, layers, lengths, Max(lengths) + 1) && r < |rows|
  {
    JoinedRow(Caches(rows), layers, r);
    ExtractRow(Join(Caches(rows), layers), r, lengths[r])
  }

  function BatchRows(lm: Lm, lastTokens: seq<Token>, caches: seq<Cache>): (rows: seq<Output>)
    requires caches != [] && |lastTokens| == |caches| && AllShaped(lm, caches)
    ensures Grown(rows, lm.layers, Lengths(caches), Max(Lengths(caches)) + 1)
  {
    var zero := seq(lm.width, i => 0.0);
    var lengths := Lengths(caches);
    StackedRows(lm, caches, zero);
    assert forall r :: 0 <= r < |caches| ==> FitsBatch(lm, Stack(caches, zero), DecodeMasks(lengths), r);
    var rows := RunRows(lm, Stack(caches, zero), DecodeMasks(lengths), lengths, lastTokens);
    assert forall r :: 0 <= r < |rows| ==> Shaped(lm, rows[r].cache, |DecodeMasks(lengths)[r]|);
    rows
  }

  function SplitOutput(rows: seq<Output>, layers: nat, lengths: seq<nat>): BatchOutput
    requires Grown(rows, layers, lengths, Max(lengths) + 1)
  {
    BatchOutput(
      seq(|rows|, r requires 0 <= r < |rows| => rows[r].logits),
      seq(|rows|, r requires 0 <= r < |rows| => SplitRow(rows, layers, lengths, r)))
  }

  function DecodeBatch(lm: Lm, lastTokens: seq<Token>, caches: seq<Cache>): Result<BatchOutput>
    requires |lastTokens| == |caches| && AllShaped(lm, caches)
  {
    if caches == [] then Err
    else Ok(SplitOutput(BatchRows(lm, lastTokens, caches), lm.layers, Lengths(caches)))
  }

  // The comprehension over extract_row_cache at the end of decode_batch.
  method SplitRows(rows: seq<Output>, layers: nat, lengths: seq<nat>) returns (out: BatchOutput)
    requires Grown(rows, layers, lengths, Max(lengths) + 1)
    ensures out == SplitOutput(rows, layers, lengths)
  {
    var newCaches := [];
    var past := Join(Caches(rows), layers);
    for row := 0 to |lengths|
      invariant |newCaches| == row
      invariant forall r :: 0 <= r < row ==> newCaches[r] == SplitRow(rows, layers, lengths, r)
    {
      JoinedRow(Caches(rows), layers, row);
      var extracted := ExtractRowCache(past, row, lengths[row]);
      newCaches := newCaches + [extracted];
    }
    assert newCaches == SplitOutput(rows, layers, lengths).caches;
    out := BatchOutput(seq(|rows|, r requires 0 <= r < |rows| => rows[r].logits), newCaches);
  }

  method StackForDecode(lm: Lm, caches: seq<Cache>, zero: Vec)
    returns (r: Result<(seq<BatchLayer>, seq<seq<bool>>, seq<nat>)>)
    requires AllShaped(lm, caches)
    ensures r.Err? <==> caches == []
    ensures r.Ok? ==> Uniform(caches) && r.value == (Stack(caches, zero), DecodeMasks(Lengths(caches)), Lengths(caches))
  {
    if caches != [] { StackedRows(lm, caches, zero); }
    var stacked := StackCaches(caches, zero);
    if stacked.Err? { return Err; }
    var past := WrapPast(stacked.value.layers);
    var mask := AttentionMaskForDecode(stacked.value.lengths, stacked.value.maxLen);
    assert past == Stack(caches, zero);
    return Ok((past, Rows(mask), stacked.value.lengths));
  }

  // decode_batch as the source runs it: stack, mask, one forward step, split row by row.
  method DecodeBatchLoop(lm: Lm, lastTokens: seq<Token>, caches: seq<Cache>) returns (r: Result<BatchOutput>)
    requires |lastTokens| == |caches| && AllShaped(lm, caches)
    ensures r == DecodeBatch(lm, lastTokens, caches)
  {
    var zero := seq(lm.width, i => 0.0);
    var stacked := StackForDecode(lm, caches, zero);
    if stacked.Err? { return Err; }
    var (past, masks, lengths) := stacked.value;
    StackedRows(lm, caches, zero);
    var rows := RunRows(lm, past, masks, lengths, lastTokens);
    assert rows == BatchRows(lm, lastTokens, caches);
    var out := SplitRows(rows, lm.layers, lengths);
    return Ok(out);
  }

  // A single new token through Run is one Step.
  lemma RunOne(lm: Lm, past: Cache, mask: seq<bool>, token: Token, pos: nat)
    requires |mask| > 0 && Shaped(lm, past, |mask| - 1)
    ensures Run(lm, past, mask, [token], [pos])
         == Output(Step(lm, past, mask[..|mask| - 1], token, pos).1, Step(lm, past, mask[..|mask| - 1], token, pos).0)
  {
  }

  // Row r of the padded batch attends to what a solo decode of row r attends to, so both compute
  // the same new position; they differ only in the cache it is appended to.
  lemma RowStep(lm: Lm, caches: seq<Cache>, zero: Vec, r: nat, token: Token) returns (kv: PosKv, logits: Logits)
    requires caches != [] && AllShaped(lm, caches) && r < |caches|
    ensures Uniform(caches) && HasRow(Stack(caches, zero), r) && |kv| == lm.layers
    ensures Shaped(lm, RowOf(Stack(caches, zero), r), Max(Lengths(caches)))
    ensures Run(lm, RowOf(Stack(caches, zero), r), DecodeMask(SeqLen(caches[r]), Max(Lengths(caches))), [token],
      [SeqLen(caches[r])])
         == Output(logits, Extend(RowOf(Stack(caches, zero), r), kv))
    ensures Decode(lm, token, caches[r]) == Output(logits, Extend(caches[r], kv))
  {
    StackedRows(lm, caches, zero);
    var len, n := SeqLen(caches[r]), Max(Lengths(caches));
    var padded := RowOf(Stack(caches, zero), r);
    PaddedAttention(caches, zero, r, n);
    var attended := Attended(caches[r], Ones(len), len);
    kv, logits := NewKv(lm, attended, token, len), lm.logits(attended, token, len);
    RunOne(lm, padded, DecodeMask(len, n), token, len);
    RunOne(lm, caches[r], Ones(len + 1), token, len);
    assert Ones(len + 1)[..len] == Ones(len);
    assert Arange(len, 1) == [len];
  }

  // Batched decode of caches of arbitrary different lengths is solo decode, row by row.
  lemma BatchedDecodeIsSoloDecode(lm: Lm, lastTokens: seq<Token>, caches: seq<Cache>, r: nat)
    requires caches != [] && |lastTokens| == |caches| && AllShaped(lm, caches) && r < |caches|
    ensures var b := DecodeBatch(lm, lastTokens, caches);
      && b.Ok? && |b.value.logits| == |b.value.caches| == |caches|
      && Output(b.value.logits[r], b.value.caches[r]) == Decode(lm, lastTokens[r], caches[r])
  {
    var zero := seq(lm.width, i => 0.0);
    var kv, logits := RowStep(lm, caches, zero, r, lastTokens[r]);
    var rows := BatchRows(lm, lastTokens, caches);
    JoinedRow(Caches(rows), lm.layers, r);
    assert Lengths(caches)[r] == SeqLen(caches[r]);
    assert rows[r] == Output(logits, Extend(RowOf(Stack(caches, zero), r), kv));
    ExtractAfterStep(caches, zero, r, Max(Lengths(caches)), kv, Join(Caches(rows), lm.layers));
  }
}
