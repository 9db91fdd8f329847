// The language model is one arbitrary function of what a token may attend to. Everything the
// engine computes (prefill, suffix prefill, solo decode, padded batch decode) is a fold of it.
module LanguageModel {
  import opened KvCache

  type Token = int

  type Logits = l: seq<real> | |l| > 0 witness [0.0]

  // `kv(layer, attended, token, position)` is what a layer stores for the new position and
  // `logits(attended, token, position)` is the distribution over the token that follows it.
  // `attended` lists the unmasked earlier positions, oldest first: nothing later is visible.
  datatype RawLm = Lm(
    layers: nat,
    width: nat,
    kv: (nat, seq<PosKv>, Token, nat) -> LayerKv,
    logits: (seq<PosKv>, Token, nat) -> Logits)

  type Lm = m: RawLm | m.layers >= 1
    witness Lm(1, 0, (l, attended, token, pos) => LayerKv([], []), (attended, token, pos) => [0.0])

  function EmptyCache(lm: Lm): Cache {
    seq(lm.layers, l => Layer([], []))
  }

  predicate Shaped(lm: Lm, cache: Cache, n: nat) {
    |cache| == lm.layers && Rect(cache, n)
  }

  // The positions below n whose mask bit is set, in order.
  function Attended(cache: Cache, mask: seq<bool>, n: nat): seq<PosKv>
    requires n <= |mask| && Rect(cache, |mask|)
  {
    if n == 0 then []
    else Attended(cache, mask, n - 1) + (if mask[n - 1] then [At(cache, n - 1)] else [])
  }

  function NewKv(lm: Lm, attended: seq<PosKv>, token: Token, pos: nat): PosKv {
    seq(lm.layers, (l: nat) => lm.kv(l, attended, token, pos))
  }

  // One token through the model: the grown cache and the logits after it.
  function Step(lm: Lm, cache: Cache, mask: seq<bool>, token: Token, pos: nat): (Cache, Logits)
    requires Shaped(lm, cache, |mask|)
  {
    var attended := Attended(cache, mask, |mask|);
    (Extend(cache, NewKv(lm, attended, token, pos)), lm.logits(attended, token, pos))
  }

  function Ones(n: nat): seq<bool> { seq(n, i => true) }

  function Arange(lo: nat, n: nat): seq<nat> { seq(n, (i: nat) => lo + i) }

  // model(tokens, past_key_values=past, attention_mask=mask, position_ids=positions): the mask
  // covers the past and the new tokens, and each new token also sees the ones before it.
  function Forward(lm: Lm, past: Cache, mask: seq<bool>, tokens: seq<Token>, positions: seq<nat>)
    : (r: (Cache, Logits))
    requires tokens != [] && |positions| == |tokens|
    requires |tokens| <= |mask| && Shaped(lm, past, |mask| - |tokens|)
    ensures Shaped(lm, r.0, |mask|)
    decreases |tokens|
  {
    var first := Step(lm, past, mask[..|mask| - |tokens|], tokens[0], positions[0]);
    if |tokens| == 1 then first else Forward(lm, first.0, mask, tokens[1..], positions[1..])
  }

  // Full recompute: the cache and the next-token logits that the ids alone determine.
  function KvOf(lm: Lm, ids: seq<Token>): (cache: Cache)
    ensures Shaped(lm, cache, |ids|) && SeqLen(cache) == |ids|
  {
    if ids == [] then EmptyCache(lm)
    else
      var n := |ids| - 1;
      Step(lm, KvOf(lm, ids[..n]), Ones(n), ids[n], n).0
  }

  function LogitsOf(lm: Lm, ids: seq<Token>): Logits
    requires ids != []
  {
    var n := |ids| - 1;
    Step(lm, KvOf(lm, ids[..n]), Ones(n), ids[n], n).1
  }

  // One decode step over the KV of ids is full recompute of ids plus the new token.
  lemma StepRecomputes(lm: Lm, ids: seq<Token>, token: Token)
    ensures Step(lm, KvOf(lm, ids), Ones(|ids|), token, |ids|) == (KvOf(lm, ids + [token]), LogitsOf(lm, ids + [token]))
  {
    assert (ids + [token])[..|ids|] == ids;
  }

  // Running the model on a suffix over the KV of a prefix gives what full recompute gives.
  lemma {:induction false} ForwardFromPrefix(lm: Lm, prefix: seq<Token>, suffix: seq<Token>, mask: seq<bool>,
          positions: seq<nat>)
    requires suffix != [] && mask == Ones(|prefix| + |suffix|) && positions == Arange(|prefix|, |suffix|)
    ensures Forward(lm, KvOf(lm, prefix), mask, suffix, positions)
         == (KvOf(lm, prefix + suffix), LogitsOf(lm, prefix + suffix))
    decreases |suffix|
  {
    var longer := prefix + [suffix[0]];
    assert mask[..|prefix|] == Ones(|prefix|);
    StepRecomputes(lm, prefix, suffix[0]);
    if |suffix| == 1 {
      assert prefix + suffix == longer;
    } else {
      assert prefix + suffix == longer + suffix[1..];
      ForwardFromPrefix(lm, longer, suffix[1..], mask, positions[1..]);
    }
  }

  // A step only appends.
  lemma StepKeepsFront(lm: Lm, past: Cache, m: nat, token: Token, n: nat)
    requires Shaped(lm, past, m) && n <= m
    ensures Take(Step(lm, past, Ones(m), token, m).0, n) == Take(past, n)
  {
    TakeOfExtend(past, m, NewKv(lm, Attended(past, Ones(m), m), token, m));
  }

  // The cache of a prompt restricted to n positions is the cache of its first n tokens.
  lemma {:induction false} KvOfPrefix(lm: Lm, ids: seq<Token>, n: nat)
    requires n <= |ids|
    ensures Take(KvOf(lm, ids), n) == KvOf(lm, ids[..n])
  {
    if n == |ids| {
      assert ids[..n] == ids;
      CloneIsWhole(KvOf(lm, ids), n);
    } else {
      var m := |ids| - 1;
      KvOfPrefix(lm, ids[..m], n);
      assert ids[..m][..n] == ids[..n];
      StepKeepsFront(lm, KvOf(lm, ids[..m]), m, ids[m], n);
    }
  }

  // A mask that keeps the first len positions and drops the rest shows just those positions.
  lemma {:induction false} AttendedFront(cache: Cache, mask: seq<bool>, len: nat, n: nat)
    requires n <= |mask| && Rect(cache, |mask|) && len <= |mask|
    requires forall p :: 0 <= p < n ==> mask[p] == (p < len)
    ensures Attended(cache, mask, n) == Positions(cache, if n < len then n else len)
  {
    if n > 0 { AttendedFront(cache, mask, len, n - 1); }
  }
}
