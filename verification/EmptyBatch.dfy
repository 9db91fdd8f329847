// When is the head of the queue admitted into an empty batch? Exactly when its reservation fits
// next to the blocks its own prefix hit takes, which needs at most one block of slack.
module EmptyBatch {
  import opened Common
  import opened LanguageModel
  import opened Generation
  import opened Sequences
  import opened BlockPool
  import opened PrefixCache
  import opened PrefixLaws
  import opened PrefixOps
  import opened Scheduler
  import opened StoredKeys

  // Nobody holds anything.
  ghost predicate Idle(m: Memory) {
    && |m.pool.free| == m.pool.numBlocks
    && forall i :: 0 <= i < |m.cache.entries| ==> m.cache.entries[i].refs == 0 && m.cache.entries[i].blockIds == []
  }

  function HitLength(cfg: Config, m: Memory, q: Sequence): nat {
    if cfg.prefixOn && Peek(m.cache, q.req.prompt).Some? then |Peek(m.cache, q.req.prompt).value.tokenIds| else 0
  }

  function Uncovered(q: Sequence, shared: nat): int {
    if ReservationTokens(q) <= shared then 0 else ReservationTokens(q) - shared
  }

  // The hit's own blocks are reserved first, unless they alone exceed the pool.
  predicate AdmitsWhenIdle(cfg: Config, m: Memory, q: Sequence) {
    var b, n := m.pool.blockSize, HitLength(cfg, m, q);
    var prefix := BlocksNeeded(b, n);
    var rest := BlocksNeeded(b, Uncovered(q, n));
    rest + (if prefix <= m.pool.numBlocks then prefix else 0) <= m.pool.numBlocks
  }

  lemma IdleNeverShares(m: Memory, key: Key)
    requires Idle(m)
    ensures ShareFromLive(m, key).None?
  {
    assert forall i :: 0 <= i < |m.cache.entries| ==> !Shares(m.cache.entries[i], key);
  }

  lemma IdleConsult(cfg: Config, m: Memory, q: Sequence, now: int)
    requires Idle(m)
    ensures var (m1, hit) := Consult(cfg, m, q, now);
      && (hit.Some? <==> cfg.prefixOn && Peek(m.cache, q.req.prompt).Some?)
      && (hit.Some? ==> |hit.value.tokenIds| == HitLength(cfg, m, q))
      && m1.pool.blockSize == m.pool.blockSize
      && var prefix := BlocksNeeded(m.pool.blockSize, HitLength(cfg, m, q));
         |m1.pool.free| == m.pool.numBlocks - if prefix <= m.pool.numBlocks then prefix else 0
  {
    if cfg.prefixOn {
      PeekFromIsLongest(m.cache, q.req.prompt, |q.req.prompt|);
      if Peek(m.cache, q.req.prompt).Some? {
        IdleNeverShares(m, Peek(m.cache, q.req.prompt).value.tokenIds);
      }
    }
  }

  // The exact condition: it speaks of lengths and sizes only.
  lemma IdleAdmission(cfg: Config, m: Memory, q: Sequence, now: int)
    requires Idle(m)
    ensures TryAllocate(cfg, m, q, now).ok <==> AdmitsWhenIdle(cfg, m, q)
  {
    hide Consult, Peek;
    IdleConsult(cfg, m, q, now);
    var (m1, hit) := Consult(cfg, m, q, now);
    var b, n := m.pool.blockSize, HitLength(cfg, m, q);
    assert BlocksNeeded(b, Remaining(q, hit)) == BlocksNeeded(b, Uncovered(q, n));
    assert Allocate(m1.pool, q, Remaining(q, hit)).None? <==> BlocksNeeded(b, Remaining(q, hit)) > |m1.pool.free|;
  }

  lemma IdleFits(cfg: Config, m: Memory, q: Sequence)
    requires Idle(m)
    ensures Fits(cfg, m, q) <==> BlocksNeeded(m.pool.blockSize, Uncovered(q, HitLength(cfg, m, q))) <= m.pool.numBlocks
  {
  }

  // Blocks for a reservation whose first n tokens a hit covers, counted apart as they are reserved.
  function Apart(b: Pos, req: Request, n: nat): nat {
    BlocksNeeded(b, n) + BlocksNeeded(b, |req.prompt| + req.maxTokens - n)
  }

  // The request fits an empty pool whatever a run can have stored: without a hit, and apart for
  // every length a hit may have. It asks for lengths and sizes only.
  predicate Roomy(cfg: Config, m: Memory, req: Request) {
    && BlocksNeeded(m.pool.blockSize, |req.prompt| + req.maxTokens) <= m.pool.numBlocks
    && (cfg.prefixOn ==>
      forall n :: m.cache.minTokens <= n <= |req.prompt| && Storable(m.cache, n) ==>
        Apart(m.pool.blockSize, req, n) <= m.pool.numBlocks)
  }

  lemma HitIsInside(cfg: Config, m: Memory, q: Sequence)
    requires KeysStorable(m.cache)
    ensures var n := HitLength(cfg, m, q);
      n == 0 || (cfg.prefixOn && m.cache.minTokens <= n <= |q.req.prompt| && Storable(m.cache, n))
  {
    hide Storable, Has, KeysStorable;
    if cfg.prefixOn {
      PeekFromIsLongest(m.cache, q.req.prompt, |q.req.prompt|);
      if Peek(m.cache, q.req.prompt).Some? { HasStorable(m.cache, Peek(m.cache, q.req.prompt).value.tokenIds); }
    }
  }

  lemma RoomyAdmits(cfg: Config, m: Memory, q: Sequence, now: int)
    requires Idle(m) && KeysStorable(m.cache) && Roomy(cfg, m, q.req) && q.req.maxTokens >= 1
    ensures AdmitsWhenIdle(cfg, m, q) && Fits(cfg, m, q) && TryAllocate(cfg, m, q, now).ok
  {
    hide Idle, HitLength, BlocksNeeded, TryAllocate, Fits, Storable, KeysStorable;
    var n, b := HitLength(cfg, m, q), m.pool.blockSize;
    HitIsInside(cfg, m, q);
    NoBlocks(b);
    assert n > 0 ==> Apart(b, q.req, n) <= m.pool.numBlocks;
    IdleAdmission(cfg, m, q, now);
    IdleFits(cfg, m, q);
  }

  lemma NoBlocks(b: Pos)
    ensures BlocksNeeded(b, 0) == 0
  {
  }

  // What every reachable idle memory is known to satisfy.
  ghost predicate Sound(lm: Lm, m: Memory) {
    Idle(m) && Inv(m) && AllMean(lm, m.cache.entries) && KeysStorable(m.cache)
  }

  // A sound memory of the same sizes that stores nothing but the first n tokens of a prompt.
  ghost function Storing(lm: Lm, m: Memory, prompt: Key, n: nat): Memory
    requires n <= |prompt|
  {
    var entries := if n == 0 then [] else [Entry(prompt[..n], KvOf(lm, prompt[..n]), None, [], 0, 0)];
    Memory(NewPool(m.pool.numBlocks, m.pool.blockSize), m.cache.(entries := entries, pins := map[]))
  }

  lemma StoringIsSound(lm: Lm, m: Memory, prompt: Key, n: nat)
    requires n == 0 || (m.cache.minTokens <= n <= |prompt| && Storable(m.cache, n))
    ensures Sound(lm, Storing(lm, m, prompt, n)) && SameConfig(m, Storing(lm, m, prompt, n))
  {
    hide KvOf, Storable, BlocksNeeded, LogitsOf;
    var s := Storing(lm, m, prompt, n);
    NewPoolConserved(m.pool.numBlocks, m.pool.blockSize);
    assert s.cache.pins.Keys == {};
    forall b: nat ensures PinSum(s.cache.entries, b) == 0 { assert n > 0 ==> s.cache.entries[..0] == []; }
    SameStorable(m.cache, s.cache, n);
  }

  lemma StoringHits(lm: Lm, cfg: Config, m: Memory, q: Sequence, n: nat)
    requires n == 0 || (cfg.prefixOn && m.cache.minTokens <= n <= |q.req.prompt|)
    ensures HitLength(cfg, Storing(lm, m, q.req.prompt, n), q) == n
  {
    hide KvOf;
    var s := Storing(lm, m, q.req.prompt, n);
    PeekFromIsLongest(s.cache, q.req.prompt, |q.req.prompt|);
    if n > 0 { assert s.cache.entries[0].tokenIds == q.req.prompt[..n] && Has(s.cache, q.req.prompt[..n]); }
  }

  // It asks for no more than it must: a request is admitted into every sound memory of these sizes
  // if and only if it is roomy.
  lemma RoomyIsExact(lm: Lm, cfg: Config, m: Memory, q: Sequence)
    requires q.req.maxTokens >= 1
    ensures Roomy(cfg, m, q.req) <==>
      forall s: Memory :: Sound(lm, s) && SameConfig(m, s) ==> AdmitsWhenIdle(cfg, s, q)
  {
    hide AdmitsWhenIdle, Idle, HitLength, Storing, Storable, Inv, AllMean, KeysStorable;
    if Roomy(cfg, m, q.req) {
      forall s: Memory | Sound(lm, s) && SameConfig(m, s) ensures AdmitsWhenIdle(cfg, s, q) {
        SameRoom(cfg, m, s, q.req);
        RoomyAdmits(cfg, s, q, 0);
      }
    }
    if forall s: Memory :: Sound(lm, s) && SameConfig(m, s) ==> AdmitsWhenIdle(cfg, s, q) {
      StoringFits(lm, cfg, m, q, 0);
      forall n | cfg.prefixOn && m.cache.minTokens <= n <= |q.req.prompt| && Storable(m.cache, n)
        ensures Apart(m.pool.blockSize, q.req, n) <= m.pool.numBlocks
      {
        StoringFits(lm, cfg, m, q, n);
      }
    }
  }

  lemma SameRoom(cfg: Config, m: Memory, m': Memory, req: Request)
    requires SameConfig(m, m') && Roomy(cfg, m, req)
    ensures Roomy(cfg, m', req)
  {
    hide Storable, BlocksNeeded;
    forall n: nat ensures Storable(m'.cache, n) == Storable(m.cache, n) { SameStorable(m.cache, m'.cache, n); }
  }

  lemma StoringFits(lm: Lm, cfg: Config, m: Memory, q: Sequence, n: nat)
    requires forall s: Memory :: Sound(lm, s) && SameConfig(m, s) ==> AdmitsWhenIdle(cfg, s, q)
    requires q.req.maxTokens >= 1
    requires n == 0 || (cfg.prefixOn && m.cache.minTokens <= n <= |q.req.prompt| && Storable(m.cache, n))
    ensures BlocksNeeded(m.pool.blockSize, |q.req.prompt| + q.req.maxTokens) <= m.pool.numBlocks
    ensures n > 0 ==> Apart(m.pool.blockSize, q.req, n) <= m.pool.numBlocks
  {
    hide Sound, BlocksNeeded, HitLength, Storable, KvOf;
    StoringIsSound(lm, m, q.req.prompt, 0);
    StoringIsSound(lm, m, q.req.prompt, n);
    StoringHits(lm, cfg, m, q, 0);
    StoringHits(lm, cfg, m, q, n);
    NoBlocks(m.pool.blockSize);
    assert AdmitsWhenIdle(cfg, Storing(lm, m, q.req.prompt, 0), q);
    assert AdmitsWhenIdle(cfg, Storing(lm, m, q.req.prompt, n), q);
    BlocksMonotone(m.pool.blockSize, n, |q.req.prompt| + q.req.maxTokens);
  }

  // One block of slack is always room enough.
  lemma SlackIsRoomy(cfg: Config, m: Memory, req: Request)
    requires req.maxTokens >= 1 && BlocksNeeded(m.pool.blockSize, |req.prompt| + req.maxTokens) + 1 <= m.pool.numBlocks
    ensures Roomy(cfg, m, req)
  {
    hide BlocksNeeded;
    forall n: nat | n <= |req.prompt| ensures Apart(m.pool.blockSize, req, n) <= m.pool.numBlocks {
      PrefixSplit(m.pool.blockSize, |req.prompt| + req.maxTokens, n);
    }
  }

  // Without slack the two roundings can add up to one block too many: nine stored tokens and one
  // more to generate fit one block of sixteen together, but not apart.
  lemma NineTokensNeedTwo(cfg: Config, m: Memory, q: Sequence, now: int)
    requires cfg.prefixOn && Idle(m) && m.pool.numBlocks == 1 && m.pool.blockSize == 16
    requires |q.req.prompt| == 9 && q.req.maxTokens == 1 && m.cache.minTokens <= 9 && Has(m.cache, q.req.prompt)
    ensures BlocksNeeded(16, ReservationTokens(q)) <= 1 && HitLength(cfg, m, q) == 9
    ensures Fits(cfg, m, q) && !TryAllocate(cfg, m, q, now).ok && !AdmitsWhenIdle(cfg, m, q)
  {
    assert q.req.prompt[..9] == q.req.prompt;
    IdleAdmission(cfg, m, q, now);
    IdleFits(cfg, m, q);
  }

  // Neither the fit test nor the verdict looks at more of a record than its request.
  lemma FitsByRequest(cfg: Config, m: Memory, q: Sequence, q': Sequence)
    requires q'.req == q.req
    ensures Fits(cfg, m, q') == Fits(cfg, m, q) && AdmitsWhenIdle(cfg, m, q') == AdmitsWhenIdle(cfg, m, q)
  {
  }
}
