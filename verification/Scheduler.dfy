// Admission: the waiting queue, the fit test, and the allocation that may take a prefix reference
// and has to give it back when the rest does not fit.
module Scheduler {
  import opened Common
  import opened KvCache
  import opened LanguageModel
  import opened Generation
  import opened Sequences
  import opened BlockPool
  import opened PrefixCache
  import opened PrefixLaws
  import opened PrefixOps

  datatype Config = Config(prefixOn: bool, memoryFit: bool, maxBatch: Pos, maxWaiting: nat)

  function NeedTokens(cfg: Config, m: Memory, q: Sequence): int {
    var need := ReservationTokens(q);
    if !cfg.prefixOn then need
    else
      match Peek(m.cache, q.req.prompt)
      case None => need
      case Some(hit) => if need <= |hit.tokenIds| then 0 else need - |hit.tokenIds|
  }

  predicate Fits(cfg: Config, m: Memory, q: Sequence) {
    CanAllocate(m.pool, NeedTokens(cfg, m, q))
  }

  function ApplyHit(q: Sequence, hit: Hit): Sequence {
    q.(prefixKey := Some(hit.tokenIds), prefixTokens := |hit.tokenIds|, prefixKv := Some(hit.kv),
      prefixLogits := hit.logits)
  }

  datatype Attempt = Attempt(ok: bool, m: Memory, q: Sequence)

  // The prefix reference, if any, is taken first.
  function Consult(cfg: Config, m: Memory, q: Sequence, now: int): (Memory, Option<Hit>) {
    if cfg.prefixOn then Lookup(m, q.req.prompt, now) else (m, None)
  }

  function Remaining(q: Sequence, hit: Option<Hit>): int {
    var full := ReservationTokens(q);
    if hit.None? then full
    else if full <= |hit.value.tokenIds| then 0
    else full - |hit.value.tokenIds|
  }

  // A sequence that has just been given its blocks, bound to its hit.
  function Bound(q: Sequence, hit: Option<Hit>): Sequence {
    var q1 := q.(ownedBlockIds := q.blockIds);
    if hit.Some? then ApplyHit(q1, hit.value).(blockIds := hit.value.blockIds + q.blockIds) else q1
  }

  function TryAllocate(cfg: Config, m: Memory, q: Sequence, now: int): Attempt {
    var (m1, hit) := Consult(cfg, m, q, now);
    match Allocate(m1.pool, q, Remaining(q, hit))
    case None =>
      Attempt(false, if hit.Some? then ReleasePrefix(m1, Some(hit.value.tokenIds)) else m1, q)
    case Some((pool, q1)) => Attempt(true, m1.(pool := pool), Bound(q1, hit))
  }

  // ---- What a live, admitted sequence holds ----

  function SharedTokens(q: Sequence): nat {
    if q.prefixKey.Some? then |q.prefixKey.value| else 0
  }

  // Its own blocks plus those its prefix calls for, whether or not the entry carries them, number
  // at least what its reservation needs.
  ghost predicate Budgeted(m: Memory, q: Sequence) {
    && q.id in m.pool.alloc
    && |m.pool.alloc[q.id]| + BlocksNeeded(m.pool.blockSize, SharedTokens(q)) >=
      BlocksNeeded(m.pool.blockSize, ReservationTokens(q))
  }

  ghost predicate PrefixOk(lm: Lm, cfg: Config, q: Sequence) {
    && (q.prefixKey.Some? ==> cfg.prefixOn && q.prefixKey.value != [] && q.prefixKey.value <= q.req.prompt)
    && if q.prefixTokens == 0 then q.prefixKv.None? && q.prefixLogits.None?
       else
         && q.prefixKey.Some? && q.prefixTokens == |q.prefixKey.value|
         && q.prefixKv == Some(KvOf(lm, q.prefixKey.value))
         && (q.prefixLogits.Some? ==>
           q.prefixKey.value == q.req.prompt && q.prefixLogits.value == LogitsOf(lm, q.req.prompt))
  }

  ghost predicate Unbound(q: Sequence) {
    q.prefixKey.None? && q.prefixTokens == 0 && q.prefixKv.None? && q.prefixLogits.None?
  }

  // Only the accounting and prefix fields differ.
  ghost predicate SameProgress(q: Sequence, q': Sequence) {
    q' == q.(blockIds := q'.blockIds, ownedBlockIds := q'.ownedBlockIds, prefixKey := q'.prefixKey,
             prefixTokens := q'.prefixTokens, prefixKv := q'.prefixKv, prefixLogits := q'.prefixLogits)
  }

  // The memory is intact and true, and only the blocks owned by `id` may have changed hands.
  ghost predicate Moved(lm: Lm, m: Memory, m': Memory, id: Id) {
    && Inv(m') && AllMean(lm, m'.cache.entries) && SameConfig(m, m')
    && m'.pool.alloc - {id} == m.pool.alloc - {id}
  }

  lemma PrefixSplit(blockSize: Pos, full: int, shared: nat)
    requires shared <= full
    ensures BlocksNeeded(blockSize, full - shared) + BlocksNeeded(blockSize, shared) >= BlocksNeeded(blockSize, full)
    ensures BlocksNeeded(blockSize, full - shared) + BlocksNeeded(blockSize, shared) <=
      BlocksNeeded(blockSize, full) + 1
  {
    BlocksSplit(blockSize, full - shared, shared);
  }

  ghost predicate HitOk(lm: Lm, cfg: Config, ids: Key, hit: Option<Hit>) {
    hit.Some? ==>
      var key := hit.value.tokenIds;
      && cfg.prefixOn && key != [] && key <= ids && hit.value.kv == KvOf(lm, key)
      && (hit.value.logits.Some? ==> key == ids && hit.value.logits.value == LogitsOf(lm, ids))
  }

  function KeyOf(hit: Option<Hit>): Option<Key> {
    if hit.Some? then Some(hit.value.tokenIds) else None
  }

  lemma ConsultKeeps(lm: Lm, cfg: Config, m: Memory, q: Sequence, now: int)
    requires Inv(m) && AllMean(lm, m.cache.entries)
    ensures var (m1, hit) := Consult(cfg, m, q, now);
      && Moved(lm, m, m1, q.id) && m1.pool.alloc == m.pool.alloc && HitOk(lm, cfg, q.req.prompt, hit)
      && RefsMove(m.cache, m1.cache, KeyOf(hit), None)
      && (hit.Some? ==> Has(m1.cache, hit.value.tokenIds))
  {
    hide Inv, AllMean, KvOf, LogitsOf, Has, Peek;
    if cfg.prefixOn { LookupKeeps(lm, m, q.req.prompt, now); }
  }

  // Owning fresh blocks keeps the books.
  lemma AllocateKeeps(lm: Lm, m: Memory, q: Sequence, need: int)
    requires Inv(m) && AllMean(lm, m.cache.entries) && q.id !in m.pool.alloc && Allocate(m.pool, q, need).Some?
    ensures var (pool, q') := Allocate(m.pool, q, need).value;
      && Moved(lm, m, m.(pool := pool), q.id)
      && q.id in pool.alloc && |pool.alloc[q.id]| == BlocksNeeded(m.pool.blockSize, need)
      && q' == q.(blockIds := q'.blockIds)
  {
    AllocateConserves(m.pool, m.cache.pins.Keys, q, need);
    assert m.pool.alloc[q.id := Allocate(m.pool, q, need).value.1.blockIds] - {q.id} == m.pool.alloc - {q.id};
  }

  lemma GiveBackKeeps(lm: Lm, m: Memory, key: Key)
    requires Inv(m) && AllMean(lm, m.cache.entries) && key != [] && RefsOf(m.cache, key) > 0
    ensures var m' := ReleasePrefix(m, Some(key));
      && Inv(m') && AllMean(lm, m'.cache.entries) && SameConfig(m, m') && m'.pool.alloc == m.pool.alloc
      && RefsMove(m.cache, m'.cache, None, Some(key))
  {
    var m' := ReleasePrefix(m, Some(key));
    ReleaseKeeps(m, key);
    GaveRefMoves(m, Find(m.cache.entries, key), m');
    ContentsMean(lm, m.cache.entries, m'.cache.entries);
  }

  // A successful attempt binds the sequence within its budget; a failed one leaves no reference and
  // no block behind.
  lemma TryAllocateKeeps(lm: Lm, cfg: Config, m: Memory, q: Sequence, now: int)
    requires Inv(m) && AllMean(lm, m.cache.entries)
    requires q.id !in m.pool.alloc && Unbound(q) && q.req.maxTokens >= 1
    ensures var t := TryAllocate(cfg, m, q, now);
      && Moved(lm, m, t.m, q.id) && SameProgress(q, t.q)
      && RefsMove(m.cache, t.m.cache, t.q.prefixKey, None)
      && (t.ok ==> Budgeted(t.m, t.q) && PrefixOk(lm, cfg, t.q))
      && (!t.ok ==> t.q == q && t.m.pool.alloc == m.pool.alloc)
  {
    hide Inv, AllMean, KvOf, LogitsOf, Has, RefsOf;
    var (m1, hit) := Consult(cfg, m, q, now);
    ConsultKeeps(lm, cfg, m, q, now);
    if Allocate(m1.pool, q, Remaining(q, hit)).Some? {
      AllocateKeeps(lm, m1, q, Remaining(q, hit));
      if hit.Some? { PrefixSplit(m.pool.blockSize, ReservationTokens(q), |hit.value.tokenIds|); }
    } else if hit.Some? {
      var key := hit.value.tokenIds;
      assert RefsOf(m1.cache, key) == RefsOf(m.cache, key) + 1;
      GiveBackKeeps(lm, m1, key);
    }
  }

  // ---- Admission leaves what is stored ----

  lemma AttemptContents(cfg: Config, m: Memory, q: Sequence, now: int)
    ensures SameContents(m.cache.entries, TryAllocate(cfg, m, q, now).m.cache.entries)
  {
    hide Lookup, ReleasePrefix, Reserve, SameContents;
    var (m1, hit) := Consult(cfg, m, q, now);
    if cfg.prefixOn { LookupContents(m, q.req.prompt, now); } else { SameEntries(m.cache.entries); }
    if hit.Some? {
      var m2 := ReleasePrefix(m1, Some(hit.value.tokenIds));
      ReleaseContents(m1, Some(hit.value.tokenIds));
      SameThen(m.cache.entries, m1.cache.entries, m2.cache.entries);
    }
  }
}
