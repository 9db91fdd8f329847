// When do shared and owned blocks together cover a reservation? Not always: a prefix whose blocks
// do not fit is referenced without any, at admission or at the late bind. This says exactly when
// either covers.
module Coverage {
  import opened Common
  import opened KvCache
  import opened LanguageModel
  import opened Generation
  import opened Sequences
  import opened BlockPool
  import opened PrefixCache
  import opened PrefixLaws
  import opened PrefixOps
  import opened Scheduler
  import opened Engines
  import opened Lifecycle
  import opened HeldBlocks

  function SharedAndOwned(m: Memory, q: Sequence): nat {
    (if q.prefixKey.Some? then |EntryBlocks(m.cache, q.prefixKey.value)| else 0)
    + (if q.id in m.pool.alloc then |m.pool.alloc[q.id]| else 0)
  }

  // Before the call: taking a reference to this key will find or reserve no blocks for it.
  predicate Blockless(m: Memory, key: Key) {
    var i := Find(m.cache.entries, key);
    if i < |m.cache.entries| && m.cache.entries[i].refs > 0 then m.cache.entries[i].blockIds == []
    else ShareFromLive(m, key).None? && BlocksNeeded(m.pool.blockSize, |key|) > |m.pool.free|
  }

  // The entry a reference was just taken to carries its full count of blocks, or none.
  lemma AcquiredBlocks(m: Memory, i: nat)
    requires Inv(m) && i < |m.cache.entries|
    ensures var e := AcquireBlocks(m, i).cache.entries[i];
      |e.blockIds| == if Blockless(m, e.tokenIds) then 0 else BlocksNeeded(m.pool.blockSize, |e.tokenIds|)
  {
    var e := m.cache.entries[i];
    FindAt(m.cache, i);
    assert EntryOk(m.cache, m.pool.blockSize, e);
    if e.refs == 0 && ShareFromLive(m, e.tokenIds).Some? { SharedBlocks(m, e.tokenIds); }
  }

  lemma LookupBlocks(lm: Lm, m: Memory, ids: Key, now: int)
    requires Inv(m) && AllMean(lm, m.cache.entries) && Lookup(m, ids, now).1.Some?
    ensures var (m', hit) := Lookup(m, ids, now); var key := hit.value.tokenIds;
      |EntryBlocks(m'.cache, key)| == if Blockless(m, key) then 0 else BlocksNeeded(m.pool.blockSize, |key|)
  {
    hide AllMean, Blockless, Inv;
    LookupKeeps(lm, m, ids, now);
    var (m', hit) := Lookup(m, ids, now);
    var key := hit.value.tokenIds;
    var i := Find(m.cache.entries, key);
    PeekFromIsLongest(m.cache, ids, |ids|);
    AcquiredBlocks(m, i);
    AcquireKeeps(m, i);
    FindStable(m.cache.entries, m'.cache.entries, key);
  }

  // The condition under which an admission covers its reservation, stated before the call.
  predicate WillCover(cfg: Config, m: Memory, q: Sequence) {
    var hit := Peek(m.cache, q.req.prompt);
    || !cfg.prefixOn || hit.None? || !Blockless(m, hit.value.tokenIds)
    || BlocksNeeded(m.pool.blockSize, ReservationTokens(q) - |hit.value.tokenIds|) ==
      BlocksNeeded(m.pool.blockSize, ReservationTokens(q))
  }

  // A successful admission covers the reservation exactly when its prefix finds blocks, or when
  // the blocks it owns are as many as the whole reservation needs.
  lemma AdmissionCoversExactlyWhen(lm: Lm, cfg: Config, m: Memory, q: Sequence, now: int)
    requires Inv(m) && AllMean(lm, m.cache.entries) && Unbound(q) && q.req.maxTokens >= 1
    requires TryAllocate(cfg, m, q, now).ok
    ensures var t := TryAllocate(cfg, m, q, now);
      SharedAndOwned(t.m, t.q) >= BlocksNeeded(m.pool.blockSize, ReservationTokens(q)) <==> WillCover(cfg, m, q)
  {
    if cfg.prefixOn && Peek(m.cache, q.req.prompt).Some? {
      HitCovers(lm, cfg, m, q, now);
    } else {
      MissCovers(lm, cfg, m, q, now);
    }
  }

  lemma MissCovers(lm: Lm, cfg: Config, m: Memory, q: Sequence, now: int)
    requires Inv(m) && AllMean(lm, m.cache.entries) && Unbound(q) && TryAllocate(cfg, m, q, now).ok
    requires !cfg.prefixOn || Peek(m.cache, q.req.prompt).None?
    ensures var t := TryAllocate(cfg, m, q, now);
      SharedAndOwned(t.m, t.q) >= BlocksNeeded(m.pool.blockSize, ReservationTokens(q))
  {
    hide Inv, AllMean, Lookup, Peek, EntryBlocks, BlocksNeeded;
    if cfg.prefixOn { LookupKeeps(lm, m, q.req.prompt, now); }
    Reserved(m.pool, ReservationTokens(q));
  }

  lemma HitCovers(lm: Lm, cfg: Config, m: Memory, q: Sequence, now: int)
    requires Inv(m) && AllMean(lm, m.cache.entries) && q.req.maxTokens >= 1 && TryAllocate(cfg, m, q, now).ok
    requires cfg.prefixOn && Peek(m.cache, q.req.prompt).Some?
    ensures var t, key := TryAllocate(cfg, m, q, now), Peek(m.cache, q.req.prompt).value.tokenIds;
      SharedAndOwned(t.m, t.q) >= BlocksNeeded(m.pool.blockSize, ReservationTokens(q)) <==>
        || !Blockless(m, key)
        || BlocksNeeded(m.pool.blockSize, ReservationTokens(q) - |key|) ==
          BlocksNeeded(m.pool.blockSize, ReservationTokens(q))
  {
    hide Inv, AllMean, Blockless, Lookup, Peek, EntryBlocks, BlocksNeeded;
    var b := m.pool.blockSize;
    var (m1, hit) := Lookup(m, q.req.prompt, now);
    LookupKeeps(lm, m, q.req.prompt, now);
    Reserved(m1.pool, Remaining(q, hit));
    LookupBlocks(lm, m, q.req.prompt, now);
    PrefixSplit(b, ReservationTokens(q), |hit.value.tokenIds|);
    BlocksMonotone(b, ReservationTokens(q) - |hit.value.tokenIds|, ReservationTokens(q));
  }

  lemma Reserved(p: Pool, need: int)
    ensures Reserve(p, need).Some? ==> |Reserve(p, need).value.1| == BlocksNeeded(p.blockSize, need)
  {
  }

  // The blocks the sequence really has, its own and those of its entry, are enough for its whole
  // reservation.
  ghost predicate Covers(m: Memory, q: Sequence) {
    SharedAndOwned(m, q) >= BlocksNeeded(m.pool.blockSize, ReservationTokens(q))
  }

  // ---- The late bind ----

  // The condition under which a late bind leaves its sequence covered, stated before the call. A hit
  // takes away as many own blocks as its length needs; it brings the entry's, unless it has none.
  ghost predicate BindWillCover(cfg: Config, m: Memory, q: Sequence) {
    var hit := Peek(m.cache, q.req.prompt);
    if !cfg.prefixOn || q.prefixKey.Some? || hit.None? then Covers(m, q)
    else
      var own, full := |Owned(m.pool, q)|, BlocksNeeded(m.pool.blockSize, ReservationTokens(q));
      var traded := BlocksNeeded(m.pool.blockSize, |hit.value.tokenIds|);
      if Blockless(m, hit.value.tokenIds) then own >= traded + full else own >= full || traded >= full
  }

  lemma TradeCounts(p: Pool, q: Sequence, n: nat)
    requires q.id in p.alloc
    ensures var (p', q', extra) := Detach(p, q, n); var r := Release(p', extra);
      q.id in r.alloc && |r.alloc[q.id]| == if n <= |p.alloc[q.id]| then |p.alloc[q.id]| - n else 0
  {
  }

  lemma BindCoversExactlyWhen(lm: Lm, cfg: Config, m: Memory, q: Sequence, now: int)
    requires Inv(m) && AllMean(lm, m.cache.entries) && q.id in m.pool.alloc && q.req.maxTokens >= 1
    ensures var (m', q') := BindPrefixAtPrefill(cfg, m, q, now);
      Covers(m', q') <==> BindWillCover(cfg, m, q)
  {
    if cfg.prefixOn && q.prefixKey.None? && Peek(m.cache, q.req.prompt).Some? {
      HitBindCovers(lm, cfg, m, q, now);
    } else if cfg.prefixOn && q.prefixKey.None? {
      LookupKeeps(lm, m, q.req.prompt, now);
    }
  }

  lemma HitBindCovers(lm: Lm, cfg: Config, m: Memory, q: Sequence, now: int)
    requires Inv(m) && AllMean(lm, m.cache.entries) && q.id in m.pool.alloc && q.req.maxTokens >= 1
    requires cfg.prefixOn && q.prefixKey.None? && Peek(m.cache, q.req.prompt).Some?
    ensures var (m', q') := BindPrefixAtPrefill(cfg, m, q, now);
      Covers(m', q') <==> BindWillCover(cfg, m, q)
  {
    hide Inv, AllMean, Blockless, Lookup, Peek, EntryBlocks, BlocksNeeded, Detach, Release;
    var (m1, hit) := Lookup(m, q.req.prompt, now);
    LookupKeeps(lm, m, q.req.prompt, now);
    LookupBlocks(lm, m, q.req.prompt, now);
    TradeCounts(m1.pool, ApplyHit(q, hit.value), BlocksNeeded(m1.pool.blockSize, |hit.value.tokenIds|));
    BoundRecord(m1, q, hit.value);
    var (m', q') := BindPrefixAtPrefill(cfg, m, q, now);
    assert m'.cache == m1.cache && m1.pool.alloc == m.pool.alloc && q'.req == q.req;
    assert SharedAndOwned(m', q') == |EntryBlocks(m1.cache, hit.value.tokenIds)| + |m'.pool.alloc[q.id]|;
    SomeTokens(m.pool.blockSize, q);
  }

  lemma SomeTokens(b: Pos, q: Sequence)
    requires q.req.maxTokens >= 1
    ensures BlocksNeeded(b, ReservationTokens(q)) >= 1
  {
  }

  // The trade changes the record's lists only.
  lemma BoundRecord(m: Memory, q: Sequence, hit: Hit)
    ensures var (pool, q1, extra) := Detach(m.pool, ApplyHit(q, hit), BlocksNeeded(m.pool.blockSize, |hit.tokenIds|));
      && q1.id == q.id && q1.req == q.req && q1.prefixKey == Some(hit.tokenIds)
      && Release(pool, extra).blockSize == m.pool.blockSize
  {
  }

  // ---- The rest of a prefill ----

  // Storing what was computed and adopting it moves blocks from own to shared, one for one.
  lemma StoreCovers(lm: Lm, cfg: Config, m: Memory, q: Sequence, now: int)
    requires Inv(m) && AllMean(lm, m.cache.entries) && Budgeted(m, q) && PrefixOk(lm, cfg, q)
    requires cfg.prefixOn && q.req.maxTokens >= 1 && q.req.prompt != []
    requires q.prefixKey.Some? ==> RefsOf(m.cache, q.prefixKey.value) > 0
    requires q.prefixKey.None? ==> Peek(m.cache, q.req.prompt).None?
    ensures var (m', q') := Store(m, q, Recompute(lm, q.req.prompt), now);
      SharedAndOwned(m', q') == SharedAndOwned(m, q) && q'.req == q.req && m'.pool.blockSize == m.pool.blockSize
  {
    hide Inv, AllMean, KvOf, LogitsOf, RefsOf, Insert, EntryBlocks, Peek, Adopt;
    var out := Recompute(lm, q.req.prompt);
    var m2 := Insert(m, q.req.prompt, out.cache, Some(out.logits), now);
    InsertKeeps(lm, m, q.req.prompt, out.cache, Some(out.logits), now);
    InsertSettles(lm, m, q.req.prompt, out.cache, Some(out.logits), now);
    if q.prefixKey.Some? {
      AdoptBound(m2, q, now);
    } else {
      AdoptCovers(lm, cfg, m, m2, q, now);
    }
  }

  lemma AdoptBound(m: Memory, q: Sequence, now: int)
    requires q.prefixKey.Some?
    ensures Adopt(m, q, now) == (m, q)
  {
  }

  lemma AdoptCovers(lm: Lm, cfg: Config, m: Memory, m2: Memory, q: Sequence, now: int)
    requires Inv(m) && AllMean(lm, m.cache.entries) && Budgeted(m, q) && PrefixOk(lm, cfg, q) && q.prefixKey.None?
    requires q.req.maxTokens >= 1 && q.req.prompt != [] && Peek(m.cache, q.req.prompt).None?
    requires m2 == Insert(m, q.req.prompt, KvOf(lm, q.req.prompt), Some(LogitsOf(lm, q.req.prompt)), now)
    requires Inv(m2) && AllMean(lm, m2.cache.entries) && SameConfig(m, m2) && m2.pool == m.pool
    ensures var (m', q') := Adopt(m2, q, now);
      SharedAndOwned(m', q') == SharedAndOwned(m, q) && q'.req == q.req && m'.pool.blockSize == m.pool.blockSize
  {
    hide Inv, AllMean, KvOf, LogitsOf, RefsOf, Insert, EntryBlocks, Peek, Adopt;
    BlocksMonotone(m.pool.blockSize, |q.req.prompt|, ReservationTokens(q));
    AdoptKeeps(lm, m2, q, now);
    if |q.req.prompt| >= m.cache.minTokens { AdoptFindsUnreferenced(lm, m, q, now); }
  }

  // A sequence without a prefix owns its whole reservation.
  lemma UnboundCovers(m: Memory, q: Sequence)
    requires Budgeted(m, q) && q.prefixKey.None?
    ensures Covers(m, q)
  {
    hide BlocksNeeded;
    assert BlocksNeeded(m.pool.blockSize, 0) == 0 by { NoTokens(m.pool.blockSize); }
  }

  lemma NoTokens(b: Pos)
    ensures BlocksNeeded(b, 0) == 0
  {
  }

  // A whole prefill leaves its sequence covered exactly when its late bind does.
  lemma PrefillCoversExactlyWhen(lm: Lm, cfg: Config, m: Memory, q: Sequence, now: int, fails: bool)
    requires Inv(m) && AllMean(lm, m.cache.entries) && Budgeted(m, q) && PrefixOk(lm, cfg, q) && q.req.maxTokens >= 1
    requires q.prefixKey.Some? ==> RefsOf(m.cache, q.prefixKey.value) > 0
    ensures var p := PrefillWithReuse(lm, cfg, m, q, now, fails);
      Covers(p.m, p.q) <==> BindWillCover(cfg, m, q)
  {
    hide Inv, AllMean, KvOf, LogitsOf, RefsOf, Reuse, Store, BindPrefixAtPrefill, BindWillCover, SharedAndOwned;
    var (m1, q1) := BindPrefixAtPrefill(cfg, m, q, now);
    BindKeeps(lm, cfg, m, q, now);
    BindCoversExactlyWhen(lm, cfg, m, q, now);
    ReuseIsPrefill(lm, cfg, q1);
    if !fails && q.req.prompt != [] && cfg.prefixOn {
      BoundAfter(lm, cfg, m, q, now);
      StoreCovers(lm, cfg, m1, q1, now);
    }
  }

  lemma BoundAfter(lm: Lm, cfg: Config, m: Memory, q: Sequence, now: int)
    requires Inv(m) && AllMean(lm, m.cache.entries) && Budgeted(m, q) && PrefixOk(lm, cfg, q) && cfg.prefixOn
    requires q.prefixKey.Some? ==> RefsOf(m.cache, q.prefixKey.value) > 0
    ensures var (m1, q1) := BindPrefixAtPrefill(cfg, m, q, now);
      && (q1.prefixKey.Some? ==> RefsOf(m1.cache, q1.prefixKey.value) > 0)
      && (q1.prefixKey.None? ==> Peek(m1.cache, q1.req.prompt).None?)
  {
    hide Inv, AllMean, KvOf, LogitsOf, RefsOf, Peek, Lookup;
    BindKeeps(lm, cfg, m, q, now);
    if q.prefixKey.None? { LookupKeeps(lm, m, q.req.prompt, now); }
  }
}
