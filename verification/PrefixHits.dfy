// What a hit is worth: what lookup hands out, what admission and the late bind make of it, and what
// the prefill does with it. Everything here is said of the stored entry and of its length.
module PrefixHits {
  import opened Common
  import opened KvCache
  import opened LanguageModel
  import opened Engines
  import opened Sequences
  import opened BlockPool
  import opened PrefixCache
  import opened PrefixLaws
  import opened PrefixOps
  import opened Scheduler
  import opened Generation
  import opened Lifecycle
  import opened Worker
  import opened QueuedEntries

  // The first n tokens are stored, and no longer front of the ids is.
  ghost predicate LongestStored(c: Prefixes, ids: Key, n: nat) {
    && c.minTokens <= n <= |ids| && Has(c, ids[..n])
    && forall k: nat :: n < k <= |ids| ==> !Has(c, ids[..k])
  }

  ghost predicate NothingStored(c: Prefixes, ids: Key) {
    forall k: nat :: c.minTokens <= k <= |ids| ==> !Has(c, ids[..k])
  }

  ghost function StoredAs(c: Prefixes, key: Key): Entry
    requires Has(c, key)
  {
    c.entries[Find(c.entries, key)]
  }

  // ---- lookup and insertion ----

  lemma LongestIsPeeked(c: Prefixes, ids: Key, n: nat)
    ensures LongestStored(c, ids, n) ==> Peek(c, ids).Some? && Peek(c, ids).value.tokenIds == ids[..n]
    ensures NothingStored(c, ids) <==> Peek(c, ids).None?
  {
    PeekFromIsLongest(c, ids, |ids|);
    if LongestStored(c, ids, n) {
      var len := |Peek(c, ids).value.tokenIds|;
      assert len <= n;
    }
  }

  // A lookup hands out the KV of the longest stored front, and its logits exactly when that is the
  // whole list of ids; that entry, and no other, has been used now.
  lemma LookupHandsOut(m: Memory, ids: Key, now: int, n: nat)
    requires LongestStored(m.cache, ids, n)
    ensures var (m', hit) := Lookup(m, ids, now); var e := StoredAs(m.cache, ids[..n]);
      && hit.Some? && hit.value.tokenIds == ids[..n] && hit.value.kv == e.kv
      && hit.value.logits == (if n == |ids| then e.logits else None)
      && hit.value.blockIds == EntryBlocks(m'.cache, ids[..n])
      && Has(m'.cache, ids[..n]) && StoredAs(m'.cache, ids[..n]).lastUsed == now
      && (forall k :: k != ids[..n] && Has(m.cache, k) ==>
        Has(m'.cache, k) && StoredAs(m'.cache, k).lastUsed == StoredAs(m.cache, k).lastUsed)
  {
    hide Pin, ShareFromLive, Reserve;
    LongestIsPeeked(m.cache, ids, n);
    LookupContents(m, ids, now);
    forall k ensures Find(m.cache.entries, k) == Find(Lookup(m, ids, now).0.cache.entries, k) {
      FindStable(m.cache.entries, Lookup(m, ids, now).0.cache.entries, k);
    }
  }

  lemma LookupMisses(m: Memory, ids: Key, now: int)
    requires NothingStored(m.cache, ids)
    ensures Lookup(m, ids, now) == (m, None)
  {
    LongestIsPeeked(m.cache, ids, 0);
  }

  // What an insertion adds is a front of the ids at a candidate length, cut from the KV it is given;
  // the whole list keeps the very logits it is given, every shorter front none.
  lemma InsertStoresWhatItIsGiven(m: Memory, ids: Key, kv: Cache, logits: Option<Logits>, now: int)
    ensures forall e :: e in Insert(m, ids, kv, logits, now).cache.entries && e !in m.cache.entries ==>
      && e.tokenIds <= ids && e.kv == Take(kv, |e.tokenIds|)
      && e.logits == (if e.tokenIds == ids then logits else None)
      && (|e.tokenIds| == |ids| || WholeBlocks(m.cache, |e.tokenIds|, |ids| / m.cache.blockSize))
  {
    CandidateLengthsAre(m.cache, |ids|);
    InsertAddsOnlyPrefixes(m, ids, kv, logits, CandidateLengths(m.cache, |ids|), now);
  }

  // The shortest front is inserted last and is stored afterwards, unless every entry is referenced.
  lemma InsertLeavesShortest(m: Memory, ids: Key, kv: Cache, logits: Option<Logits>, now: int, n: nat)
    requires SeqLen(kv) == |ids| && n in CandidateLengths(m.cache, |ids|)
    requires forall k :: k in CandidateLengths(m.cache, |ids|) ==> n <= k
    ensures n <= |ids|
    ensures Has(Insert(m, ids, kv, logits, now).cache, ids[..n])
         || AllReferenced(Insert(m, ids, kv, logits, now).cache)
  {
    hide InsertOne, AllReferenced, CandidateLengths, Has;
    CandidateLengthsAre(m.cache, |ids|);
    CandidatesFall(m.cache, |ids|);
    var lengths := CandidateLengths(m.cache, |ids|);
    var k := |lengths| - 1;
    assert lengths[k] in lengths;
    InsertOneStores(InsertAll(m, ids, kv, logits, lengths[..k], now), ids, kv, logits, lengths[k], now);
  }

  // A sequence without prefix comes out of adoption holding one exactly when its prompt is stored
  // and long enough to be, and then it holds the whole prompt.
  lemma AdoptsExactlyWhenStored(m: Memory, q: Sequence, now: int)
    requires q.prefixKey.None?
    ensures var q' := Adopt(m, q, now).1; var ids := q.req.prompt;
      && (q'.prefixKey.Some? <==> |ids| >= m.cache.minTokens && Has(m.cache, ids))
      && (q'.prefixKey.Some? ==> q'.prefixKey.value == ids)
  {
    hide AcquireBlocks, Detach, Pin;
    CandidateLengthsAre(m.cache, |q.req.prompt|);
    assert q.req.prompt[..|q.req.prompt|] == q.req.prompt;
  }

  // Eviction stops as soon as there is room for one entry.
  lemma {:induction false} EvictsNoMoreThanNeeded(m: Memory)
    ensures |m.cache.entries| < m.cache.maxEntries ==> Evict(m) == m
    ensures |m.cache.entries| >= m.cache.maxEntries ==> |Evict(m).cache.entries| >= m.cache.maxEntries - 1
    decreases |m.cache.entries|
  {
    var v := LeastUsed(m.cache.entries);
    if |m.cache.entries| >= m.cache.maxEntries && v < |m.cache.entries| {
      var u := UnpinBlocks(m, m.cache.entries[v].blockIds);
      EvictsNoMoreThanNeeded(u.(cache := u.cache.(entries := Without(m.cache.entries, v))));
    }
  }

  // ---- What it is worth to a request ----

  // How much of the prompt a hit would cover.
  ghost predicate Covered(cfg: Config, c: Prefixes, ids: Key, n: nat) {
    if n == 0 then !cfg.prefixOn || NothingStored(c, ids) else cfg.prefixOn && LongestStored(c, ids, n)
  }

  lemma NeedsTheRest(cfg: Config, m: Memory, q: Sequence, n: nat)
    requires Covered(cfg, m.cache, q.req.prompt, n)
    ensures var rest := |q.req.prompt| + q.req.maxTokens - n;
      NeedTokens(cfg, m, q) == if n == 0 || rest > 0 then rest else 0
  {
    hide Peek;
    LongestIsPeeked(m.cache, q.req.prompt, n);
  }

  // The fit test asks whether the free blocks hold what the stored front of the prompt leaves over.
  lemma FitsExactlyWhen(cfg: Config, m: Memory, q: Sequence, n: nat)
    requires Covered(cfg, m.cache, q.req.prompt, n)
    ensures Fits(cfg, m, q) <==> |q.req.prompt| + q.req.maxTokens - n <= |m.pool.free| * m.pool.blockSize
  {
    hide NeedTokens, BlocksNeeded, Covered;
    NeedsTheRest(cfg, m, q, n);
    BlocksLeast(m.pool.blockSize, NeedTokens(cfg, m, q), |m.pool.free|);
  }

  // A submission is accepted exactly when that fits the whole pool and the queue has room; otherwise
  // it leaves no trace.
  lemma AcceptedExactlyWhen(lm: Lm, cfg: Config, s: State, id: Id, req: Request, n: nat)
    requires Covered(cfg, s.m.cache, req.prompt, n) && id !in s.seqs && req.maxTokens >= 1
    ensures var s' := Next(lm, cfg, s, Submit(id, req));
      if |req.prompt| + req.maxTokens - n <= s.m.pool.numBlocks * s.m.pool.blockSize && |s.waiting| < cfg.maxWaiting
      then
        && s'.waiting == s.waiting + [id] && s'.submitted == s.submitted + [id] && s'.event
        && s'.seqs == s.seqs[id := NewSequence(id, req)] && s'.m == s.m && s'.running == s.running && s'.stop == s.stop
      else s' == s
  {
    hide NeedTokens, BlocksNeeded, Covered;
    NeedsTheRest(cfg, s.m, NewSequence(id, req), n);
    BlocksLeast(s.m.pool.blockSize, NeedTokens(cfg, s.m, NewSequence(id, req)), s.m.pool.numBlocks);
  }

  // ---- What a sequence is bound to ----

  // The sequence carries what is stored under the first n tokens of its prompt.
  ghost predicate Carries(q: Sequence, n: nat, e: Entry) {
    && n <= |q.req.prompt| && q.prefixKey == Some(q.req.prompt[..n]) && q.prefixTokens == n && q.prefixKv == Some(e.kv)
    && q.prefixLogits == (if n == |q.req.prompt| then e.logits else None)
  }

  ghost predicate SameBinding(q: Sequence, q': Sequence) {
    && q'.prefixKey == q.prefixKey && q'.prefixTokens == q.prefixTokens
    && q'.prefixKv == q.prefixKv && q'.prefixLogits == q.prefixLogits
  }

  // Its list of blocks is what its entry lends it, then what it owns.
  ghost predicate ListsItsBlocks(m: Memory, q: Sequence) {
    && q.id in m.pool.alloc && q.ownedBlockIds == m.pool.alloc[q.id]
    && q.blockIds == (if q.prefixKey.Some? then EntryBlocks(m.cache, q.prefixKey.value) else []) + q.ownedBlockIds
  }

  // Admission binds a sequence to the longest stored front of its prompt, with that entry's KV, and
  // its logits if the whole prompt is stored.
  lemma AdmissionBindsLongest(cfg: Config, m: Memory, q: Sequence, now: int, n: nat)
    requires cfg.prefixOn && LongestStored(m.cache, q.req.prompt, n) && TryAllocate(cfg, m, q, now).ok
    ensures var t := TryAllocate(cfg, m, q, now);
      Carries(t.q, n, StoredAs(m.cache, q.req.prompt[..n])) && ListsItsBlocks(t.m, t.q)
  {
    hide Lookup, Reserve;
    LookupHandsOut(m, q.req.prompt, now, n);
  }

  // So does adoption of an entry that nobody references.
  lemma AdoptionListsItsBlocks(m: Memory, q: Sequence, now: int)
    requires q.prefixKey.None? && q.id in m.pool.alloc && RefsOf(m.cache, q.req.prompt) == 0
    requires |q.req.prompt| >= m.cache.minTokens && Has(m.cache, q.req.prompt)
    ensures ListsItsBlocks(Adopt(m, q, now).0, Adopt(m, q, now).1)
  {
    hide Pin;
    CandidateLengthsAre(m.cache, |q.req.prompt|);
    assert q.req.prompt[..|q.req.prompt|] == q.req.prompt;
    AdoptContents(m, q, now);
    FindStable(m.cache.entries, Adopt(m, q, now).0.cache.entries, q.req.prompt);
  }

  // With nothing stored, or the prefix cache off, admission binds a sequence to nothing.
  lemma AdmissionBindsNothing(cfg: Config, m: Memory, q: Sequence, now: int)
    requires !cfg.prefixOn || NothingStored(m.cache, q.req.prompt)
    ensures SameBinding(q, TryAllocate(cfg, m, q, now).q)
    ensures TryAllocate(cfg, m, q, now).ok && q.prefixKey.None? ==>
      ListsItsBlocks(TryAllocate(cfg, m, q, now).m, TryAllocate(cfg, m, q, now).q)
  {
    hide Lookup, NothingStored, Reserve;
    if cfg.prefixOn { LookupMisses(m, q.req.prompt, now); }
  }

  // It succeeds exactly when the blocks for the rest are free once the hit has its own, and then the
  // sequence owns exactly those, from the front of the free list.
  lemma AdmissionOwnsTheRest(cfg: Config, m: Memory, q: Sequence, now: int, n: nat)
    requires Covered(cfg, m.cache, q.req.prompt, n)
    ensures var t := TryAllocate(cfg, m, q, now);
      var free := if n == 0 then m.pool.free else Lookup(m, q.req.prompt, now).0.pool.free;
      && (t.ok <==> |q.req.prompt| + q.req.maxTokens - n <= |free| * m.pool.blockSize)
      && (t.ok ==>
        && |t.q.ownedBlockIds| == BlocksNeeded(m.pool.blockSize, |q.req.prompt| + q.req.maxTokens - n)
        && t.q.ownedBlockIds + t.m.pool.free == free)
  {
    hide Lookup, BlocksNeeded, LongestStored, NothingStored;
    var m1 := Consult(cfg, m, q, now).0;
    if n == 0 {
      if cfg.prefixOn { LookupMisses(m, q.req.prompt, now); }
    } else {
      LookupHandsOut(m, q.req.prompt, now, n);
      LookupOwners(m, q.req.prompt, now);
      FrontLength(m.cache, q.req.prompt, n);
    }
    var rest := |q.req.prompt| + q.req.maxTokens - n;
    RestBlocks(m.pool.blockSize, rest);
    BlocksLeast(m.pool.blockSize, rest, |m1.pool.free|);
  }

  lemma RestBlocks(blockSize: Pos, rest: int)
    ensures rest <= 0 ==> BlocksNeeded(blockSize, rest) == 0 && BlocksNeeded(blockSize, 0) == 0
  {
  }

  // The late bind does the same for a sequence that has no prefix yet, and nothing for one that has.
  lemma LateBindBindsLongest(cfg: Config, m: Memory, q: Sequence, now: int, n: nat)
    requires cfg.prefixOn && q.prefixKey.None? && LongestStored(m.cache, q.req.prompt, n)
    ensures var (m', q') := BindPrefixAtPrefill(cfg, m, q, now);
      Carries(q', n, StoredAs(m.cache, q.req.prompt[..n])) && ListsItsBlocks(m', q')
  {
    hide Lookup, BlocksNeeded;
    LookupHandsOut(m, q.req.prompt, now, n);
  }

  // The blocks of its own that the hit makes up for, or as many as it has, go to the end of the free
  // list.
  lemma LateBindGivesUpFront(cfg: Config, m: Memory, q: Sequence, now: int, n: nat)
    requires cfg.prefixOn && q.prefixKey.None? && LongestStored(m.cache, q.req.prompt, n) && q.id in m.pool.alloc
    ensures var (m', q') := BindPrefixAtPrefill(cfg, m, q, now); var m1 := Lookup(m, q.req.prompt, now).0;
      var own, spare := m.pool.alloc[q.id], BlocksNeeded(m.pool.blockSize, n);
      var given := if spare <= |own| then spare else |own|;
      q'.ownedBlockIds == own[given..] && m'.pool.free == m1.pool.free + own[..given]
  {
    hide Lookup, BlocksNeeded, LongestStored;
    LookupHandsOut(m, q.req.prompt, now, n);
    LookupOwners(m, q.req.prompt, now);
    FrontLength(m.cache, q.req.prompt, n);
  }

  lemma FrontLength(c: Prefixes, ids: Key, n: nat)
    requires LongestStored(c, ids, n)
    ensures n <= |ids| && |ids[..n]| == n
  {
  }

  // A lookup changes nobody's own blocks.
  lemma LookupOwners(m: Memory, ids: Key, now: int)
    ensures Lookup(m, ids, now).0.pool == m.pool.(free := Lookup(m, ids, now).0.pool.free)
  {
    hide Find, Peek, Pin, ShareFromLive, BlocksNeeded;
  }

  lemma LateBindBindsNothing(cfg: Config, m: Memory, q: Sequence, now: int)
    requires !cfg.prefixOn || q.prefixKey.Some? || NothingStored(m.cache, q.req.prompt)
    ensures BindPrefixAtPrefill(cfg, m, q, now) == (m, q)
  {
    hide Lookup, NothingStored;
    if cfg.prefixOn && q.prefixKey.None? { LookupMisses(m, q.req.prompt, now); }
  }

  // ---- What the prefill makes of it ----

  lemma {:induction false} ForwardKeepsFront(lm: Lm, past: Cache, mask: seq<bool>, tokens: seq<Token>,
          positions: seq<nat>, n: nat)
    requires tokens != [] && |positions| == |tokens| && |tokens| <= |mask|
    requires Shaped(lm, past, |mask| - |tokens|) && n <= |mask| - |tokens|
    ensures Take(Forward(lm, past, mask, tokens, positions).0, n) == Take(past, n)
    decreases |tokens|
  {
    var seen := mask[..|mask| - |tokens|];
    var kv := NewKv(lm, Attended(past, seen, |seen|), tokens[0], positions[0]);
    TakeOfExtend(past, |seen|, kv);
    if |tokens| > 1 {
      ForwardKeepsFront(lm, Extend(past, kv), mask, tokens[1..], positions[1..], n);
    }
  }

  // The prefill builds on the KV it was handed, whatever that is: it starts with those positions and
  // adds one for each further token; with the whole prompt and its logits in hand it runs nothing.
  lemma ReuseBuildsOnWhatItCarries(lm: Lm, q: Sequence, kv: Cache)
    requires q.prefixKv == Some(kv) && 0 < q.prefixTokens <= |q.req.prompt| && Shaped(lm, kv, q.prefixTokens)
    ensures q.prefixTokens < |q.req.prompt| ==>
      && Reuse(lm, q).Ok? && Shaped(lm, Reuse(lm, q).value.cache, |q.req.prompt|)
      && Take(Reuse(lm, q).value.cache, q.prefixTokens) == kv
    ensures q.prefixTokens == |q.req.prompt| && q.prefixLogits.Some? ==>
      Reuse(lm, q) == Ok(Output(q.prefixLogits.value, kv))
  {
    var n, prompt := q.prefixTokens, q.req.prompt;
    CloneIsWhole(kv, n);
    assert SeqLen(kv) == n;
    if n < |prompt| {
      var suffix := Suffix(prompt, n);
      ForwardKeepsFront(lm, kv, Ones(n + |suffix|), suffix, Arange(n, |suffix|), n);
    }
  }

  lemma {:induction false} SameAligned(c: Prefixes, c': Prefixes, blocks: nat, lengths: seq<nat>)
    requires c'.minTokens == c.minTokens && c'.blockSize == c.blockSize
    ensures AlignedDown(c', blocks, lengths) == AlignedDown(c, blocks, lengths)
  {
    var aligned := blocks * c.blockSize;
    if aligned >= c.minTokens && blocks > 0 {
      SameAligned(c, c', blocks - 1, if aligned !in lengths then lengths + [aligned] else lengths);
    }
  }

  lemma SameCandidates(m: Memory, m': Memory, n: nat)
    requires SameConfig(m, m')
    ensures CandidateLengths(m'.cache, n) == CandidateLengths(m.cache, n)
  {
    SameAligned(m.cache, m'.cache, n / m.cache.blockSize, if n >= m.cache.minTokens then [n] else []);
  }

  lemma AdoptKeepsReferenced(m: Memory, q: Sequence, now: int)
    requires forall e :: e in m.cache.entries ==> e.refs > 0
    ensures forall e :: e in Adopt(m, q, now).0.cache.entries ==> e.refs > 0
  {
    hide Find, CandidateLengths, Pin, Detach;
  }

  // A prefill that succeeds leaves the shortest candidate front of its prompt stored, unless every
  // entry is referenced; and with its whole prompt stored the sequence holds a prefix, so that it is
  // there for others while it lives.
  lemma PrefillStoresAndHolds(lm: Lm, cfg: Config, m: Memory, q: Sequence, now: int, n: nat)
    requires Inv(m) && AllMean(lm, m.cache.entries) && Budgeted(m, q) && PrefixOk(lm, cfg, q)
    requires cfg.prefixOn && q.req.prompt != [] && n in CandidateLengths(m.cache, |q.req.prompt|)
    requires forall k :: k in CandidateLengths(m.cache, |q.req.prompt|) ==> n <= k
    ensures n <= |q.req.prompt|
    ensures var p, ids := PrefillWithReuse(lm, cfg, m, q, now, false), q.req.prompt;
      && (Has(p.m.cache, ids[..n]) || forall e :: e in p.m.cache.entries ==> e.refs > 0)
      && (Has(p.m.cache, ids) ==> p.q.prefixKey.Some?)
  {
    hide Inv, AllMean, KvOf, LogitsOf, Insert, Adopt, BindPrefixAtPrefill, Reuse, Has, CandidateLengths, RefsMove;
    var (m1, q1) := BindPrefixAtPrefill(cfg, m, q, now);
    BindKeeps(lm, cfg, m, q, now);
    ReuseIsPrefill(lm, cfg, q1);
    var ids, out := q.req.prompt, Recompute(lm, q.req.prompt);
    var m2 := Insert(m1, ids, out.cache, Some(out.logits), now);
    InsertKeeps(lm, m1, ids, out.cache, Some(out.logits), now);
    SameCandidates(m, m1, |ids|);
    CandidateLengthsAre(m.cache, |ids|);
    InsertLeavesShortest(m1, ids, out.cache, Some(out.logits), now, n);
    AdoptContents(m2, q1, now);
    if !Has(m2.cache, ids[..n]) { AdoptKeepsReferenced(m2, q1, now); }
    HasSame(m2.cache, Adopt(m2, q1, now).0.cache, ids);
    HasSame(m2.cache, Adopt(m2, q1, now).0.cache, ids[..n]);
    if Has(m2.cache, ids) { HoldsWhenStored(m2, q1, now); }
  }

  lemma HoldsWhenStored(m: Memory, q: Sequence, now: int)
    requires |q.req.prompt| >= m.cache.minTokens && Has(m.cache, q.req.prompt)
    ensures Adopt(m, q, now).1.prefixKey.Some?
  {
    if q.prefixKey.None? { AdoptsExactlyWhenStored(m, q, now); }
  }
}
