// The blocks an entry carries are settled when its first reference is taken: until the last one is
// given back no operation changes them.
module HeldBlocks {
  import opened Common
  import opened KvCache
  import opened LanguageModel
  import opened Engines
  import opened Sequences
  import opened BlockPool
  import opened PrefixCache
  import opened PrefixLaws
  import opened PrefixOps
  import opened Scheduler
  import opened Lifecycle

  // Whatever is referenced before and after carries the same blocks.
  ghost predicate Settled(c: Prefixes, c': Prefixes) {
    forall key :: RefsOf(c, key) > 0 && RefsOf(c', key) > 0 ==> EntryBlocks(c', key) == EntryBlocks(c, key)
  }

  ghost predicate NoneGiven(c: Prefixes, c': Prefixes) {
    forall key :: RefsOf(c, key) > 0 ==> RefsOf(c', key) > 0
  }

  lemma SettledSelf(c: Prefixes)
    ensures Settled(c, c) && NoneGiven(c, c)
  {
  }

  lemma SettledThen(a: Prefixes, b: Prefixes, c: Prefixes)
    requires Settled(a, b) && NoneGiven(a, b) && Settled(b, c)
    ensures Settled(a, c) && (NoneGiven(b, c) ==> NoneGiven(a, c))
  {
    hide RefsOf, EntryBlocks;
  }

  // Position by position, references and blocks only move together.
  ghost predicate SettledAt(a: seq<Entry>, b: seq<Entry>) {
    && SameContents(a, b)
    && forall i :: 0 <= i < |a| && a[i].refs > 0 && b[i].refs > 0 ==> b[i].blockIds == a[i].blockIds
  }

  lemma SettledByPosition(c: Prefixes, c': Prefixes)
    requires SettledAt(c.entries, c'.entries)
    ensures Settled(c, c')
  {
    forall key ensures Find(c.entries, key) == Find(c'.entries, key) { FindStable(c.entries, c'.entries, key); }
  }

  lemma AcquireSettles(m: Memory, i: nat)
    requires Inv(m) && i < |m.cache.entries|
    ensures Settled(m.cache, AcquireBlocks(m, i).cache) && NoneGiven(m.cache, AcquireBlocks(m, i).cache)
  {
    var m' := AcquireBlocks(m, i);
    AcquireKeeps(m, i);
    if m.cache.entries[i].refs > 0 { AcquireAgain(m, i); }
    SettledByPosition(m.cache, m'.cache);
    TookRefMoves(m, i, m');
  }

  lemma TouchSettles(m: Memory, i: nat, now: int)
    requires i < |m.cache.entries|
    ensures Settled(m.cache, Touch(m, i, now).cache) && NoneGiven(m.cache, Touch(m, i, now).cache)
  {
    var c := Touch(m, i, now).cache;
    forall key ensures Find(m.cache.entries, key) == Find(c.entries, key) {
      FindStable(m.cache.entries, c.entries, key);
    }
  }

  lemma LookupSettles(lm: Lm, m: Memory, ids: Key, now: int)
    requires Inv(m) && AllMean(lm, m.cache.entries)
    ensures Settled(m.cache, Lookup(m, ids, now).0.cache) && NoneGiven(m.cache, Lookup(m, ids, now).0.cache)
  {
    hide AllMean, Settled, NoneGiven, AcquireBlocks;
    LookupKeeps(lm, m, ids, now);
    if Peek(m.cache, ids).None? {
      SettledSelf(m.cache);
    } else {
      PeekFromIsLongest(m.cache, ids, |ids|);
      var i := Find(m.cache.entries, Peek(m.cache, ids).value.tokenIds);
      var a := AcquireBlocks(m, i);
      AcquireSettles(m, i);
      AcquireKeeps(m, i);
      TouchSettles(a, i, now);
      SettledThen(m.cache, a.cache, Touch(a, i, now).cache);
    }
  }

  lemma ReleaseSettles(m: Memory, key: Option<Key>)
    ensures Settled(m.cache, ReleasePrefix(m, key).cache)
  {
    hide Unpin;
    SettledByPosition(m.cache, ReleasePrefix(m, key).cache);
  }

  // ---- Insertion ----

  lemma DropSettles(m: Memory, v: nat)
    requires Inv(m) && v < |m.cache.entries| && m.cache.entries[v].refs == 0
    ensures Settled(m.cache, Dropped(m, v).cache)
  {
    forall key | RefsOf(m.cache, key) > 0 && RefsOf(Dropped(m, v).cache, key) > 0
      ensures EntryBlocks(Dropped(m, v).cache, key) == EntryBlocks(m.cache, key)
    {
      DropFinds(m.cache.entries, v, key);
    }
  }

  lemma MovedNone(c: Prefixes, c': Prefixes)
    requires RefsMove(c, c', None, None)
    ensures NoneGiven(c, c')
  {
  }

  lemma {:induction false} EvictSettles(lm: Lm, m: Memory)
    requires Inv(m) && AllMean(lm, m.cache.entries)
    ensures Settled(m.cache, Evict(m).cache)
    decreases |m.cache.entries|
  {
    hide AllMean;
    var v := LeastUsed(m.cache.entries);
    if |m.cache.entries| >= m.cache.maxEntries && v < |m.cache.entries| {
      DropKeeps(m, v);
      DropMeans(lm, m.cache.entries, v);
      DropSettles(m, v);
      MovedNone(m.cache, Dropped(m, v).cache);
      EvictSettles(lm, Dropped(m, v));
      SettledThen(m.cache, Dropped(m, v).cache, Evict(m).cache);
    } else {
      SettledSelf(m.cache);
    }
  }

  lemma AppendSettles(c: Prefixes, e: Entry)
    requires !Has(c, e.tokenIds)
    ensures Settled(c, c.(entries := c.entries + [e]))
  {
    var longer := c.entries + [e];
    assert longer[..|c.entries|] == c.entries;
  }

  lemma InsertOneSettles(lm: Lm, m: Memory, ids: Key, kv: Cache, logits: Option<Logits>, n: nat, now: int)
    requires Inv(m) && AllMean(lm, m.cache.entries)
    ensures Settled(m.cache, InsertOne(m, ids, kv, logits, n, now).cache)
  {
    hide AllMean, Inv, Take;
    SettledSelf(m.cache);
    if n <= SeqLen(kv) && n <= |ids| && !Has(m.cache, ids[..n]) {
      var e := Evict(m);
      EvictSettles(lm, m);
      EvictKeeps(lm, m);
      MovedNone(m.cache, e.cache);
      if |e.cache.entries| < e.cache.maxEntries {
        var entry := Entry(ids[..n], Take(kv, n), if n == |ids| then logits else None, [], 0, now);
        AppendSettles(e.cache, entry);
        SettledThen(m.cache, e.cache, e.cache.(entries := e.cache.entries + [entry]));
      }
    }
  }

  lemma {:induction false} InsertAllSettles(lm: Lm, m: Memory, ids: Key, kv: Cache, logits: Option<Logits>,
          lengths: seq<nat>, now: int)
    requires Inv(m) && AllMean(lm, m.cache.entries)
    requires forall k :: k in lengths ==> m.cache.minTokens <= k <= |ids|
    requires kv == KvOf(lm, ids) && ids != [] && (logits.Some? ==> logits.value == LogitsOf(lm, ids))
    ensures Settled(m.cache, InsertAll(m, ids, kv, logits, lengths, now).cache)
  {
    hide AllMean, Inv, KvOf, LogitsOf, InsertOne;
    if lengths == [] {
      SettledSelf(m.cache);
    } else {
      var k := |lengths| - 1;
      var before := InsertAll(m, ids, kv, logits, lengths[..k], now);
      assert forall x :: x in lengths[..k] ==> x in lengths;
      InsertAllSettles(lm, m, ids, kv, logits, lengths[..k], now);
      InsertAllKeeps(lm, m, ids, kv, logits, lengths[..k], now);
      MovedNone(m.cache, before.cache);
      InsertOneSettles(lm, before, ids, kv, logits, lengths[k], now);
      SettledThen(m.cache, before.cache, InsertAll(m, ids, kv, logits, lengths, now).cache);
    }
  }

  lemma InsertSettles(lm: Lm, m: Memory, ids: Key, kv: Cache, logits: Option<Logits>, now: int)
    requires Inv(m) && AllMean(lm, m.cache.entries)
    requires kv == KvOf(lm, ids) && ids != [] && (logits.Some? ==> logits.value == LogitsOf(lm, ids))
    ensures Settled(m.cache, Insert(m, ids, kv, logits, now).cache)
    ensures NoneGiven(m.cache, Insert(m, ids, kv, logits, now).cache)
  {
    hide AllMean, Inv, KvOf, LogitsOf;
    InsertKeeps(lm, m, ids, kv, logits, now);
    MovedNone(m.cache, Insert(m, ids, kv, logits, now).cache);
    SettledSelf(m.cache);
    CandidateLengthsAre(m.cache, |ids|);
    InsertAllSettles(lm, m, ids, kv, logits, CandidateLengths(m.cache, |ids|), now);
  }

  lemma AdoptSettles(lm: Lm, m: Memory, q: Sequence, now: int)
    requires Inv(m) && AllMean(lm, m.cache.entries)
    ensures Settled(m.cache, Adopt(m, q, now).0.cache) && NoneGiven(m.cache, Adopt(m, q, now).0.cache)
  {
    hide AllMean, Detach;
    SettledSelf(m.cache);
    CandidateLengthsAre(m.cache, |q.req.prompt|);
    if q.prefixKey.None? && CandidateLengths(m.cache, |q.req.prompt|) != [] {
      var i := Find(m.cache.entries, q.req.prompt[..CandidateLengths(m.cache, |q.req.prompt|)[0]]);
      if i < |m.cache.entries| {
        if m.cache.entries[i].refs > 0 {
          AcquireSettles(m, i);
        } else {
          AdoptedSettles(m, q, i, now);
        }
      }
    }
  }

  lemma AdoptedSettles(m: Memory, q: Sequence, i: nat, now: int)
    requires i < |m.cache.entries| && m.cache.entries[i].refs == 0
    ensures var c := Adopted(m, q, i, m.cache.entries[i].tokenIds, now).0.cache;
      Settled(m.cache, c) && NoneGiven(m.cache, c)
  {
    var c := Adopted(m, q, i, m.cache.entries[i].tokenIds, now).0.cache;
    SettledByPosition(m.cache, c);
    forall key ensures Find(m.cache.entries, key) == Find(c.entries, key) {
      FindStable(m.cache.entries, c.entries, key);
    }
  }

  // ---- Whole operations ----

  lemma EndSettles(cfg: Config, m: Memory, q: Sequence, status: Status)
    ensures Settled(m.cache, EndAs(cfg, m, q, status).0.cache)
    ensures EndAs(cfg, m, q, status).0.pool.alloc == m.pool.alloc - {q.id}
  {
    hide Unpin, Settled;
    SettledSelf(m.cache);
    ReleaseSettles(m, q.prefixKey);
  }

  lemma BindSettles(lm: Lm, cfg: Config, m: Memory, q: Sequence, now: int)
    requires Inv(m) && AllMean(lm, m.cache.entries)
    ensures Settled(m.cache, BindPrefixAtPrefill(cfg, m, q, now).0.cache)
    ensures NoneGiven(m.cache, BindPrefixAtPrefill(cfg, m, q, now).0.cache)
  {
    hide Inv, AllMean, Settled, NoneGiven, Lookup;
    SettledSelf(m.cache);
    LookupSettles(lm, m, q.req.prompt, now);
  }

  lemma StoreSettles(lm: Lm, cfg: Config, m: Memory, q: Sequence, now: int)
    requires Inv(m) && AllMean(lm, m.cache.entries) && q.req.prompt != []
    ensures var m' := Store(m, q, Recompute(lm, q.req.prompt), now).0;
      Settled(m.cache, m'.cache) && NoneGiven(m.cache, m'.cache)
  {
    hide Inv, AllMean, Settled, NoneGiven, Insert, Adopt, KvOf, LogitsOf;
    var out := Recompute(lm, q.req.prompt);
    var m2 := Insert(m, q.req.prompt, out.cache, Some(out.logits), now);
    InsertKeeps(lm, m, q.req.prompt, out.cache, Some(out.logits), now);
    InsertSettles(lm, m, q.req.prompt, out.cache, Some(out.logits), now);
    AdoptSettles(lm, m2, q, now);
    SettledThen(m.cache, m2.cache, Adopt(m2, q, now).0.cache);
  }

  lemma PrefillSettles(lm: Lm, cfg: Config, m: Memory, q: Sequence, now: int, fails: bool)
    requires Inv(m) && AllMean(lm, m.cache.entries) && Budgeted(m, q) && PrefixOk(lm, cfg, q) && q.req.maxTokens >= 1
    ensures var p := PrefillWithReuse(lm, cfg, m, q, now, fails);
      Settled(m.cache, p.m.cache) && NoneGiven(m.cache, p.m.cache)
  {
    hide Inv, AllMean, Settled, NoneGiven, BindPrefixAtPrefill, Reuse, Store, KvOf, LogitsOf;
    var (m1, q1) := BindPrefixAtPrefill(cfg, m, q, now);
    BindKeeps(lm, cfg, m, q, now);
    BindSettles(lm, cfg, m, q, now);
    ReuseIsPrefill(lm, cfg, q1);
    if !fails && q.req.prompt != [] && cfg.prefixOn {
      StoreSettles(lm, cfg, m1, q1, now);
      SettledThen(m.cache, m1.cache, Store(m1, q1, Recompute(lm, q1.req.prompt), now).0.cache);
    }
  }

  lemma AttemptSettles(lm: Lm, cfg: Config, m: Memory, q: Sequence, now: int)
    requires Inv(m) && AllMean(lm, m.cache.entries)
    ensures Settled(m.cache, TryAllocate(cfg, m, q, now).m.cache)
  {
    hide Inv, AllMean, Settled, NoneGiven, Lookup, ReleasePrefix, Reserve;
    SettledSelf(m.cache);
    LookupSettles(lm, m, q.req.prompt, now);
    var (m1, hit) := Consult(cfg, m, q, now);
    if hit.Some? {
      ReleaseSettles(m1, Some(hit.value.tokenIds));
      SettledThen(m.cache, m1.cache, ReleasePrefix(m1, Some(hit.value.tokenIds)).cache);
    }
  }
}
