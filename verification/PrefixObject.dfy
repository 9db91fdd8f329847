// The prefix cache as an object over the shared block allocator. Entries, pin counts and blocks
// change in place; every method does exactly what the function of the same name says.
module PrefixObject {
  import opened Common
  import opened KvCache
  import opened LanguageModel
  import opened Sequences
  import opened SequenceRecord
  import opened BlockPool
  import opened PoolObject
  import C = PrefixCache
  import opened PrefixCache

  class PrefixCacheObject {
    const pool: BlockPoolObject
    const maxEntries: Pos
    const minTokens: Pos
    const blockSize: Pos
    var entries: seq<Entry>
    var pins: map<nat, nat>

    function Cached(): Prefixes
      reads this
    {
      Prefixes(maxEntries, minTokens, blockSize, entries, pins)
    }

    function View(): Memory
      reads this, pool
    {
      Memory(pool.View(), Cached())
    }

    constructor (pool: BlockPoolObject, maxEntries: Pos, minTokens: Pos, blockSize: Pos)
      ensures this.pool == pool && Cached() == Prefixes(maxEntries, minTokens, blockSize, [], map[])
    {
      this.pool, this.maxEntries, this.minTokens, this.blockSize := pool, maxEntries, minTokens, blockSize;
      entries, pins := [], map[];
    }

    // ---- Index ----

    method CandidateLengths(n: nat) returns (lengths: seq<nat>)
      ensures lengths == C.CandidateLengths(Cached(), n)
    {
      lengths := if n >= minTokens then [n] else [];
      ghost var blocks: nat := n / blockSize;
      var aligned := (n / blockSize) * blockSize;
      while aligned >= minTokens
        invariant aligned == blocks * blockSize
        invariant AlignedDown(Cached(), blocks, lengths) == C.CandidateLengths(Cached(), n)
      {
        if aligned !in lengths {
          lengths := lengths + [aligned];
        }
        assert (blocks - 1) * blockSize == blocks * blockSize - blockSize;
        aligned, blocks := aligned - blockSize, blocks - 1;
      }
    }

    method Peek(ids: Key) returns (hit: Option<Hit>)
      ensures hit == C.Peek(Cached(), ids)
    {
      var n: nat := |ids|;
      while n >= minTokens
        invariant n <= |ids| && PeekFrom(Cached(), ids, n) == C.Peek(Cached(), ids)
      {
        var i := Find(entries, ids[..n]);
        if i < |entries| {
          return Some(Hit(ids[..n], entries[i].blockIds, entries[i].kv,
            if n == |ids| then entries[i].logits else None));
        }
        n := n - 1;
      }
      return None;
    }

    // ---- Pins ----

    method Pin(ids: seq<nat>)
      modifies this`pins
      ensures pins == C.Pin(old(pins), ids)
    {
      for i := 0 to |ids|
        invariant pins == C.Pin(old(pins), ids[..i])
      {
        assert ids[..i + 1][..i] == ids[..i];
        pins := pins[ids[i] := PinsOf(pins, ids[i]) + 1];
      }
      assert ids[..|ids|] == ids;
    }

    // Blocks whose last pin goes away return to the pool together, at the end.
    method Unpin(ids: seq<nat>)
      modifies this`pins, pool`free
      ensures View() == UnpinBlocks(old(View()), ids)
    {
      var toFree := [];
      for i := 0 to |ids|
        invariant (pins, toFree) == C.Unpin(old(pins), ids[..i]) && pool.View() == old(pool.View())
      {
        assert ids[..i + 1][..i] == ids[..i];
        var left := PinsOf(pins, ids[i]) - 1;
        if left <= 0 {
          pins := pins - {ids[i]};
          toFree := toFree + [ids[i]];
        } else {
          pins := pins[ids[i] := left];
        }
      }
      assert ids[..|ids|] == ids;
      if toFree != [] {
        pool.Release(toFree);
      } else {
        assert old(pool.free) + toFree == old(pool.free);
      }
    }

    // ---- References ----

    method ShareFromLive(key: Key) returns (shared: Option<seq<nat>>)
      ensures shared == C.ShareFromLive(View(), key)
    {
      var n := BlocksNeeded(pool.blockSize, |key|);
      for i := 0 to |entries|
        invariant forall j :: 0 <= j < i ==> !Shares(entries[j], key)
      {
        if entries[i].refs > 0 && entries[i].blockIds != [] && key <= entries[i].tokenIds {
          return Some(Truncate(entries[i].blockIds, n));
        }
      }
      return None;
    }

    method AcquireBlocks(i: nat)
      requires i < |entries|
      modifies this, pool`free
      ensures View() == C.AcquireBlocks(old(View()), i)
    {
      var e := entries[i];
      if e.refs > 0 {
        Pin(e.blockIds);
        entries := entries[i := e.(refs := e.refs + 1)];
        return;
      }
      var shared := ShareFromLive(e.tokenIds);
      if shared.Some? {
        Pin(shared.value);
        entries := entries[i := e.(blockIds := shared.value, refs := e.refs + 1)];
        return;
      }
      var ids := pool.Reserve(|e.tokenIds|);
      if ids.None? {
        entries := entries[i := e.(blockIds := [], refs := e.refs + 1)];
        return;
      }
      Pin(ids.value);
      entries := entries[i := e.(blockIds := ids.value, refs := e.refs + 1)];
    }

    method Lookup(ids: Key, now: int) returns (hit: Option<Hit>)
      modifies this, pool`free
      ensures (View(), hit) == C.Lookup(old(View()), ids, now)
    {
      var found := Peek(ids);
      if found.None? { return None; }
      var i := Find(entries, found.value.tokenIds);
      if i == |entries| { return None; }
      AcquireBlocks(i);
      entries := entries[i := entries[i].(lastUsed := now)];
      var e := entries[i];
      return Some(Hit(e.tokenIds, e.blockIds, e.kv, if |e.tokenIds| == |ids| then e.logits else None));
    }

    method Release(key: Option<Key>)
      modifies this, pool`free
      ensures View() == ReleasePrefix(old(View()), key)
    {
      if key.None? || key.value == [] { return; }
      var i := Find(entries, key.value);
      if i == |entries| || entries[i].refs <= 0 { return; }
      var e := entries[i];
      Unpin(e.blockIds);
      entries := entries[i := e.(refs := e.refs - 1, blockIds := if e.refs == 1 then [] else e.blockIds)];
    }

    // ---- Insertion and eviction ----

    // The least recently used entry nobody references, the earlier one of two.
    method Victim() returns (v: nat)
      ensures v == LeastUsed(entries)
    {
      v := |entries|;
      for i := 0 to |entries|
        invariant v == |entries| ==> LeastUsed(entries[..i]) == i
        invariant v != |entries| ==> v < i && LeastUsed(entries[..i]) == v
      {
        assert entries[..i + 1][..i] == entries[..i];
        if entries[i].refs == 0 && (v == |entries| || entries[i].lastUsed < entries[v].lastUsed) {
          v := i;
        }
      }
      assert entries[..|entries|] == entries;
    }

    method Evict()
      modifies this, pool`free
      ensures View() == C.Evict(old(View()))
    {
      while |entries| >= maxEntries
        invariant C.Evict(View()) == C.Evict(old(View()))
        decreases |entries|
      {
        var v := Victim();
        if v == |entries| { return; }
        Unpin(entries[v].blockIds);
        entries := Without(entries, v);
      }
    }

    method Insert(ids: Key, kv: Cache, logits: Option<Logits>, now: int)
      modifies this, pool`free
      ensures View() == C.Insert(old(View()), ids, kv, logits, now)
    {
      if SeqLen(kv) < minTokens { return; }
      var lengths := CandidateLengths(|ids|);
      for k := 0 to |lengths|
        invariant View() == InsertAll(old(View()), ids, kv, logits, lengths[..k], now)
      {
        assert lengths[..k + 1][..k] == lengths[..k];
        InsertLength(ids, kv, logits, lengths[k], now);
      }
      assert lengths[..|lengths|] == lengths;
    }

    method InsertLength(ids: Key, kv: Cache, logits: Option<Logits>, n: nat, now: int)
      modifies this, pool`free
      ensures View() == InsertOne(old(View()), ids, kv, logits, n, now)
    {
      if n > SeqLen(kv) || n > |ids| { return; }
      if Find(entries, ids[..n]) < |entries| { return; }
      Evict();
      if |entries| >= maxEntries { return; }
      var copy := SliceCache(kv, n);
      entries := entries + [Entry(ids[..n], copy, if n == |ids| then logits else None, [], 0, now)];
    }

    method Adopt(q: Record, now: int)
      modifies this, pool, q`blockIds, q`ownedBlockIds, q`prefixKey
      ensures (View(), q.View()) == C.Adopt(old(View()), old(q.View()), now)
    {
      hide Adopted, C.AcquireBlocks, C.CandidateLengths;
      if q.prefixKey.Some? { return; }
      var ids := q.req.prompt;
      var lengths := CandidateLengths(|ids|);
      if lengths == [] || lengths[0] > |ids| { return; }
      var key := ids[..lengths[0]];
      var i := Find(entries, key);
      if i == |entries| { return; }
      if entries[i].refs > 0 {
        AcquireBlocks(i);
        q.prefixKey := Some(key);
        return;
      }
      AdoptFresh(q, i, key, now);
    }

    method Rebind(q: Record, key: Key, taken: seq<nat>, owned: seq<nat>)
      modifies q`blockIds, q`ownedBlockIds, q`prefixKey
      ensures q.View() == old(q.View()).(prefixKey := Some(key), ownedBlockIds := owned, blockIds := taken + owned)
    {
      q.prefixKey := Some(key);
      q.ownedBlockIds := owned;
      q.blockIds := taken + owned;
    }

    // Nobody references the entry yet: the front of the sequence's own blocks moves under it.
    method AdoptFresh(q: Record, i: nat, key: Key, now: int)
      requires i < |entries| && q.prefixKey.None? && |key| <= |q.req.prompt|
      modifies this, pool, q`blockIds, q`ownedBlockIds, q`prefixKey
      ensures (View(), q.View()) == Adopted(old(View()), old(q.View()), i, key, now)
    {
      var e := entries[i];
      var taken := pool.Detach(q, BlocksNeeded(pool.blockSize, |e.tokenIds|));
      Pin(taken);
      entries := entries[i := e.(blockIds := taken, refs := 1, lastUsed := now)];
      Rebind(q, key, taken, if q.id in pool.alloc then pool.alloc[q.id] else []);
    }
  }
}
