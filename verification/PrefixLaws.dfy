// What every prefix cache operation keeps: block conservation together with the pool, exact pin
// counts, and reference counts that move only by the reference taken or given back.
module PrefixLaws {
  import opened Common
  import opened KvCache
  import opened LanguageModel
  import opened Sequences
  import opened BlockPool
  import opened PrefixCache

  // ---- The invariant ----

  function Weight(e: Entry, b: nat): nat {
    e.refs * multiset(e.blockIds)[b]
  }

  // References to entries that list the block.
  function PinSum(entries: seq<Entry>, b: nat): nat {
    if entries == [] then 0 else PinSum(entries[..|entries| - 1], b) + Weight(entries[|entries| - 1], b)
  }

  ghost predicate PinsExact(entries: seq<Entry>, pins: map<nat, nat>) {
    && (forall b: nat :: PinsOf(pins, b) == PinSum(entries, b))
    && (forall b :: b in pins ==> pins[b] > 0)
  }

  ghost predicate EntryOk(c: Prefixes, blockSize: Pos, e: Entry) {
    && |e.tokenIds| >= c.minTokens
    && (e.refs == 0 ==> e.blockIds == [])
    && (e.blockIds == [] || |e.blockIds| == BlocksNeeded(blockSize, |e.tokenIds|))
  }

  ghost predicate Distinct(entries: seq<Entry>) {
    forall i, j :: 0 <= i < j < |entries| ==> entries[i].tokenIds != entries[j].tokenIds
  }

  ghost predicate EntriesOk(c: Prefixes, blockSize: Pos) {
    && Distinct(c.entries)
    && |c.entries| <= c.maxEntries
    && forall i :: 0 <= i < |c.entries| ==> EntryOk(c, blockSize, c.entries[i])
  }

  // A block that two entries list is at the same place in both, and one key starts with the other:
  // so it stands for the same tokens in both. No entry lists a block twice.
  ghost predicate OnlyRelativesShare(entries: seq<Entry>) {
    forall i, j, x, y ::
      0 <= i < |entries| && 0 <= j < |entries| && 0 <= x < |entries[i].blockIds| && 0 <= y < |entries[j].blockIds|
      && entries[i].blockIds[x] == entries[j].blockIds[y]
      ==> x == y && (entries[i].tokenIds <= entries[j].tokenIds || entries[j].tokenIds <= entries[i].tokenIds)
  }

  ghost predicate Inv(m: Memory) {
    && EntriesOk(m.cache, m.pool.blockSize)
    && OnlyRelativesShare(m.cache.entries)
    && PinsExact(m.cache.entries, m.cache.pins)
    && Conserved(m.pool, m.cache.pins.Keys, [])
  }

  function RefsOf(c: Prefixes, key: Key): nat {
    var i := Find(c.entries, key);
    if i < |c.entries| then c.entries[i].refs else 0
  }

  // The blocks the stored entry carries.
  function EntryBlocks(c: Prefixes, key: Key): seq<nat> {
    var i := Find(c.entries, key);
    if i < |c.entries| then c.entries[i].blockIds else []
  }

  // Fixed at construction.
  ghost predicate SameConfig(m: Memory, m': Memory) {
    && m'.pool.numBlocks == m.pool.numBlocks && m'.pool.blockSize == m.pool.blockSize
    && m'.cache.maxEntries == m.cache.maxEntries && m'.cache.minTokens == m.cache.minTokens
    && m'.cache.blockSize == m.cache.blockSize
  }

  // An operation that only moves references and blocks: keys, KV and logits stay.
  ghost predicate SameContents(a: seq<Entry>, b: seq<Entry>) {
    && |a| == |b|
    && forall i :: 0 <= i < |a| ==> a[i].tokenIds == b[i].tokenIds && a[i].kv == b[i].kv && a[i].logits == b[i].logits
  }

  // ---- Sums ----

  lemma {:induction false} PinSumUpdate(entries: seq<Entry>, i: nat, e: Entry, b: nat)
    requires i < |entries|
    ensures PinSum(entries[i := e], b) == PinSum(entries, b) - Weight(entries[i], b) + Weight(e, b)
  {
    var k := |entries| - 1;
    if i == k {
      assert entries[i := e][..k] == entries[..k];
    } else {
      PinSumUpdate(entries[..k], i, e, b);
      assert entries[i := e][..k] == entries[..k][i := e];
    }
  }

  lemma {:induction false} PinSumRemove(entries: seq<Entry>, i: nat, b: nat)
    requires i < |entries|
    ensures PinSum(Without(entries, i), b) == PinSum(entries, b) - Weight(entries[i], b)
  {
    var k := |entries| - 1;
    var rest := Without(entries, i);
    if i == k {
      assert rest == entries[..k];
    } else {
      PinSumRemove(entries[..k], i, b);
      assert rest[..k - 1] == Without(entries[..k], i);
      assert rest[k - 1] == entries[k];
    }
  }

  lemma {:induction false} PinSumAtLeast(entries: seq<Entry>, i: nat, b: nat)
    requires i < |entries|
    ensures PinSum(entries, b) >= Weight(entries[i], b)
  {
    var k := |entries| - 1;
    if i < k { PinSumAtLeast(entries[..k], i, b); }
  }

  // A sum is positive exactly when some referenced entry lists the block.
  lemma {:induction false} PinSumPositive(entries: seq<Entry>, b: nat)
    ensures PinSum(entries, b) > 0 <==>
      exists i :: 0 <= i < |entries| && entries[i].refs > 0 && b in entries[i].blockIds
  {
    if entries != [] {
      var k := |entries| - 1;
      PinSumPositive(entries[..k], b);
      assert forall i :: 0 <= i < k ==> entries[..k][i] == entries[i];
      assert b in entries[k].blockIds <==> b in multiset(entries[k].blockIds);
      assert Weight(entries[k], b) > 0 <==> entries[k].refs > 0 && multiset(entries[k].blockIds)[b] > 0;
    }
  }

  // ---- Pins ----

  lemma {:induction false} PinAdds(pins: map<nat, nat>, ids: seq<nat>, b: nat)
    requires forall x :: x in pins ==> pins[x] > 0
    ensures PinsOf(Pin(pins, ids), b) == PinsOf(pins, b) + multiset(ids)[b]
    ensures forall x :: x in Pin(pins, ids) ==> Pin(pins, ids)[x] > 0
  {
    if ids != [] {
      var k := |ids| - 1;
      PinAdds(pins, ids[..k], b);
      assert ids == ids[..k] + [ids[k]];
    }
  }

  lemma {:induction false} UnpinSubtracts(pins: map<nat, nat>, ids: seq<nat>, b: nat)
    requires forall x :: x in pins ==> pins[x] > 0
    requires forall x: nat :: multiset(ids)[x] <= PinsOf(pins, x)
    ensures var (pins', toFree) := Unpin(pins, ids);
      && PinsOf(pins', b) == PinsOf(pins, b) - multiset(ids)[b]
      && (forall x :: x in pins' ==> pins'[x] > 0)
      && multiset(toFree)[b] == (if b in pins && b !in pins' then 1 else 0)
      && pins'.Keys <= pins.Keys
  {
    if ids != [] {
      var k := |ids| - 1;
      assert ids == ids[..k] + [ids[k]];
      assert forall x: nat :: multiset(ids[..k])[x] <= multiset(ids)[x];
      UnpinSubtracts(pins, ids[..k], b);
      if ids[k] != b { UnpinSubtracts(pins, ids[..k], ids[k]); }
    }
  }

  // Pinning blocks in hand puts them under the prefix cache.
  lemma PinConserves(p: Pool, pins: map<nat, nat>, ids: seq<nat>)
    requires forall x :: x in pins ==> pins[x] > 0
    requires Conserved(p, pins.Keys, ids)
    ensures Conserved(p, Pin(pins, ids).Keys, [])
  {
    forall b: nat ensures Places(p, Pin(pins, ids).Keys, [], b) == Places(p, pins.Keys, ids, b) {
      PinAdds(pins, ids, b);
      assert Places(p, pins.Keys, ids, b) <= 1;
    }
  }

  // Pinning blocks that are already pinned moves nothing.
  lemma PinAgainConserves(p: Pool, pins: map<nat, nat>, ids: seq<nat>)
    requires forall x :: x in pins ==> pins[x] > 0
    requires forall b :: b in ids ==> b in pins
    requires Conserved(p, pins.Keys, [])
    ensures Conserved(p, Pin(pins, ids).Keys, [])
  {
    forall b: nat ensures b in Pin(pins, ids) <==> b in pins {
      PinAdds(pins, ids, b);
      assert b in ids <==> multiset(ids)[b] > 0;
    }
    assert Pin(pins, ids).Keys == pins.Keys;
  }

  lemma UnpinConserves(m: Memory, ids: seq<nat>)
    requires forall x :: x in m.cache.pins ==> m.cache.pins[x] > 0
    requires forall x: nat :: multiset(ids)[x] <= PinsOf(m.cache.pins, x)
    requires Conserved(m.pool, m.cache.pins.Keys, [])
    ensures Conserved(UnpinBlocks(m, ids).pool, UnpinBlocks(m, ids).cache.pins.Keys, [])
  {
    var (pins', toFree) := Unpin(m.cache.pins, ids);
    forall b: nat ensures Places(m.pool, pins'.Keys, toFree, b) == Places(m.pool, m.cache.pins.Keys, [], b) {
      UnpinSubtracts(m.cache.pins, ids, b);
    }
    ReleaseConserves(m.pool, pins'.Keys, toFree);
  }

  // ---- Who shares blocks ----

  lemma SharersAreRelated(m: Memory, e: Entry, f: Entry, x: nat, y: nat)
    requires Inv(m) && e in m.cache.entries && f in m.cache.entries
    requires x < |e.blockIds| && y < |f.blockIds| && e.blockIds[x] == f.blockIds[y]
    ensures x == y && (e.tokenIds <= f.tokenIds || f.tokenIds <= e.tokenIds) && e.refs > 0 && f.refs > 0
  {
    hide Conserved, PinsExact;
    var i :| 0 <= i < |m.cache.entries| && m.cache.entries[i] == e;
    var j :| 0 <= j < |m.cache.entries| && m.cache.entries[j] == f;
    assert EntryOk(m.cache, m.pool.blockSize, m.cache.entries[i]);
    assert EntryOk(m.cache, m.pool.blockSize, m.cache.entries[j]);
  }

  // Entries keep their blocks or give them up.
  lemma RelativesStay(a: seq<Entry>, b: seq<Entry>)
    requires OnlyRelativesShare(a) && |b| == |a|
    requires forall i :: 0 <= i < |a| ==>
      b[i].tokenIds == a[i].tokenIds && (b[i].blockIds == a[i].blockIds || b[i].blockIds == [])
    ensures OnlyRelativesShare(b)
  {
  }

  // Entry i is given blocks; those that others list too are at their places in relatives.
  lemma RelativesUpdate(entries: seq<Entry>, i: nat, e: Entry)
    requires OnlyRelativesShare(entries) && i < |entries| && NoDup(e.blockIds)
    requires forall j, x, y :: (
      0 <= j < |entries| && j != i && 0 <= x < |e.blockIds| && 0 <= y < |entries[j].blockIds|
      && e.blockIds[x] == entries[j].blockIds[y]
      ==> x == y && (e.tokenIds <= entries[j].tokenIds || entries[j].tokenIds <= e.tokenIds))
    ensures OnlyRelativesShare(entries[i := e])
  {
  }

  // Blocks the prefix cache does not hold yet are listed by nobody.
  lemma RelativesFresh(m: Memory, i: nat, e: Entry)
    requires Inv(m) && i < |m.cache.entries| && NoDup(e.blockIds)
    requires forall b :: b in e.blockIds ==> b !in m.cache.pins
    ensures OnlyRelativesShare(m.cache.entries[i := e])
  {
    hide Conserved;
    var entries := m.cache.entries;
    forall j, x, y | 0 <= j < |entries| && j != i && 0 <= x < |e.blockIds| && 0 <= y < |entries[j].blockIds|
      ensures e.blockIds[x] != entries[j].blockIds[y]
    {
      assert EntryOk(m.cache, m.pool.blockSize, entries[j]);
      ListedIsPinned(entries, m.cache.pins, j, entries[j].blockIds[y]);
      assert e.blockIds[x] in e.blockIds;
    }
    RelativesUpdate(entries, i, e);
  }

  // The front of a relative's blocks.
  lemma RelativesBorrow(entries: seq<Entry>, i: nat, e: Entry, j: nat, n: nat)
    requires OnlyRelativesShare(entries) && i < |entries| && j < |entries| && n <= |entries[j].blockIds|
    requires e.tokenIds <= entries[j].tokenIds && e.blockIds == entries[j].blockIds[..n]
    ensures OnlyRelativesShare(entries[i := e])
  {
    forall x, y | 0 <= x < y < |e.blockIds| ensures e.blockIds[x] != e.blockIds[y] {
      assert entries[j].blockIds[x] != entries[j].blockIds[y];
    }
    forall k, x, y | 0 <= k < |entries| && k != i && 0 <= x < |e.blockIds| && 0 <= y < |entries[k].blockIds|
        && e.blockIds[x] == entries[k].blockIds[y]
      ensures x == y && (e.tokenIds <= entries[k].tokenIds || entries[k].tokenIds <= e.tokenIds)
    {
      assert entries[j].blockIds[x] == entries[k].blockIds[y];
    }
    RelativesUpdate(entries, i, e);
  }

  // ---- Taking a reference ----

  // What AcquireBlocks and the reference half of Adopt do to entry i.
  ghost predicate TookRef(m: Memory, i: nat, m': Memory) {
    && i < |m.cache.entries| == |m'.cache.entries|
    && SameConfig(m, m') && SameContents(m.cache.entries, m'.cache.entries)
    && m'.cache.entries[i].refs == m.cache.entries[i].refs + 1
    && (forall j :: 0 <= j < |m.cache.entries| && j != i ==> m'.cache.entries[j] == m.cache.entries[j])
  }

  lemma SetEntryOk(c: Prefixes, blockSize: Pos, i: nat, e: Entry, pins: map<nat, nat>)
    requires EntriesOk(c, blockSize) && i < |c.entries|
    requires EntryOk(c, blockSize, e) && e.tokenIds == c.entries[i].tokenIds
    ensures EntriesOk(SetEntry(c, i, e, pins), blockSize)
  {
  }

  // The blocks of a referenced entry are pinned.
  lemma ListedIsPinned(entries: seq<Entry>, pins: map<nat, nat>, i: nat, b: nat)
    requires PinsExact(entries, pins) && i < |entries| && entries[i].refs > 0 && b in entries[i].blockIds
    ensures b in pins
  {
    PinSumPositive(entries, b);
    assert PinsOf(pins, b) == PinSum(entries, b);
  }

  lemma OneMoreRef(e: Entry, b: nat)
    ensures Weight(e.(refs := e.refs + 1), b) == Weight(e, b) + multiset(e.blockIds)[b]
  {
    var c := multiset(e.blockIds)[b];
    assert (e.refs + 1) * c == e.refs * c + c;
  }

  // Replacing an entry by one that lists `ids` once more, with those ids pinned once more.
  lemma PinEntry(entries: seq<Entry>, pins: map<nat, nat>, i: nat, e: Entry, ids: seq<nat>)
    requires PinsExact(entries, pins) && i < |entries|
    requires forall b: nat :: Weight(e, b) == Weight(entries[i], b) + multiset(ids)[b]
    ensures PinsExact(entries[i := e], Pin(pins, ids))
  {
    forall b: nat ensures PinsOf(Pin(pins, ids), b) == PinSum(entries[i := e], b) {
      PinAdds(pins, ids, b);
      PinSumUpdate(entries, i, e, b);
    }
    PinAdds(pins, ids, 0);
  }

  lemma AcquireAgain(m: Memory, i: nat)
    requires Inv(m) && i < |m.cache.entries| && m.cache.entries[i].refs > 0
    ensures Inv(AcquireBlocks(m, i)) && TookRef(m, i, AcquireBlocks(m, i))
    ensures AcquireBlocks(m, i).pool == m.pool
    ensures AcquireBlocks(m, i).cache.entries[i].blockIds == m.cache.entries[i].blockIds
  {
    hide OnlyRelativesShare;
    var c, e := m.cache, m.cache.entries[i];
    var e' := e.(refs := e.refs + 1);
    RelativesStay(c.entries, c.entries[i := e']);
    forall b: nat ensures Weight(e', b) == Weight(e, b) + multiset(e.blockIds)[b] { OneMoreRef(e, b); }
    PinEntry(c.entries, c.pins, i, e', e.blockIds);
    SetEntryOk(c, m.pool.blockSize, i, e', Pin(c.pins, e.blockIds));
    forall b | b in e.blockIds ensures b in c.pins { ListedIsPinned(c.entries, c.pins, i, b); }
    PinAgainConserves(m.pool, c.pins, e.blockIds);
  }

  // A live relative lends the right number of blocks, all of them pinned.
  lemma SharedBlocks(m: Memory, key: Key)
    requires EntriesOk(m.cache, m.pool.blockSize) && PinsExact(m.cache.entries, m.cache.pins)
    requires ShareFromLive(m, key).Some?
    ensures |ShareFromLive(m, key).value| == BlocksNeeded(m.pool.blockSize, |key|)
    ensures forall b :: b in ShareFromLive(m, key).value ==> b in m.cache.pins
  {
    var j := FirstSharer(m.cache.entries, key);
    var other := m.cache.entries[j];
    assert EntryOk(m.cache, m.pool.blockSize, other);
    BlocksMonotone(m.pool.blockSize, |key|, |other.tokenIds|);
    forall b | b in ShareFromLive(m, key).value ensures b in m.cache.pins {
      assert b in other.blockIds;
      ListedIsPinned(m.cache.entries, m.cache.pins, j, b);
    }
  }

  // The blocks come from a relative: some referenced entry with blocks whose key starts with this one.
  lemma LentExactlyWhenRelated(m: Memory, key: Key)
    ensures ShareFromLive(m, key).Some? <==>
      exists e :: e in m.cache.entries && e.refs > 0 && e.blockIds != [] && key <= e.tokenIds
  {
    var entries := m.cache.entries;
    var i := FirstSharer(entries, key);
    if i < |entries| { assert entries[i] in entries; }
  }

  // The first such entry lends the front of its blocks.
  lemma LentByFirstRelative(m: Memory, key: Key, i: nat)
    requires EntriesOk(m.cache, m.pool.blockSize) && i < |m.cache.entries|
    requires var e := m.cache.entries[i]; e.refs > 0 && e.blockIds != [] && key <= e.tokenIds
    requires forall e :: e in m.cache.entries[..i] ==> e.refs == 0 || e.blockIds == [] || !(key <= e.tokenIds)
    ensures var need := BlocksNeeded(m.pool.blockSize, |key|);
      need <= |m.cache.entries[i].blockIds| && ShareFromLive(m, key) == Some(m.cache.entries[i].blockIds[..need])
  {
    var entries, j := m.cache.entries, FirstSharer(m.cache.entries, key);
    assert forall k :: 0 <= k < i ==> entries[k] in entries[..i];
    assert Shares(entries[i], key);
    assert EntryOk(m.cache, m.pool.blockSize, entries[i]);
    BlocksMonotone(m.pool.blockSize, |key|, |entries[i].tokenIds|);
  }

  // The blocks an entry gets with its first reference: a relative's, or else the front of the free
  // list, or none when too few are free.
  lemma FirstReferenceBlocks(m: Memory, i: nat)
    requires Inv(m) && i < |m.cache.entries| && m.cache.entries[i].refs == 0
    ensures var m', key := AcquireBlocks(m, i), m.cache.entries[i].tokenIds;
      var got, need := m'.cache.entries[i].blockIds, BlocksNeeded(m.pool.blockSize, |key|);
      if exists e :: e in m.cache.entries && e.refs > 0 && e.blockIds != [] && key <= e.tokenIds
      then m'.pool == m.pool && |got| == need
        && exists e :: e in m.cache.entries && e.refs > 0 && key <= e.tokenIds && got <= e.blockIds
      else if need <= |m.pool.free| then |got| == need && got + m'.pool.free == m.pool.free
      else m'.pool == m.pool && got == []
  {
    hide Inv, Pin;
    var key := m.cache.entries[i].tokenIds;
    LentExactlyWhenRelated(m, key);
    if ShareFromLive(m, key).Some? { LentFront(m, i); }
  }

  lemma LentFront(m: Memory, i: nat)
    requires Inv(m) && i < |m.cache.entries| && m.cache.entries[i].refs == 0
    requires ShareFromLive(m, m.cache.entries[i].tokenIds).Some?
    ensures var key, lent := m.cache.entries[i].tokenIds, ShareFromLive(m, m.cache.entries[i].tokenIds).value;
      && |lent| == BlocksNeeded(m.pool.blockSize, |key|)
      && exists e :: e in m.cache.entries && e.refs > 0 && key <= e.tokenIds && lent <= e.blockIds
  {
    var entries, key := m.cache.entries, m.cache.entries[i].tokenIds;
    var j := FirstSharer(entries, key);
    SharedBlocks(m, key);
    assert entries[j] in entries;
    assert ShareFromLive(m, key).value <= entries[j].blockIds;
  }

  lemma AcquireShared(m: Memory, i: nat)
    requires Inv(m) && i < |m.cache.entries| && m.cache.entries[i].refs == 0
    requires ShareFromLive(m, m.cache.entries[i].tokenIds).Some?
    ensures Inv(AcquireBlocks(m, i)) && TookRef(m, i, AcquireBlocks(m, i))
    ensures AcquireBlocks(m, i).pool == m.pool
  {
    hide OnlyRelativesShare;
    var c, e := m.cache, m.cache.entries[i];
    var shared: seq<nat> := ShareFromLive(m, e.tokenIds).value;
    SharedBlocks(m, e.tokenIds);
    var e' := e.(blockIds := shared, refs := e.refs + 1);
    RelativesBorrow(c.entries, i, e', FirstSharer(c.entries, e.tokenIds), |shared|);
    forall b: nat ensures Weight(e', b) == Weight(e, b) + multiset(shared)[b] { }
    PinEntry(c.entries, c.pins, i, e', shared);
    SetEntryOk(c, m.pool.blockSize, i, e', Pin(c.pins, shared));
    PinAgainConserves(m.pool, c.pins, shared);
  }

  lemma FreeIsFresh(p: Pool, pinned: set<nat>, n: nat)
    requires Conserved(p, pinned, []) && n <= |p.free|
    ensures NoDup(p.free[..n]) && forall b :: b in p.free[..n] ==> b !in pinned
  {
    hide Conserved;
    ConservedIsPartition(p, pinned);
  }

  lemma AcquireReserved(m: Memory, i: nat)
    requires Inv(m) && i < |m.cache.entries| && m.cache.entries[i].refs == 0
    requires ShareFromLive(m, m.cache.entries[i].tokenIds).None?
    ensures Inv(AcquireBlocks(m, i)) && TookRef(m, i, AcquireBlocks(m, i))
    ensures AcquireBlocks(m, i).pool == m.pool.(free := AcquireBlocks(m, i).pool.free)
    ensures |AcquireBlocks(m, i).pool.free| == |m.pool.free| - |AcquireBlocks(m, i).cache.entries[i].blockIds|
  {
    hide OnlyRelativesShare, Conserved;
    var c, e := m.cache, m.cache.entries[i];
    match Reserve(m.pool, |e.tokenIds|)
    case None =>
      var e' := e.(blockIds := [], refs := e.refs + 1);
      RelativesStay(c.entries, c.entries[i := e']);
      forall b: nat ensures Weight(e', b) == Weight(e, b) + multiset{}[b] { }
      PinEntry(c.entries, c.pins, i, e', []);
      SetEntryOk(c, m.pool.blockSize, i, e', c.pins);
    case Some((pool, ids)) =>
      ReserveConserves(m.pool, c.pins.Keys, |e.tokenIds|);
      var e' := e.(blockIds := ids, refs := e.refs + 1);
      FreeIsFresh(m.pool, c.pins.Keys, |ids|);
      RelativesFresh(m, i, e');
      forall b: nat ensures Weight(e', b) == Weight(e, b) + multiset(ids)[b] { }
      PinEntry(c.entries, c.pins, i, e', ids);
      SetEntryOk(c, m.pool.blockSize, i, e', Pin(c.pins, ids));
      PinConserves(pool, c.pins, ids);
  }

  lemma AcquireKeeps(m: Memory, i: nat)
    requires Inv(m) && i < |m.cache.entries|
    ensures Inv(AcquireBlocks(m, i)) && TookRef(m, i, AcquireBlocks(m, i))
    ensures AcquireBlocks(m, i).pool == m.pool.(free := AcquireBlocks(m, i).pool.free)
  {
    if m.cache.entries[i].refs > 0 {
      AcquireAgain(m, i);
    } else if ShareFromLive(m, m.cache.entries[i].tokenIds).Some? {
      AcquireShared(m, i);
    } else {
      AcquireReserved(m, i);
    }
  }

  // ---- Giving a reference back ----

  // Entry i loses one reference and, with the last one, its blocks.
  ghost predicate GaveRef(m: Memory, i: nat, m': Memory) {
    && i < |m.cache.entries| == |m'.cache.entries|
    && SameConfig(m, m') && SameContents(m.cache.entries, m'.cache.entries)
    && m'.cache.entries[i].refs == m.cache.entries[i].refs - 1
    && m'.pool.alloc == m.pool.alloc
    && (forall j :: 0 <= j < |m.cache.entries| && j != i ==> m'.cache.entries[j] == m.cache.entries[j])
  }

  lemma OneLessRef(e: Entry, b: nat)
    requires e.refs > 0
    ensures Weight(e.(refs := e.refs - 1, blockIds := if e.refs == 1 then [] else e.blockIds), b)
         == Weight(e, b) - multiset(e.blockIds)[b]
  {
    var c := multiset(e.blockIds)[b];
    assert (e.refs - 1) * c == e.refs * c - c;
  }

  lemma UnpinFits(entries: seq<Entry>, pins: map<nat, nat>, i: nat)
    requires PinsExact(entries, pins) && i < |entries| && entries[i].refs > 0
    ensures forall b: nat :: multiset(entries[i].blockIds)[b] <= PinsOf(pins, b)
  {
    forall b: nat ensures multiset(entries[i].blockIds)[b] <= PinsOf(pins, b) {
      PinSumAtLeast(entries, i, b);
      OneLessRef(entries[i], b);
      assert PinsOf(pins, b) == PinSum(entries, b);
    }
  }

  // The sums after the reference is gone.
  lemma ReleasedPins(m: Memory, i: nat, e: Entry)
    requires PinsExact(m.cache.entries, m.cache.pins) && i < |m.cache.entries| && m.cache.entries[i].refs > 0
    requires var o := m.cache.entries[i];
      e == o.(refs := o.refs - 1, blockIds := if o.refs == 1 then [] else o.blockIds)
    ensures PinsExact(m.cache.entries[i := e], UnpinBlocks(m, m.cache.entries[i].blockIds).cache.pins)
  {
    var c, ids := m.cache, m.cache.entries[i].blockIds;
    UnpinFits(c.entries, c.pins, i);
    var u := UnpinBlocks(m, ids);
    forall b: nat ensures PinsOf(u.cache.pins, b) == PinSum(c.entries[i := e], b) {
      UnpinSubtracts(c.pins, ids, b);
      PinSumUpdate(c.entries, i, e, b);
      OneLessRef(c.entries[i], b);
      assert PinsOf(c.pins, b) == PinSum(c.entries, b);
    }
    UnpinSubtracts(c.pins, ids, 0);
  }

  lemma ReleaseKeeps(m: Memory, key: Key)
    requires Inv(m) && key != [] && Has(m.cache, key) && RefsOf(m.cache, key) > 0
    ensures Inv(ReleasePrefix(m, Some(key)))
    ensures GaveRef(m, Find(m.cache.entries, key), ReleasePrefix(m, Some(key)))
  {
    hide OnlyRelativesShare, Conserved, Unpin;
    var c := m.cache;
    var i := Find(c.entries, key);
    var e := c.entries[i];
    var e' := e.(refs := e.refs - 1, blockIds := if e.refs == 1 then [] else e.blockIds);
    var u := UnpinBlocks(m, e.blockIds);
    RelativesStay(c.entries, c.entries[i := e']);
    ReleasedPins(m, i, e');
    UnpinFits(c.entries, c.pins, i);
    UnpinConserves(m, e.blockIds);
    SetEntryOk(c, m.pool.blockSize, i, e', u.cache.pins);
  }

  // A block goes back to the pool exactly when no referenced entry, not even a nested shorter or
  // longer prefix, lists it any more.
  lemma FreedWithLastHolder(m: Memory, key: Key, b: nat)
    requires Inv(m) && key != [] && Has(m.cache, key) && RefsOf(m.cache, key) > 0
    requires b in m.cache.pins
    ensures var m' := ReleasePrefix(m, Some(key));
      b in m'.pool.free <==>
        forall i :: 0 <= i < |m'.cache.entries| && m'.cache.entries[i].refs > 0 ==> b !in m'.cache.entries[i].blockIds
  {
    var m' := ReleasePrefix(m, Some(key));
    ReleaseKeeps(m, key);
    PinSumPositive(m'.cache.entries, b);
    assert PinsOf(m'.cache.pins, b) == PinSum(m'.cache.entries, b);
    assert Places(m.pool, m.cache.pins.Keys, [], b) == 1 && b < m.pool.numBlocks;
    assert Places(m'.pool, m'.cache.pins.Keys, [], b) == 1;
    assert b in m'.pool.free <==> b in multiset(m'.pool.free);
  }
}
