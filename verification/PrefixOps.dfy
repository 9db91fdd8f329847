// The whole operations of the prefix cache: lookup, insertion with eviction, adoption.
module PrefixOps {
  import opened Common
  import opened KvCache
  import opened LanguageModel
  import opened Sequences
  import opened BlockPool
  import opened PrefixCache
  import opened PrefixLaws

  // A stored entry holds the KV of its own token ids and, if present, their logits.
  ghost predicate Means(lm: Lm, e: Entry) {
    && e.kv == KvOf(lm, e.tokenIds)
    && (e.logits.Some? ==> e.tokenIds != [] && e.logits.value == LogitsOf(lm, e.tokenIds))
  }

  ghost predicate AllMean(lm: Lm, entries: seq<Entry>) {
    forall i :: 0 <= i < |entries| ==> Means(lm, entries[i])
  }

  // Reference counts before and after an operation that takes (+1) or gives back (-1) one
  // reference to `key`, or moves none.
  ghost predicate RefsMove(c: Prefixes, c': Prefixes, taken: Option<Key>, given: Option<Key>) {
    forall k :: RefsOf(c', k) ==
      RefsOf(c, k) + (if taken == Some(k) then 1 else 0) - (if given == Some(k) then 1 else 0)
  }

  lemma FindStable(a: seq<Entry>, b: seq<Entry>, key: Key)
    requires SameContents(a, b)
    ensures Find(a, key) == Find(b, key)
  {
    assert forall i :: 0 <= i < |a| ==> a[i].tokenIds == b[i].tokenIds;
  }

  lemma FindAt(c: Prefixes, i: nat)
    requires Distinct(c.entries) && i < |c.entries|
    ensures Find(c.entries, c.entries[i].tokenIds) == i
  {
  }

  lemma TookRefMoves(m: Memory, i: nat, m': Memory)
    requires Distinct(m.cache.entries) && TookRef(m, i, m')
    ensures RefsMove(m.cache, m'.cache, Some(m.cache.entries[i].tokenIds), None)
  {
    forall k ensures RefsOf(m'.cache, k) == RefsOf(m.cache, k) + (if m.cache.entries[i].tokenIds == k then 1 else 0) {
      FindStable(m.cache.entries, m'.cache.entries, k);
    }
  }

  lemma GaveRefMoves(m: Memory, i: nat, m': Memory)
    requires Distinct(m.cache.entries) && GaveRef(m, i, m')
    ensures RefsMove(m.cache, m'.cache, None, Some(m.cache.entries[i].tokenIds))
  {
    forall k ensures RefsOf(m'.cache, k) == RefsOf(m.cache, k) - (if m.cache.entries[i].tokenIds == k then 1 else 0) {
      FindStable(m.cache.entries, m'.cache.entries, k);
    }
  }

  lemma ContentsMean(lm: Lm, a: seq<Entry>, b: seq<Entry>)
    requires SameContents(a, b) && AllMean(lm, a)
    ensures AllMean(lm, b)
  {
    forall i | 0 <= i < |b| ensures Means(lm, b[i]) { assert Means(lm, a[i]); }
  }

  // ---- peek ----

  // peek returns the longest stored key that is a prefix of the ids, and only misses when no
  // stored key of at least min_tokens is one.
  lemma {:induction false} PeekFromIsLongest(c: Prefixes, ids: Key, n: nat)
    requires n <= |ids|
    ensures PeekFrom(c, ids, n).None? <==> forall k: nat :: c.minTokens <= k <= n ==> !Has(c, ids[..k])
    ensures PeekFrom(c, ids, n).Some? ==>
      var hit := PeekFrom(c, ids, n).value;
      var len := |hit.tokenIds|;
      && c.minTokens <= len <= n && hit.tokenIds == ids[..len] && Has(c, ids[..len])
      && hit.kv == c.entries[Find(c.entries, hit.tokenIds)].kv
      && forall k: nat :: len < k <= n ==> !Has(c, ids[..k])
  {
    if n >= c.minTokens && !Has(c, ids[..n]) {
      PeekFromIsLongest(c, ids, n - 1);
    }
  }

  // ---- candidate_lengths ----

  ghost predicate WholeBlocks(c: Prefixes, k: nat, blocks: nat) {
    exists j: nat :: j <= blocks && k == j * c.blockSize
  }

  lemma {:induction false} AlignedDownLengths(c: Prefixes, blocks: nat, lengths: seq<nat>)
    requires NoDup(lengths)
    ensures var out := AlignedDown(c, blocks, lengths);
      && NoDup(out) && lengths <= out
      && forall k :: k in out <==> k in lengths || (k >= c.minTokens && WholeBlocks(c, k, blocks))
  {
    var aligned := blocks * c.blockSize;
    if aligned < c.minTokens || blocks == 0 {
      forall k: nat | WholeBlocks(c, k, blocks) ensures k < c.minTokens {
        var j: nat :| j <= blocks && k == j * c.blockSize;
        Scale(j, blocks, c.blockSize);
      }
    } else {
      var longer := if aligned !in lengths then lengths + [aligned] else lengths;
      AlignedDownLengths(c, blocks - 1, longer);
      forall k: nat ensures WholeBlocks(c, k, blocks) <==> k == aligned || WholeBlocks(c, k, blocks - 1) {
        if k == aligned { assert blocks <= blocks && k == blocks * c.blockSize; }
      }
    }
  }

  // Prefixes are stored at the full length and at every whole number of blocks up to it.
  lemma CandidateLengthsAre(c: Prefixes, n: nat)
    ensures var out := CandidateLengths(c, n);
      && NoDup(out)
      && (forall k :: k in out <==> c.minTokens <= k <= n && (k == n || WholeBlocks(c, k, n / c.blockSize)))
      && (out != [] ==> out[0] == n) && (out == [] <==> n < c.minTokens)
  {
    var out := CandidateLengths(c, n);
    var start := if n >= c.minTokens then [n] else [];
    AlignedDownLengths(c, n / c.blockSize, start);
    forall k: nat | WholeBlocks(c, k, n / c.blockSize) ensures k <= n {
      var j: nat :| j <= n / c.blockSize && k == j * c.blockSize;
      Scale(j, n / c.blockSize, c.blockSize);
      assert (n / c.blockSize) * c.blockSize + n % c.blockSize == n;
    }
    assert out != [] ==> out[0] in out;
  }

  // ---- lookup ----

  // A lookup takes one reference to the longest stored prefix; everything else stays.
  lemma LookupKeeps(lm: Lm, m: Memory, ids: Key, now: int)
    requires Inv(m) && AllMean(lm, m.cache.entries)
    ensures var (m', hit) := Lookup(m, ids, now);
      && Inv(m') && SameConfig(m, m') && AllMean(lm, m'.cache.entries)
      && m'.pool == m.pool.(free := m'.pool.free)
      && RefsMove(m.cache, m'.cache, if hit.Some? then Some(hit.value.tokenIds) else None, None)
      && (hit.None? <==> Peek(m.cache, ids).None?) && (hit.None? ==> m' == m)
      && (hit.Some? ==>
        var key := hit.value.tokenIds;
        && key == Peek(m.cache, ids).value.tokenIds && Has(m'.cache, key)
        && m.cache.minTokens <= |key| <= |ids| && key == ids[..|key|]
        && hit.value.kv == KvOf(lm, key)
        && (hit.value.logits.Some? ==> key == ids && key != [] && hit.value.logits.value == LogitsOf(lm, key)))
  {
    PeekFromIsLongest(m.cache, ids, |ids|);
    if Peek(m.cache, ids).Some? {
      var key := Peek(m.cache, ids).value.tokenIds;
      var i := Find(m.cache.entries, key);
      AcquireKeeps(m, i);
      var a := AcquireBlocks(m, i);
      TookRefMoves(m, i, a);
      TouchKeeps(a, i, now);
      var m' := Touch(a, i, now);
      ContentsMean(lm, m.cache.entries, m'.cache.entries);
      assert Means(lm, m'.cache.entries[i]);
      forall k ensures RefsOf(m'.cache, k) == RefsOf(a.cache, k) { FindStable(a.cache.entries, m'.cache.entries, k); }
      FindStable(m.cache.entries, m'.cache.entries, key);
      if |key| == |ids| { assert ids[..|key|] == ids; }
    }
  }

  lemma TouchKeeps(m: Memory, i: nat, now: int)
    requires Inv(m) && i < |m.cache.entries|
    ensures Inv(Touch(m, i, now)) && SameContents(m.cache.entries, Touch(m, i, now).cache.entries)
    ensures forall j :: 0 <= j < |m.cache.entries| ==> Touch(m, i, now).cache.entries[j].refs == m.cache.entries[j].refs
  {
    hide OnlyRelativesShare;
    var m' := Touch(m, i, now);
    RelativesStay(m.cache.entries, m'.cache.entries);
    forall b: nat ensures PinsOf(m'.cache.pins, b) == PinSum(m'.cache.entries, b) {
      PinSumUpdate(m.cache.entries, i, m'.cache.entries[i], b);
      assert PinsOf(m.cache.pins, b) == PinSum(m.cache.entries, b);
    }
  }

  // ---- eviction and insertion ----

  ghost function Dropped(m: Memory, v: nat): Memory
    requires v < |m.cache.entries|
  {
    m.(cache := m.cache.(entries := Without(m.cache.entries, v)))
  }

  lemma DropFinds(entries: seq<Entry>, v: nat, k: Key)
    requires Distinct(entries) && v < |entries|
    ensures var i, j := Find(entries, k), Find(Without(entries, v), k);
      && (j < |entries| - 1 ==> i < |entries| && i != v && Without(entries, v)[j] == entries[i])
      && (j == |entries| - 1 ==> i == |entries| || i == v)
  {
    var rest := Without(entries, v);
    var i, j := Find(entries, k), Find(rest, k);
    assert i < |entries| && i != v ==> rest[if i < v then i else i - 1] == entries[i];
    assert j < |rest| ==> entries[if j < v then j else j + 1] == rest[j];
  }

  lemma RelativesRemain(entries: seq<Entry>, v: nat)
    requires OnlyRelativesShare(entries) && v < |entries|
    ensures OnlyRelativesShare(Without(entries, v))
  {
    hide Without;
    var rest := Without(entries, v);
    assert forall j :: 0 <= j < |rest| ==> rest[j] == entries[if j < v then j else j + 1];
  }

  // Dropping an entry that nobody references moves no block and no reference.
  lemma DropKeeps(m: Memory, v: nat)
    requires Inv(m) && v < |m.cache.entries| && m.cache.entries[v].refs == 0
    ensures UnpinBlocks(m, m.cache.entries[v].blockIds) == m
    ensures Inv(Dropped(m, v)) && RefsMove(m.cache, Dropped(m, v).cache, None, None)
  {
    hide OnlyRelativesShare;
    var entries, rest := m.cache.entries, Without(m.cache.entries, v);
    RelativesRemain(entries, v);
    assert EntryOk(m.cache, m.pool.blockSize, entries[v]);
    assert m.pool.free + [] == m.pool.free;
    forall i | 0 <= i < |rest| ensures EntryOk(Dropped(m, v).cache, m.pool.blockSize, rest[i]) {
      assert EntryOk(m.cache, m.pool.blockSize, entries[if i < v then i else i + 1]);
    }
    forall b: nat ensures PinsOf(m.cache.pins, b) == PinSum(rest, b) {
      PinSumRemove(entries, v, b);
      assert PinsOf(m.cache.pins, b) == PinSum(entries, b);
    }
    forall k ensures RefsOf(Dropped(m, v).cache, k) == RefsOf(m.cache, k) { DropFinds(entries, v, k); }
  }

  lemma DropMeans(lm: Lm, entries: seq<Entry>, v: nat)
    requires AllMean(lm, entries) && v < |entries|
    ensures AllMean(lm, Without(entries, v))
  {
    var rest := Without(entries, v);
    forall i | 0 <= i < |rest| ensures Means(lm, rest[i]) { assert Means(lm, entries[if i < v then i else i + 1]); }
  }

  // Eviction only drops unreferenced entries: references, blocks and the kept entries stay.
  lemma {:induction false} EvictKeeps(lm: Lm, m: Memory)
    requires Inv(m) && AllMean(lm, m.cache.entries)
    ensures Inv(Evict(m)) && SameConfig(m, Evict(m)) && AllMean(lm, Evict(m).cache.entries)
    ensures Evict(m).pool == m.pool && RefsMove(m.cache, Evict(m).cache, None, None)
    ensures forall k :: Has(Evict(m).cache, k) ==> Has(m.cache, k)
    decreases |m.cache.entries|
  {
    var v := LeastUsed(m.cache.entries);
    if |m.cache.entries| >= m.cache.maxEntries && v < |m.cache.entries| {
      DropKeeps(m, v);
      DropMeans(lm, m.cache.entries, v);
      EvictKeeps(lm, Dropped(m, v));
      forall k | Has(Dropped(m, v).cache, k) ensures Has(m.cache, k) { DropFinds(m.cache.entries, v, k); }
    }
  }

  lemma InsertOneKeeps(lm: Lm, m: Memory, ids: Key, kv: Cache, logits: Option<Logits>, n: nat, now: int)
    requires Inv(m) && AllMean(lm, m.cache.entries) && m.cache.minTokens <= n <= |ids|
    requires kv == KvOf(lm, ids) && ids != [] && (logits.Some? ==> logits.value == LogitsOf(lm, ids))
    ensures var m' := InsertOne(m, ids, kv, logits, n, now);
      && Inv(m') && SameConfig(m, m') && AllMean(lm, m'.cache.entries)
      && m'.pool == m.pool && RefsMove(m.cache, m'.cache, None, None)
  {
    if !Has(m.cache, ids[..n]) {
      EvictKeeps(lm, m);
      var e := Evict(m);
      if |e.cache.entries| < e.cache.maxEntries {
        var entry := Entry(ids[..n], Take(kv, n), if n == |ids| then logits else None, [], 0, now);
        KvOfPrefix(lm, ids, n);
        if n == |ids| { assert ids[..n] == ids; }
        AppendKeeps(lm, e, entry);
      }
    }
  }

  lemma RelativesJoin(entries: seq<Entry>, entry: Entry)
    requires OnlyRelativesShare(entries) && entry.blockIds == []
    ensures OnlyRelativesShare(entries + [entry])
  {
  }

  lemma AppendFinds(entries: seq<Entry>, entry: Entry, key: Key)
    requires entry.tokenIds != key || Find(entries, key) == |entries|
    ensures var i, j := Find(entries, key), Find(entries + [entry], key);
      if i < |entries| then j == i else j == if entry.tokenIds == key then |entries| else |entries| + 1
  {
    assert (entries + [entry])[..|entries|] == entries;
  }

  lemma AppendPins(entries: seq<Entry>, entry: Entry, pins: map<nat, nat>)
    requires PinsExact(entries, pins) && entry.refs == 0
    ensures PinsExact(entries + [entry], pins)
  {
    assert (entries + [entry])[..|entries|] == entries;
    forall b: nat ensures PinsOf(pins, b) == PinSum(entries + [entry], b) {
      assert PinsOf(pins, b) == PinSum(entries, b);
    }
  }

  lemma AppendKeeps(lm: Lm, m: Memory, entry: Entry)
    requires Inv(m) && AllMean(lm, m.cache.entries) && |m.cache.entries| < m.cache.maxEntries
    requires !Has(m.cache, entry.tokenIds) && Means(lm, entry)
    requires |entry.tokenIds| >= m.cache.minTokens && entry.refs == 0 && entry.blockIds == []
    ensures var m' := m.(cache := m.cache.(entries := m.cache.entries + [entry]));
      Inv(m') && AllMean(lm, m'.cache.entries) && RefsMove(m.cache, m'.cache, None, None)
  {
    hide OnlyRelativesShare, Conserved, PinsExact, Means, Find;
    var entries := m.cache.entries;
    var m' := m.(cache := m.cache.(entries := entries + [entry]));
    RelativesJoin(entries, entry);
    AppendPins(entries, entry, m.cache.pins);
    forall k ensures RefsOf(m'.cache, k) == RefsOf(m.cache, k) { AppendFinds(entries, entry, k); }
  }

  lemma {:induction false} InsertAllKeeps(lm: Lm, m: Memory, ids: Key, kv: Cache, logits: Option<Logits>,
          lengths: seq<nat>, now: int)
    requires Inv(m) && AllMean(lm, m.cache.entries)
    requires forall k :: k in lengths ==> m.cache.minTokens <= k <= |ids|
    requires kv == KvOf(lm, ids) && ids != [] && (logits.Some? ==> logits.value == LogitsOf(lm, ids))
    ensures var m' := InsertAll(m, ids, kv, logits, lengths, now);
      && Inv(m') && SameConfig(m, m') && AllMean(lm, m'.cache.entries)
      && m'.pool == m.pool && RefsMove(m.cache, m'.cache, None, None)
  {
    if lengths != [] {
      var k := |lengths| - 1;
      assert forall x :: x in lengths[..k] ==> x in lengths;
      InsertAllKeeps(lm, m, ids, kv, logits, lengths[..k], now);
      assert lengths[k] in lengths;
      InsertOneKeeps(lm, InsertAll(m, ids, kv, logits, lengths[..k], now), ids, kv, logits, lengths[k], now);
    }
  }

  // Inserting after a prefill stores only true KV and disturbs no live sequence.
  lemma InsertKeeps(lm: Lm, m: Memory, ids: Key, kv: Cache, logits: Option<Logits>, now: int)
    requires Inv(m) && AllMean(lm, m.cache.entries)
    requires kv == KvOf(lm, ids) && ids != [] && (logits.Some? ==> logits.value == LogitsOf(lm, ids))
    ensures var m' := Insert(m, ids, kv, logits, now);
      && Inv(m') && SameConfig(m, m') && AllMean(lm, m'.cache.entries)
      && m'.pool == m.pool && RefsMove(m.cache, m'.cache, None, None)
  {
    CandidateLengthsAre(m.cache, |ids|);
    InsertAllKeeps(lm, m, ids, kv, logits, CandidateLengths(m.cache, |ids|), now);
  }

  // Eviction makes room unless everything is referenced, and what it drops was unreferenced and
  // used no later than any unreferenced entry it keeps.
  lemma {:induction false} EvictDropsLeastUsed(m: Memory)
    ensures |Evict(m).cache.entries| < m.cache.maxEntries || forall f :: f in Evict(m).cache.entries ==> f.refs > 0
    ensures forall f :: f in Evict(m).cache.entries ==> f in m.cache.entries
    ensures forall e, f :: (
      e in m.cache.entries && e !in Evict(m).cache.entries && f in Evict(m).cache.entries && f.refs == 0
      ==> e.lastUsed <= f.lastUsed)
    ensures forall e :: e in m.cache.entries && e !in Evict(m).cache.entries ==> e.refs == 0
    decreases |m.cache.entries|
  {
    var entries := m.cache.entries;
    var v := LeastUsed(entries);
    if |entries| >= m.cache.maxEntries && v < |entries| {
      var u := UnpinBlocks(m, entries[v].blockIds);
      var rest := Without(entries, v);
      EvictDropsLeastUsed(u.(cache := u.cache.(entries := rest)));
      forall e | e in entries ensures e in rest || e == entries[v] {
        var i :| 0 <= i < |entries| && entries[i] == e;
        assert i != v ==> rest[if i < v then i else i - 1] == e;
      }
      forall f | f in rest ensures f in entries { }
    }
  }

  ghost predicate AllReferenced(c: Prefixes) {
    |c.entries| >= c.maxEntries && forall f :: f in c.entries ==> f.refs > 0
  }

  // One length of an insertion: its prefix is stored afterwards unless every entry is referenced.
  lemma InsertOneStores(m: Memory, ids: Key, kv: Cache, logits: Option<Logits>, n: nat, now: int)
    requires n <= SeqLen(kv) && n <= |ids|
    ensures Has(InsertOne(m, ids, kv, logits, n, now).cache, ids[..n])
         || AllReferenced(InsertOne(m, ids, kv, logits, n, now).cache)
  {
    if !Has(m.cache, ids[..n]) {
      EvictDropsLeastUsed(m);
      EvictLimit(m);
      var entries := Evict(m).cache.entries;
      var e := Entry(ids[..n], Take(kv, n), if n == |ids| then logits else None, [], 0, now);
      assert (entries + [e])[|entries|] == e;
    }
  }

  lemma {:induction false} EvictLimit(m: Memory)
    ensures Evict(m).cache.maxEntries == m.cache.maxEntries
    decreases |m.cache.entries|
  {
    var v := LeastUsed(m.cache.entries);
    if |m.cache.entries| >= m.cache.maxEntries && v < |m.cache.entries| {
      var u := UnpinBlocks(m, m.cache.entries[v].blockIds);
      EvictLimit(u.(cache := u.cache.(entries := Without(m.cache.entries, v))));
    }
  }

  ghost predicate AddedPrefix(e: Entry, ids: Key, kv: Cache, logits: Option<Logits>, lengths: seq<nat>, now: int) {
    && |e.tokenIds| in lengths && e.tokenIds <= ids && e.kv == Take(kv, |e.tokenIds|)
    && e.logits == (if |e.tokenIds| == |ids| then logits else None)
    && e.refs == 0 && e.lastUsed == now
  }

  // An insertion adds prefixes of the prompt at the candidate lengths and nothing else.
  lemma {:induction false} InsertAddsOnlyPrefixes(m: Memory, ids: Key, kv: Cache, logits: Option<Logits>,
          lengths: seq<nat>, now: int)
    ensures forall e :: e in InsertAll(m, ids, kv, logits, lengths, now).cache.entries ==>
      e in m.cache.entries || AddedPrefix(e, ids, kv, logits, lengths, now)
  {
    if lengths != [] {
      var k := |lengths| - 1;
      var before := InsertAll(m, ids, kv, logits, lengths[..k], now);
      InsertAddsOnlyPrefixes(m, ids, kv, logits, lengths[..k], now);
      EvictDropsLeastUsed(before);
      assert lengths[k] in lengths && forall x :: x in lengths[..k] ==> x in lengths;
    }
  }

  // ---- adoption ----

  // The front of what the sequence owned, as long as its prompt needs, has become the entry's.
  ghost predicate FrontMoved(m: Memory, q: Sequence, m': Memory) {
    && q.id in m.pool.alloc && q.id in m'.pool.alloc
    && EntryBlocks(m'.cache, q.req.prompt) + m'.pool.alloc[q.id] == m.pool.alloc[q.id]
    && |EntryBlocks(m'.cache, q.req.prompt)| == BlocksNeeded(m.pool.blockSize, |q.req.prompt|)
  }

  lemma AdoptKeeps(lm: Lm, m: Memory, q: Sequence, now: int)
    requires Inv(m) && AllMean(lm, m.cache.entries) && q.prefixKey.None?
    requires q.id in m.pool.alloc && |m.pool.alloc[q.id]| >= BlocksNeeded(m.pool.blockSize, |q.req.prompt|)
    ensures var (m', q') := Adopt(m, q, now);
      && Inv(m') && SameConfig(m, m') && AllMean(lm, m'.cache.entries)
      && RefsMove(m.cache, m'.cache, q'.prefixKey, None)
      && q' == q.(prefixKey := q'.prefixKey, blockIds := q'.blockIds, ownedBlockIds := q'.ownedBlockIds)
      && (q'.prefixKey.None? ==> m' == m && q' == q)
      && (q'.prefixKey.Some? ==> q'.prefixKey.value == q.req.prompt && |q.req.prompt| >= m.cache.minTokens)
      && q.id in m'.pool.alloc
      && m'.pool.alloc == m.pool.alloc[q.id := m'.pool.alloc[q.id]]
      && |m'.pool.alloc[q.id]| + (if q'.prefixKey.Some? then BlocksNeeded(m.pool.blockSize, |q.req.prompt|) else 0)
         >= |m.pool.alloc[q.id]|
      && (q'.prefixKey.Some? ==>
        if RefsOf(m.cache, q.req.prompt) > 0
        then m'.pool == m.pool && EntryBlocks(m'.cache, q.req.prompt) == EntryBlocks(m.cache, q.req.prompt)
        else FrontMoved(m, q, m'))
  {
    var ids := q.req.prompt;
    CandidateLengthsAre(m.cache, |ids|);
    var lengths := CandidateLengths(m.cache, |ids|);
    if lengths != [] {
      assert ids[..lengths[0]] == ids;
      var i := Find(m.cache.entries, ids);
      if i < |m.cache.entries| {
        if m.cache.entries[i].refs > 0 {
          AcquireKeeps(m, i);
          AcquireAgain(m, i);
          TookRefMoves(m, i, AcquireBlocks(m, i));
          FindStable(m.cache.entries, AcquireBlocks(m, i).cache.entries, ids);
          ContentsMean(lm, m.cache.entries, AcquireBlocks(m, i).cache.entries);
        } else {
          AdoptFresh(lm, m, q, i, now);
        }
      }
    }
  }

  lemma OwnedIsFresh(p: Pool, pinned: set<nat>, id: Id, n: nat)
    requires Conserved(p, pinned, []) && id in p.alloc && n <= |p.alloc[id]|
    ensures NoDup(p.alloc[id][..n]) && forall b :: b in p.alloc[id][..n] ==> b !in pinned
  {
    hide Conserved;
    ConservedIsPartition(p, pinned);
  }

  lemma FirstWeight(e: Entry, e': Entry, b: nat)
    requires e.refs == 0 && e'.refs == 1
    ensures Weight(e', b) == Weight(e, b) + multiset(e'.blockIds)[b]
  {
  }

  lemma PinsPositive(entries: seq<Entry>, pins: map<nat, nat>)
    requires PinsExact(entries, pins)
    ensures forall x :: x in pins ==> pins[x] > 0
  {
  }

  lemma AdoptFresh(lm: Lm, m: Memory, q: Sequence, i: nat, now: int)
    requires Inv(m) && AllMean(lm, m.cache.entries) && q.prefixKey.None?
    requires q.id in m.pool.alloc && |m.pool.alloc[q.id]| >= BlocksNeeded(m.pool.blockSize, |q.req.prompt|)
    requires i < |m.cache.entries| && m.cache.entries[i].tokenIds == q.req.prompt && m.cache.entries[i].refs == 0
    ensures var e := m.cache.entries[i];
      var (pool, q', taken) := Detach(m.pool, q, BlocksNeeded(m.pool.blockSize, |e.tokenIds|));
      var m' := Memory(pool, SetEntry(m.cache, i, e.(blockIds := taken, refs := 1, lastUsed := now),
        Pin(m.cache.pins, taken)));
      && Inv(m') && SameConfig(m, m') && AllMean(lm, m'.cache.entries)
      && RefsMove(m.cache, m'.cache, Some(q.req.prompt), None)
      && q.id in pool.alloc && pool.alloc == m.pool.alloc[q.id := pool.alloc[q.id]]
      && |pool.alloc[q.id]| + BlocksNeeded(m.pool.blockSize, |q.req.prompt|) >= |m.pool.alloc[q.id]|
      && FrontMoved(m, q, m')
  {
    hide OnlyRelativesShare, Conserved, PinsExact, Weight, AllMean;
    var c, e := m.cache, m.cache.entries[i];
    var (pool, q', taken) := Detach(m.pool, q, BlocksNeeded(m.pool.blockSize, |e.tokenIds|));
    var e' := e.(blockIds := taken, refs := 1, lastUsed := now);
    OwnedIsFresh(m.pool, c.pins.Keys, q.id, |taken|);
    RelativesFresh(m, i, e');
    var m' := Memory(pool, SetEntry(c, i, e', Pin(c.pins, taken)));
    DetachConserves(m.pool, c.pins.Keys, q, BlocksNeeded(m.pool.blockSize, |e.tokenIds|));
    forall b: nat ensures Weight(e', b) == Weight(e, b) + multiset(taken)[b] { FirstWeight(e, e', b); }
    PinEntry(c.entries, c.pins, i, e', taken);
    PinsPositive(c.entries, c.pins);
    SetEntryOk(c, m.pool.blockSize, i, e', Pin(c.pins, taken));
    PinConserves(pool, c.pins, taken);
    TookRefMoves(m, i, m');
    FindStable(c.entries, m'.cache.entries, q.req.prompt);
    FindAt(c, i);
    ContentsMean(lm, c.entries, m'.cache.entries);
  }

  // ---- Operations that move references leave the contents ----

  lemma SameEntries(a: seq<Entry>)
    ensures SameContents(a, a)
  {
  }

  lemma SameThen(a: seq<Entry>, b: seq<Entry>, c: seq<Entry>)
    requires SameContents(a, b) && SameContents(b, c)
    ensures SameContents(a, c)
  {
  }

  lemma ReleaseContents(m: Memory, key: Option<Key>)
    ensures SameContents(m.cache.entries, ReleasePrefix(m, key).cache.entries)
  {
    hide Unpin, Find;
  }

  lemma LookupContents(m: Memory, ids: Key, now: int)
    ensures SameContents(m.cache.entries, Lookup(m, ids, now).0.cache.entries)
  {
    hide Find, Peek, Pin, ShareFromLive, Reserve;
  }

  lemma AdoptContents(m: Memory, q: Sequence, now: int)
    ensures SameContents(m.cache.entries, Adopt(m, q, now).0.cache.entries)
  {
    hide Pin, ShareFromLive, Reserve, Detach, Find, CandidateLengths;
  }

  lemma HasSame(c: Prefixes, c': Prefixes, key: Key)
    requires SameContents(c.entries, c'.entries)
    ensures Has(c', key) == Has(c, key)
  {
    FindStable(c.entries, c'.entries, key);
  }
}
