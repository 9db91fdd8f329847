// The prefix cache: stored KV of leading token ids, with reference-counted block accounting that
// nested prefixes share. `entries` is the source's insertion-ordered dictionary.
module PrefixCache {
  import opened Common
  import opened KvCache
  import opened LanguageModel
  import opened Sequences
  import opened BlockPool

  datatype Entry = Entry(
    tokenIds: Key,
    kv: Cache,
    logits: Option<Logits>,
    blockIds: seq<nat>,
    refs: nat,
    lastUsed: int)

  datatype Hit = Hit(tokenIds: Key, blockIds: seq<nat>, kv: Cache, logits: Option<Logits>)

  datatype Prefixes = Prefixes(
    maxEntries: Pos,
    minTokens: Pos,
    blockSize: Pos,
    entries: seq<Entry>,
    pins: map<nat, nat>)

  // The two shared accounting structures; most operations move blocks between them.
  datatype Memory = Memory(pool: Pool, cache: Prefixes)

  // ---- Index ----

  // The position of a key, or the length of the list when it is absent.
  function Find(entries: seq<Entry>, key: Key): (i: nat)
    ensures i <= |entries|
    ensures i < |entries| ==> entries[i].tokenIds == key
    ensures forall j :: 0 <= j < i ==> entries[j].tokenIds != key
  {
    if entries == [] then 0
    else
      var k := |entries| - 1;
      var i := Find(entries[..k], key);
      assert forall j :: 0 <= j < k ==> entries[..k][j] == entries[j];
      if i < k || entries[k].tokenIds == key then i else k + 1
  }

  predicate Has(c: Prefixes, key: Key) {
    Find(c.entries, key) < |c.entries|
  }

  // candidate_lengths: the full length, then the block-aligned lengths below it.
  function CandidateLengths(c: Prefixes, n: nat): seq<nat> {
    AlignedDown(c, n / c.blockSize, if n >= c.minTokens then [n] else [])
  }

  // Whole blocks times the block size, stepping down to min_tokens, without repeats.
  function AlignedDown(c: Prefixes, blocks: nat, lengths: seq<nat>): seq<nat> {
    var aligned := blocks * c.blockSize;
    if aligned < c.minTokens || blocks == 0 then lengths
    else AlignedDown(c, blocks - 1, if aligned !in lengths then lengths + [aligned] else lengths)
  }

  // Longest stored key among the first n, n-1, ... tokens.
  function PeekFrom(c: Prefixes, ids: Key, n: nat): Option<Hit>
    requires n <= |ids|
  {
    if n < c.minTokens then None
    else
      var i := Find(c.entries, ids[..n]);
      if i < |c.entries| then
        Some(Hit(ids[..n], c.entries[i].blockIds, c.entries[i].kv, if n == |ids| then c.entries[i].logits else None))
      else PeekFrom(c, ids, n - 1)
  }

  function Peek(c: Prefixes, ids: Key): Option<Hit> {
    PeekFrom(c, ids, |ids|)
  }

  // ---- Pins ----

  function PinsOf(pins: map<nat, nat>, b: nat): nat {
    if b in pins then pins[b] else 0
  }

  function Pin(pins: map<nat, nat>, ids: seq<nat>): map<nat, nat> {
    if ids == [] then pins
    else
      var k := |ids| - 1;
      var before := Pin(pins, ids[..k]);
      before[ids[k] := PinsOf(before, ids[k]) + 1]
  }

  // The pins left and the blocks whose last pin went away, in order.
  function Unpin(pins: map<nat, nat>, ids: seq<nat>): (map<nat, nat>, seq<nat>) {
    if ids == [] then (pins, [])
    else
      var k := |ids| - 1;
      var (before, toFree) := Unpin(pins, ids[..k]);
      if PinsOf(before, ids[k]) <= 1 then (before - {ids[k]}, toFree + [ids[k]])
      else (before[ids[k] := before[ids[k]] - 1], toFree)
  }

  function UnpinBlocks(m: Memory, ids: seq<nat>): Memory {
    var (pins, toFree) := Unpin(m.cache.pins, ids);
    Memory(Release(m.pool, toFree), m.cache.(pins := pins))
  }

  // ---- References ----

  predicate Shares(e: Entry, key: Key) {
    e.refs > 0 && e.blockIds != [] && key <= e.tokenIds
  }

  // The first live entry, in dictionary order, that starts with key and carries blocks.
  function FirstSharer(entries: seq<Entry>, key: Key): (i: nat)
    ensures i <= |entries|
    ensures i < |entries| ==> Shares(entries[i], key)
    ensures forall j :: 0 <= j < i ==> !Shares(entries[j], key)
  {
    if entries == [] then 0
    else
      var k := |entries| - 1;
      var i := FirstSharer(entries[..k], key);
      assert forall j :: 0 <= j < k ==> entries[..k][j] == entries[j];
      if i < k || Shares(entries[k], key) then i else k + 1
  }

  function Truncate(ids: seq<nat>, n: nat): seq<nat> {
    if n <= |ids| then ids[..n] else ids
  }

  function ShareFromLive(m: Memory, key: Key): Option<seq<nat>> {
    var i := FirstSharer(m.cache.entries, key);
    if i == |m.cache.entries| then None
    else Some(Truncate(m.cache.entries[i].blockIds, BlocksNeeded(m.pool.blockSize, |key|)))
  }

  function SetEntry(c: Prefixes, i: nat, e: Entry, pins: map<nat, nat>): Prefixes
    requires i < |c.entries|
  {
    c.(entries := c.entries[i := e], pins := pins)
  }

  // Count one more reference: pin the entry's blocks, share a live relative's, or reserve new ones.
  function AcquireBlocks(m: Memory, i: nat): Memory
    requires i < |m.cache.entries|
  {
    var c := m.cache;
    var e := c.entries[i];
    if e.refs > 0 then
      m.(cache := SetEntry(c, i, e.(refs := e.refs + 1), Pin(c.pins, e.blockIds)))
    else
      match ShareFromLive(m, e.tokenIds)
      case Some(shared) =>
        m.(cache := SetEntry(c, i, e.(blockIds := shared, refs := e.refs + 1), Pin(c.pins, shared)))
      case None =>
        match Reserve(m.pool, |e.tokenIds|)
        case None =>
          m.(cache := SetEntry(c, i, e.(blockIds := [], refs := e.refs + 1), c.pins))
        case Some((pool, ids)) =>
          Memory(pool, SetEntry(c, i, e.(blockIds := ids, refs := e.refs + 1), Pin(c.pins, ids)))
  }

  function Touch(m: Memory, i: nat, now: int): Memory
    requires i < |m.cache.entries|
  {
    m.(cache := m.cache.(entries := m.cache.entries[i := m.cache.entries[i].(lastUsed := now)]))
  }

  function Lookup(m: Memory, ids: Key, now: int): (Memory, Option<Hit>) {
    match Peek(m.cache, ids)
    case None => (m, None)
    case Some(hit) =>
      var i := Find(m.cache.entries, hit.tokenIds);
      if i == |m.cache.entries| then (m, None)
      else
        var m' := Touch(AcquireBlocks(m, i), i, now);
        var e := m'.cache.entries[i];
        (m', Some(Hit(e.tokenIds, e.blockIds, e.kv, if |e.tokenIds| == |ids| then e.logits else None)))
  }

  // Give one reference back. A second call for the same holder would take someone else's.
  function ReleasePrefix(m: Memory, key: Option<Key>): Memory {
    if key.None? || key.value == [] then m
    else
      var i := Find(m.cache.entries, key.value);
      if i == |m.cache.entries| || m.cache.entries[i].refs == 0 then m
      else
        var e := m.cache.entries[i];
        var u := UnpinBlocks(m, e.blockIds);
        u.(cache := SetEntry(u.cache, i,
          e.(refs := e.refs - 1, blockIds := if e.refs == 1 then [] else e.blockIds), u.cache.pins))
  }

  // ---- Insertion and eviction ----

  // The first least recently used entry without references.
  function LeastUsed(entries: seq<Entry>): (v: nat)
    ensures v <= |entries|
    ensures v < |entries| ==> entries[v].refs == 0
    ensures v < |entries| ==> forall j :: 0 <= j < |entries| && entries[j].refs == 0 ==>
      entries[v].lastUsed <= entries[j].lastUsed
    ensures v == |entries| ==> forall j :: 0 <= j < |entries| ==> entries[j].refs > 0
  {
    if entries == [] then 0
    else
      var k := |entries| - 1;
      var v := LeastUsed(entries[..k]);
      assert forall j :: 0 <= j < k ==> entries[..k][j] == entries[j];
      if entries[k].refs == 0 && (v == k || entries[k].lastUsed < entries[v].lastUsed) then k
      else if v == k then k + 1 else v
  }

  function Without(entries: seq<Entry>, v: nat): (rest: seq<Entry>)
    requires v < |entries|
    ensures |rest| == |entries| - 1
    ensures forall j :: 0 <= j < |rest| ==> rest[j] == entries[if j < v then j else j + 1]
  {
    entries[..v] + entries[v + 1..]
  }

  function Evict(m: Memory): (m': Memory)
    ensures |m'.cache.entries| <= |m.cache.entries|
    decreases |m.cache.entries|
  {
    if |m.cache.entries| < m.cache.maxEntries then m
    else
      var v := LeastUsed(m.cache.entries);
      if v == |m.cache.entries| then m
      else
        var u := UnpinBlocks(m, m.cache.entries[v].blockIds);
        Evict(u.(cache := u.cache.(entries := Without(m.cache.entries, v))))
  }

  function InsertOne(m: Memory, ids: Key, kv: Cache, logits: Option<Logits>, n: nat, now: int): Memory {
    if n > SeqLen(kv) || n > |ids| || Has(m.cache, ids[..n]) then m
    else
      var m' := Evict(m);
      if |m'.cache.entries| >= m'.cache.maxEntries then m'
      else
        var e := Entry(ids[..n], Take(kv, n), if n == |ids| then logits else None, [], 0, now);
        m'.(cache := m'.cache.(entries := m'.cache.entries + [e]))
  }

  function InsertAll(m: Memory, ids: Key, kv: Cache, logits: Option<Logits>, lengths: seq<nat>, now: int): Memory {
    if lengths == [] then m
    else
      var k := |lengths| - 1;
      InsertOne(InsertAll(m, ids, kv, logits, lengths[..k], now), ids, kv, logits, lengths[k], now)
  }

  function Insert(m: Memory, ids: Key, kv: Cache, logits: Option<Logits>, now: int): Memory {
    if SeqLen(kv) < m.cache.minTokens then m
    else InsertAll(m, ids, kv, logits, CandidateLengths(m.cache, |ids|), now)
  }

  // After a miss: move the front of the sequence's own blocks under the entry just stored.
  function Adopt(m: Memory, q: Sequence, now: int): (Memory, Sequence) {
    if q.prefixKey.Some? then (m, q)
    else
      var ids := q.req.prompt;
      var lengths := CandidateLengths(m.cache, |ids|);
      if lengths == [] || lengths[0] > |ids| then (m, q)
      else
        var key := ids[..lengths[0]];
        var i := Find(m.cache.entries, key);
        if i == |m.cache.entries| then (m, q)
        else if m.cache.entries[i].refs > 0 then (AcquireBlocks(m, i), q.(prefixKey := Some(key)))
        else Adopted(m, q, i, key, now)
  }

  // Nobody references entry i yet: it takes over the front of the sequence's blocks.
  function Adopted(m: Memory, q: Sequence, i: nat, key: Key, now: int): (Memory, Sequence)
    requires i < |m.cache.entries|
  {
    var e := m.cache.entries[i];
    var (pool, q', taken) := Detach(m.pool, q, BlocksNeeded(m.pool.blockSize, |e.tokenIds|));
    var c := SetEntry(m.cache, i, e.(blockIds := taken, refs := 1, lastUsed := now), Pin(m.cache.pins, taken));
    var owned := if q.id in pool.alloc then pool.alloc[q.id] else [];
    (Memory(pool, c), q'.(prefixKey := Some(key), ownedBlockIds := owned, blockIds := taken + owned))
  }
}
