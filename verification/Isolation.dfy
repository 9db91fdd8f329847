// Who may write to which KV buffer. Live caches grow in place; the prefix cache stores and hands
// out fresh copies only, so what it stores never changes while it is stored.
module Isolation {
  import opened Common
  import opened KvCache
  import opened Sequences

  // The keys, or the values, that one layer holds: a mutable tensor.
  class KvBuffer {
    var rows: seq<Vec>

    constructor (rows: seq<Vec>)
      ensures this.rows == rows
    {
      this.rows := rows;
    }

    method Append(row: Vec)
      modifies this
      ensures rows == old(rows) + [row]
    {
      rows := rows + [row];
    }
  }

  // A cache by reference, one key and one value buffer per layer.
  datatype CacheRef = CacheRef(keys: seq<KvBuffer>, values: seq<KvBuffer>)

  ghost function Buffers(c: CacheRef): set<KvBuffer> {
    (set b | b in c.keys) + (set b | b in c.values)
  }

  // No two positions of the cache are the same buffer.
  ghost predicate Separate(c: CacheRef) {
    |c.keys| == |c.values| && NoDup(c.keys) && NoDup(c.values) && Disjoint(c.keys, c.values)
  }

  function Contents(c: CacheRef): Cache
    requires |c.keys| == |c.values|
    reads c.keys, c.values
  {
    seq(|c.keys|, l requires 0 <= l < |c.keys| && |c.keys| == |c.values| reads c.keys, c.values =>
      Layer(c.keys[l].rows, c.values[l].rows))
  }

  // slice_cache: fresh copies of the first n positions.
  method SliceCacheRef(c: CacheRef, n: nat) returns (out: CacheRef)
    requires Separate(c)
    ensures fresh(Buffers(out)) && Separate(out) && Contents(out) == Take(Contents(c), n)
  {
    var keys: seq<KvBuffer>, values: seq<KvBuffer> := [], [];
    for l := 0 to |c.keys|
      invariant |keys| == |values| == l
      invariant fresh(set b | b in keys) && fresh(set b | b in values)
      invariant NoDup(keys) && NoDup(values) && Disjoint(keys, values)
      invariant forall i :: 0 <= i < l ==>
        Layer(keys[i].rows, values[i].rows) == TakeLayer(Layer(c.keys[i].rows, c.values[i].rows), n)
    {
      var layer := TakeLayer(Layer(c.keys[l].rows, c.values[l].rows), n);
      var key := new KvBuffer(layer.keys);
      var value := new KvBuffer(layer.values);
      keys, values := keys + [key], values + [value];
    }
    out := CacheRef(keys, values);
  }

  // One forward step grows every layer where it is.
  method GrowInPlace(c: CacheRef, kv: PosKv)
    requires Separate(c) && |kv| == |c.keys|
    modifies Buffers(c)
    ensures Contents(c) == Extend(old(Contents(c)), kv)
  {
    for l := 0 to |kv|
      invariant forall i :: 0 <= i < l ==> c.keys[i].rows == old(c.keys[i].rows) + [kv[i].key]
      invariant forall i :: 0 <= i < l ==> c.values[i].rows == old(c.values[i].rows) + [kv[i].value]
      invariant forall i :: l <= i < |kv| ==> c.keys[i].rows == old(c.keys[i].rows)
      invariant forall i :: l <= i < |kv| ==> c.values[i].rows == old(c.values[i].rows)
    {
      assert c.keys[l] in c.keys && c.values[l] in c.values;
      c.keys[l].Append(kv[l].key);
      c.values[l].Append(kv[l].value);
    }
  }

  // What happens to KV buffers: a prefill after a miss, insertion, a hit that hands out the stored
  // cache itself, the prefill that clones it, a step over one cache in place, a batched step that
  // rebuilds a row, eviction, the release of the handed-out cache, and the end of a sequence.
  datatype Op =
    | Begin(id: Id, layers: nat)
    | Store(id: Id, key: Key, n: nat)
    | Bind(id: Id, key: Key)
    | Prefill(id: Id)
    | Grow(id: Id, kv: PosKv)
    | Rebuild(id: Id, row: Cache)
    | Evict(key: Key)
    | Unbind(id: Id)
    | End(id: Id)

  // Live caches share no buffer with each other, with anything stored, or with anything handed out;
  // what is handed out may well be what is stored.
  ghost predicate Apart(stored: map<Key, CacheRef>, bound: map<Id, CacheRef>, live: map<Id, CacheRef>) {
    && (forall k :: k in stored ==> Separate(stored[k]))
    && (forall i :: i in bound ==> Separate(bound[i]))
    && (forall i :: i in live ==> Separate(live[i]))
    && (forall k, i :: k in stored && i in live ==> Buffers(stored[k]) !! Buffers(live[i]))
    && (forall j, i :: j in bound && i in live ==> Buffers(bound[j]) !! Buffers(live[i]))
    && (forall i, j :: i in live && j in live && i != j ==> Buffers(live[i]) !! Buffers(live[j]))
  }

  lemma ApartWithLive(stored: map<Key, CacheRef>, bound: map<Id, CacheRef>, live: map<Id, CacheRef>, id: Id,
          made: CacheRef)
    requires Apart(stored, bound, live) && Separate(made)
    requires forall k :: k in stored ==> Buffers(stored[k]) !! Buffers(made)
    requires forall i :: i in bound ==> Buffers(bound[i]) !! Buffers(made)
    requires forall i :: i in live ==> Buffers(live[i]) !! Buffers(made)
    ensures Apart(stored, bound, live[id := made])
  {
    hide Buffers, Separate;
  }

  lemma ApartWithStored(stored: map<Key, CacheRef>, bound: map<Id, CacheRef>, live: map<Id, CacheRef>, key: Key,
          made: CacheRef)
    requires Apart(stored, bound, live) && Separate(made)
    requires forall i :: i in live ==> Buffers(live[i]) !! Buffers(made)
    ensures Apart(stored[key := made], bound, live)
  {
    hide Buffers, Separate;
  }

  // The buffers of the prefix cache, of the live sequences, and the stored caches that sequences
  // hold by reference between a hit and their release.
  class KvHeap {
    var stored: map<Key, CacheRef>
    var bound: map<Id, CacheRef>
    var live: map<Id, CacheRef>

    ghost predicate Valid()
      reads this
    {
      Apart(stored, bound, live)
    }

    constructor ()
      ensures Valid() && stored == map[] && bound == map[] && live == map[]
    {
      stored, bound, live := map[], map[], map[];
    }

    // insert: a new key gets copies of the first n positions of a live cache.
    method Insert(id: Id, key: Key, n: nat)
      requires Valid()
      modifies this
      ensures Valid() && live == old(live) && bound == old(bound)
      ensures id !in live || key in old(stored) ==> stored == old(stored)
      ensures id in live && key !in old(stored) ==>
        && key in stored && stored == old(stored)[key := stored[key]] && fresh(Buffers(stored[key]))
        && Separate(stored[key]) && Contents(stored[key]) == Take(Contents(live[id]), n)
    {
      if id in live && key !in stored {
        var copy := SliceCacheRef(live[id], n);
        ApartWithStored(stored, bound, live, key, copy);
        stored := stored[key := copy];
      }
    }

    // A hit hands out the stored cache itself.
    method BindStored(id: Id, key: Key)
      requires Valid()
      modifies this
      ensures Valid() && stored == old(stored) && live == old(live)
      ensures bound == if key in stored then old(bound)[id := stored[key]] else old(bound)
    {
      if key in stored {
        bound := bound[id := stored[key]];
      }
    }

    // The prefill clones what it was handed and starts from the clone.
    method PrefillBound(id: Id)
      requires Valid()
      modifies this
      ensures Valid() && stored == old(stored) && bound == old(bound)
      ensures id !in bound || id in old(live) ==> live == old(live)
      ensures id in bound && id !in old(live) ==>
        && id in live && live == old(live)[id := live[id]] && fresh(Buffers(live[id]))
        && Separate(live[id]) && Contents(live[id]) == Take(Contents(bound[id]), SeqLen(Contents(bound[id])))
    {
      if id in bound && id !in live {
        var copy := SliceCacheRef(bound[id], SeqLen(Contents(bound[id])));
        ApartWithLive(stored, bound, live, id, copy);
        live := live[id := copy];
      }
    }

    // A new live cache, or a batched step's row, in new buffers of its own.
    method SetLive(id: Id, row: Cache)
      requires Valid()
      modifies this
      ensures Valid() && stored == old(stored) && bound == old(bound)
      ensures id in live && live == old(live)[id := live[id]] && fresh(Buffers(live[id]))
      ensures Separate(live[id]) && Contents(live[id]) == row
    {
      var made := NewCacheRef(row);
      ApartWithLive(stored, bound, live, id, made);
      live := live[id := made];
    }

    ghost function LiveBuffers(): set<KvBuffer>
      reads this
    {
      set i, b | i in live && b in Buffers(live[i]) :: b
    }

    ghost function HeldBuffers(): set<KvBuffer>
      reads this
    {
      (set k, b | k in stored && b in Buffers(stored[k]) :: b) + (set i, b | i in bound && b in Buffers(bound[i]) :: b)
    }

    // A model step over a live cache writes to that cache's buffers only.
    method GrowLive(id: Id, kv: PosKv)
      requires Valid()
      modifies LiveBuffers()
      ensures id in live && |kv| == |live[id].keys| ==>
        Separate(live[id]) && Contents(live[id]) == Extend(old(Contents(live[id])), kv)
      ensures forall k :: k in stored ==> Separate(stored[k]) && Contents(stored[k]) == old(Contents(stored[k]))
      ensures forall i :: i in bound ==> Separate(bound[i]) && Contents(bound[i]) == old(Contents(bound[i]))
    {
      if id in live && |kv| == |live[id].keys| {
        GrowInPlace(live[id], kv);
      }
    }

    // What cloning is for: a step over the cache that was handed out would rewrite the stored one.
    method GrowUncloned(id: Id, key: Key, kv: PosKv)
      requires Valid() && id in bound && key in stored && bound[id] == stored[key] && |kv| == |stored[key].keys|
      modifies Buffers(bound[id])
      ensures Separate(stored[key]) && Contents(stored[key]) == Extend(old(Contents(stored[key])), kv)
      ensures |kv| > 0 ==> Contents(stored[key]) != old(Contents(stored[key]))
    {
      ghost var before := Contents(stored[key]);
      GrowInPlace(bound[id], kv);
      if |kv| > 0 { assert |Extend(before, kv)[0].keys| == |before[0].keys| + 1; }
    }

    // Everything but a model step moves references and makes new buffers; it writes to none.
    method Rearrange(op: Op)
      requires Valid()
      modifies this
      ensures Valid() && (forall b :: b in LiveBuffers() ==> b in old(LiveBuffers()) || fresh(b))
      ensures forall k :: k in old(stored) && k in stored ==> stored[k] == old(stored)[k]
      ensures op.Bind? && op.key in stored ==> op.id in bound && bound[op.id] == stored[op.key]
    {
      match op
      case Begin(id, layers) => if id !in live { SetLive(id, seq(layers, _ => Layer([], []))); }
      case Store(id, key, n) => Insert(id, key, n);
      case Bind(id, key) => BindStored(id, key);
      case Prefill(id) => PrefillBound(id);
      case Rebuild(id, row) => if id in live { SetLive(id, row); }
      case Evict(key) => stored := stored - {key};
      case Unbind(id) => bound := bound - {id};
      case End(id) => live := live - {id};
      case Grow(_, _) =>
    }

    // One operation never writes to a stored or handed-out buffer, and to live ones only where it grows.
    method Perform(op: Op)
      requires Valid()
      modifies this, LiveBuffers()
      ensures Valid() && (forall b :: b in LiveBuffers() ==> b in old(LiveBuffers()) || fresh(b))
      ensures forall k :: k in old(stored) ==> Contents(old(stored)[k]) == old(Contents(stored[k]))
      ensures forall i :: i in old(bound) ==> Contents(old(bound)[i]) == old(Contents(bound[i]))
      ensures forall k :: k in old(stored) && k in stored ==> stored[k] == old(stored)[k]
      ensures op.Bind? && op.key in stored ==> op.id in bound && bound[op.id] == stored[op.key]
    {
      if op.Grow? { GrowLive(op.id, op.kv); } else { Rearrange(op); }
    }

    method PerformEach(ops: seq<Op>)
      requires Valid()
      modifies this, LiveBuffers()
      ensures Valid() && (forall b :: b in LiveBuffers() ==> b in old(LiveBuffers()) || fresh(b))
      ensures forall b :: b in old(HeldBuffers()) ==> b.rows == old(b.rows)
    {
      HeldAreNotLive();
      for i := 0 to |ops|
        invariant Valid() && forall b :: b in LiveBuffers() ==> b in old(LiveBuffers()) || fresh(b)
        invariant forall b :: b in old(HeldBuffers()) ==> b.rows == old(b.rows)
      {
        Perform(ops[i]);
      }
    }

    // Over any sequence of operations, with any number of references to stored caches handed out
    // meanwhile, what was stored and what was handed out keep their contents, evicted or not.
    method PerformAll(ops: seq<Op>)
      requires Valid()
      modifies this, LiveBuffers()
      ensures Valid() && (forall b :: b in LiveBuffers() ==> b in old(LiveBuffers()) || fresh(b))
      ensures forall k :: k in old(stored) ==> Contents(old(stored)[k]) == old(Contents(stored[k]))
      ensures forall i :: i in old(bound) ==> Contents(old(bound)[i]) == old(Contents(bound[i]))
    {
      HeldAreNotLive();
      PerformEach(ops);
    }

    lemma HeldAreNotLive()
      requires Valid()
      ensures forall b :: b in HeldBuffers() ==> b !in LiveBuffers()
    {
    }
  }

  method NewCacheRef(row: Cache) returns (out: CacheRef)
    ensures fresh(Buffers(out)) && Separate(out) && Contents(out) == row
  {
    var keys: seq<KvBuffer>, values: seq<KvBuffer> := [], [];
    for l := 0 to |row|
      invariant |keys| == |values| == l
      invariant fresh(set b | b in keys) && fresh(set b | b in values)
      invariant NoDup(keys) && NoDup(values) && Disjoint(keys, values)
      invariant forall i :: 0 <= i < l ==> Layer(keys[i].rows, values[i].rows) == row[i]
    {
      var key := new KvBuffer(row[l].keys);
      var value := new KvBuffer(row[l].values);
      keys, values := keys + [key], values + [value];
    }
    out := CacheRef(keys, values);
  }
}
