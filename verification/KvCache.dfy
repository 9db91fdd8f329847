// Key/value caches in the legacy list-of-(K, V) layout, one row of the batch at a time.
// A `Vec` is the flattened [heads, dim] block that one layer stores for one position.
module KvCache {
  type Vec = seq<real>

  datatype Layer = Layer(keys: seq<Vec>, values: seq<Vec>)

  type Cache = seq<Layer>

  // What one layer, and the whole model, store for a single position.
  datatype LayerKv = LayerKv(key: Vec, value: Vec)

  type PosKv = seq<LayerKv>

  // Every layer holds exactly n positions.
  predicate Rect(cache: Cache, n: nat) {
    forall l :: 0 <= l < |cache| ==> |cache[l].keys| == n && |cache[l].values| == n
  }

  function SeqLen(cache: Cache): nat {
    if cache == [] then 0 else |cache[0].keys|
  }

  function At(cache: Cache, p: nat): PosKv
    requires forall l :: 0 <= l < |cache| ==> p < |cache[l].keys| && p < |cache[l].values|
  {
    seq(|cache|, l requires 0 <= l < |cache| => LayerKv(cache[l].keys[p], cache[l].values[p]))
  }

  function Positions(cache: Cache, n: nat): seq<PosKv>
    requires forall l :: 0 <= l < |cache| ==> n <= |cache[l].keys| && n <= |cache[l].values|
  {
    seq(n, p requires 0 <= p < n => At(cache, p))
  }

  function TakeLayer(layer: Layer, n: nat): Layer {
    Layer(if n <= |layer.keys| then layer.keys[..n] else layer.keys,
          if n <= |layer.values| then layer.values[..n] else layer.values)
  }

  function Take(cache: Cache, n: nat): Cache {
    seq(|cache|, l requires 0 <= l < |cache| => TakeLayer(cache[l], n))
  }

  // Append one position to every layer.
  function Extend(cache: Cache, kv: PosKv): Cache
    requires |kv| == |cache|
  {
    seq(|cache|, l requires 0 <= l < |cache| =>
      Layer(cache[l].keys + [kv[l].key], cache[l].values + [kv[l].value]))
  }

  // slice_cache: copy the first n positions of each layer into a new list.
  method SliceCache(cache: Cache, n: nat) returns (out: Cache)
    ensures out == Take(cache, n)
  {
    out := [];
    for l := 0 to |cache|
      invariant out == Take(cache, n)[..l]
    {
      out := out + [TakeLayer(cache[l], n)];
    }
  }

  lemma CloneIsWhole(cache: Cache, n: nat)
    requires Rect(cache, n)
    ensures Take(cache, n) == cache
    ensures Take(cache, SeqLen(cache)) == cache
  {
    forall l | 0 <= l < |cache| ensures TakeLayer(cache[l], n) == cache[l] { }
    if |cache| > 0 { assert SeqLen(cache) == n; }
  }

  lemma TakeOfExtend(cache: Cache, n: nat, kv: PosKv)
    requires Rect(cache, n) && |kv| == |cache|
    ensures Rect(Extend(cache, kv), n + 1)
    ensures forall k: nat :: k <= n ==> Take(Extend(cache, kv), k) == Take(cache, k)
  {
    forall k: nat | k <= n ensures Take(Extend(cache, kv), k) == Take(cache, k) {
      forall l | 0 <= l < |cache|
        ensures TakeLayer(Extend(cache, kv)[l], k) == TakeLayer(cache[l], k)
      {
        assert (cache[l].keys + [kv[l].key])[..k] == cache[l].keys[..k];
        assert (cache[l].values + [kv[l].value])[..k] == cache[l].values[..k];
      }
    }
  }
}
