// Right-padding several caches into one decode batch, masking the padding, and splitting the
// result back into private caches.
module Batching {
  import opened Common
  import opened KvCache
  import opened LanguageModel

  // One layer of a batched cache: a row of positions per sequence.
  datatype BatchLayer = BatchLayer(keys: seq<seq<Vec>>, values: seq<seq<Vec>>)

  // All caches come from one model, so they agree on their layers; their lengths are arbitrary.
  ghost predicate Uniform(caches: seq<Cache>) {
    && caches != [] && caches[0] != []
    && forall r :: 0 <= r < |caches| ==> |caches[r]| == |caches[0]| && Rect(caches[r], SeqLen(caches[r]))
  }

  function Lengths(caches: seq<Cache>): seq<nat> {
    seq(|caches|, r requires 0 <= r < |caches| => SeqLen(caches[r]))
  }

  function Max(lengths: seq<nat>): (m: nat)
    ensures forall r :: 0 <= r < |lengths| ==> lengths[r] <= m
    ensures lengths != [] ==> m in lengths
  {
    if lengths == [] then 0
    else
      var k := |lengths| - 1;
      var rest := Max(lengths[..k]);
      if k > 0 && lengths[k] <= rest then rest else lengths[k]
  }

  function KeyRows(caches: seq<Cache>, l: nat): seq<seq<Vec>>
    requires forall r :: 0 <= r < |caches| ==> l < |caches[r]|
  {
    seq(|caches|, r requires 0 <= r < |caches| => caches[r][l].keys)
  }

  function ValueRows(caches: seq<Cache>, l: nat): seq<seq<Vec>>
    requires forall r :: 0 <= r < |caches| ==> l < |caches[r]|
  {
    seq(|caches|, r requires 0 <= r < |caches| => caches[r][l].values)
  }

  lemma RowsFit(caches: seq<Cache>, l: nat)
    requires Uniform(caches) && l < |caches[0]|
    ensures forall r :: 0 <= r < |caches| ==>
      |KeyRows(caches, l)[r]| == |ValueRows(caches, l)[r]| == SeqLen(caches[r]) <= Max(Lengths(caches))
  {
    forall r | 0 <= r < |caches|
      ensures |caches[r][l].keys| == |caches[r][l].values| == SeqLen(caches[r]) <= Max(Lengths(caches))
    {
      assert Lengths(caches)[r] == SeqLen(caches[r]);
    }
  }

  // Zeros after the row up to n positions.
  function Pad(row: seq<Vec>, n: nat, zero: Vec): (padded: seq<Vec>)
    ensures |row| <= n ==> |padded| == n && padded[..|row|] == row
  {
    row + seq(if |row| <= n then n - |row| else 0, i => zero)
  }

  function PadAll(rows: seq<seq<Vec>>, n: nat, zero: Vec): seq<seq<Vec>> {
    seq(|rows|, r requires 0 <= r < |rows| => Pad(rows[r], n, zero))
  }

  // The batch that the stacking loops fill in.
  function Stack(caches: seq<Cache>, zero: Vec): seq<BatchLayer>
    requires Uniform(caches)
  {
    var n := Max(Lengths(caches));
    seq(|caches[0]|, l requires 0 <= l < |caches[0]| =>
      BatchLayer(PadAll(KeyRows(caches, l), n, zero), PadAll(ValueRows(caches, l), n, zero)))
  }

  // Valid past positions plus the new token, which sits after the padding.
  function DecodeMask(len: nat, maxPast: nat): seq<bool> {
    seq(maxPast + 1, p => p < len || p == maxPast)
  }

  ghost predicate HasRow(batch: seq<BatchLayer>, r: nat) {
    forall l :: 0 <= l < |batch| ==> r < |batch[l].keys| && r < |batch[l].values|
  }

  function RowOf(batch: seq<BatchLayer>, r: nat): Cache
    requires HasRow(batch, r)
  {
    seq(|batch|, l requires 0 <= l < |batch| => Layer(batch[l].keys[r], batch[l].values[r]))
  }

  function Join(rows: seq<Cache>, layers: nat): seq<BatchLayer>
    requires forall r :: 0 <= r < |rows| ==> |rows[r]| == layers
  {
    seq(layers, l requires 0 <= l < layers => BatchLayer(
      seq(|rows|, r requires 0 <= r < |rows| => rows[r][l].keys),
      seq(|rows|, r requires 0 <= r < |rows| => rows[r][l].values)))
  }

  // The first oldLen positions of a row and the one appended last.
  function Keep(row: seq<Vec>, oldLen: nat): seq<Vec>
    requires row != []
  {
    (if oldLen <= |row| then row[..oldLen] else row) + [row[|row| - 1]]
  }

  function ExtractRow(batch: seq<BatchLayer>, r: nat, oldLen: nat): Cache
    requires HasRow(batch, r)
    requires forall l :: 0 <= l < |batch| ==> batch[l].keys[r] != [] && batch[l].values[r] != []
  {
    seq(|batch|, l requires 0 <= l < |batch| =>
      Layer(Keep(batch[l].keys[r], oldLen), Keep(batch[l].values[r], oldLen)))
  }

  function Rows<T>(a: array2<T>): seq<seq<T>>
    reads a
  {
    seq(a.Length0, r requires 0 <= r < a.Length0 reads a =>
      seq(a.Length1, p requires 0 <= p < a.Length1 reads a => a[r, p]))
  }

  lemma RowsAt<T>(a: array2<T>, rows: seq<seq<T>>)
    requires |rows| == a.Length0
    requires forall r :: 0 <= r < |rows| ==> |rows[r]| == a.Length1
    requires forall r, p :: 0 <= r < a.Length0 && 0 <= p < a.Length1 ==> a[r, p] == rows[r][p]
    ensures Rows(a) == rows
  {
    forall r | 0 <= r < |rows| ensures Rows(a)[r] == rows[r] { }
  }

  // A zeroed [batch, maxLen] tensor with each row's positions copied to the front.
  method FillRows(rows: seq<seq<Vec>>, maxLen: nat, zero: Vec) returns (a: array2<Vec>)
    requires forall r :: 0 <= r < |rows| ==> |rows[r]| <= maxLen
    ensures fresh(a) && a.Length0 == |rows| && a.Length1 == maxLen
    ensures Rows(a) == PadAll(rows, maxLen, zero)
  {
    a := new Vec[|rows|, maxLen]((r, p) => zero);
    ghost var padded := PadAll(rows, maxLen, zero);
    for row := 0 to |rows|
      invariant forall r, p :: 0 <= r < row && 0 <= p < maxLen ==> a[r, p] == padded[r][p]
      invariant forall r, p :: row <= r < |rows| && 0 <= p < maxLen ==> a[r, p] == zero
    {
      forall p | 0 <= p < |rows[row]| {
        a[row, p] := rows[row][p];
      }
    }
    RowsAt(a, padded);
  }

  datatype Stacked = Stacked(layers: seq<(array2<Vec>, array2<Vec>)>, lengths: seq<nat>, maxLen: nat)

  // stack_caches: layer by layer, a zeroed tensor per K and V, filled row by row.
  method StackCaches(caches: seq<Cache>, zero: Vec) returns (r: Result<Stacked>)
    requires caches != [] ==> Uniform(caches)
    ensures r.Err? <==> caches == []
    ensures r.Ok? ==> r.value.lengths == Lengths(caches) && r.value.maxLen == Max(Lengths(caches))
    ensures r.Ok? ==> |r.value.layers| == |caches[0]|
    ensures r.Ok? ==> forall l :: 0 <= l < |caches[0]| ==>
      BatchLayer(Rows(r.value.layers[l].0), Rows(r.value.layers[l].1)) == Stack(caches, zero)[l]
  {
    if caches == [] { return Err; }
    var lengths := Lengths(caches);
    var maxLen := Max(lengths);
    var layers: seq<(array2<Vec>, array2<Vec>)> := [];
    for l := 0 to |caches[0]|
      invariant |layers| == l
      invariant forall i :: 0 <= i < l ==>
        BatchLayer(Rows(layers[i].0), Rows(layers[i].1)) == Stack(caches, zero)[i]
    {
      RowsFit(caches, l);
      var keys := FillRows(KeyRows(caches, l), maxLen, zero);
      var values := FillRows(ValueRows(caches, l), maxLen, zero);
      layers := layers + [(keys, values)];
    }
    return Ok(Stacked(layers, lengths, maxLen));
  }

  // wrap_past: hand the stacked tensors to the model.
  method WrapPast(layers: seq<(array2<Vec>, array2<Vec>)>) returns (past: seq<BatchLayer>)
    ensures |past| == |layers|
    ensures forall l :: 0 <= l < |layers| ==> past[l] == BatchLayer(Rows(layers[l].0), Rows(layers[l].1))
  {
    past := [];
    for l := 0 to |layers|
      invariant |past| == l
      invariant forall i :: 0 <= i < l ==> past[i] == BatchLayer(Rows(layers[i].0), Rows(layers[i].1))
    {
      past := past + [BatchLayer(Rows(layers[l].0), Rows(layers[l].1))];
    }
  }

  // attention_mask_for_decode: ones over each row's past and over the last column.
  method AttentionMaskForDecode(lengths: seq<nat>, maxPast: nat) returns (mask: array2<bool>)
    requires forall r :: 0 <= r < |lengths| ==> lengths[r] <= maxPast
    ensures fresh(mask)
    ensures Rows(mask) == seq(|lengths|, r requires 0 <= r < |lengths| => DecodeMask(lengths[r], maxPast))
  {
    mask := new bool[|lengths|, maxPast + 1]((r, p) => false);
    for row := 0 to |lengths|
      invariant forall r, p :: 0 <= r < row && 0 <= p <= maxPast ==> mask[r, p] == DecodeMask(lengths[r], maxPast)[p]
      invariant forall r, p :: row <= r < |lengths| && 0 <= p <= maxPast ==> !mask[r, p]
    {
      forall p | 0 <= p < lengths[row] {
        mask[row, p] := true;
      }
      mask[row, maxPast] := true;
    }
    RowsAt(mask, seq(|lengths|, r requires 0 <= r < |lengths| => DecodeMask(lengths[r], maxPast)));
  }

  // extract_row_cache: the original tokens of one row plus the newly appended one.
  method ExtractRowCache(batch: seq<BatchLayer>, row: nat, oldLen: nat) returns (extracted: Cache)
    requires HasRow(batch, row)
    requires forall l :: 0 <= l < |batch| ==> oldLen < |batch[l].keys[row]| == |batch[l].values[row]|
    ensures extracted == ExtractRow(batch, row, oldLen)
  {
    extracted := [];
    for l := 0 to |batch|
      invariant extracted == ExtractRow(batch, row, oldLen)[..l]
    {
      var key, value := batch[l].keys[row], batch[l].values[row];
      var newToken := |key| - 1;
      var piecesK, piecesV;
      if oldLen == 0 {
        piecesK, piecesV := key[newToken..newToken + 1], value[newToken..newToken + 1];
      } else {
        piecesK := key[..oldLen] + key[newToken..newToken + 1];
        piecesV := value[..oldLen] + value[newToken..newToken + 1];
      }
      assert piecesK == Keep(key, oldLen) && piecesV == Keep(value, oldLen);
      extracted := extracted + [Layer(piecesK, piecesV)];
    }
  }

  // Masking a padded row shows the model exactly the row's own positions.
  lemma PaddedAttention(caches: seq<Cache>, zero: Vec, r: nat, n: nat)
    requires Uniform(caches) && r < |caches| && n == Max(Lengths(caches))
    ensures HasRow(Stack(caches, zero), r) && Rect(RowOf(Stack(caches, zero), r), n)
    ensures Attended(RowOf(Stack(caches, zero), r), DecodeMask(SeqLen(caches[r]), n)[..n], n)
         == Attended(caches[r], Ones(SeqLen(caches[r])), SeqLen(caches[r]))
  {
    var len := SeqLen(caches[r]);
    var padded := RowOf(Stack(caches, zero), r);
    forall l | 0 <= l < |caches[0]|
      ensures padded[l] == Layer(Pad(caches[r][l].keys, n, zero), Pad(caches[r][l].values, n, zero))
      ensures len <= n
    {
      RowsFit(caches, l);
      assert |KeyRows(caches, l)[r]| <= n;
    }
    assert Rect(padded, n);
    AttendedFront(padded, DecodeMask(len, n)[..n], len, n);
    AttendedFront(caches[r], Ones(len), len, len);
    forall p | 0 <= p < len ensures At(padded, p) == At(caches[r], p) { }
    assert Positions(padded, len) == Positions(caches[r], len);
  }

  // Dropping the padding of a grown padded row gives the row's own cache grown by the new token.
  lemma ExtractAfterStep(caches: seq<Cache>, zero: Vec, r: nat, n: nat, kv: PosKv, out: seq<BatchLayer>)
    requires Uniform(caches) && r < |caches| && n == Max(Lengths(caches)) && |kv| == |caches[0]|
    requires |out| == |caches[0]|
    requires HasRow(out, r)
    requires RowOf(out, r) == Extend(RowOf(Stack(caches, zero), r), kv)
    ensures forall l :: 0 <= l < |out| ==> out[l].keys[r] != [] && out[l].values[r] != []
    ensures ExtractRow(out, r, SeqLen(caches[r])) == Extend(caches[r], kv)
  {
    var len := SeqLen(caches[r]);
    var padded := RowOf(Stack(caches, zero), r);
    forall l | 0 <= l < |caches[0]|
      ensures padded[l] == Layer(Pad(caches[r][l].keys, n, zero), Pad(caches[r][l].values, n, zero))
      ensures |caches[r][l].keys| == |caches[r][l].values| == len <= n
    {
      RowsFit(caches, l);
      assert |KeyRows(caches, l)[r]| <= n;
    }
    forall l | 0 <= l < |out|
      ensures out[l].keys[r] == padded[l].keys + [kv[l].key] && padded[l].keys[..len] == caches[r][l].keys
      ensures out[l].values[r] == padded[l].values + [kv[l].value] && padded[l].values[..len] == caches[r][l].values
    {
      assert RowOf(out, r)[l] == Extend(padded, kv)[l];
    }
    forall l | 0 <= l < |out| ensures ExtractRow(out, r, len)[l] == Extend(caches[r], kv)[l] {
      assert (padded[l].keys + [kv[l].key])[..len] == padded[l].keys[..len];
      assert (padded[l].values + [kv[l].value])[..len] == padded[l].values[..len];
    }
  }
}
