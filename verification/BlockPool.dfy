// The block allocator: a free list, the blocks each sequence owns, and the law that no block is
// ever lost or handed out twice.
module BlockPool {
  import opened Common
  import opened Sequences

  type Pos = n: nat | n >= 1 witness 1

  datatype Pool = Pool(numBlocks: Pos, blockSize: Pos, free: seq<nat>, alloc: map<Id, seq<nat>>)

  function NewPool(numBlocks: Pos, blockSize: Pos): Pool {
    Pool(numBlocks, blockSize, seq(numBlocks, (i: nat) => i), map[])
  }

  function UsedBlocks(p: Pool): int { p.numBlocks - |p.free| }

  // math.ceil(num_tokens / block_size), and 0 for a non-positive count.
  function BlocksNeeded(blockSize: Pos, numTokens: int): (n: nat)
    ensures numTokens > 0 ==> (n - 1) * blockSize < numTokens <= n * blockSize
    ensures n > 0 <==> numTokens > 0
  {
    if numTokens <= 0 then 0
    else
      assert numTokens + blockSize - 1 ==
        ((numTokens + blockSize - 1) / blockSize) * blockSize + (numTokens + blockSize - 1) % blockSize;
      (numTokens + blockSize - 1) / blockSize
  }

  function CanAllocate(p: Pool, numTokens: int): bool {
    |p.free| >= BlocksNeeded(p.blockSize, numTokens)
  }

  function Reserve(p: Pool, numTokens: int): Option<(Pool, seq<nat>)> {
    var needed := BlocksNeeded(p.blockSize, numTokens);
    if needed > |p.free| then None
    else Some((p.(free := p.free[needed..]), p.free[..needed]))
  }

  function Allocate(p: Pool, q: Sequence, numTokens: int): Option<(Pool, Sequence)> {
    match Reserve(p, numTokens)
    case None => None
    case Some((p', ids)) => Some((p'.(alloc := p'.alloc[q.id := ids]), q.(blockIds := ids)))
  }

  function Release(p: Pool, ids: seq<nat>): Pool {
    p.(free := p.free + ids)
  }

  // The list a sequence falls back to when the pool has no entry for it.
  function Recorded(q: Sequence): seq<nat> {
    if q.ownedBlockIds != [] then q.ownedBlockIds else q.blockIds
  }

  function Owned(p: Pool, q: Sequence): seq<nat> {
    if q.id in p.alloc then p.alloc[q.id] else Recorded(q)
  }

  // Take the first n blocks of a sequence's allocation without freeing them.
  function Detach(p: Pool, q: Sequence, n: nat): (Pool, Sequence, seq<nat>) {
    var ids := Owned(p, q);
    var k := if n <= |ids| then n else |ids|;
    (p.(alloc := p.alloc[q.id := ids[k..]]), q.(ownedBlockIds := ids[k..]), ids[..k])
  }

  function Free(p: Pool, q: Sequence): (Pool, Sequence) {
    (p.(free := p.free + Owned(p, q), alloc := p.alloc - {q.id}), q.(blockIds := [], ownedBlockIds := []))
  }

  // ---- Ceiling division ----

  lemma Scale(x: int, y: int, c: nat)
    requires x <= y
    ensures x * c <= y * c
  {
  }

  // The two halves of "the least number of blocks that holds t tokens".
  lemma BlocksLeast(blockSize: Pos, t: int, k: nat)
    ensures t <= k * blockSize <==> BlocksNeeded(blockSize, t) <= k
  {
    var n := BlocksNeeded(blockSize, t);
    if n > k {
      Scale(k, n - 1, blockSize);
    } else {
      Scale(n, k, blockSize);
    }
  }

  lemma BlocksMonotone(blockSize: Pos, a: int, b: int)
    requires a <= b
    ensures BlocksNeeded(blockSize, a) <= BlocksNeeded(blockSize, b)
  {
    BlocksLeast(blockSize, a, BlocksNeeded(blockSize, b));
  }

  lemma Distribute(n: int, m: int, c: nat)
    ensures (n + m) * c == n * c + m * c
  {
  }

  // Splitting a reservation never needs fewer blocks, and at most one more.
  lemma BlocksSplit(blockSize: Pos, a: nat, b: nat)
    ensures BlocksNeeded(blockSize, a + b)
         <= BlocksNeeded(blockSize, a) + BlocksNeeded(blockSize, b)
         <= BlocksNeeded(blockSize, a + b) + 1
  {
    var n, m := BlocksNeeded(blockSize, a), BlocksNeeded(blockSize, b);
    Distribute(n, m, blockSize);
    BlocksLeast(blockSize, a + b, n + m);
    if a > 0 && b > 0 { SplitLower(blockSize, a, b, n, m); }
  }

  lemma SplitLower(blockSize: Pos, a: nat, b: nat, n: nat, m: nat)
    requires (n - 1) * blockSize < a && (m - 1) * blockSize < b && n > 0 && m > 0
    ensures n + m <= BlocksNeeded(blockSize, a + b) + 1
  {
    hide BlocksNeeded;
    Distribute(n - 1, m - 1, blockSize);
    BlocksLeast(blockSize, a + b, n + m - 2);
  }

  // ---- Conservation ----

  // How many times a block occurs in the owned lists.
  ghost function AllocCount(alloc: map<Id, seq<nat>>, b: nat): nat {
    if alloc == map[] then 0
    else
      var id :| id in alloc;
      multiset(alloc[id])[b] + AllocCount(alloc - {id}, b)
  }

  lemma {:induction false} AllocCountAt(alloc: map<Id, seq<nat>>, id: Id, b: nat)
    requires id in alloc
    ensures AllocCount(alloc, b) == multiset(alloc[id])[b] + AllocCount(alloc - {id}, b)
    decreases |alloc|
  {
    var first :| first in alloc && AllocCount(alloc, b) == multiset(alloc[first])[b] + AllocCount(alloc - {first}, b);
    if first != id {
      AllocCountAt(alloc - {first}, id, b);
      AllocCountAt(alloc - {id}, first, b);
      assert alloc - {first} - {id} == alloc - {id} - {first};
    }
  }

  lemma AllocCountUpdate(alloc: map<Id, seq<nat>>, id: Id, ids: seq<nat>, b: nat)
    ensures AllocCount(alloc[id := ids], b) == multiset(ids)[b] + AllocCount(alloc - {id}, b)
  {
    AllocCountAt(alloc[id := ids], id, b);
    assert alloc[id := ids] - {id} == alloc - {id};
  }

  ghost function Places(p: Pool, pinned: set<nat>, loose: seq<nat>, b: nat): nat {
    multiset(p.free)[b] + AllocCount(p.alloc, b) + (if b in pinned then 1 else 0) + multiset(loose)[b]
  }

  // Every block of the pool is in exactly one place: free, owned, pinned by the prefix cache, or
  // (in the middle of an operation) in hand; and nothing else is anywhere.
  ghost predicate Conserved(p: Pool, pinned: set<nat>, loose: seq<nat>) {
    forall b: nat :: Places(p, pinned, loose, b) == if b < p.numBlocks then 1 else 0
  }

  lemma {:induction false} AllocOwner(alloc: map<Id, seq<nat>>, b: nat)
    ensures AllocCount(alloc, b) > 0 <==> exists id :: id in alloc && b in alloc[id]
    decreases |alloc|
  {
    if alloc != map[] {
      var first :| first in alloc && AllocCount(alloc, b) == multiset(alloc[first])[b] + AllocCount(alloc - {first}, b);
      AllocOwner(alloc - {first}, b);
      assert b in alloc[first] <==> b in multiset(alloc[first]);
      assert forall id :: id in alloc && id != first ==> id in alloc - {first} && (alloc - {first})[id] == alloc[id];
    }
  }

  lemma OnceIsNoDup(s: seq<nat>)
    requires forall b: nat :: multiset(s)[b] <= 1
    ensures NoDup(s)
  {
    forall i, j | 0 <= i < j < |s| ensures s[i] != s[j] {
      assert s == s[..j] + s[j..];
      assert s[i] in multiset(s[..j]) && s[j] in multiset(s[j..]);
      assert multiset(s)[s[j]] == multiset(s[..j])[s[j]] + multiset(s[j..])[s[j]];
    }
  }

  // The multiplicities spell out the usual statement of disjoint, duplicate-free ownership.
  lemma ConservedIsPartition(p: Pool, pinned: set<nat>)
    requires Conserved(p, pinned, [])
    ensures NoDup(p.free) && (forall id :: id in p.alloc ==> NoDup(p.alloc[id]))
    ensures forall b: nat :: b in p.free ==> b !in pinned
    ensures forall id :: id in p.alloc ==> forall b :: b in p.alloc[id] ==> b !in p.free && b !in pinned
    ensures forall i, j :: i in p.alloc && j in p.alloc && i != j ==> Disjoint(p.alloc[i], p.alloc[j])
    ensures forall b: nat :: b < p.numBlocks <==>
      b in p.free || b in pinned || exists id :: id in p.alloc && b in p.alloc[id]
  {
    forall b: nat ensures multiset(p.free)[b] <= 1 && (b in p.free ==> b !in pinned) {
      assert Places(p, pinned, [], b) <= 1;
      assert b in p.free <==> b in multiset(p.free);
    }
    OnceIsNoDup(p.free);
    forall id | id in p.alloc
      ensures NoDup(p.alloc[id]) && forall b :: b in p.alloc[id] ==> b !in p.free && b !in pinned
    {
      forall b: nat ensures multiset(p.alloc[id])[b] <= 1 && multiset(p.alloc[id])[b] <= AllocCount(p.alloc, b) {
        AllocCountAt(p.alloc, id, b);
        assert Places(p, pinned, [], b) <= 1;
      }
      OnceIsNoDup(p.alloc[id]);
      forall b | b in p.alloc[id] ensures b !in p.free && b !in pinned {
        assert b in multiset(p.alloc[id]);
        assert Places(p, pinned, [], b) <= 1;
      }
    }
    forall i, j, b | i in p.alloc && j in p.alloc && i != j && b in p.alloc[i] ensures b !in p.alloc[j] {
      AllocCountAt(p.alloc, i, b);
      AllocCountAt(p.alloc - {i}, j, b);
      assert b in multiset(p.alloc[i]);
      assert Places(p, pinned, [], b) <= 1;
      assert multiset(p.alloc[j])[b] == 0;
    }
    forall b: nat
      ensures b < p.numBlocks <==> b in p.free || b in pinned || exists id :: id in p.alloc && b in p.alloc[id]
    {
      AllocOwner(p.alloc, b);
      assert Places(p, pinned, [], b) == if b < p.numBlocks then 1 else 0;
    }
  }

  lemma NewPoolConserved(numBlocks: Pos, blockSize: Pos)
    ensures Conserved(NewPool(numBlocks, blockSize), {}, [])
  {
    var p := NewPool(numBlocks, blockSize);
    forall b: nat ensures Places(p, {}, [], b) == if b < numBlocks then 1 else 0 {
      Range(numBlocks, b);
    }
  }

  lemma {:induction false} Range(n: nat, b: nat)
    ensures multiset(seq(n, (i: nat) => i))[b] == if b < n then 1 else 0
  {
    if n > 0 {
      Range(n - 1, b);
      assert seq(n, (i: nat) => i) == seq(n - 1, (i: nat) => i) + [n - 1];
    }
  }

  lemma ReserveConserves(p: Pool, pinned: set<nat>, numTokens: int)
    requires Conserved(p, pinned, []) && Reserve(p, numTokens).Some?
    ensures var (p', ids) := Reserve(p, numTokens).value;
      && Conserved(p', pinned, ids) && |ids| == BlocksNeeded(p.blockSize, numTokens)
      && p' == p.(free := p'.free) && |p'.free| == |p.free| - |ids|
  {
    var (p', ids) := Reserve(p, numTokens).value;
    assert p.free == ids + p'.free;
    forall b: nat ensures Places(p', pinned, ids, b) == Places(p, pinned, [], b) { }
  }

  lemma AllocateConserves(p: Pool, pinned: set<nat>, q: Sequence, numTokens: int)
    requires Conserved(p, pinned, []) && q.id !in p.alloc && Allocate(p, q, numTokens).Some?
    ensures var (p', q') := Allocate(p, q, numTokens).value;
      && Conserved(p', pinned, []) && |p'.alloc[q.id]| == BlocksNeeded(p.blockSize, numTokens)
      && p' == p.(free := p'.free, alloc := p.alloc[q.id := q'.blockIds])
  {
    ReserveConserves(p, pinned, numTokens);
    var (r, ids) := Reserve(p, numTokens).value;
    var p' := Allocate(p, q, numTokens).value.0;
    assert p.alloc - {q.id} == p.alloc;
    forall b: nat ensures Places(p', pinned, [], b) == Places(r, pinned, ids, b) {
      AllocCountUpdate(p.alloc, q.id, ids, b);
    }
  }

  lemma ReleaseConserves(p: Pool, pinned: set<nat>, ids: seq<nat>)
    requires Conserved(p, pinned, ids)
    ensures Conserved(Release(p, ids), pinned, [])
  {
    forall b: nat ensures Places(Release(p, ids), pinned, [], b) == Places(p, pinned, ids, b) { }
  }

  lemma DetachConserves(p: Pool, pinned: set<nat>, q: Sequence, n: nat)
    requires Conserved(p, pinned, []) && q.id in p.alloc
    ensures var (p', q', taken) := Detach(p, q, n);
      && Conserved(p', pinned, taken) && |taken| + |p'.alloc[q.id]| == |p.alloc[q.id]|
      && |taken| == (if n <= |p.alloc[q.id]| then n else |p.alloc[q.id]|)
      && p' == p.(alloc := p.alloc[q.id := q'.ownedBlockIds])
  {
    var (p', q', taken) := Detach(p, q, n);
    assert p.alloc[q.id] == taken + q'.ownedBlockIds;
    forall b: nat ensures Places(p', pinned, taken, b) == Places(p, pinned, [], b) {
      AllocCountUpdate(p.alloc, q.id, q'.ownedBlockIds, b);
      AllocCountAt(p.alloc, q.id, b);
    }
  }

  lemma FreeConserves(p: Pool, pinned: set<nat>, q: Sequence)
    requires Conserved(p, pinned, []) && (q.id in p.alloc || Recorded(q) == [])
    ensures Conserved(Free(p, q).0, pinned, [])
  {
    var p' := Free(p, q).0;
    forall b: nat ensures Places(p', pinned, [], b) == Places(p, pinned, [], b) {
      if q.id in p.alloc {
        AllocCountAt(p.alloc, q.id, b);
      } else {
        assert p.alloc - {q.id} == p.alloc;
      }
    }
  }

  // With nothing owned and nothing pinned, every block is free again.
  lemma AllFree(p: Pool)
    requires Conserved(p, {}, []) && p.alloc == map[]
    ensures UsedBlocks(p) == 0 && |p.free| == p.numBlocks
  {
    ConservedIsPartition(p, {});
    PigeonHole(p.free, p.numBlocks);
  }

  // ---- Order ----

  // What is done to the free list between two moments.
  datatype FreeOp = Taking(numTokens: int) | Giving(ids: seq<nat>)

  // The pool after a run of such operations, what they handed out and what they brought back, in
  // order. A reservation that does not fit hands out nothing.
  ghost function Passed(p: Pool, ops: seq<FreeOp>): (Pool, seq<nat>, seq<nat>) {
    if ops == [] then (p, [], [])
    else
      var (q, taken, given) := Passed(p, ops[..|ops| - 1]);
      match ops[|ops| - 1]
      case Giving(ids) => (Release(q, ids), taken, given + ids)
      case Taking(n) => if Reserve(q, n).None? then (q, taken, given)
        else (Reserve(q, n).value.0, taken + Reserve(q, n).value.1, given)
  }

  // First in, first out: over any run of reservations and releases the blocks handed out, followed
  // by those still free, are the blocks that were free, followed by those given back.
  lemma {:induction false} FreeListIsFifo(p: Pool, ops: seq<FreeOp>)
    ensures var (q, taken, given) := Passed(p, ops); taken + q.free == p.free + given
  {
    if ops != [] {
      var (q, taken, given) := Passed(p, ops[..|ops| - 1]);
      FreeListIsFifo(p, ops[..|ops| - 1]);
      match ops[|ops| - 1] {
        case Giving(ids) => assert taken + (q.free + ids) == p.free + given + ids;
        case Taking(n) =>
          var r := Reserve(q, n);
          if r.Some? { assert q.free == r.value.1 + r.value.0.free; }
      }
    }
  }

  // One reservation fails exactly when too few blocks are free, and otherwise hands out the front of
  // the free list; what a release has brought back comes after everything that was free before.
  lemma ReservesFront(p: Pool, ids: seq<nat>, numTokens: int)
    ensures Reserve(p, numTokens).None? <==> |p.free| < BlocksNeeded(p.blockSize, numTokens)
    ensures Reserve(p, numTokens).Some? ==> Reserve(p, numTokens).value.1 <= p.free
    ensures Reserve(Release(p, ids), numTokens).Some? ==>
      var got := Reserve(Release(p, ids), numTokens).value.1;
      if |got| <= |p.free| then got <= p.free else p.free <= got && got[|p.free|..] <= ids
  {
    var r := Release(p, ids);
    if Reserve(r, numTokens).Some? {
      var got := Reserve(r, numTokens).value.1;
      assert got == (p.free + ids)[..|got|];
    }
  }
}
