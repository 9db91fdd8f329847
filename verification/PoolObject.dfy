// The block allocator as an object: its deque and its dictionary change in place, step by step as
// in the source, and every method does exactly what the function of the same name says.
module PoolObject {
  import opened Common
  import opened Sequences
  import opened SequenceRecord
  import P = BlockPool
  import opened BlockPool

  class BlockPoolObject {
    const numBlocks: Pos
    const blockSize: Pos
    var free: seq<nat>
    var alloc: map<Id, seq<nat>>

    function View(): Pool
      reads this
    {
      Pool(numBlocks, blockSize, free, alloc)
    }

    constructor (numBlocks: Pos, blockSize: Pos)
      ensures View() == NewPool(numBlocks, blockSize)
    {
      this.numBlocks, this.blockSize := numBlocks, blockSize;
      free, alloc := seq(numBlocks, (i: nat) => i), map[];
    }

    // Pop the needed blocks off the left, one by one, or none at all.
    method Reserve(numTokens: int) returns (ids: Option<seq<nat>>)
      modifies this`free
      ensures ids.Some? <==> P.Reserve(old(View()), numTokens).Some?
      ensures ids.Some? ==> (View(), ids.value) == P.Reserve(old(View()), numTokens).value
      ensures ids.None? ==> View() == old(View())
    {
      var needed := BlocksNeeded(blockSize, numTokens);
      if needed == 0 {
        ids := Some([]);
      } else if needed > |free| {
        ids := None;
      } else {
        var popped := [];
        for i := 0 to needed
          invariant |free| == |old(free)| - i
          invariant popped == old(free)[..i] && free == old(free)[i..]
        {
          popped := popped + [free[0]];
          free := free[1..];
        }
        ids := Some(popped);
      }
    }

    method Allocate(q: Record, numTokens: int) returns (ids: Option<seq<nat>>)
      modifies this, q`blockIds
      ensures ids.Some? <==> P.Allocate(old(View()), old(q.View()), numTokens).Some?
      ensures ids.Some? ==>
        (View(), q.View()) == P.Allocate(old(View()), old(q.View()), numTokens).value && ids.value == q.blockIds
      ensures ids.None? ==> View() == old(View()) && q.View() == old(q.View())
    {
      ids := Reserve(numTokens);
      if ids.Some? {
        alloc := alloc[q.id := ids.value];
        q.blockIds := ids.value;
      }
    }

    // Append the blocks on the right, one by one.
    method Release(ids: seq<nat>)
      modifies this`free
      ensures View() == P.Release(old(View()), ids)
    {
      for i := 0 to |ids|
        invariant free == old(free) + ids[..i]
      {
        free := free + [ids[i]];
      }
      assert ids[..|ids|] == ids;
    }

    method Detach(q: Record, n: nat) returns (taken: seq<nat>)
      modifies this`alloc, q`ownedBlockIds
      ensures (View(), q.View(), taken) == P.Detach(old(View()), old(q.View()), n)
    {
      if q.id !in alloc {
        alloc := alloc[q.id := Recorded(q.View())];
      }
      var ids := alloc[q.id];
      var k := if n <= |ids| then n else |ids|;
      taken := ids[..k];
      alloc := alloc[q.id := ids[k..]];
      q.ownedBlockIds := ids[k..];
      assert alloc == old(alloc)[q.id := ids[k..]];
    }

    method FreeSequence(q: Record)
      modifies this, q`blockIds, q`ownedBlockIds
      ensures (View(), q.View()) == P.Free(old(View()), old(q.View()))
    {
      var ids := if q.id in alloc then alloc[q.id] else Recorded(q.View());
      alloc := alloc - {q.id};
      for i := 0 to |ids|
        invariant free == old(free) + ids[..i] && alloc == old(alloc) - {q.id} && q.View() == old(q.View())
      {
        free := free + [ids[i]];
      }
      assert ids[..|ids|] == ids;
      q.blockIds, q.ownedBlockIds := [], [];
    }
  }
}
