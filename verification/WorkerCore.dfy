// The part of the worker's invariant that ties records to memory: who owns blocks, how many live
// sequences hold each prefix, and what every record has generated, pushed and ended with.
module WorkerCore {
  import opened Common
  import opened KvCache
  import opened LanguageModel
  import opened Engines
  import opened Generation
  import opened Sequences
  import opened BlockPool
  import opened PrefixCache
  import opened PrefixLaws
  import opened PrefixOps
  import opened Scheduler
  import opened Lifecycle

  // ---- One record ----

  ghost predicate Untouched(q: Sequence) {
    && q.output == [] && q.pushed == [] && q.kv.None? && q.lastToken.None? && q.reason.None? && q.result.None?
    && q.releases == 0 && q.signals == 0
  }

  // Generated so far: greedy tokens, all pushed, with the KV of the prompt and all but the last.
  ghost predicate Progress(lm: Lm, q: Sequence) {
    && q.output != [] && Greedy(lm, q.req, q.output)
    && q.lastToken == Some(q.output[|q.output| - 1])
    && q.kv == Some(KvOf(lm, q.req.prompt + q.output[..|q.output| - 1]))
    && q.pushed == Tokens(q.output) && q.result.None? && q.releases == 0 && q.signals == 0
    && match q.reason
       case None => |q.output| < q.req.maxTokens && forall i :: 0 <= i < |q.output| ==> q.output[i] !in q.req.stop
       case Some(reason) => Completion(lm, q.req, Generation(q.output, reason))
  }

  // Released once, signalled once, everything generated pushed and then a single None; a finished
  // one carries the completion of its request, any other a greedy prefix of it.
  ghost predicate Ended(lm: Lm, q: Sequence) {
    && q.releases == 1 && q.signals == 1 && q.pushed == Tokens(q.output) + [NoneItem]
    && (q.output == [] || Greedy(lm, q.req, q.output))
    && (q.status.Finished? ==>
      && q.result.Some? && q.result.value.output == q.output && Completion(lm, q.req, q.result.value))
    && (!q.status.Finished? ==> q.result.None?)
    && q.kv.None? && q.prefixKv.None? && q.prefixLogits.None?
  }

  ghost predicate Queued(q: Sequence) {
    Untouched(q) && Unbound(q) && Recorded(q) == []
  }

  ghost predicate Admitted(lm: Lm, cfg: Config, m: Memory, q: Sequence) {
    Budgeted(m, q) && PrefixOk(lm, cfg, q)
  }

  ghost predicate SeqOk(lm: Lm, cfg: Config, m: Memory, queued: bool, q: Sequence) {
    && q.req.maxTokens >= 1
    && (queued ==> q.status.Waiting?)
    && match q.status
       case Waiting => if queued then Queued(q) else Untouched(q) && Admitted(lm, cfg, m, q)
       case Prefilling => Progress(lm, q) && Admitted(lm, cfg, m, q)
       case Decoding => Progress(lm, q) && q.reason.None? && Admitted(lm, cfg, m, q)
       case _ => Ended(lm, q)
  }

  // ---- All records ----

  function HeldKey(q: Sequence): Option<Key> {
    if Terminal(q.status) then None else q.prefixKey
  }

  ghost function Holders(seqs: map<Id, Sequence>, key: Key): set<Id> {
    set id | id in seqs && HeldKey(seqs[id]) == Some(key)
  }

  ghost predicate Owning(waiting: seq<Id>, seqs: map<Id, Sequence>, id: Id) {
    id in seqs && !Terminal(seqs[id].status) && id !in waiting
  }

  ghost predicate RefsExact(c: Prefixes, seqs: map<Id, Sequence>) {
    forall key :: RefsOf(c, key) == |Holders(seqs, key)|
  }

  ghost predicate Core(lm: Lm, cfg: Config, m: Memory, waiting: seq<Id>, seqs: map<Id, Sequence>) {
    && Inv(m) && AllMean(lm, m.cache.entries)
    && (forall id :: id in m.pool.alloc <==> Owning(waiting, seqs, id))
    && RefsExact(m.cache, seqs)
    && (forall id :: id in seqs ==> seqs[id].id == id && SeqOk(lm, cfg, m, id in waiting, seqs[id]))
  }

  lemma CoreAt(lm: Lm, cfg: Config, m: Memory, waiting: seq<Id>, seqs: map<Id, Sequence>, id: Id)
    requires Core(lm, cfg, m, waiting, seqs) && id in seqs
    ensures Inv(m) && AllMean(lm, m.cache.entries)
    ensures seqs[id].id == id && SeqOk(lm, cfg, m, id in waiting, seqs[id])
    ensures id in m.pool.alloc <==> !Terminal(seqs[id].status) && id !in waiting
  {
    hide Inv, AllMean, SeqOk;
    assert id in m.pool.alloc <==> Owning(waiting, seqs, id);
  }

  // ---- Changing one record ----

  ghost function Others(seqs: map<Id, Sequence>, id: Id, key: Key): set<Id> {
    set j | j in seqs && j != id && HeldKey(seqs[j]) == Some(key)
  }

  lemma HoldersSplit(seqs: map<Id, Sequence>, id: Id, key: Key)
    requires id in seqs
    ensures |Holders(seqs, key)| == |Others(seqs, id, key)| + (if HeldKey(seqs[id]) == Some(key) then 1 else 0)
  {
    hide HeldKey;
    var others := Others(seqs, id, key);
    assert Holders(seqs, key) == if HeldKey(seqs[id]) == Some(key) then others + {id} else others;
  }

  lemma HoldersUpdate(seqs: map<Id, Sequence>, q: Sequence, key: Key)
    requires q.id in seqs
    ensures |Holders(seqs[q.id := q], key)| ==
      |Holders(seqs, key)| + (if HeldKey(q) == Some(key) then 1 else 0)
        - (if HeldKey(seqs[q.id]) == Some(key) then 1 else 0)
  {
    hide HeldKey, Holders;
    HoldersSplit(seqs, q.id, key);
    HoldersSplit(seqs[q.id := q], q.id, key);
    assert Others(seqs[q.id := q], q.id, key) == Others(seqs, q.id, key);
  }

  // Nobody else's record depends on the memory that moved.
  lemma OthersKeep(lm: Lm, cfg: Config, m: Memory, m': Memory, id: Id, queued: bool, q: Sequence)
    requires q.id != id && SameConfig(m, m') && m'.pool.alloc - {id} == m.pool.alloc - {id}
    requires SeqOk(lm, cfg, m, queued, q)
    ensures SeqOk(lm, cfg, m', queued, q)
  {
    hide PrefixOk, Progress, Ended, Queued;
    assert q.id in m.pool.alloc <==> q.id in m.pool.alloc - {id};
    assert q.id in m'.pool.alloc <==> q.id in m'.pool.alloc - {id};
    assert q.id in m.pool.alloc ==> (m.pool.alloc - {id})[q.id] == m.pool.alloc[q.id];
    assert q.id in m'.pool.alloc ==> (m'.pool.alloc - {id})[q.id] == m'.pool.alloc[q.id];
  }

  // One record and the memory it holds change together.
  lemma CoreUpdate(lm: Lm, cfg: Config, m: Memory, m': Memory, waiting: seq<Id>, waiting': seq<Id>,
                   seqs: map<Id, Sequence>, q: Sequence)
    requires Core(lm, cfg, m, waiting, seqs) && q.id in seqs
    requires Moved(lm, m, m', q.id)
    requires forall id :: id != q.id ==> (id in waiting' <==> id in waiting)
    requires q.id in m'.pool.alloc <==> !Terminal(q.status) && q.id !in waiting'
    requires SeqOk(lm, cfg, m', q.id in waiting', q)
    requires RefsMove(m.cache, m'.cache, HeldKey(q), HeldKey(seqs[q.id]))
    ensures Core(lm, cfg, m', waiting', seqs[q.id := q])
  {
    hide Inv, AllMean, SeqOk, RefsOf;
    var seqs' := seqs[q.id := q];
    forall id ensures id in m'.pool.alloc <==> Owning(waiting', seqs', id) {
      if id != q.id {
        assert id in m'.pool.alloc <==> id in m'.pool.alloc - {q.id};
        assert id in m.pool.alloc <==> id in m.pool.alloc - {q.id};
        assert Owning(waiting', seqs', id) <==> Owning(waiting, seqs, id);
      }
    }
    forall key ensures RefsOf(m'.cache, key) == |Holders(seqs', key)| {
      HoldersUpdate(seqs, q, key);
      assert RefsOf(m.cache, key) == |Holders(seqs, key)|;
    }
    forall id | id in seqs' ensures seqs'[id].id == id && SeqOk(lm, cfg, m', id in waiting', seqs'[id]) {
      if id != q.id { OthersKeep(lm, cfg, m, m', q.id, id in waiting, seqs[id]); }
    }
  }

  // What CoreUpdate needs about memory that did not move.
  lemma Still(lm: Lm, m: Memory, id: Id)
    requires Inv(m) && AllMean(lm, m.cache.entries)
    ensures Moved(lm, m, m, id) && RefsMove(m.cache, m.cache, None, None)
  {
  }

  // A live holder's key still resolves.
  lemma LiveKeyResolves(lm: Lm, cfg: Config, m: Memory, waiting: seq<Id>, seqs: map<Id, Sequence>, id: Id)
    requires Core(lm, cfg, m, waiting, seqs) && id in seqs && HeldKey(seqs[id]).Some?
    ensures RefsOf(m.cache, seqs[id].prefixKey.value) > 0 && Has(m.cache, seqs[id].prefixKey.value)
  {
    hide Inv, AllMean, SeqOk;
    var key := seqs[id].prefixKey.value;
    assert id in Holders(seqs, key);
    assert RefsOf(m.cache, key) == |Holders(seqs, key)|;
  }
}
