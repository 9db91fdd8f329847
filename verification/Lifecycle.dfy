// The worker's per-sequence helpers: late prefix binding, prefill with reuse, noting a token, and
// the three ways a sequence ends, each of which gives its memory back and signals the consumer.
module Lifecycle {
  import opened Common
  import opened KvCache
  import opened LanguageModel
  import opened Engines
  import opened Generation
  import opened Sequences
  import opened BlockPool
  import opened PrefixCache
  import opened PrefixLaws
  import opened PrefixOps
  import opened Scheduler

  function AllocOf(p: Pool, id: Id): seq<nat> {
    if id in p.alloc then p.alloc[id] else []
  }

  // Late-bind a hit that a sibling of the same batch has inserted, trading own blocks for it.
  function BindPrefixAtPrefill(cfg: Config, m: Memory, q: Sequence, now: int): (Memory, Sequence) {
    if !cfg.prefixOn || q.prefixKey.Some? then (m, q)
    else
      var (m1, found) := Lookup(m, q.req.prompt, now);
      match found
      case None => (m, q)
      case Some(hit) =>
        var (pool, q1, extra) := Detach(m1.pool, ApplyHit(q, hit), BlocksNeeded(m1.pool.blockSize, |hit.tokenIds|));
        var pool' := Release(pool, extra);
        var owned := AllocOf(pool', q.id);
        (m1.(pool := pool'), q1.(ownedBlockIds := owned, blockIds := hit.blockIds + owned))
  }

  function Suffix(ids: Key, n: nat): Key {
    if n <= |ids| then ids[n..] else []
  }

  // Exact hit with logits, partial hit, hit without usable logits, or no hit. A malformed prefix
  // cache makes the model raise.
  function Reuse(lm: Lm, q: Sequence): Result<Output> {
    if q.prefixTokens > 0 && q.prefixKv.Some? then
      if !Shaped(lm, q.prefixKv.value, SeqLen(q.prefixKv.value)) then Err
      else
        var prefix := Take(q.prefixKv.value, SeqLen(q.prefixKv.value));
        CloneIsWhole(q.prefixKv.value, SeqLen(q.prefixKv.value));
        if q.prefixLogits.Some? && q.prefixTokens >= |q.req.prompt| then
          Ok(Output(q.prefixLogits.value, prefix))
        else
          var suffix := Suffix(q.req.prompt, q.prefixTokens);
          if suffix != [] then PrefillFromPrefix(lm, suffix, prefix) else Prefill(lm, q.req.prompt)
    else Prefill(lm, q.req.prompt)
  }

  // Insert what the prefill computed and pin it to the sequence.
  function Store(m: Memory, q: Sequence, out: Output, now: int): (Memory, Sequence) {
    Adopt(Insert(m, q.req.prompt, out.cache, Some(out.logits), now), q, now)
  }

  datatype Prefilled = Prefilled(m: Memory, q: Sequence, out: Result<Output>)

  // `fails` stands for the model raising; an exception leaves the binding in place.
  function PrefillWithReuse(lm: Lm, cfg: Config, m: Memory, q: Sequence, now: int, fails: bool): Prefilled
  {
    var (m1, q1) := BindPrefixAtPrefill(cfg, m, q, now);
    var out := if fails then Err else Reuse(lm, q1);
    if out.Err? then Prefilled(m1, q1, Err)
    else if !cfg.prefixOn then Prefilled(m1, q1, out)
    else
      var (m2, q2) := Store(m1, q1, out.value, now);
      Prefilled(m2, q2, out)
  }

  function NoteToken(q: Sequence, token: Token): Sequence {
    var output := q.output + [token];
    q.(output := output, lastToken := Some(token), pushed := q.pushed + [Push(token)],
       reason := if token in q.req.stop then Some(Stop)
                 else if |output| >= q.req.maxTokens then Some(Length)
                 else q.reason)
  }

  function ReleaseSequence(cfg: Config, m: Memory, q: Sequence): (Memory, Sequence) {
    var m1 := if cfg.prefixOn then ReleasePrefix(m, q.prefixKey) else m;
    var (pool, q1) := Free(m1.pool, q);
    (m1.(pool := pool), q1.(kv := None, prefixKv := None, prefixLogits := None, releases := q.releases + 1))
  }

  function SignalEnd(q: Sequence): Sequence {
    q.(pushed := q.pushed + [NoneItem], signals := q.signals + 1)
  }

  function EndAs(cfg: Config, m: Memory, q: Sequence, status: Status): (Memory, Sequence) {
    var (m', q') := ReleaseSequence(cfg, m, q.(status := status));
    (m', SignalEnd(q'))
  }

  function AbortOne(cfg: Config, m: Memory, q: Sequence): (Memory, Sequence) {
    EndAs(cfg, m, q, Aborted)
  }

  function FailOne(cfg: Config, m: Memory, q: Sequence): (Memory, Sequence) {
    EndAs(cfg, m, q, Errored)
  }

  function FinishSequence(cfg: Config, m: Memory, q: Sequence): (Memory, Sequence) {
    var reason := if q.reason.Some? then q.reason.value else Length;
    EndAs(cfg, m, q.(result := Some(Generation(q.output, reason))), Finished)
  }

  lemma EndedAs(cfg: Config, m: Memory, q: Sequence, status: Status)
    ensures var q' := EndAs(cfg, m, q, status).1;
      && q'.status == status && q'.id == q.id && q'.req == q.req && q'.output == q.output
      && q'.abortRequested == q.abortRequested
  {
    hide ReleasePrefix;
  }

  lemma FinishedAs(cfg: Config, m: Memory, q: Sequence)
    ensures var q' := FinishSequence(cfg, m, q).1;
      && q'.status == Finished && q'.id == q.id && q'.req == q.req && q'.output == q.output
      && q'.abortRequested == q.abortRequested
  {
    hide ReleasePrefix;
  }

  // ---- Prefix reuse preserves meaning ----

  // The references a step takes for a sequence that may already hold one.
  function Gained(q: Sequence, q': Sequence): Option<Key> {
    if q.prefixKey.None? then q'.prefixKey else None
  }

  lemma ReuseIsPrefill(lm: Lm, cfg: Config, q: Sequence)
    requires PrefixOk(lm, cfg, q)
    ensures q.req.prompt != [] ==> Reuse(lm, q) == Ok(Recompute(lm, q.req.prompt))
    ensures q.req.prompt == [] ==> Reuse(lm, q).Err?
  {
    hide Run, Forward;
    var prompt := q.req.prompt;
    if prompt != [] { PrefillRecomputes(lm, prompt); }
    if q.prefixTokens > 0 {
      var key := q.prefixKey.value;
      CloneIsWhole(KvOf(lm, key), |key|);
      var suffix := Suffix(prompt, |key|);
      assert key + suffix == prompt;
      if suffix != [] { SuffixPrefillRecomputes(lm, key, suffix); }
    }
  }

  lemma TradeKeeps(lm: Lm, m: Memory, q: Sequence, n: nat)
    requires Inv(m) && AllMean(lm, m.cache.entries) && q.id in m.pool.alloc
    ensures var (pool, q1, extra) := Detach(m.pool, q, n); var pool' := Release(pool, extra);
      && Moved(lm, m, m.(pool := pool'), q.id) && q.id in pool'.alloc
      && |pool'.alloc[q.id]| + n >= |m.pool.alloc[q.id]|
      && q1 == q.(ownedBlockIds := q1.ownedBlockIds)
  {
    var (pool, q1, extra) := Detach(m.pool, q, n);
    DetachConserves(m.pool, m.cache.pins.Keys, q, n);
    ReleaseConserves(pool, m.cache.pins.Keys, extra);
    assert m.pool.alloc[q.id := q1.ownedBlockIds] - {q.id} == m.pool.alloc - {q.id};
  }

  lemma BindKeeps(lm: Lm, cfg: Config, m: Memory, q: Sequence, now: int)
    requires Inv(m) && AllMean(lm, m.cache.entries) && Budgeted(m, q) && PrefixOk(lm, cfg, q)
    ensures var (m', q') := BindPrefixAtPrefill(cfg, m, q, now);
      && Moved(lm, m, m', q.id) && SameProgress(q, q') && Budgeted(m', q') && PrefixOk(lm, cfg, q')
      && RefsMove(m.cache, m'.cache, Gained(q, q'), None)
      && (q.prefixKey.Some? ==> q'.prefixKey == q.prefixKey)
  {
    hide Inv, AllMean, KvOf, LogitsOf, Has, RefsOf, Lookup;
    if cfg.prefixOn && q.prefixKey.None? {
      var (m1, found) := Lookup(m, q.req.prompt, now);
      assert Consult(cfg, m, q, now) == (m1, found);
      ConsultKeeps(lm, cfg, m, q, now);
      LookupKeeps(lm, m, q.req.prompt, now);
      if found.Some? {
        TradeKeeps(lm, m1, ApplyHit(q, found.value), BlocksNeeded(m1.pool.blockSize, |found.value.tokenIds|));
      }
    }
  }

  lemma MovesCompose(a: Prefixes, b: Prefixes, c: Prefixes, first: Option<Key>, second: Option<Key>)
    requires RefsMove(a, b, first, None) && RefsMove(b, c, second, None)
    requires first.None? || second.None?
    ensures RefsMove(a, c, if first.Some? then first else second, None)
  {
  }

  lemma AdoptStep(lm: Lm, cfg: Config, m: Memory, q: Sequence, now: int)
    requires Inv(m) && AllMean(lm, m.cache.entries) && Budgeted(m, q) && PrefixOk(lm, cfg, q)
    requires cfg.prefixOn && q.req.maxTokens >= 1
    ensures var (m', q') := Adopt(m, q, now);
      && Moved(lm, m, m', q.id) && SameProgress(q, q') && Budgeted(m', q') && PrefixOk(lm, cfg, q')
      && RefsMove(m.cache, m'.cache, Gained(q, q'), None)
      && (q.prefixKey.Some? ==> q'.prefixKey == q.prefixKey)
  {
    hide Inv, AllMean, KvOf, LogitsOf, RefsOf;
    if q.prefixKey.None? {
      BlocksMonotone(m.pool.blockSize, |q.req.prompt|, ReservationTokens(q));
      AdoptKeeps(lm, m, q, now);
      var (m', q') := Adopt(m, q, now);
      assert m.pool.alloc[q.id := m'.pool.alloc[q.id]] - {q.id} == m.pool.alloc - {q.id};
    }
  }

  lemma StoreKeeps(lm: Lm, cfg: Config, m: Memory, q: Sequence, now: int)
    requires Inv(m) && AllMean(lm, m.cache.entries) && Budgeted(m, q) && PrefixOk(lm, cfg, q)
    requires cfg.prefixOn && q.req.maxTokens >= 1 && q.req.prompt != []
    ensures var (m', q') := Store(m, q, Recompute(lm, q.req.prompt), now);
      && Moved(lm, m, m', q.id) && SameProgress(q, q') && Budgeted(m', q') && PrefixOk(lm, cfg, q')
      && RefsMove(m.cache, m'.cache, Gained(q, q'), None)
      && (q.prefixKey.Some? ==> q'.prefixKey == q.prefixKey)
  {
    hide Inv, AllMean, KvOf, LogitsOf, RefsOf, Insert, Adopt;
    var out := Recompute(lm, q.req.prompt);
    var m2 := Insert(m, q.req.prompt, out.cache, Some(out.logits), now);
    InsertKeeps(lm, m, q.req.prompt, out.cache, Some(out.logits), now);
    AdoptStep(lm, cfg, m2, q, now);
    var (m3, q3) := Adopt(m2, q, now);
    MovesCompose(m.cache, m2.cache, m3.cache, None, Gained(q, q3));
  }

  // After a miss nobody can hold the entry that adoption finds: the branch for an entry already
  // referenced is never taken.
  lemma AdoptFindsUnreferenced(lm: Lm, m: Memory, q: Sequence, now: int)
    requires Inv(m) && AllMean(lm, m.cache.entries) && q.req.prompt != []
    requires Peek(m.cache, q.req.prompt).None? && |q.req.prompt| >= m.cache.minTokens
    ensures var out := Recompute(lm, q.req.prompt);
      RefsOf(Insert(m, q.req.prompt, out.cache, Some(out.logits), now).cache, q.req.prompt) == 0
  {
    hide Inv, AllMean, KvOf, LogitsOf, Insert;
    var ids := q.req.prompt;
    var out := Recompute(lm, ids);
    InsertKeeps(lm, m, ids, out.cache, Some(out.logits), now);
    PeekFromIsLongest(m.cache, ids, |ids|);
    assert ids[..|ids|] == ids;
  }

  // From every state that keeps the books, prefill with reuse returns what full recompute of the
  // prompt returns, whatever was cached, and leaves the books kept.
  lemma PrefillKeeps(lm: Lm, cfg: Config, m: Memory, q: Sequence, now: int, fails: bool)
    requires Inv(m) && AllMean(lm, m.cache.entries) && Budgeted(m, q) && PrefixOk(lm, cfg, q)
    requires q.req.maxTokens >= 1
    ensures var p := PrefillWithReuse(lm, cfg, m, q, now, fails);
      && Moved(lm, m, p.m, q.id) && SameProgress(q, p.q) && Budgeted(p.m, p.q) && PrefixOk(lm, cfg, p.q)
      && RefsMove(m.cache, p.m.cache, Gained(q, p.q), None)
      && (q.prefixKey.Some? ==> p.q.prefixKey == q.prefixKey)
      && (p.out.Ok? <==> !fails && q.req.prompt != [])
      && (p.out.Ok? ==> p.out.value == Recompute(lm, q.req.prompt))
  {
    hide Inv, AllMean, KvOf, LogitsOf, RefsOf, Reuse, Store, BindPrefixAtPrefill;
    var (m1, q1) := BindPrefixAtPrefill(cfg, m, q, now);
    BindKeeps(lm, cfg, m, q, now);
    ReuseIsPrefill(lm, cfg, q1);
    if !fails && q.req.prompt != [] && cfg.prefixOn {
      StoreKeeps(lm, cfg, m1, q1, now);
      var (m3, q3) := Store(m1, q1, Recompute(lm, q.req.prompt), now);
      MovesCompose(m.cache, m1.cache, m3.cache, Gained(q, q1), Gained(q1, q3));
    }
  }

  // ---- Ending ----

  // Ending gives back exactly what the sequence holds: its reference and its blocks.
  lemma EndKeeps(lm: Lm, cfg: Config, m: Memory, q: Sequence, status: Status)
    requires Inv(m) && AllMean(lm, m.cache.entries)
    requires q.id in m.pool.alloc || Recorded(q) == []
    requires q.prefixKey.Some? ==> cfg.prefixOn && q.prefixKey.value != [] && RefsOf(m.cache, q.prefixKey.value) > 0
    ensures var (m', q') := EndAs(cfg, m, q, status);
      && Moved(lm, m, m', q.id) && q.id !in m'.pool.alloc
      && RefsMove(m.cache, m'.cache, None, q.prefixKey)
  {
    hide AllMean, KvOf, LogitsOf, RefsOf, ReleasePrefix;
    var m1 := if cfg.prefixOn then ReleasePrefix(m, q.prefixKey) else m;
    if q.prefixKey.Some? {
      GiveBackKeeps(lm, m, q.prefixKey.value);
    } else {
      NoKeyNoRelease(m);
    }
    var ended := q.(status := status);
    FreeConserves(m1.pool, m1.cache.pins.Keys, ended);
    assert m1.pool.alloc - {q.id} - {q.id} == m1.pool.alloc - {q.id};
  }

  lemma NoKeyNoRelease(m: Memory)
    ensures ReleasePrefix(m, None) == m
  {
  }

  // ---- Ending twice ----

  // Freeing a sequence's blocks twice frees them once ...
  lemma FreeIsIdempotent(p: Pool, q: Sequence)
    ensures var (p1, q1) := Free(p, q); Free(p1, q1) == (p1, q1)
  {
    var (p1, q1) := Free(p, q);
    assert p1.free + [] == p1.free;
    assert p1.alloc - {q.id} == p1.alloc;
  }

  // ... but a second release of a shared prefix takes away another sequence's reference, because
  // the prefix key is never cleared. Ending once is what keeps the counts exact.
  lemma SecondReleaseStealsReference(m: Memory, key: Key)
    requires Inv(m) && key != [] && RefsOf(m.cache, key) == 2
    ensures var m2 := ReleasePrefix(ReleasePrefix(m, Some(key)), Some(key));
      Has(m2.cache, key) && RefsOf(m2.cache, key) == 0 && m2.cache.entries[Find(m2.cache.entries, key)].blockIds == []
  {
    var m1 := ReleasePrefix(m, Some(key));
    ReleaseKeeps(m, key);
    GaveRefMoves(m, Find(m.cache.entries, key), m1);
    ReleaseKeeps(m1, key);
    var m2 := ReleasePrefix(m1, Some(key));
    GaveRefMoves(m1, Find(m1.cache.entries, key), m2);
    FindStable(m1.cache.entries, m2.cache.entries, key);
    assert EntryOk(m2.cache, m2.pool.blockSize, m2.cache.entries[Find(m2.cache.entries, key)]);
  }
}
