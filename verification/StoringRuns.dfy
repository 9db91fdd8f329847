// Runs that serve one request after another, each to its end, and what they leave stored.
module StoringRuns {
  import opened Common
  import opened LanguageModel
  import opened Engines
  import opened Generation
  import opened Sequences
  import opened BlockPool
  import opened PrefixCache
  import opened PrefixLaws
  import opened PrefixOps
  import opened Scheduler
  import opened Lifecycle
  import opened EmptyBatch
  import opened CoverageRuns
  import opened Worker
  import opened WorkerCore
  import opened WorkerInvariant
  import opened WorkerAdmits
  import opened WorkerRuns
  import opened WorkerHistory
  import opened Stall
  import opened FailingRuns

  // A process of these sizes at the top of its loop with nothing to do; ids from `next` on are free.
  ghost predicate AtEase(lm: Lm, cfg: Config, u: Setup, s: State, next: Id) {
    && Reachable(lm, cfg, s) && SameConfig(Init(u).m, s.m)
    && s.pc == Top && !s.stop && s.running == [] && s.waiting == []
    && forall id :: id in s.seqs ==> id < next
  }

  lemma EaseIsIdle(lm: Lm, cfg: Config, u: Setup, s: State, next: Id)
    requires AtEase(lm, cfg, u, s, next)
    ensures Idle(s.m) && Inv(s.m) && AllMean(lm, s.m.cache.entries)
  {
    hide Reachable, Core, Lists, Shape, Inv, AllMean;
    ReachableHolds(lm, cfg, s);
    CoreMemory(lm, cfg, s);
    QuietTop(lm, cfg, s);
  }

  lemma CoreMemory(lm: Lm, cfg: Config, s: State)
    requires CoreOf(lm, cfg, s)
    ensures Inv(s.m) && AllMean(lm, s.m.cache.entries)
  {
    hide Inv, AllMean;
  }

  function One(prompt: Key): Request {
    Request(prompt, 1, {})
  }

  // One request is submitted and admitted.
  ghost predicate CameIn(lm: Lm, cfg: Config, u: Setup, s: State, id: Id, prompt: Key, now: int, s1: State) {
    var t := TryAllocate(cfg, s.m, NewSequence(id, One(prompt)), now);
    && Reachable(lm, cfg, s1) && s1.pc == Prefills([id]) && !s1.stop && s1.running == [] && s1.waiting == []
    && t.ok && t.q.id == id && s1.m == t.m && s1.seqs == s.seqs[id := t.q] && SameConfig(Init(u).m, s1.m)
  }

  lemma ComesIn(lm: Lm, cfg: Config, u: Setup, s: State, id: Id, prompt: Key, now: int) returns (s1: State)
    requires AtEase(lm, cfg, u, s, id) && cfg.maxWaiting >= 1
    requires BlocksNeeded(u.blockSize, |prompt| + 1) <= u.numBlocks
    requires AdmitsWhenIdle(cfg, s.m, NewSequence(id, One(prompt)))
    ensures CameIn(lm, cfg, u, s, id, prompt, now, s1)
  {
    hide Reachable, Admit, BlocksNeeded, TryAllocate, Fits, Idle, AdmitsWhenIdle, SameConfig, Inv, AllMean;
    var q := NewSequence(id, One(prompt));
    EaseIsIdle(lm, cfg, u, s, id);
    EaseSizes(u, s.m);
    SubmitAccepted(lm, cfg, s, id, One(prompt));
    var a := Next(lm, cfg, s, Submit(id, One(prompt)));
    ReachableNext(lm, cfg, s, Submit(id, One(prompt)));
    assert [] + [id] == [id];
    var b := Next(lm, cfg, a, WORK);
    ReachableNext(lm, cfg, a, WORK);
    assert b == a.(pc := Dropping([], []));
    TryAllocateSizes(cfg, b.m, q, now);
    SizesThen(Init(u).m, s.m, TryAllocate(cfg, b.m, q, now).m);
    AdmitsOne(cfg, b, id, q, now);
    assert b.(running := []) == b;
    s1 := Next(lm, cfg, b, Work(now, false, false));
    ReachableNext(lm, cfg, b, Work(now, false, false));
  }

  // The only waiter is admitted into the idle memory.
  lemma AdmitsOne(cfg: Config, s: State, id: Id, q: Sequence, now: int)
    requires Idle(s.m) && s.waiting == [id] && id in s.seqs && s.seqs[id] == q && q.id == id && !Terminal(q.status)
    requires AdmitsWhenIdle(cfg, s.m, q)
    ensures var t := TryAllocate(cfg, s.m, q, now);
      && t.ok && t.q.id == id
      && Admit(cfg, s, cfg.maxBatch, now) ==
        (s.(waiting := [], event := false, m := t.m, seqs := s.seqs[id := t.q]), [id])
  {
    hide Admit, TryAllocate, Fits, Idle, AdmitsWhenIdle;
    VerdictFits(cfg, s.m, q);
    IdleAdmission(cfg, s.m, q, now);
    TryAllocateOnward(cfg, s.m, q, now);
    RoundUnfolds(cfg, s, 0, cfg.maxBatch, now);
    RoundQueue(cfg, s, 0, now);
    assert Rest(s.waiting, 0) == [];
    AdmitNone(cfg, Taken(cfg, s, 0, now), cfg.maxBatch - 1, now);
    assert [id] + [] == [id];
  }

  lemma EaseSizes(u: Setup, m: Memory)
    requires SameConfig(Init(u).m, m)
    ensures m.pool.numBlocks == u.numBlocks && m.pool.blockSize == u.blockSize
    ensures m.cache.maxEntries == u.maxEntries && m.cache.minTokens == u.minTokens && m.cache.blockSize == u.prefixBlock
  {
  }

  lemma EndsAtEase(lm: Lm, cfg: Config, u: Setup, s: State, id: Id, before: State)
    requires Reachable(lm, cfg, s) && SameConfig(Init(u).m, s.m) && s.pc == Prefills([])
    requires !s.stop && s.running == [] && s.waiting == []
    requires (forall x :: x in before.seqs ==> x < id) && forall x :: x in s.seqs ==> x in before.seqs || x == id
    ensures var s' := Next(lm, cfg, s, WORK); AtEase(lm, cfg, u, s', id + 1) && s'.m == s.m
  {
    hide Reachable, SameConfig;
    ReachableNext(lm, cfg, s, WORK);
  }

  // It is aborted before its prefill: what remains is that its prefix has been looked up.
  lemma ComesAndGoes(lm: Lm, cfg: Config, u: Setup, s: State, id: Id, prompt: Key, now: int) returns (s': State)
    requires AtEase(lm, cfg, u, s, id) && cfg.maxWaiting >= 1
    requires BlocksNeeded(u.blockSize, |prompt| + 1) <= u.numBlocks
    requires AdmitsWhenIdle(cfg, s.m, NewSequence(id, One(prompt)))
    ensures AtEase(lm, cfg, u, s', id + 1)
    ensures var t := TryAllocate(cfg, s.m, NewSequence(id, One(prompt)), now);
      t.ok && s'.m == EndAs(cfg, t.m, t.q.(abortRequested := true), Aborted).0
  {
    hide Reachable, BlocksNeeded, TryAllocate, Idle, AdmitsWhenIdle, SameConfig, EndAs, AtEase;
    var a := ComesIn(lm, cfg, u, s, id, prompt, now);
    var b := Next(lm, cfg, a, RequestAbort(id));
    ReachableNext(lm, cfg, a, RequestAbort(id));
    var q := b.seqs[id];
    var c := Next(lm, cfg, b, WORK);
    ReachableNext(lm, cfg, b, WORK);
    assert [id][1..] == [];
    EndedAs(cfg, b.m, q, Aborted);
    EndSizes(cfg, b.m, q, Aborted);
    SizesThen(Init(u).m, b.m, c.m);
    EaseIds(lm, cfg, u, s, id);
    EndsAtEase(lm, cfg, u, c, id, s);
    s' := Next(lm, cfg, c, WORK);
  }

  lemma EaseIds(lm: Lm, cfg: Config, u: Setup, s: State, next: Id)
    requires AtEase(lm, cfg, u, s, next)
    ensures forall id :: id in s.seqs ==> id < next
  {
  }

  // It is served: its prefill stores its prefixes, and its one token is its last.
  lemma ComesAndStores(lm: Lm, cfg: Config, u: Setup, s: State, id: Id, prompt: Key, now: int, later: int)
    returns (s': State)
    requires AtEase(lm, cfg, u, s, id) && cfg.maxWaiting >= 1 && prompt != []
    requires BlocksNeeded(u.blockSize, |prompt| + 1) <= u.numBlocks
    requires AdmitsWhenIdle(cfg, s.m, NewSequence(id, One(prompt)))
    ensures AtEase(lm, cfg, u, s', id + 1)
    ensures var t := TryAllocate(cfg, s.m, NewSequence(id, One(prompt)), now);
      var p := PrefillWithReuse(lm, cfg, t.m, t.q.(status := Prefilling), later, false);
      && t.ok && p.out == Ok(Recompute(lm, prompt))
      && s'.m == FinishSequence(cfg, p.m, NoteToken(p.q, Argmax(p.out.value.logits)).(kv := Some(p.out.value.cache))).0
  {
    hide Reachable, BlocksNeeded, TryAllocate, Idle, AdmitsWhenIdle;
    hide SameConfig, EndAs, AtEase, PrefillWithReuse, KvOf, LogitsOf;
    var a := ComesIn(lm, cfg, u, s, id, prompt, now);
    AttemptProgress(cfg, s.m, NewSequence(id, One(prompt)), now);
    var b := Next(lm, cfg, a, WORK);
    ReachableNext(lm, cfg, a, WORK);
    assert [id][1..] == [] && b == a.(pc := InPrefill(id, []));
    var q := b.seqs[id].(status := Prefilling);
    var p := PrefillWithReuse(lm, cfg, b.m, q, later, false);
    PrefillsHere(lm, cfg, b, later);
    PrefillSizes(lm, cfg, b.m, q, later, false);
    var noted := NoteToken(p.q, Argmax(p.out.value.logits)).(kv := Some(p.out.value.cache));
    var c := Next(lm, cfg, b, Work(later, false, false));
    ReachableNext(lm, cfg, b, Work(later, false, false));
    assert c == Put(b, (p.m, noted)).(pc := Sampled(id, []));
    FinishedAs(cfg, c.m, noted);
    FinishSizes(cfg, c.m, noted);
    var d := Next(lm, cfg, c, WORK);
    ReachableNext(lm, cfg, c, WORK);
    assert d == Put(c, FinishSequence(cfg, c.m, noted)).(pc := Prefills([]));
    SizesThen(Init(u).m, b.m, p.m);
    SizesThen(Init(u).m, p.m, d.m);
    EaseIds(lm, cfg, u, s, id);
    EndsAtEase(lm, cfg, u, d, id, s);
    s' := Next(lm, cfg, d, WORK);
  }

  lemma AttemptProgress(cfg: Config, m: Memory, q: Sequence, now: int)
    ensures SameProgress(q, TryAllocate(cfg, m, q, now).q)
  {
    hide Lookup, ReleasePrefix, Reserve;
  }

  lemma FinishSizes(cfg: Config, m: Memory, q: Sequence)
    ensures SameConfig(m, FinishSequence(cfg, m, q).0)
  {
    hide EndAs, SameConfig;
    var reason := if q.reason.Some? then q.reason.value else Length;
    EndSizes(cfg, m, q.(result := Some(Generation(q.output, reason))), Finished);
  }

  // What the prefill of a reachable state gives.
  lemma PrefillsHere(lm: Lm, cfg: Config, s: State, now: int)
    requires Reachable(lm, cfg, s) && s.pc.InPrefill? && s.pc.id in s.seqs && s.seqs[s.pc.id].req.prompt != []
    ensures var q := s.seqs[s.pc.id].(status := Prefilling);
      var p := PrefillWithReuse(lm, cfg, s.m, q, now, false);
      && p.out == Ok(Recompute(lm, q.req.prompt)) && SameProgress(q, p.q)
  {
    hide Reachable, Core, Lists, Shape, PrefillWithReuse, Inv, AllMean, RefsOf, Budgeted, PrefixOk, KvOf, LogitsOf;
    ReachableHolds(lm, cfg, s);
    PrefillTarget(lm, cfg, s);
    var q := s.seqs[s.pc.id].(status := Prefilling);
    SameBudget(lm, cfg, s.m, s.seqs[s.pc.id], q);
    PrefillKeeps(lm, cfg, s.m, q, now, false);
  }
}
