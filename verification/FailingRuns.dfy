// Runs from the start of the process, with the deployed block size and minimum prefix length, that
// leave a reservation short of blocks; and the single steps such runs are made of.
module FailingRuns {
  import opened Common
  import opened KvCache
  import opened LanguageModel
  import opened Engines
  import opened Generation
  import opened Sequences
  import opened BlockPool
  import opened PrefixCache
  import opened PrefixLaws
  import opened PrefixOps
  import opened Scheduler
  import opened Lifecycle
  import opened StoredRuns
  import opened EmptyBatch
  import opened Coverage
  import opened CoverageRuns
  import opened Worker
  import opened WorkerCore
  import opened WorkerInvariant
  import opened WorkerAdmits
  import opened WorkerRuns
  import opened WorkerHistory

  const WORK: Event := Work(0, false, false)

  function Sevens(n: nat): (ids: Key)
    ensures |ids| == n && forall i :: 0 <= i < n ==> ids[i] == 7
  {
    seq(n, _ => 7)
  }

  lemma ReachableStart(lm: Lm, cfg: Config, u: Setup)
    ensures Reachable(lm, cfg, Init(u))
  {
    assert Serve(lm, cfg, Init(u), []) == Init(u);
  }

  // ---- Single steps ----

  lemma NeedsAtMost(cfg: Config, m: Memory, q: Sequence)
    ensures BlocksNeeded(m.pool.blockSize, NeedTokens(cfg, m, q)) <=
      BlocksNeeded(m.pool.blockSize, ReservationTokens(q))
  {
    hide Peek;
    if NeedTokens(cfg, m, q) <= ReservationTokens(q) {
      BlocksMonotone(m.pool.blockSize, NeedTokens(cfg, m, q), ReservationTokens(q));
    }
  }

  lemma SubmitAccepted(lm: Lm, cfg: Config, s: State, id: Id, req: Request)
    requires id !in s.seqs && req.maxTokens >= 1 && |s.waiting| < cfg.maxWaiting && s.pc == Top
    requires BlocksNeeded(s.m.pool.blockSize, |req.prompt| + req.maxTokens) <= s.m.pool.numBlocks
    ensures Next(lm, cfg, s, Submit(id, req)) ==
      s.(waiting := s.waiting + [id], event := true, seqs := s.seqs[id := NewSequence(id, req)],
        submitted := s.submitted + [id])
  {
    hide NeedTokens, BlocksNeeded;
    NeedsAtMost(cfg, s.m, NewSequence(id, req));
  }

  // A miss takes what its whole reservation needs off the free list.
  function MissTaken(m: Memory, q: Sequence): Attempt
    requires BlocksNeeded(m.pool.blockSize, ReservationTokens(q)) <= |m.pool.free|
  {
    var k := BlocksNeeded(m.pool.blockSize, ReservationTokens(q));
    var ids := m.pool.free[..k];
    Attempt(true, m.(pool := m.pool.(free := m.pool.free[k..], alloc := m.pool.alloc[q.id := ids])),
      q.(blockIds := ids, ownedBlockIds := ids))
  }

  lemma MissAttempt(cfg: Config, m: Memory, q: Sequence, now: int)
    requires Peek(m.cache, q.req.prompt).None? && BlocksNeeded(m.pool.blockSize, ReservationTokens(q)) <= |m.pool.free|
    ensures Fits(cfg, m, q) && TryAllocate(cfg, m, q, now) == MissTaken(m, q)
  {
    hide Peek, BlocksNeeded;
  }

  lemma HeadMiss(cfg: Config, s: State, now: int)
    requires s.waiting != [] && s.waiting[0] in s.seqs
    requires Peek(s.m.cache, s.seqs[s.waiting[0]].req.prompt).None?
    requires BlocksNeeded(s.m.pool.blockSize, ReservationTokens(s.seqs[s.waiting[0]])) <= |s.m.pool.free|
    ensures Candidate(cfg, s, 0) == 0 && Attempted(cfg, s, 0, now) == MissTaken(s.m, s.seqs[s.waiting[0]])
  {
    hide Fits, TryAllocate, MissTaken, Peek, BlocksNeeded;
    MissAttempt(cfg, s.m, s.seqs[s.waiting[0]], now);
  }

  lemma MissRound(cfg: Config, s: State)
    requires s.waiting != [] && s.waiting[0] in s.seqs && s.seqs[s.waiting[0]].id == s.waiting[0]
    requires Peek(s.m.cache, s.seqs[s.waiting[0]].req.prompt).None?
    requires BlocksNeeded(s.m.pool.blockSize, ReservationTokens(s.seqs[s.waiting[0]])) <= |s.m.pool.free|
    ensures Candidate(cfg, s, 0) == 0 && Attempted(cfg, s, 0, 0).ok
    ensures var s1, id := Taken(cfg, s, 0, 0), s.waiting[0];
      var k := BlocksNeeded(s.m.pool.blockSize, ReservationTokens(s.seqs[id]));
      && s1.waiting == s.waiting[1..] && s1.running == s.running && s1.pc == s.pc && s1.stop == s.stop
      && s1.m == s.m.(pool := s.m.pool.(free := s.m.pool.free[k..], alloc := s.m.pool.alloc[id := s.m.pool.free[..k]]))
      && s1.seqs == s.seqs[id := s.seqs[id].(blockIds := s.m.pool.free[..k], ownedBlockIds := s.m.pool.free[..k])]
  {
    hide Peek, BlocksNeeded, Candidate, Attempted;
    HeadMiss(cfg, s, 0);
    assert Rest(s.waiting, 0) == s.waiting[1..];
  }

  // A prefill after a miss: the model runs on the whole prompt, and the result is stored.
  lemma MissPrefill(lm: Lm, cfg: Config, m: Memory, q: Sequence, now: int)
    requires cfg.prefixOn && q.prefixKey.None? && q.prefixTokens == 0 && q.req.prompt != []
    requires Peek(m.cache, q.req.prompt).None?
    ensures var out := Recompute(lm, q.req.prompt);
      var (m', q') := Store(m, q, out, now);
      PrefillWithReuse(lm, cfg, m, q, now, false) == Prefilled(m', q', Ok(out))
  {
    hide Store, Peek, KvOf, LogitsOf, Prefill;
    PrefillRecomputes(lm, q.req.prompt);
  }

  // ---- What is stored ----

  // With room for every length, all of them are stored.
  lemma {:induction false} InsertAllStores(m: Memory, ids: Key, kv: Cache, logits: Option<Logits>,
          lengths: seq<nat>, now: int)
    requires |m.cache.entries| + |lengths| <= m.cache.maxEntries
    requires forall n :: n in lengths ==> n <= SeqLen(kv) && n <= |ids|
    ensures var m' := InsertAll(m, ids, kv, logits, lengths, now);
      && |m'.cache.entries| <= |m.cache.entries| + |lengths| && m'.cache.maxEntries == m.cache.maxEntries
      && forall n :: n in lengths ==> Has(m'.cache, ids[..n])
  {
    hide Take, SeqLen;
    if lengths != [] {
      var k := |lengths| - 1;
      var before := InsertAll(m, ids, kv, logits, lengths[..k], now);
      assert lengths[k] in lengths && forall n :: n in lengths[..k] ==> n in lengths;
      InsertAllStores(m, ids, kv, logits, lengths[..k], now);
      var after := InsertOne(before, ids, kv, logits, lengths[k], now);
      assert before.cache.entries <= after.cache.entries;
      forall n | n in lengths ensures Has(after.cache, ids[..n]) {
        if n in lengths[..k] {
          HasGrows(before.cache, after.cache, ids[..n]);
        } else {
          InsertedHas(before, ids, kv, logits, n, now);
        }
      }
    }
  }

  lemma HasGrows(c: Prefixes, c': Prefixes, key: Key)
    requires Has(c, key) && c.entries <= c'.entries
    ensures Has(c', key)
  {
    var i := Find(c.entries, key);
    assert c'.entries[i] == c.entries[i];
  }

  lemma InsertedHas(m: Memory, ids: Key, kv: Cache, logits: Option<Logits>, n: nat, now: int)
    requires n <= SeqLen(kv) && n <= |ids| && |m.cache.entries| < m.cache.maxEntries
    ensures Has(InsertOne(m, ids, kv, logits, n, now).cache, ids[..n])
  {
    if !Has(m.cache, ids[..n]) {
      var e := Entry(ids[..n], Take(kv, n), if n == |ids| then logits else None, [], 0, now);
      assert (m.cache.entries + [e])[|m.cache.entries|] == e;
    }
  }

  lemma StoreStores(lm: Lm, m: Memory, q: Sequence, now: int)
    requires q.req.prompt != [] && |q.req.prompt| >= m.cache.minTokens
    requires m.cache.entries == [] && |CandidateLengths(m.cache, |q.req.prompt|)| <= m.cache.maxEntries
    ensures Has(Store(m, q, Recompute(lm, q.req.prompt), now).0.cache, q.req.prompt)
  {
    hide KvOf, LogitsOf, Adopt, InsertAll, Has;
    var ids := q.req.prompt;
    var out := Recompute(lm, ids);
    var lengths := CandidateLengths(m.cache, |ids|);
    CandidateLengthsAre(m.cache, |ids|);
    InsertAllStores(m, ids, out.cache, Some(out.logits), lengths, now);
    assert lengths[0] in lengths && ids[..lengths[0]] == ids;
    var m2 := Insert(m, ids, out.cache, Some(out.logits), now);
    AdoptContents(m2, q, now);
    HasSame(m2.cache, Adopt(m2, q, now).0.cache, ids);
  }

  // ---- One request served alone ----

  // Nobody is running or waiting, one request has been served, and its prompt is stored.
  ghost predicate ServedAlone(s: State, u: Setup, prompt: Key) {
    && s.pc == Top && !s.stop && s.running == [] && s.waiting == [] && s.seqs.Keys == {0}
    && SameConfig(Init(u).m, s.m)
    && Has(s.m.cache, prompt)
  }

  // One token to generate, room in the pool, and room in the cache for all its candidate lengths.
  ghost predicate LeavesItsPrompt(cfg: Config, u: Setup, req: Request) {
    && cfg.prefixOn && cfg.maxWaiting >= 1 && req.maxTokens == 1 && req.prompt != [] && |req.prompt| >= u.minTokens
    && BlocksNeeded(u.blockSize, |req.prompt| + 1) <= u.numBlocks
    && |CandidateLengths(Init(u).m.cache, |req.prompt|)| <= u.maxEntries
  }

  lemma StartAdmits(lm: Lm, cfg: Config, u: Setup, req: Request) returns (s: State)
    requires LeavesItsPrompt(cfg, u, req)
    ensures Reachable(lm, cfg, s) && s.pc == Prefills([0]) && s.running == [] && s.waiting == [] && !s.stop
    ensures s.seqs.Keys == {0}
    ensures s.m.cache == Init(u).m.cache && SameConfig(Init(u).m, s.m)
    ensures var q := s.seqs[0]; q == NewSequence(0, req).(blockIds := q.blockIds, ownedBlockIds := q.ownedBlockIds)
  {
    hide BlocksNeeded, CandidateLengths, Admit, Reachable, Peek, StepInPrefill, StepRows, StepSampled, StepCollecting;
    hide AbortLeftovers, StepSubmit, StepAdminAbort, EndAs;
    var s0 := Init(u);
    ReachableStart(lm, cfg, u);
    SubmitAccepted(lm, cfg, s0, 0, req);
    var s1 := Next(lm, cfg, s0, Submit(0, req));
    ReachableNext(lm, cfg, s0, Submit(0, req));
    var s2 := Next(lm, cfg, s1, WORK);
    ReachableNext(lm, cfg, s1, WORK);
    assert s2 == s1.(pc := Dropping([], []));
    NothingStored(s2.m.cache, req.prompt);
    HeadMiss(cfg, s2, 0);
    RoundUnfolds(cfg, s2, 0, cfg.maxBatch, 0);
    RoundQueue(cfg, s2, 0, 0);
    AdmitNone(cfg, Taken(cfg, s2, 0, 0), cfg.maxBatch - 1, 0);
    assert s2.(running := []) == s2;
    s := Next(lm, cfg, s2, WORK);
    ReachableNext(lm, cfg, s2, WORK);
    assert [0] + [] == [0];
  }

  lemma NothingStored(c: Prefixes, prompt: Key)
    requires c.entries == []
    ensures Peek(c, prompt).None?
  {
    PeekFromIsLongest(c, prompt, |prompt|);
  }

  lemma PrefillsAlone(lm: Lm, cfg: Config, u: Setup, req: Request) returns (s: State)
    requires LeavesItsPrompt(cfg, u, req)
    ensures Reachable(lm, cfg, s) && s.pc == Sampled(0, []) && s.running == [] && s.waiting == [] && !s.stop
    ensures s.seqs.Keys == {0}
    ensures SameConfig(Init(u).m, s.m) && Has(s.m.cache, req.prompt)
    ensures s.seqs[0].id == 0 && s.seqs[0].reason.Some? && !WantsAbort(s.seqs[0])
  {
    hide BlocksNeeded, CandidateLengths, Reachable, Peek, Has;
    hide PrefillWithReuse, Store, KvOf, LogitsOf, SameConfig;
    var s3 := StartAdmits(lm, cfg, u, req);
    var s4 := Next(lm, cfg, s3, WORK);
    ReachableNext(lm, cfg, s3, WORK);
    assert s3.pc.todo[1..] == [] && s4 == s3.(pc := InPrefill(0, []));
    var q := s4.seqs[0].(status := Prefilling);
    NothingStored(s4.m.cache, req.prompt);
    MissPrefill(lm, cfg, s4.m, q, 0);
    StoreStores(lm, s4.m, q, 0);
    StoreSizes(s4.m, q, Recompute(lm, req.prompt), 0);
    StoreProgress(lm, s4.m, q, 0);
    s := Next(lm, cfg, s4, WORK);
    ReachableNext(lm, cfg, s4, WORK);
    SizesThen(Init(u).m, s4.m, Store(s4.m, q, Recompute(lm, req.prompt), 0).0);
  }

  // Storing touches only what the record says about blocks and its prefix key.
  lemma StoreProgress(lm: Lm, m: Memory, q: Sequence, now: int)
    requires q.req.prompt != []
    ensures var q' := Store(m, q, Recompute(lm, q.req.prompt), now).1;
      q' == q.(prefixKey := q'.prefixKey, blockIds := q'.blockIds, ownedBlockIds := q'.ownedBlockIds)
  {
    hide Insert, KvOf, LogitsOf, CandidateLengths, Find, Pin;
  }

  lemma FinishLeaves(cfg: Config, m: Memory, q: Sequence, prompt: Key)
    requires Has(m.cache, prompt)
    ensures var (m', q') := FinishSequence(cfg, m, q);
      q'.id == q.id && SameConfig(m, m') && Has(m'.cache, prompt)
  {
    hide EndAs, Has;
    FinishedAs(cfg, m, q);
    FinishContents(cfg, m, q);
    HasSame(m.cache, FinishSequence(cfg, m, q).0.cache, prompt);
    var reason := if q.reason.Some? then q.reason.value else Length;
    EndSizes(cfg, m, q.(result := Some(Generation(q.output, reason))), Finished);
  }

  lemma ServesOne(lm: Lm, cfg: Config, u: Setup, req: Request) returns (s: State)
    requires LeavesItsPrompt(cfg, u, req)
    ensures Reachable(lm, cfg, s) && ServedAlone(s, u, req.prompt)
  {
    hide BlocksNeeded, CandidateLengths, Reachable, Has, FinishSequence;
    var s5 := PrefillsAlone(lm, cfg, u, req);
    var s6 := Next(lm, cfg, s5, WORK);
    ReachableNext(lm, cfg, s5, WORK);
    FinishLeaves(cfg, s5.m, s5.seqs[0], req.prompt);
    SizesThen(Init(u).m, s5.m, s6.m);
    s := Next(lm, cfg, s6, WORK);
    ReachableNext(lm, cfg, s6, WORK);
    assert s == s6.(pc := Top);
  }

  lemma QuietTop(lm: Lm, cfg: Config, s: State)
    requires CoreOf(lm, cfg, s) && Lists(cfg, s, Hands(s)) && s.pc == Top && s.running == []
    ensures Idle(s.m)
  {
    hide Core, NoDup;
    QuietMemory(lm, cfg, s);
  }

  // ---- A reservation left short by its admission ----

  // Three blocks of sixteen; the prompt that is stored needs two of them.
  const THREE_BLOCKS := Setup(3, 16, 64, 8, 16)

  function SeventeenTokens(): Request {
    Request(Sevens(17), 1, {})
  }

  // A request that takes two blocks and has nothing in common with it.
  function Stranger(): Request {
    Request([5], 16, {})
  }

  lemma Sixteens()
    ensures BlocksNeeded(16, 1) == 1 && BlocksNeeded(16, 16) == 1
    ensures BlocksNeeded(16, 17) == 2 && BlocksNeeded(16, 18) == 2 && BlocksNeeded(16, 19) == 2
  {
  }

  lemma SeventeenServable(cfg: Config)
    requires cfg.prefixOn && cfg.maxWaiting >= 1
    ensures LeavesItsPrompt(cfg, THREE_BLOCKS, SeventeenTokens())
  {
    Sixteens();
    var c := Init(THREE_BLOCKS).m.cache;
    assert 17 / c.blockSize == 1;
    assert CandidateLengths(c, 17) == AlignedDown(c, 1, [17]) == AlignedDown(c, 0, [17] + [16]) == [17, 16];
  }

  // Taking a reference that finds no blocks does not stand in the way of the rest.
  lemma BlocklessAttempt(cfg: Config, m: Memory, q: Sequence, now: int)
    requires cfg.prefixOn && Has(m.cache, q.req.prompt) && |q.req.prompt| >= m.cache.minTokens && q.req.maxTokens >= 1
    requires RefsOf(m.cache, q.req.prompt) == 0 && Blockless(m, q.req.prompt)
    requires BlocksNeeded(m.pool.blockSize, q.req.maxTokens) <= |m.pool.free|
    ensures Peek(m.cache, q.req.prompt).Some? && Peek(m.cache, q.req.prompt).value.tokenIds == q.req.prompt
    ensures Fits(cfg, m, q) && TryAllocate(cfg, m, q, now).ok
  {
    assert q.req.prompt[..|q.req.prompt|] == q.req.prompt;
  }

  lemma UnreferencedNeverShares(m: Memory, key: Key)
    requires forall i :: 0 <= i < |m.cache.entries| ==> m.cache.entries[i].refs == 0
    ensures ShareFromLive(m, key).None? && RefsOf(m.cache, key) == 0
  {
    assert forall i :: 0 <= i < |m.cache.entries| ==> !Shares(m.cache.entries[i], key);
  }

  // The stored prompt has been served; a stranger and the same prompt again are waiting.
  lemma TwoWait(lm: Lm, cfg: Config) returns (s: State)
    requires cfg.prefixOn && cfg.maxWaiting >= 2
    ensures Reachable(lm, cfg, s) && s.pc == Dropping([], []) && s.running == [] && s.waiting == [1, 2]
    ensures 1 in s.seqs && 2 in s.seqs && s.seqs[1] == NewSequence(1, Stranger())
    ensures s.seqs[2] == NewSequence(2, SeventeenTokens())
    ensures s.m.pool.numBlocks == 3 && s.m.pool.blockSize == 16 && s.m.cache.minTokens == 8
    ensures Has(s.m.cache, Sevens(17))
  {
    hide Reachable, Has;
    Sixteens();
    SeventeenServable(cfg);
    var s7 := ServesOne(lm, cfg, THREE_BLOCKS, SeventeenTokens());
    SubmitAccepted(lm, cfg, s7, 1, Stranger());
    var s8 := Next(lm, cfg, s7, Submit(1, Stranger()));
    ReachableNext(lm, cfg, s7, Submit(1, Stranger()));
    SubmitAccepted(lm, cfg, s8, 2, SeventeenTokens());
    var s9 := Next(lm, cfg, s8, Submit(2, SeventeenTokens()));
    ReachableNext(lm, cfg, s8, Submit(2, SeventeenTokens()));
    s := Next(lm, cfg, s9, WORK);
    ReachableNext(lm, cfg, s9, WORK);
    assert s == s9.(pc := Dropping([], []));
  }

  lemma QuietDropping(lm: Lm, cfg: Config, s: State)
    requires Reachable(lm, cfg, s) && s.pc == Dropping([], []) && s.running == []
    ensures StateInv(lm, cfg, s) && CoreOf(lm, cfg, s) && Lists(cfg, s, []) && Idle(s.m)
  {
    hide Reachable, Core, NoDup;
    ReachableHolds(lm, cfg, s);
    QuietMemory(lm, cfg, s);
  }

  // The stranger is admitted and leaves one block free.
  lemma StrangerTaken(lm: Lm, cfg: Config, s: State)
    requires CoreOf(lm, cfg, s) && Lists(cfg, s, []) && Idle(s.m) && s.waiting == [1, 2] && 1 in s.seqs && 2 in s.seqs
    requires s.seqs[1] == NewSequence(1, Stranger()) && s.seqs[2] == NewSequence(2, SeventeenTokens())
    requires s.m.pool.numBlocks == 3 && s.m.pool.blockSize == 16 && s.m.cache.minTokens == 8
    ensures Candidate(cfg, s, 0) == 0 && Attempted(cfg, s, 0, 0).ok
    ensures var s1 := Taken(cfg, s, 0, 0);
      && CoreOf(lm, cfg, s1) && s1.waiting == [2] && 2 in s1.seqs && s1.seqs[2] == s.seqs[2]
      && s1.m.cache == s.m.cache && |s1.m.pool.free| == 1 && s1.m.pool.blockSize == 16
  {
    hide CoreOf, Lists;
    Sixteens();
    PeekFromIsLongest(s.m.cache, Stranger().prompt, 1);
    HeadMiss(cfg, s, 0);
    TakenKeeps(lm, cfg, s, 0, [], 0);
    RoundQueue(cfg, s, 0, 0);
  }

  // It comes again, finds its prompt stored and no blocks for it, and is admitted for one token.
  lemma SecondTaken(lm: Lm, cfg: Config, s: State)
    requires CoreOf(lm, cfg, s) && s.waiting == [2] && 2 in s.seqs && s.seqs[2] == NewSequence(2, SeventeenTokens())
    requires cfg.prefixOn && Has(s.m.cache, Sevens(17)) && |s.m.pool.free| == 1 && s.m.pool.blockSize == 16
    requires s.m.cache.minTokens == 8
    requires forall i :: 0 <= i < |s.m.cache.entries| ==> s.m.cache.entries[i].refs == 0
    ensures Candidate(cfg, s, 0) == 0 && Attempted(cfg, s, 0, 0).ok
    ensures var s1 := Taken(cfg, s, 0, 0);
      s1.waiting == [] && 2 in s1.seqs && !Terminal(s1.seqs[2].status) && !Covers(s1.m, s1.seqs[2])
  {
    hide CoreOf, Has, TryAllocate, Fits, Covers, Peek, BlocksNeeded;
    var q := s.seqs[2];
    UnreferencedNeverShares(s.m, Sevens(17));
    Sixteens();
    UnreferencedBlockless(s.m, Sevens(17));
    BlocklessAttempt(cfg, s.m, q, 0);
    TakenCovers(lm, cfg, s, 0, 0);
    TryAllocateOnward(cfg, s.m, q, 0);
    RoundQueue(cfg, s, 0, 0);
  }

  lemma UnreferencedBlockless(m: Memory, key: Key)
    requires RefsOf(m.cache, key) == 0 && ShareFromLive(m, key).None?
    requires BlocksNeeded(m.pool.blockSize, |key|) > |m.pool.free|
    ensures Blockless(m, key)
  {
  }

  // A run to a live sequence that holds one block for a reservation of two.
  lemma ShortByAdmission(lm: Lm, cfg: Config) returns (s: State)
    requires cfg.prefixOn && cfg.maxWaiting >= 2 && cfg.maxBatch >= 2
    ensures Reachable(lm, cfg, s) && Alive(s, 2) && !Covers(s.m, s.seqs[2])
  {
    hide Reachable, Has, CoreOf, Lists, StateInv, Idle, Attempted, Taken, Covers, Admit;
    var s10 := TwoWait(lm, cfg);
    QuietDropping(lm, cfg, s10);
    StrangerTaken(lm, cfg, s10);
    var s1 := Taken(cfg, s10, 0, 0);
    IdleUnreferenced(s10.m);
    SecondTaken(lm, cfg, s1);
    var s2 := Taken(cfg, s1, 0, 0);
    RoundUnfolds(cfg, s10, 0, cfg.maxBatch, 0);
    RoundUnfolds(cfg, s1, 0, cfg.maxBatch - 1, 0);
    AdmitNone(cfg, s2, cfg.maxBatch - 2, 0);
    assert s10.(running := []) == s10;
    s := Next(lm, cfg, s10, WORK);
    ReachableNext(lm, cfg, s10, WORK);
    assert s == s2.(pc := s.pc);
  }

  lemma IdleUnreferenced(m: Memory)
    requires Idle(m)
    ensures forall i :: 0 <= i < |m.cache.entries| ==> m.cache.entries[i].refs == 0
  {
  }

  // ---- A reservation left short by its late bind ----

  // Four blocks of sixteen, and room for one entry in the prefix cache.
  const ONE_ENTRY := Setup(4, 16, 1, 8, 16)

  // Two prompts of seventeen tokens that differ in the last; two tokens to generate.
  function Sibling(last: Token): Request {
    Request(Sevens(16) + [last], 2, {})
  }

  // Both are admitted as misses and take all four blocks.
  lemma SiblingsAdmitted(lm: Lm, cfg: Config) returns (s: State)
    requires cfg.prefixOn && cfg.maxWaiting >= 2 && cfg.maxBatch >= 2
    ensures Reachable(lm, cfg, s) && s.pc == Prefills([0, 1]) && s.running == [] && s.waiting == []
    ensures s.seqs.Keys == {0, 1}
    ensures s.m.cache == Init(ONE_ENTRY).m.cache && s.m.pool.blockSize == 16 && s.m.pool.free == []
    ensures forall i :: i in {0, 1} ==> i in s.m.pool.alloc && |s.m.pool.alloc[i]| == 2
    ensures forall i :: i in {0, 1} ==>
      var q := s.seqs[i]; q == NewSequence(i, Sibling(1 + i)).(blockIds := q.blockIds, ownedBlockIds := q.ownedBlockIds)
  {
    hide Reachable, Admit, Peek, CandidateLengths, BlocksNeeded;
    Sixteens();
    var s0 := Init(ONE_ENTRY);
    ReachableStart(lm, cfg, ONE_ENTRY);
    SubmitAccepted(lm, cfg, s0, 0, Sibling(1));
    var s1 := Next(lm, cfg, s0, Submit(0, Sibling(1)));
    ReachableNext(lm, cfg, s0, Submit(0, Sibling(1)));
    SubmitAccepted(lm, cfg, s1, 1, Sibling(2));
    var s2 := Next(lm, cfg, s1, Submit(1, Sibling(2)));
    ReachableNext(lm, cfg, s1, Submit(1, Sibling(2)));
    var s3 := Next(lm, cfg, s2, WORK);
    ReachableNext(lm, cfg, s2, WORK);
    assert s3 == s2.(pc := Dropping([], []));
    s := SiblingsRounds(lm, cfg, s3);
  }

  lemma SiblingsRounds(lm: Lm, cfg: Config, s3: State) returns (s: State)
    requires Reachable(lm, cfg, s3) && s3.pc == Dropping([], []) && s3.running == [] && s3.waiting == [0, 1]
    requires cfg.maxBatch >= 2
    requires s3.seqs == map[0 := NewSequence(0, Sibling(1)), 1 := NewSequence(1, Sibling(2))]
    requires s3.m == Init(ONE_ENTRY).m
    ensures Reachable(lm, cfg, s) && s.pc == Prefills([0, 1]) && s.running == [] && s.waiting == []
    ensures s.seqs.Keys == {0, 1}
    ensures s.m.cache == Init(ONE_ENTRY).m.cache && s.m.pool.blockSize == 16 && s.m.pool.free == []
    ensures forall i :: i in {0, 1} ==> i in s.m.pool.alloc && |s.m.pool.alloc[i]| == 2
    ensures forall i :: i in {0, 1} ==>
      var q := s.seqs[i]; q == NewSequence(i, Sibling(1 + i)).(blockIds := q.blockIds, ownedBlockIds := q.ownedBlockIds)
  {
    hide Reachable, Admit, BlocksNeeded, StepInPrefill, StepRows, StepSampled, StepCollecting, AbortLeftovers, EndAs;
    Sixteens();
    var t1 := FirstMiss(cfg, s3);
    var t2 := LastMiss(cfg, t1, 1, Sibling(2), cfg.maxBatch - 1);
    assert s3.(running := []) == s3;
    s := Next(lm, cfg, s3, WORK);
    ReachableNext(lm, cfg, s3, WORK);
    assert s == t2.(pc := Prefills([0] + [1]));
  }

  lemma FirstMiss(cfg: Config, s: State) returns (s': State)
    requires s.waiting == [0, 1] && cfg.maxBatch >= 2
    requires s.seqs == map[0 := NewSequence(0, Sibling(1)), 1 := NewSequence(1, Sibling(2))] && s.m == Init(ONE_ENTRY).m
    ensures var r := Admit(cfg, s', cfg.maxBatch - 1, 0); Admit(cfg, s, cfg.maxBatch, 0) == (r.0, [0] + r.1)
    ensures s'.waiting == [1] && s'.running == s.running && s'.pc == s.pc
    ensures s'.m == s.m.(pool := s.m.pool.(free := s.m.pool.free[2..], alloc := map[0 := s.m.pool.free[..2]]))
    ensures s'.seqs == s.seqs[0 := s.seqs[0].(blockIds := s.m.pool.free[..2], ownedBlockIds := s.m.pool.free[..2])]
  {
    hide Admit, Peek, BlocksNeeded, Taken, Attempted, Candidate;
    Sixteens();
    NothingStored(s.m.cache, Sibling(1).prompt);
    MissRound(cfg, s);
    RoundUnfolds(cfg, s, 0, cfg.maxBatch, 0);
    s' := Taken(cfg, s, 0, 0);
  }

  // The last waiter is admitted as a miss, and admission is over.
  lemma LastMiss(cfg: Config, s: State, id: Id, req: Request, room: nat) returns (s': State)
    requires room > 0 && s.waiting == [id] && id in s.seqs && s.seqs[id] == NewSequence(id, req)
    requires s.m.cache.entries == []
    requires BlocksNeeded(s.m.pool.blockSize, |req.prompt| + req.maxTokens) <= |s.m.pool.free|
    ensures Admit(cfg, s, room, 0) == (s', [id])
    ensures var k := BlocksNeeded(s.m.pool.blockSize, |req.prompt| + req.maxTokens);
      && s'.waiting == [] && s'.running == s.running && s'.pc == s.pc && s'.stop == s.stop
      && s'.m == s.m.(pool := s.m.pool.(free := s.m.pool.free[k..], alloc := s.m.pool.alloc[id := s.m.pool.free[..k]]))
      && s'.seqs == s.seqs[id := s.seqs[id].(blockIds := s.m.pool.free[..k], ownedBlockIds := s.m.pool.free[..k])]
  {
    hide Admit, Peek, BlocksNeeded, Taken, Attempted, Candidate;
    NothingStored(s.m.cache, req.prompt);
    MissRound(cfg, s);
    RoundUnfolds(cfg, s, 0, room, 0);
    s' := Taken(cfg, s, 0, 0);
    NobodyWaits(cfg, s', room - 1);
    assert [id] + [] == [id];
  }

  lemma NobodyWaits(cfg: Config, s: State, room: nat)
    requires s.waiting == []
    ensures Admit(cfg, s, room, 0) == (s, [])
  {
    AdmitNone(cfg, s, room, 0);
  }

  // With room for one entry the insertion of the block-aligned prefix evicts the whole prompt just
  // inserted, so there is nothing to adopt.
  lemma TrimmedStore(lm: Lm, m: Memory, q: Sequence, now: int)
    requires m.cache.entries == [] && m.cache.maxEntries == 1 && m.cache.minTokens == 8 && m.cache.blockSize == 16
    requires |q.req.prompt| == 17 && q.prefixKey.None?
    ensures var (m', q') := Store(m, q, Recompute(lm, q.req.prompt), now);
      && q' == q && m'.pool == m.pool && |m'.cache.entries| == 1 && m'.cache.minTokens == 8
      && m'.cache.entries[0].tokenIds == q.req.prompt[..16] && m'.cache.entries[0].refs == 0
  {
    hide KvOf, LogitsOf, Take, InsertOne, CandidateLengths, Adopt;
    var ids := q.req.prompt;
    var out := Recompute(lm, ids);
    LengthsOfSeventeen(m.cache);
    InsertTwo(m, ids, out.cache, Some(out.logits), 17, 16, now);
    InsertTrims(m, ids, out.cache, Some(out.logits), now);
    var m2 := Insert(m, ids, out.cache, Some(out.logits), now);
    LengthsOfSeventeen(m2.cache);
    NothingToAdopt(m2, q, now);
  }

  lemma LengthsOfSeventeen(c: Prefixes)
    requires c.minTokens == 8 && c.blockSize == 16
    ensures CandidateLengths(c, 17) == [17, 16]
  {
    assert CandidateLengths(c, 17) == AlignedDown(c, 1, [17]) == AlignedDown(c, 0, [17] + [16]) == [17, 16];
  }

  lemma InsertTrims(m: Memory, ids: Key, kv: Cache, logits: Option<Logits>, now: int)
    requires m.cache.entries == [] && m.cache.maxEntries == 1 && |ids| == 17 && SeqLen(kv) == 17
    ensures var m2 := InsertOne(InsertOne(m, ids, kv, logits, 17, now), ids, kv, logits, 16, now);
      m2 == m.(cache := m.cache.(entries := [Entry(ids[..16], Take(kv, 16), None, [], 0, now)]))
  {
    hide Take;
    var m1 := InsertOne(m, ids, kv, logits, 17, now);
    assert ids[..17] == ids && m1 == m.(cache := m.cache.(entries := [Entry(ids, Take(kv, 17), logits, [], 0, now)]));
    assert !Has(m1.cache, ids[..16]);
    OneEvicted(m1);
  }

  lemma NothingToAdopt(m: Memory, q: Sequence, now: int)
    requires CandidateLengths(m.cache, |q.req.prompt|) == [17, 16] && |q.req.prompt| == 17
    requires |m.cache.entries| == 1 && |m.cache.entries[0].tokenIds| == 16
    ensures Adopt(m, q, now) == (m, q)
  {
    hide CandidateLengths;
    assert q.req.prompt[..17] == q.req.prompt && Find(m.cache.entries, q.req.prompt) == 1;
  }

  lemma OneEvicted(m: Memory)
    requires |m.cache.entries| == 1 && m.cache.maxEntries == 1 && m.cache.entries[0].refs == 0
    requires m.cache.entries[0].blockIds == []
    ensures Evict(m) == m.(cache := m.cache.(entries := []))
  {
    assert LeastUsed(m.cache.entries) == 0;
    assert m.pool.free + [] == m.pool.free;
    assert Without(m.cache.entries, 0) == [];
    var u := UnpinBlocks(m, []);
    assert u == m;
  }

  lemma InsertTwo(m: Memory, ids: Key, kv: Cache, logits: Option<Logits>, a: nat, b: nat, now: int)
    ensures InsertAll(m, ids, kv, logits, [a, b], now) ==
      InsertOne(InsertOne(m, ids, kv, logits, a, now), ids, kv, logits, b, now)
  {
    hide InsertOne;
    assert [a, b][..1] == [a] && [a][..0] == [];
    assert InsertAll(m, ids, kv, logits, [a], now) ==
      InsertOne(InsertAll(m, ids, kv, logits, [], now), ids, kv, logits, a, now);
  }

  // The first sibling has its first token; what it left stored is the shared part.
  lemma FirstSampled(lm: Lm, cfg: Config) returns (s: State)
    requires cfg.prefixOn && cfg.maxWaiting >= 2 && cfg.maxBatch >= 2
    ensures Reachable(lm, cfg, s) && s.pc == Sampled(0, [1]) && s.running == [] && s.waiting == []
    ensures s.seqs.Keys == {0, 1}
    ensures s.seqs[0].reason.None? && !WantsAbort(s.seqs[0]) && s.seqs[0].id == 0
    ensures |s.m.cache.entries| == 1 && s.m.cache.minTokens == 8 && s.m.cache.entries[0].refs == 0
    ensures s.m.cache.entries[0].tokenIds == Sevens(16)
    ensures s.m.pool.blockSize == 16 && s.m.pool.free == [] && 1 in s.m.pool.alloc && |s.m.pool.alloc[1]| == 2
    ensures var q := s.seqs[1];
      q == NewSequence(1, Sibling(2)).(blockIds := q.blockIds, ownedBlockIds := q.ownedBlockIds)
  {
    hide Reachable, Peek, CandidateLengths, PrefillWithReuse, Store, KvOf, LogitsOf;
    var a := SiblingsAdmitted(lm, cfg);
    var b := Next(lm, cfg, a, WORK);
    ReachableNext(lm, cfg, a, WORK);
    assert a.pc.todo[1..] == [1] && b == a.(pc := InPrefill(0, [1]));
    var q := b.seqs[0].(status := Prefilling);
    NothingStored(b.m.cache, q.req.prompt);
    MissPrefill(lm, cfg, b.m, q, 0);
    TrimmedStore(lm, b.m, q, 0);
    assert q.req.prompt[..16] == Sevens(16);
    s := Next(lm, cfg, b, WORK);
    ReachableNext(lm, cfg, b, WORK);
  }

  // It has joined the batch; the second is next.
  lemma FirstJoined(lm: Lm, cfg: Config) returns (s: State)
    requires cfg.prefixOn && cfg.maxWaiting >= 2 && cfg.maxBatch >= 2
    ensures Reachable(lm, cfg, s) && s.pc == InPrefill(1, []) && s.waiting == [] && s.seqs.Keys == {0, 1}
    ensures |s.m.cache.entries| == 1 && s.m.cache.minTokens == 8 && s.m.cache.entries[0].refs == 0
    ensures s.m.cache.entries[0].tokenIds == Sevens(16)
    ensures s.m.pool.blockSize == 16 && s.m.pool.free == [] && 1 in s.m.pool.alloc && |s.m.pool.alloc[1]| == 2
    ensures var q := s.seqs[1];
      q == NewSequence(1, Sibling(2)).(blockIds := q.blockIds, ownedBlockIds := q.ownedBlockIds)
  {
    hide Reachable;
    var c := FirstSampled(lm, cfg);
    var d := Next(lm, cfg, c, WORK);
    ReachableNext(lm, cfg, c, WORK);
    assert d.pc == Prefills([1]) && d.m == c.m && d.seqs[1] == c.seqs[1];
    s := Next(lm, cfg, d, WORK);
    ReachableNext(lm, cfg, d, WORK);
    assert d.pc.todo[1..] == [] && s == d.(pc := InPrefill(1, []));
  }

  // The second sibling finds the shared part stored, no block free for it, and trades one of its own
  // two blocks for nothing.
  lemma SiblingLoses(cfg: Config, m: Memory, q: Sequence)
    requires cfg.prefixOn && |m.cache.entries| == 1 && m.cache.minTokens == 8 && m.cache.entries[0].refs == 0
    requires m.cache.entries[0].tokenIds == Sevens(16) && m.pool.blockSize == 16 && m.pool.free == []
    requires q.id in m.pool.alloc && |m.pool.alloc[q.id]| == 2 && q.req == Sibling(2) && q.prefixKey.None?
    ensures LateBindLoses(cfg, m, q)
  {
    hide BlocksNeeded, Peek, SharedAndOwned;
    Sixteens();
    assert q.req.prompt[..16] == Sevens(16);
    assert q.req.prompt[..17] == q.req.prompt;
    StoredIsPeeked(m.cache, q.req.prompt);
    UnreferencedNeverShares(m, Sevens(16));
    UnreferencedBlockless(m, Sevens(16));
  }

  lemma StoredIsPeeked(c: Prefixes, prompt: Key)
    requires |c.entries| == 1 && c.minTokens == 8 && |prompt| == 17 && c.entries[0].tokenIds == prompt[..16]
    ensures Peek(c, prompt).Some? && Peek(c, prompt).value.tokenIds == prompt[..16]
  {
    PeekFromIsLongest(c, prompt, 17);
    assert Has(c, prompt[..16]);
    assert forall k: nat :: k <= 17 && Has(c, prompt[..k]) ==> k == 16;
  }

  // A run to a live sequence whose admission was covered and whose late bind was not.
  lemma ShortByLateBind(lm: Lm, cfg: Config) returns (before: State, s: State)
    requires cfg.prefixOn && cfg.maxWaiting >= 2 && cfg.maxBatch >= 2
    ensures Reachable(lm, cfg, before) && Alive(before, 1) && Covers(before.m, before.seqs[1])
    ensures Reachable(lm, cfg, s) && s == Next(lm, cfg, before, WORK) && Alive(s, 1) && !Covers(s.m, s.seqs[1])
  {
    hide Reachable, CoreOf, Lists, Shape, StateInv, PrefillWithReuse, KvOf, LogitsOf, LateBindLoses, SharedAndOwned;
    before := FirstJoined(lm, cfg);
    ReachableHolds(lm, cfg, before);
    PrefillTarget(lm, cfg, before);
    UnboundCovers(before.m, before.seqs[1]);
    SiblingLoses(cfg, before.m, before.seqs[1]);
    s := Next(lm, cfg, before, WORK);
    ReachableNext(lm, cfg, before, WORK);
    PrefillMoves(lm, cfg, before, 0, false);
    SecondAlive(lm, cfg, before);
    ReachableHolds(lm, cfg, s);
    StepCovers(lm, cfg, before, WORK, 1);
  }

  lemma SecondAlive(lm: Lm, cfg: Config, s: State)
    requires StateInv(lm, cfg, s) && s.pc == InPrefill(1, []) && s.waiting == [] && 1 in s.seqs
    requires s.seqs[1].req == Sibling(2)
    requires !WantsAbort(s.seqs[1])
    ensures Alive(Next(lm, cfg, s, WORK), 1)
  {
    hide CoreOf, Lists, Shape, PrefillWithReuse, NoteToken, Inv, AllMean, Admitted, EndAs, RefsOf;
    PrefillTarget(lm, cfg, s);
    PrefillMoves(lm, cfg, s, 0, false);
    var p := PrefillWithReuse(lm, cfg, s.m, s.seqs[1].(status := Prefilling), 0, false);
    PrefillSucceeds(lm, cfg, s);
    NotedKeeps(p.q, Argmax(p.out.value.logits), p.out.value.cache);
  }

  lemma PrefillSucceeds(lm: Lm, cfg: Config, s: State)
    requires StateInv(lm, cfg, s) && s.pc.InPrefill? && s.pc.id in s.seqs && s.seqs[s.pc.id].req.prompt != []
    ensures var p := PrefillWithReuse(lm, cfg, s.m, s.seqs[s.pc.id].(status := Prefilling), 0, false); p.out.Ok?
  {
    hide Core, Lists, Shape, PrefillWithReuse, Inv, AllMean, RefsOf, Budgeted, PrefixOk;
    PrefillTarget(lm, cfg, s);
    var q := s.seqs[s.pc.id].(status := Prefilling);
    SameBudget(lm, cfg, s.m, s.seqs[s.pc.id], q);
    PrefillKeeps(lm, cfg, s.m, q, 0, false);
  }
}
