// Which requests can stall an empty loop, over runs from the start of the process: exactly those that
// are not roomy.
module StallRuns {
  import opened Common
  import opened LanguageModel
  import opened Generation
  import opened Sequences
  import opened BlockPool
  import opened PrefixCache
  import opened PrefixLaws
  import opened PrefixOps
  import opened Scheduler
  import opened StoredKeys
  import opened StoredRuns
  import opened EmptyBatch
  import opened Worker
  import opened WorkerCore
  import opened WorkerInvariant
  import opened WorkerEnvironment
  import opened WorkerRuns
  import opened Stall
  import opened FailingRuns
  import opened QueuedEntries
  import opened LongPrefixes

  // ---- Nobody else stalls ----

  // Nobody stalls at the head of the queue who is roomy.
  lemma StuckHeadIsNotRoomy(lm: Lm, cfg: Config, s: State)
    requires Reachable(lm, cfg, s) && Stuck(cfg, s)
    ensures s.waiting != [] && s.waiting[0] in s.seqs && !Roomy(cfg, s.m, s.seqs[s.waiting[0]].req)
  {
    hide Reachable, StateInv, CoreOf, Shape, Fits, TryAllocate, AdmitsWhenIdle, Roomy, KeysStorable;
    ReachableHolds(lm, cfg, s);
    StoredKeysAreStorable(lm, cfg, s);
    StuckHands(cfg, s);
    Waiters(cfg, s, []);
    var q := s.seqs[s.waiting[0]];
    WaiterRecord(lm, cfg, s, s.waiting[0]);
    StuckIsIdle(lm, cfg, s);
    if Roomy(cfg, s.m, q.req) { RoomyAdmits(cfg, s.m, q, 0); }
  }

  lemma WaiterRecord(lm: Lm, cfg: Config, s: State, id: Id)
    requires CoreOf(lm, cfg, s) && id in s.seqs
    ensures s.seqs[id].req.maxTokens >= 1
  {
    hide Core;
    CoreAt(lm, cfg, s.m, s.waiting, s.seqs, id);
  }

  lemma StuckIsIdle(lm: Lm, cfg: Config, s: State)
    requires CoreOf(lm, cfg, s) && Lists(cfg, s, []) && Stuck(cfg, s)
    ensures Idle(s.m)
  {
    hide Core, NoDup, Barred;
    QuietMemory(lm, cfg, s);
  }

  // ---- A request that waits for ever ----

  // It waits alone, and nothing but a stop or an administrative abort would change that.
  ghost predicate WaitsForEver(lm: Lm, cfg: Config, s: State, req: Request) {
    && Stuck(cfg, s) && HeadAsks(s, req) && |s.waiting| == 1
    && forall events :: NobodyIntervenes(events) ==>
      Stuck(cfg, Serve(lm, cfg, s, events)) && Unserved(cfg, s, Serve(lm, cfg, s, events))
  }

  ghost predicate HeadAsks(s: State, req: Request) {
    s.waiting != [] && s.waiting[0] in s.seqs && s.seqs[s.waiting[0]].req == req
  }

  lemma StuckWaits(lm: Lm, cfg: Config, s: State, req: Request)
    requires Reachable(lm, cfg, s) && Stuck(cfg, s) && Headed(cfg, s) && HeadAsks(s, req) && |s.waiting| == 1
    ensures WaitsForEver(lm, cfg, s, req)
  {
    hide Reachable, Stuck, Unserved, Serve, StateInv, Headed;
    ReachableHolds(lm, cfg, s);
    forall events | NobodyIntervenes(events)
      ensures Stuck(cfg, Serve(lm, cfg, s, events)) && Unserved(cfg, s, Serve(lm, cfg, s, events))
    {
      StallsForever(lm, cfg, s, events);
    }
  }

  // With the first n tokens of its prompt stored and nothing longer, a hit has that length.
  lemma HitsFront(cfg: Config, m: Memory, q: Sequence, n: nat)
    requires cfg.prefixOn && m.cache.minTokens <= n <= |q.req.prompt|
    requires Has(m.cache, q.req.prompt[..n]) && StoresFrontsOf(m.cache, q.req.prompt[..n])
    ensures HitLength(cfg, m, q) == n
  {
    var prompt := q.req.prompt;
    PeekFromIsLongest(m.cache, prompt, |prompt|);
    forall k: nat | n < k <= |prompt| ensures !Has(m.cache, prompt[..k]) {
      assert |prompt[..k]| == k && |prompt[..n]| == n;
    }
  }

  // A waiter that fits beside its hit, but not when the hit's blocks are reserved for it.
  lemma FrontBars(lm: Lm, cfg: Config, s: State, id: Id, req: Request, n: nat)
    requires Reachable(lm, cfg, s) && s.pc == Top && !s.stop && s.running == [] && s.waiting == [id] && id in s.seqs
    requires s.seqs[id].req == req && req.maxTokens >= 1 && cfg.prefixOn && s.m.cache.minTokens <= n <= |req.prompt|
    requires BlocksNeeded(s.m.pool.blockSize, |req.prompt| + req.maxTokens) <= s.m.pool.numBlocks
    requires Apart(s.m.pool.blockSize, req, n) > s.m.pool.numBlocks
    requires Has(s.m.cache, req.prompt[..n]) && StoresFrontsOf(s.m.cache, req.prompt[..n])
    ensures Stuck(cfg, s) && Headed(cfg, s)
  {
    hide Reachable, CoreOf, Shape, Has, Fits, TryAllocate, Idle, HitLength, BlocksNeeded, StoresFrontsOf;
    var b, q := s.m.pool.blockSize, s.seqs[id];
    ReachableHolds(lm, cfg, s);
    QuietTop(lm, cfg, s);
    HitsFront(cfg, s.m, q, n);
    IdleFits(cfg, s.m, q);
    BlocksMonotone(b, n, |req.prompt| + req.maxTokens);
    BlocksMonotone(b, |req.prompt| + req.maxTokens - n, |req.prompt| + req.maxTokens);
  }

  // ---- From the start of the process ----

  // The length is a candidate for being stored, and with it stored the request does not fit.
  ghost predicate Crowds(u: Setup, req: Request, n: nat) {
    u.minTokens <= n <= |req.prompt| && Storable(Init(u).m.cache, n) && Apart(u.blockSize, req, n) > u.numBlocks
  }

  // A shorter level leaves room for the rest of the request apart from it.
  lemma HelperApart(u: Setup, req: Request, n: nat, keys: seq<Key>, h: nat)
    requires Ladder(Init(u).m.cache, keys) && h < |keys| - 1 && |keys[|keys| - 1]| == n <= |req.prompt|
    requires |CandidateLengths(Init(u).m.cache, n)| == |keys| && Storable(Init(u).m.cache, n)
    requires u.minTokens <= |keys[h]| && forall k: nat :: k < n ==> !Crowds(u, req, k)
    ensures Apart(u.blockSize, req, |keys[h]|) <= u.numBlocks
  {
    hide BlocksNeeded, CandidateLengths;
    assert |keys[h]| < |keys[|keys| - 1]| && |LengthsUpTo(keys, h + 1)| == h + 1;
    assert !Crowds(u, req, |keys[h]|);
  }

  lemma CrowdingLength(u: Setup, req: Request, n: nat)
    requires Crowds(u, req, n)
    ensures u.minTokens <= n <= |req.prompt| && Storable(Init(u).m.cache, n)
  {
  }

  // When n is the shortest such length, the requests that lead to it being stored fit themselves.
  lemma HelpersFit(u: Setup, req: Request, n: nat)
    requires req.maxTokens >= 1 && BlocksNeeded(u.blockSize, |req.prompt| + req.maxTokens) <= u.numBlocks
    requires Crowds(u, req, n) && forall k: nat :: k < n ==> !Crowds(u, req, k)
    ensures LevelsFit(u, LadderOf(Init(u).m.cache, req.prompt[..n]))
  {
    hide BlocksNeeded, CandidateLengths, Crowds, Storable, Ladder, LadderOf;
    CrowdingLength(u, req, n);
    var c, front := Init(u).m.cache, req.prompt[..n];
    var keys := LadderOf(c, front);
    LadderIsLadder(c, front);
    forall k | 0 <= k < |keys| ensures BlocksNeeded(u.blockSize, |keys[k]| + 1) <= u.numBlocks {
      BlocksMonotone(u.blockSize, |keys[k]| + 1, |req.prompt| + req.maxTokens);
    }
    forall h, k | 0 <= h <= k < |keys| && h < |keys| - 1
      ensures BlocksNeeded(u.blockSize, |keys[h]|) + BlocksNeeded(u.blockSize, |keys[k]| + 1 - |keys[h]|) <= u.numBlocks
    {
      HelperApart(u, req, n, keys, h);
      BlocksMonotone(u.blockSize, |keys[k]| + 1 - |keys[h]|, |req.prompt| + req.maxTokens - |keys[h]|);
    }
  }

  // Its first n tokens get stored, and then it comes.
  lemma StallsOnFront(lm: Lm, cfg: Config, u: Setup, req: Request, n: nat) returns (s: State)
    requires cfg.prefixOn && cfg.maxWaiting >= 1 && req.maxTokens >= 1
    requires BlocksNeeded(u.blockSize, |req.prompt| + req.maxTokens) <= u.numBlocks
    requires Crowds(u, req, n) && forall k: nat :: k < n ==> !Crowds(u, req, k)
    ensures Reachable(lm, cfg, s) && SameConfig(Init(u).m, s.m) && WaitsForEver(lm, cfg, s, req)
  {
    hide Reachable, Has, Stuck, Headed, WaitsForEver, BlocksNeeded, CandidateLengths, StoresFrontsOf, LevelsFit;
    HelpersFit(u, req, n);
    var s0, id := StoresPrompt(lm, cfg, u, req.prompt[..n]);
    SubmitAccepted(lm, cfg, s0, id, req);
    s := Next(lm, cfg, s0, Submit(id, req));
    ReachableNext(lm, cfg, s0, Submit(id, req));
    assert [] + [id] == [id];
    FrontBars(lm, cfg, s, id, req, n);
    StuckWaits(lm, cfg, s, req);
  }

  lemma {:induction false} ShortestCrowding(u: Setup, req: Request, n: nat) returns (shortest: nat)
    requires Crowds(u, req, n)
    ensures Crowds(u, req, shortest) && forall k: nat :: k < shortest ==> !Crowds(u, req, k)
    decreases n
  {
    hide Crowds;
    if k: nat :| k < n && Crowds(u, req, k) {
      shortest := ShortestCrowding(u, req, k);
    } else {
      shortest := n;
    }
  }

  // For every request that fits the pool and is not roomy: a run, under either policy, to a state in
  // which it waits for ever.
  lemma NotRoomyStalls(lm: Lm, cfg: Config, u: Setup, req: Request) returns (s: State)
    requires cfg.maxWaiting >= 1 && req.maxTokens >= 1 && !Roomy(cfg, Init(u).m, req)
    requires BlocksNeeded(u.blockSize, |req.prompt| + req.maxTokens) <= u.numBlocks
    ensures Reachable(lm, cfg, s) && SameConfig(Init(u).m, s.m) && WaitsForEver(lm, cfg, s, req)
  {
    hide Reachable, WaitsForEver, BlocksNeeded, Storable;
    var n: nat :| u.minTokens <= n <= |req.prompt| && Storable(Init(u).m.cache, n) &&
      Apart(u.blockSize, req, n) > u.numBlocks;
    assert Crowds(u, req, n);
    var shortest := ShortestCrowding(u, req, n);
    s := StallsOnFront(lm, cfg, u, req, shortest);
  }

  // A run of a process with these sizes leads to a stuck loop with such a request at the head.
  ghost predicate StallsSomewhere(lm: Lm, cfg: Config, u: Setup, req: Request) {
    exists s :: Reachable(lm, cfg, s) && SameConfig(Init(u).m, s.m) && Stuck(cfg, s) && HeadAsks(s, req)
  }

  // Over runs: a request that fits the pool stalls in some run of a process of these sizes if and only
  // if it is not roomy.
  lemma StallsExactlyWhenNotRoomy(lm: Lm, cfg: Config, u: Setup, req: Request)
    requires cfg.maxWaiting >= 1 && req.maxTokens >= 1
    requires BlocksNeeded(u.blockSize, |req.prompt| + req.maxTokens) <= u.numBlocks
    ensures StallsSomewhere(lm, cfg, u, req) <==> !Roomy(cfg, Init(u).m, req)
  {
    hide Reachable, Stuck, BlocksNeeded, Roomy;
    if Roomy(cfg, Init(u).m, req) {
      forall s | Reachable(lm, cfg, s) && SameConfig(Init(u).m, s.m) && Stuck(cfg, s) ensures !HeadAsks(s, req) {
        StuckHeadIsNotRoomy(lm, cfg, s);
        SameRoom(cfg, Init(u).m, s.m, req);
      }
    } else {
      var s := NotRoomyStalls(lm, cfg, u, req);
      assert Stuck(cfg, s) && HeadAsks(s, req);
    }
  }

  // ---- An instance ----

  // One block of sixteen; nine prompt tokens and one to generate.
  const ONE_BLOCK := Setup(1, 16, 64, 8, 16)

  function NineTokens(): Request {
    Request(Sevens(9), 1, {})
  }

  // It fits one block, and yet it can wait for ever.
  lemma StallIsReachable(lm: Lm, cfg: Config) returns (s: State)
    requires cfg.prefixOn && cfg.maxWaiting >= 1
    ensures Reachable(lm, cfg, s) && SameConfig(Init(ONE_BLOCK).m, s.m) && WaitsForEver(lm, cfg, s, NineTokens())
    ensures BlocksNeeded(16, 10) == 1
  {
    hide Reachable, WaitsForEver;
    var c := Init(ONE_BLOCK).m.cache;
    assert 9 / c.blockSize == 0;
    assert CandidateLengths(c, 9) == [9];
    assert Apart(16, NineTokens(), 9) == 2 && Storable(c, 9);
    s := NotRoomyStalls(lm, cfg, ONE_BLOCK, NineTokens());
  }
}
