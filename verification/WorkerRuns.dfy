// What holds in every reachable state, for all submissions, aborts, stop requests, failures and
// clock readings, in any interleaving with the worker's steps.
module WorkerRuns {
  import opened Common
  import opened KvCache
  import opened LanguageModel
  import opened Engines
  import opened Generation
  import opened Sequences
  import opened BlockPool
  import opened PrefixCache
  import opened PrefixLaws
  import opened PrefixOps
  import opened Scheduler
  import opened Lifecycle
  import opened Worker
  import opened WorkerCore
  import opened WorkerRecords
  import opened WorkerInvariant
  import opened WorkerAdmits
  import opened WorkerEnvironment
  import opened WorkerSteps

  // ---- The invariant is inductive ----

  lemma Parts(lm: Lm, cfg: Config, s: State)
    requires StateInv(lm, cfg, s)
    ensures CoreOf(lm, cfg, s) && Lists(cfg, s, Hands(s)) && Shape(lm, s)
  {
  }

  lemma WorkKeeps(lm: Lm, cfg: Config, s: State, now: int, fails: bool, sampleFails: bool)
    requires StateInv(lm, cfg, s)
    ensures StateInv(lm, cfg, WorkStep(lm, cfg, s, now, fails, sampleFails))
  {
    hide StateInv, CoreOf, Lists, Shape, StepTop, StepBlocked, StepDropping, StepPrefills, StepInPrefill, StepSampled;
    hide StepSweeping, StepCollecting, StepRows, StepFailing, StepSettling;
    Parts(lm, cfg, s);
    match s.pc
    case Top => TopKeeps(lm, cfg, s);
    case Blocked(_) => BlockedKeeps(lm, cfg, s);
    case Dropping(todo, _) =>
      if todo == [] {
        DroppingDoneKeeps(lm, cfg, s, now);
      } else {
        DroppingWalkKeeps(lm, cfg, s, now);
      }
    case Prefills(todo) => if todo == [] { PrefillsDoneKeeps(lm, cfg, s); } else { PrefillsWalkKeeps(lm, cfg, s); }
    case InPrefill(_, _) => InPrefillKeeps(lm, cfg, s, now, fails, sampleFails);
    case Sampled(_, _) => SampledKeeps(lm, cfg, s);
    case Sweeping(_) => SweepingKeeps(lm, cfg, s);
    case Collecting(todo, _) =>
      if todo == [] {
        CollectingDoneKeeps(lm, cfg, s, fails);
      } else {
        CollectingWalkKeeps(lm, cfg, s, fails);
      }
    case Rows(_, _, _) => RowsKeeps(lm, cfg, s);
    case Failing(_) => FailingKeeps(lm, cfg, s);
    case Settling(todo, _) => if todo == [] { SettlingDoneKeeps(lm, cfg, s); } else { SettlingWalkKeeps(lm, cfg, s); }
    case Stopped =>
  }

  lemma NextKeeps(lm: Lm, cfg: Config, s: State, e: Event)
    requires StateInv(lm, cfg, s)
    ensures StateInv(lm, cfg, Next(lm, cfg, s, e))
  {
    hide StateInv, WorkStep, StepSubmit, StepRequestAbort, StepAdminAbort, SetEvent;
    match e
    case Submit(id, req) => SubmitKeeps(lm, cfg, s, id, req);
    case RequestAbort(id) => RequestAbortKeeps(lm, cfg, s, id);
    case AdminAbort(id) => AdminAbortKeeps(lm, cfg, s, id);
    case RequestStop => RequestStopKeeps(lm, cfg, s);
    case Work(now, fails, sampleFails) => WorkKeeps(lm, cfg, s, now, fails, sampleFails);
  }

  lemma InitHolds(lm: Lm, cfg: Config, u: Setup)
    ensures StateInv(lm, cfg, Init(u))
  {
    NewPoolConserved(u.numBlocks, u.blockSize);
    var s := Init(u);
    assert s.m.cache.pins.Keys == {};
    forall key ensures RefsOf(s.m.cache, key) == |Holders(s.seqs, key)| { assert Holders(s.seqs, key) == {}; }
  }

  lemma {:induction false} ServeKeeps(lm: Lm, cfg: Config, s: State, events: seq<Event>)
    requires StateInv(lm, cfg, s)
    ensures StateInv(lm, cfg, Serve(lm, cfg, s, events))
  {
    hide StateInv, Next;
    if events != [] {
      ServeKeeps(lm, cfg, s, events[..|events| - 1]);
      NextKeeps(lm, cfg, Serve(lm, cfg, s, events[..|events| - 1]), events[|events| - 1]);
    }
  }

  // A state some run leads to, for some sizes.
  ghost predicate Reachable(lm: Lm, cfg: Config, s: State) {
    exists u: Setup, events: seq<Event> :: s == Serve(lm, cfg, Init(u), events)
  }

  lemma ReachableHolds(lm: Lm, cfg: Config, s: State)
    requires Reachable(lm, cfg, s)
    ensures StateInv(lm, cfg, s) && CoreOf(lm, cfg, s) && Lists(cfg, s, Hands(s)) && Shape(lm, s)
  {
    hide StateInv, Init, Serve;
    var u: Setup, events: seq<Event> :| s == Serve(lm, cfg, Init(u), events);
    InitHolds(lm, cfg, u);
    ServeKeeps(lm, cfg, Init(u), events);
    Parts(lm, cfg, s);
  }

  lemma ReachableNext(lm: Lm, cfg: Config, s: State, e: Event)
    requires Reachable(lm, cfg, s)
    ensures Reachable(lm, cfg, Next(lm, cfg, s, e))
  {
    hide Next, Init;
    var u: Setup, events: seq<Event> :| s == Serve(lm, cfg, Init(u), events);
    ServeSnoc(lm, cfg, Init(u), events, e);
  }

  lemma ReachableServe(lm: Lm, cfg: Config, s: State, events: seq<Event>)
    requires Reachable(lm, cfg, s)
    ensures Reachable(lm, cfg, Serve(lm, cfg, s, events))
  {
    hide Init, Next;
    var u: Setup, past: seq<Event> :| s == Serve(lm, cfg, Init(u), past);
    ServeConcat(lm, cfg, Init(u), past, events);
  }

  // ---- Meaning ----

  // Whatever was batched with it, reused, aborted or evicted around it: a finished sequence has
  // the completion that full recompute gives its request alone, and any other has a prefix of it.
  lemma ServesWhatNaiveGenerates(lm: Lm, cfg: Config, s: State, id: Id, naive: Generation)
    requires Reachable(lm, cfg, s) && id in s.seqs && Completion(lm, s.seqs[id].req, naive)
    ensures s.seqs[id].output <= naive.output
    ensures s.seqs[id].status.Finished? ==> s.seqs[id].result == Some(naive) && s.seqs[id].output == naive.output
    ensures !s.seqs[id].status.Finished? ==> s.seqs[id].result.None?
  {
    hide Core, Completion, Greedy, Admitted, Lists, Shape;
    ReachableHolds(lm, cfg, s);
    CoreAt(lm, cfg, s.m, s.waiting, s.seqs, id);
    var q := s.seqs[id];
    if q.output != [] { GreedyIsPrefixOfCompletion(lm, q.req, q.output, naive); }
    if q.status.Finished? { CompletionIsUnique(lm, q.req, q.result.value, naive); }
  }

  // Whatever an engine that keeps the promise of naive generation returns for a finished request
  // is the result the worker's client was given.
  lemma FinishedIsNaive(lm: Lm, cfg: Config, s: State, id: Id, naive: Result<Generation>)
    requires Reachable(lm, cfg, s) && id in s.seqs && s.seqs[id].status.Finished?
    requires Generates(lm, s.seqs[id].req, naive)
    ensures s.seqs[id].result.Some? && naive == Ok(s.seqs[id].result.value)
  {
    hide Completion, Reachable;
    FinishedCompletes(lm, cfg, s, id);
    ServesWhatNaiveGenerates(lm, cfg, s, id, naive.value);
  }

  // The baseline engine, run on its own, gives what the worker's client was given.
  method NaiveAgrees(lm: Lm, cfg: Config, s: State, id: Id) returns (naive: Result<Generation>)
    requires Reachable(lm, cfg, s) && id in s.seqs && s.seqs[id].status.Finished?
    ensures s.seqs[id].result.Some? && naive == Ok(s.seqs[id].result.value) && Generates(lm, s.seqs[id].req, naive)
  {
    naive := NaiveGenerateIds(lm, s.seqs[id].req);
    FinishedIsNaive(lm, cfg, s, id, naive);
  }

  lemma FinishedCompletes(lm: Lm, cfg: Config, s: State, id: Id)
    requires Reachable(lm, cfg, s) && id in s.seqs && s.seqs[id].status.Finished?
    ensures s.seqs[id].req.prompt != [] && s.seqs[id].req.maxTokens >= 1
    ensures s.seqs[id].result.Some? && Completion(lm, s.seqs[id].req, s.seqs[id].result.value)
  {
    hide Core, Admitted, Lists, Shape;
    ReachableHolds(lm, cfg, s);
    CoreAt(lm, cfg, s.m, s.waiting, s.seqs, id);
  }

  lemma PrefillBegins(lm: Lm, cfg: Config, s: State)
    requires Reachable(lm, cfg, s) && s.pc.InPrefill? && s.pc.id in s.seqs
    ensures Inv(s.m) && AllMean(lm, s.m.cache.entries) && s.seqs[s.pc.id].req.maxTokens >= 1
    ensures Budgeted(s.m, s.seqs[s.pc.id]) && PrefixOk(lm, cfg, s.seqs[s.pc.id])
  {
    hide Core, Lists, Inv, AllMean, KvOf, LogitsOf, Budgeted, PrefixOk, Reachable, AllDecoding;
    ReachableHolds(lm, cfg, s);
    var id := s.pc.id;
    TailIn([id] + s.pc.todo);
    CoreAt(lm, cfg, s.m, s.waiting, s.seqs, id);
  }

  // Whatever the prefix cache holds when a prefill begins, its logits and its cache are those of a
  // full prefill, and it fails only when the model does or the prompt is empty.
  lemma ReuseIsInvisible(lm: Lm, cfg: Config, s: State, now: int, fails: bool)
    requires Reachable(lm, cfg, s) && s.pc.InPrefill? && s.pc.id in s.seqs
    ensures var q := s.seqs[s.pc.id];
      var out := PrefillWithReuse(lm, cfg, s.m, q.(status := Prefilling), now, fails).out;
      && (out.Ok? <==> !fails && q.req.prompt != [])
      && (out.Ok? ==> out == Prefill(lm, q.req.prompt))
  {
    hide Inv, AllMean, PrefillWithReuse, KvOf, LogitsOf, Prefill, Reachable;
    PrefillBegins(lm, cfg, s);
    var q := s.seqs[s.pc.id].(status := Prefilling);
    PrefillKeeps(lm, cfg, s.m, q, now, fails);
    if q.req.prompt != [] { PrefillRecomputes(lm, q.req.prompt); }
  }

  // ---- Blocks ----

  // Free, owned and pinned blocks are duplicate-free, disjoint and together exactly the pool.
  lemma BlocksPartitioned(lm: Lm, cfg: Config, s: State)
    requires Reachable(lm, cfg, s)
    ensures var p, pinned := s.m.pool, s.m.cache.pins.Keys;
      && NoDup(p.free) && (forall id :: id in p.alloc ==> NoDup(p.alloc[id]))
      && (forall b: nat :: b in p.free ==> b !in pinned)
      && (forall id :: id in p.alloc ==> forall b :: b in p.alloc[id] ==> b !in p.free && b !in pinned)
      && (forall i, j :: i in p.alloc && j in p.alloc && i != j ==> Disjoint(p.alloc[i], p.alloc[j]))
      && (forall b: nat :: b < p.numBlocks <==>
        b in p.free || b in pinned || exists id :: id in p.alloc && b in p.alloc[id])
  {
    hide Lists, Shape, Conserved;
    ReachableHolds(lm, cfg, s);
    ConservedIsPartition(s.m.pool, s.m.cache.pins.Keys);
  }

  // Exactly the live, admitted sequences own a list of blocks.
  lemma OwnersAreAdmitted(lm: Lm, cfg: Config, s: State, id: Id)
    requires Reachable(lm, cfg, s)
    ensures id in s.m.pool.alloc <==> id in s.seqs && !Terminal(s.seqs[id].status) && id !in s.waiting
  {
    hide Lists, Shape, Inv, AllMean, SeqOk;
    ReachableHolds(lm, cfg, s);
    assert id in s.m.pool.alloc <==> Owning(s.waiting, s.seqs, id);
  }

  // Every block's pin count is the number of references to entries listing it, every entry's
  // references are its live holders, and an entry without references lists no block.
  lemma PinsAndRefsExact(lm: Lm, cfg: Config, s: State)
    requires Reachable(lm, cfg, s)
    ensures forall b: nat :: PinsOf(s.m.cache.pins, b) == PinSum(s.m.cache.entries, b)
    ensures forall key :: RefsOf(s.m.cache, key) == |Holders(s.seqs, key)|
    ensures forall i :: 0 <= i < |s.m.cache.entries| ==>
      var e := s.m.cache.entries[i];
      && e.refs == |Holders(s.seqs, e.tokenIds)| && (e.refs == 0 ==> e.blockIds == [])
      && |e.tokenIds| >= s.m.cache.minTokens
    ensures |s.m.cache.entries| <= s.m.cache.maxEntries
  {
    hide Lists, Shape, SeqOk, AllMean, Conserved;
    ReachableHolds(lm, cfg, s);
    var c := s.m.cache;
    forall i | 0 <= i < |c.entries|
      ensures c.entries[i].refs == |Holders(s.seqs, c.entries[i].tokenIds)|
      ensures EntryOk(c, s.m.pool.blockSize, c.entries[i])
    {
      FindAt(c, i);
      assert RefsOf(c, c.entries[i].tokenIds) == c.entries[i].refs;
    }
  }

  // The prefix key of a live sequence still resolves: eviction never takes it away.
  lemma LivePrefixResolves(lm: Lm, cfg: Config, s: State, id: Id)
    requires Reachable(lm, cfg, s) && id in s.seqs && !Terminal(s.seqs[id].status) && s.seqs[id].prefixKey.Some?
    ensures Has(s.m.cache, s.seqs[id].prefixKey.value) && RefsOf(s.m.cache, s.seqs[id].prefixKey.value) >= 1
  {
    hide Core, Lists, Shape;
    ReachableHolds(lm, cfg, s);
    LiveKeyResolves(lm, cfg, s.m, s.waiting, s.seqs, id);
  }

  // The blocks of the entry a sequence is bound to.
  function SharedBlockCount(s: State, q: Sequence): nat {
    if q.prefixKey.None? || !Has(s.m.cache, q.prefixKey.value) then 0
    else |s.m.cache.entries[Find(s.m.cache.entries, q.prefixKey.value)].blockIds|
  }

  // A live sequence whose entry carries blocks, or that has none, is covered for its whole
  // reservation by shared and owned blocks together.
  lemma ReservationCovered(lm: Lm, cfg: Config, s: State, id: Id)
    requires Reachable(lm, cfg, s) && id in s.seqs && !Terminal(s.seqs[id].status) && id !in s.waiting
    requires s.seqs[id].prefixKey.Some? ==> SharedBlockCount(s, s.seqs[id]) > 0
    ensures id in s.m.pool.alloc
    ensures SharedBlockCount(s, s.seqs[id]) + |s.m.pool.alloc[id]| >=
      BlocksNeeded(s.m.pool.blockSize, ReservationTokens(s.seqs[id]))
  {
    hide Core, Lists, Shape, Progress, Untouched, PrefixOk, Conserved, PinsExact;
    ReachableHolds(lm, cfg, s);
    CoreAt(lm, cfg, s.m, s.waiting, s.seqs, id);
    var q := s.seqs[id];
    if q.prefixKey.Some? {
      var i := Find(s.m.cache.entries, q.prefixKey.value);
      assert EntryOk(s.m.cache, s.m.pool.blockSize, s.m.cache.entries[i]);
    }
  }

  // ---- Quiescence ----

  ghost predicate Quiet(s: State) {
    forall id :: id in s.seqs && !Terminal(s.seqs[id].status) ==> id in s.waiting
  }

  lemma NoHolders(lm: Lm, cfg: Config, s: State, key: Key)
    requires CoreOf(lm, cfg, s) && Quiet(s)
    ensures Holders(s.seqs, key) == {}
  {
    hide Core, Inv, AllMean;
    forall id | id in s.seqs ensures HeldKey(s.seqs[id]).None? { CoreAt(lm, cfg, s.m, s.waiting, s.seqs, id); }
  }

  lemma QuietMemory(lm: Lm, cfg: Config, s: State)
    requires CoreOf(lm, cfg, s) && Quiet(s)
    ensures s.m.pool.alloc == map[] && s.m.cache.pins == map[] && UsedBlocks(s.m.pool) == 0
    ensures |s.m.pool.free| == s.m.pool.numBlocks
    ensures forall i :: 0 <= i < |s.m.cache.entries| ==>
      s.m.cache.entries[i].refs == 0 && s.m.cache.entries[i].blockIds == []
  {
    hide AllMean, SeqOk, Conserved;
    var c := s.m.cache;
    forall id ensures id !in s.m.pool.alloc { assert id in s.m.pool.alloc <==> Owning(s.waiting, s.seqs, id); }
    assert s.m.pool.alloc == map[];
    forall i | 0 <= i < |c.entries| ensures c.entries[i].refs == 0 && c.entries[i].blockIds == [] {
      NoHolders(lm, cfg, s, c.entries[i].tokenIds);
      FindAt(c, i);
      assert RefsOf(c, c.entries[i].tokenIds) == 0;
      assert EntryOk(c, s.m.pool.blockSize, c.entries[i]);
    }
    forall b ensures b !in c.pins {
      PinSumPositive(c.entries, b);
      assert PinsOf(c.pins, b) == PinSum(c.entries, b);
    }
    assert c.pins == map[] && c.pins.Keys == {};
    AllFree(s.m.pool);
  }

  // Whenever no admitted sequence is live, every block is free and nothing is referenced.
  lemma QuiescentMeansNoLeak(lm: Lm, cfg: Config, s: State)
    requires Reachable(lm, cfg, s) && Quiet(s)
    ensures UsedBlocks(s.m.pool) == 0 && s.m.cache.pins == map[]
    ensures forall key :: RefsOf(s.m.cache, key) == 0
  {
    hide Core, Lists, Shape;
    ReachableHolds(lm, cfg, s);
    QuietMemory(lm, cfg, s);
  }

  // Shutting down ends everything that was ever enqueued and returns every block.
  lemma ShutdownEndsEverything(lm: Lm, cfg: Config, s: State)
    requires Reachable(lm, cfg, s) && (s.pc.Top? || s.pc.Blocked?)
    ensures var s' := AbortLeftovers(cfg, s);
      && (forall id :: id in s'.submitted ==> id in s'.seqs && Terminal(s'.seqs[id].status))
      && UsedBlocks(s'.m.pool) == 0 && s'.m.cache.pins == map[]
      && (forall i :: 0 <= i < |s'.m.cache.entries| ==> s'.m.cache.entries[i].refs == 0)
  {
    hide Core, AbortLeftovers, NoDup;
    ReachableHolds(lm, cfg, s);
    AbortLeftoversKeeps(lm, cfg, s);
    QuietMemory(lm, cfg, AbortLeftovers(cfg, s));
  }

  // A block that two stored prefixes list is at the same place in both, one of them starts with the
  // other, and it stands for the same tokens in both; no prefix lists a block twice.
  lemma SharedBlockHoldsSameTokens(lm: Lm, cfg: Config, s: State, e: Entry, f: Entry, x: nat, y: nat)
    requires Reachable(lm, cfg, s) && e in s.m.cache.entries && f in s.m.cache.entries
    requires x < |e.blockIds| && y < |f.blockIds| && e.blockIds[x] == f.blockIds[y]
    ensures x == y && (e.tokenIds <= f.tokenIds || f.tokenIds <= e.tokenIds)
    ensures forall t :: 0 <= t < |e.tokenIds| && t < |f.tokenIds| && x == t / s.m.pool.blockSize ==>
      e.tokenIds[t] == f.tokenIds[t]
    ensures e.refs > 0 && f.refs > 0
  {
    hide Lists, Shape, Inv, SeqOk, AllMean, Owning, RefsExact;
    ReachableHolds(lm, cfg, s);
    SharersAreRelated(s.m, e, f, x, y);
  }

  // ---- Ending exactly once ----

  // A terminal sequence was released once and signalled once, after pushing all it generated and
  // then a single None; a live one was neither released nor signalled and has pushed no None.
  lemma EndsExactlyOnce(lm: Lm, cfg: Config, s: State, id: Id)
    requires Reachable(lm, cfg, s) && id in s.seqs
    ensures var q := s.seqs[id];
      if Terminal(q.status)
      then q.releases == 1 && q.signals == 1 && q.pushed == Tokens(q.output) + [NoneItem]
      else q.releases == 0 && q.signals == 0 && q.pushed == Tokens(q.output)
  {
    hide Core, Lists, Shape, Admitted, Greedy, Completion;
    ReachableHolds(lm, cfg, s);
    CoreAt(lm, cfg, s.m, s.waiting, s.seqs, id);
    assert Tokens([]) == [];
  }

  // ---- Queue and batch ----

  // Waiters imply the event is set, and a worker that is blocked unwoken has nothing to do.
  lemma NoLostWakeup(lm: Lm, cfg: Config, s: State)
    requires Reachable(lm, cfg, s)
    ensures s.waiting != [] ==> s.event
    ensures s.pc == Blocked(false) ==> s.waiting == [] && s.running == [] && !s.stop && !s.event
    ensures s.pc == Blocked(false) ==> forall id :: id in s.submitted ==> id in s.seqs && Terminal(s.seqs[id].status)
  {
    hide Core;
    ReachableHolds(lm, cfg, s);
  }

  // Running and admitted sequences together never exceed the batch, nor waiters the queue; no
  // sequence is in two places, and every live one is in one.
  lemma BatchAndQueueBounded(lm: Lm, cfg: Config, s: State)
    requires Reachable(lm, cfg, s)
    ensures |Hands(s)| <= cfg.maxBatch && |s.waiting| <= cfg.maxWaiting && NoDup(s.waiting + Hands(s))
    ensures forall id :: id in s.seqs && !Terminal(s.seqs[id].status) ==> id in s.waiting || id in Hands(s)
    ensures forall id :: id in s.waiting ==> id in s.seqs && s.seqs[id].status.Waiting?
  {
    hide Core, NoDup;
    ReachableHolds(lm, cfg, s);
  }
}
