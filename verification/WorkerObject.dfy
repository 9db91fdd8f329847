// The worker's helpers as they act on the objects, and the sequential worker, which serves one
// admitted sequence from prefill to its end.
module WorkerObject {
  import opened Common
  import opened KvCache
  import opened LanguageModel
  import opened Engines
  import opened Generation
  import opened Sequences
  import opened SequenceRecord
  import opened BlockPool
  import opened PoolObject
  import opened PrefixCache
  import opened PrefixLaws
  import opened PrefixOps
  import opened PrefixObject
  import opened Scheduler
  import opened SchedulerObject
  import L = Lifecycle
  import opened Lifecycle
  import opened WorkerCore
  import opened WorkerRecords

  method BindPrefixAtPrefill(q: Record, sched: SchedulerObject, now: int)
    requires sched.pool == sched.cache.pool
    modifies sched.pool, sched.cache
    modifies q`blockIds, q`ownedBlockIds, q`prefixKey, q`prefixTokens, q`prefixKv, q`prefixLogits
    ensures (sched.cache.View(), q.View()) ==
      L.BindPrefixAtPrefill(sched.cfg, old(sched.cache.View()), old(q.View()), now)
  {
    hide PrefixCache.Lookup, PrefixCache.Peek, BlockPool.Detach, BlocksNeeded;
    if !sched.cfg.prefixOn || q.prefixKey.Some? { return; }
    var hit := sched.cache.Lookup(q.req.prompt, now);
    MissChangesNothing(old(sched.cache.View()), q.req.prompt, now);
    if hit.None? { return; }
    sched.ApplyHit(q, hit.value);
    var pool := sched.pool;
    var extra := pool.Detach(q, BlocksNeeded(pool.blockSize, |hit.value.tokenIds|));
    pool.Release(extra);
    q.ownedBlockIds := AllocOf(pool.View(), q.id);
    q.blockIds := hit.value.blockIds + q.ownedBlockIds;
  }

  lemma MissChangesNothing(m: Memory, ids: Key, now: int)
    ensures PrefixCache.Lookup(m, ids, now).1.None? ==> PrefixCache.Lookup(m, ids, now).0 == m
  {
  }

  // `fails` stands for the model raising.
  method PrefillWithReuse(lm: Lm, q: Record, sched: SchedulerObject, now: int, fails: bool)
    returns (out: Result<Output>)
    requires sched.pool == sched.cache.pool
    modifies sched.pool, sched.cache
    modifies q`blockIds, q`ownedBlockIds, q`prefixKey, q`prefixTokens, q`prefixKv, q`prefixLogits
    ensures Prefilled(sched.cache.View(), q.View(), out)
         == L.PrefillWithReuse(lm, sched.cfg, old(sched.cache.View()), old(q.View()), now, fails)
  {
    hide L.BindPrefixAtPrefill, Reuse, PrefixCache.Insert, PrefixCache.Adopt;
    BindPrefixAtPrefill(q, sched, now);
    if fails { return Err; }
    out := Reuse(lm, q.View());
    if out.Ok? && sched.cfg.prefixOn {
      sched.cache.Insert(q.req.prompt, out.value.cache, Some(out.value.logits), now);
      sched.cache.Adopt(q, now);
    }
  }

  method NoteToken(q: Record, token: Token)
    modifies q`output, q`lastToken, q`pushed, q`reason
    ensures q.View() == L.NoteToken(old(q.View()), token)
  {
    q.output := q.output + [token];
    q.lastToken := Some(token);
    q.pushed := q.pushed + [Push(token)];
    if token in q.req.stop {
      q.reason := Some(Stop);
    } else if |q.output| >= q.req.maxTokens {
      q.reason := Some(Length);
    }
  }

  method ReleaseSequence(q: Record, sched: SchedulerObject)
    requires sched.pool == sched.cache.pool
    modifies sched.pool, sched.cache, q`blockIds, q`ownedBlockIds, q`kv, q`prefixKv, q`prefixLogits, q`releases
    ensures (sched.cache.View(), q.View()) == L.ReleaseSequence(sched.cfg, old(sched.cache.View()), old(q.View()))
  {
    hide ReleasePrefix, BlockPool.Free;
    if sched.cfg.prefixOn { sched.cache.Release(q.prefixKey); }
    sched.pool.FreeSequence(q);
    Forget(q);
  }

  // The record lets go of its tensors.
  method Forget(q: Record)
    modifies q`kv, q`prefixKv, q`prefixLogits, q`releases
    ensures q.View() ==
      old(q.View()).(kv := None, prefixKv := None, prefixLogits := None, releases := old(q.releases) + 1)
  {
    q.kv, q.prefixKv, q.prefixLogits, q.releases := None, None, None, q.releases + 1;
  }

  method SignalEnd(q: Record)
    modifies q`pushed, q`signals
    ensures q.View() == L.SignalEnd(old(q.View()))
  {
    q.pushed, q.signals := q.pushed + [NoneItem], q.signals + 1;
  }

  // Abort, failure and finish differ in the status they set first.
  method EndAs(q: Record, sched: SchedulerObject, status: Status)
    requires sched.pool == sched.cache.pool
    modifies sched.pool, sched.cache, q
    ensures (sched.cache.View(), q.View()) == L.EndAs(sched.cfg, old(sched.cache.View()), old(q.View()), status)
  {
    hide L.ReleaseSequence;
    q.status := status;
    ReleaseSequence(q, sched);
    SignalEnd(q);
  }

  method FinishSequence(q: Record, sched: SchedulerObject)
    requires sched.pool == sched.cache.pool
    modifies sched.pool, sched.cache, q
    ensures (sched.cache.View(), q.View()) == L.FinishSequence(sched.cfg, old(sched.cache.View()), old(q.View()))
  {
    hide L.EndAs;
    q.result := Some(Generation(q.output, if q.reason.Some? then q.reason.value else Length));
    EndAs(q, sched, Finished);
  }

  // ---- The sequential worker ----

  // What an admitted sequence brings along.
  ghost predicate Servable(lm: Lm, cfg: Config, m: Memory, q: Sequence) {
    && Inv(m) && AllMean(lm, m.cache.entries) && q.req.maxTokens >= 1 && q.status.Waiting?
    && Untouched(q) && Admitted(lm, cfg, m, q)
    && (q.prefixKey.Some? ==> RefsOf(m.cache, q.prefixKey.value) > 0)
  }

  // What serving it leaves: an ended record, the books kept, its blocks and its reference returned.
  ghost predicate ServedAlone(lm: Lm, m: Memory, q: Sequence, m': Memory, q': Sequence) {
    && Terminal(q'.status) && Ended(lm, q') && q'.id == q.id && q'.req == q.req
    && Moved(lm, m, m', q.id) && q.id !in m'.pool.alloc
    && RefsMove(m.cache, m'.cache, None, q.prefixKey)
  }

  // Between prefill and the end: memory stands still and holds what the prefill took.
  ghost predicate Serving(lm: Lm, cfg: Config, m: Memory, q: Sequence, m': Memory, q': Sequence) {
    && q'.id == q.id && q'.req == q.req && q.req.maxTokens >= 1
    && Moved(lm, m, m', q.id) && Admitted(lm, cfg, m', q')
    && RefsMove(m.cache, m'.cache, Gained(q, q'), None) && (q.prefixKey.Some? ==> q'.prefixKey == q.prefixKey)
    && (q'.prefixKey.Some? ==> RefsOf(m'.cache, q'.prefixKey.value) > 0)
  }

  lemma EndsServing(lm: Lm, cfg: Config, m: Memory, q: Sequence, m': Memory, q': Sequence, status: Status)
    requires Serving(lm, cfg, m, q, m', q') && CanEnd(lm, q', status)
    ensures var (m2, q2) := L.EndAs(cfg, m', q', status); ServedAlone(lm, m, q, m2, q2) && q2.status == status
  {
    hide Inv, AllMean, RefsOf, Ended, CanEnd, L.EndAs;
    EndKeeps(lm, cfg, m', q', status);
    EndedRecord(lm, cfg, m', q', status);
    CanEndIsTerminal(lm, q', status);
  }

  lemma PrefillServes(lm: Lm, cfg: Config, m: Memory, q: Sequence, now: int, fails: bool)
    requires Servable(lm, cfg, m, q)
    ensures var p := L.PrefillWithReuse(lm, cfg, m, q.(status := Decoding), now, fails);
      && Serving(lm, cfg, m, q, p.m, p.q) && CanEnd(lm, p.q, Errored) && p.q.status.Decoding?
      && p.q.output == q.output == [] && p.q.abortRequested == q.abortRequested && p.q.req == q.req
      && (p.out.Ok? <==> !fails && q.req.prompt != [])
      && (p.out.Ok? ==>
        var q' := L.NoteToken(p.q, Argmax(p.out.value.logits)).(kv := Some(p.out.value.cache));
        Serving(lm, cfg, m, q, p.m, q') && Progress(lm, q') && q'.status.Decoding?)
  {
    hide Inv, AllMean, L.PrefillWithReuse, KvOf, LogitsOf, Progress, Greedy, Moved;
    var start := q.(status := Decoding);
    PrefillKeeps(lm, cfg, m, start, now, fails);
    var p := L.PrefillWithReuse(lm, cfg, m, start, now, fails);
    KeyStillHeld(m, p.m, q, p.q);
    assert Tokens([]) == [];
    if p.out.Ok? {
      var token := Argmax(p.out.value.logits);
      PrefillStep(lm, p.q.req);
      assert p.q.output + [token] == [token] && p.q.req.prompt + p.q.output == p.q.req.prompt;
      NotedRecord(lm, cfg, p.m, p.q, token, p.out.value.cache);
      SameBinding(p.q, token, p.out.value.cache);
    }
  }

  lemma SameBinding(q: Sequence, token: Token, kv: Cache)
    ensures var q' := L.NoteToken(q, token).(kv := Some(kv)); q'.prefixKey == q.prefixKey && q'.status == q.status
  {
  }

  lemma KeyStillHeld(m: Memory, m': Memory, q: Sequence, q': Sequence)
    requires RefsMove(m.cache, m'.cache, Gained(q, q'), None) && (q.prefixKey.Some? ==> q'.prefixKey == q.prefixKey)
    requires q.prefixKey.Some? ==> RefsOf(m.cache, q.prefixKey.value) > 0
    ensures q'.prefixKey.Some? ==> RefsOf(m'.cache, q'.prefixKey.value) > 0
  {
  }

  lemma StepServes(lm: Lm, cfg: Config, m: Memory, q: Sequence, m': Memory, q': Sequence)
    requires Serving(lm, cfg, m, q, m', q') && Progress(lm, q') && q'.reason.None? && q'.status.Decoding?
    ensures q'.kv.Some? && q'.lastToken.Some? && Shaped(lm, q'.kv.value, SeqLen(q'.kv.value))
    ensures var out := Decode(lm, q'.lastToken.value, q'.kv.value);
      var next := L.NoteToken(q', Argmax(out.logits)).(kv := Some(out.cache));
      Serving(lm, cfg, m, q, m', next) && Progress(lm, next) && next.status.Decoding? &&
        |next.output| == |q'.output| + 1
  {
    hide Inv, AllMean, KvOf, LogitsOf, Greedy, Moved, Decode, RefsOf;
    var out := Decode(lm, q'.lastToken.value, q'.kv.value);
    RowRecord(lm, cfg, m', q', out.logits, out.cache);
    SameBinding(q', Argmax(out.logits), out.cache);
  }

  lemma CanStop(lm: Lm, q: Sequence)
    requires Progress(lm, q) && q.req.maxTokens >= 1
    ensures CanEnd(lm, q, Aborted) && CanEnd(lm, q, Errored) && |q.output| <= q.req.maxTokens
    ensures q.reason.Some? ==> CanEnd(lm, q.(result := Some(Generation(q.output, q.reason.value))), Finished)
  {
    hide KvOf;
  }

  // An abort flag never matters to what the sequence holds or has generated.
  lemma FlagServes(lm: Lm, cfg: Config, m: Memory, q: Sequence, m': Memory, q': Sequence)
    requires Serving(lm, cfg, m, q, m', q')
    ensures Serving(lm, cfg, m, q, m', q'.(abortRequested := true))
    ensures Progress(lm, q') ==> Progress(lm, q'.(abortRequested := true))
  {
    hide Inv, AllMean, KvOf, LogitsOf, Greedy, Completion, Moved, RefsOf;
  }

  // The sequence has ended the first time it was told to, and for the reason it was told: by the flag
  // it came with, or by `aborts(k)` or `fails(k)` with k the number of tokens it had.
  ghost predicate Told(q: Sequence, flagged: bool, aborts: nat -> bool, fails: nat -> bool) {
    && (q.status.Aborted? <==> q.abortRequested) && (flagged ==> q.status.Aborted? && q.output == [])
    && (q.status.Aborted? ==> flagged || (q.output != [] && aborts(|q.output|)))
    && (q.status.Errored? ==> fails(|q.output|) || q.req.prompt == [])
    && (q.status.Finished? ==> q.output != [])
    && Untold(|q.output|, aborts, fails)
  }

  ghost predicate Untold(n: nat, aborts: nat -> bool, fails: nat -> bool) {
    (forall k :: 0 < k < n ==> !aborts(k)) && (forall k :: 0 <= k < n ==> !fails(k))
  }

  // A sequence that is being served is aborted or failed.
  method EndServing(lm: Lm, q: Record, sched: SchedulerObject, status: Status, ghost m: Memory, ghost start: Sequence)
    requires sched.pool == sched.cache.pool && Serving(lm, sched.cfg, m, start, sched.cache.View(), q.View())
    requires CanEnd(lm, q.View(), status)
    modifies sched.pool, sched.cache, q
    ensures ServedAlone(lm, m, start, sched.cache.View(), q.View()) && q.status == status
    ensures q.output == old(q.output) && q.abortRequested == old(q.abortRequested)
  {
    hide Serving, CanEnd, ServedAlone, L.EndAs;
    L.EndedAs(sched.cfg, sched.cache.View(), q.View(), status);
    EndsServing(lm, sched.cfg, m, start, sched.cache.View(), q.View(), status);
    EndAs(q, sched, status);
  }

  // One token after another, polling the flag before each decode. `aborts(k)` says whether the flag
  // is up when k tokens have been generated, `fails(k)` whether the model raises on the next one.
  method DecodeLoop(lm: Lm, q: Record, sched: SchedulerObject, aborts: nat -> bool, fails: nat -> bool,
                    ghost m: Memory, ghost start: Sequence)
    requires sched.pool == sched.cache.pool && Serving(lm, sched.cfg, m, start, sched.cache.View(), q.View())
    requires Progress(lm, q.View()) && q.status.Decoding? && |q.output| == 1 && !q.abortRequested && !fails(0)
    modifies sched.pool, sched.cache, q
    ensures ServedAlone(lm, m, start, sched.cache.View(), q.View()) && Told(q.View(), false, aborts, fails)
  {
    hide Serving, Progress, ServedAlone, CanEnd, L.EndAs;
    ServingLimits(lm, sched.cfg, m, start, sched.cache.View(), q.View());
    while q.reason.None?
      invariant sched.cache.View() == old(sched.cache.View()) && q.status.Decoding? && q.req.maxTokens >= 1
      invariant Serving(lm, sched.cfg, m, start, sched.cache.View(), q.View()) && Progress(lm, q.View())
      invariant !q.abortRequested && |q.output| >= 1
      invariant Untold(|q.output|, aborts, fails)
      decreases q.req.maxTokens - |q.output|
    {
      CanStop(lm, q.View());
      FlagServes(lm, sched.cfg, m, start, sched.cache.View(), q.View());
      if aborts(|q.output|) { q.RequestAbort(); }
      CanStop(lm, q.View());
      if q.abortRequested {
        EndServing(lm, q, sched, Aborted, m, start);
        return;
      }
      StepServes(lm, sched.cfg, m, start, sched.cache.View(), q.View());
      if fails(|q.output|) {
        EndServing(lm, q, sched, Errored, m, start);
        return;
      }
      var out := Decode(lm, q.lastToken.value, q.kv.value);
      NoteToken(q, Argmax(out.logits));
      q.kv := Some(out.cache);
      CanStop(lm, q.View());
    }
    FinishServing(lm, q, sched, m, start);
  }

  lemma ServingLimits(lm: Lm, cfg: Config, m: Memory, q: Sequence, m': Memory, q': Sequence)
    requires Serving(lm, cfg, m, q, m', q')
    ensures q'.req.maxTokens >= 1
  {
  }

  method FinishServing(lm: Lm, q: Record, sched: SchedulerObject, ghost m: Memory, ghost start: Sequence)
    requires sched.pool == sched.cache.pool && Serving(lm, sched.cfg, m, start, sched.cache.View(), q.View())
    requires Progress(lm, q.View()) && q.reason.Some? && q.req.maxTokens >= 1
    modifies sched.pool, sched.cache, q
    ensures ServedAlone(lm, m, start, sched.cache.View(), q.View()) && q.status.Finished?
    ensures q.output == old(q.output) && q.abortRequested == old(q.abortRequested)
  {
    hide Progress, CanEnd, ServedAlone;
    CanStop(lm, q.View());
    ghost var ready := q.View().(result := Some(Generation(q.output, q.reason.value)));
    L.EndedAs(sched.cfg, sched.cache.View(), ready, Finished);
    EndsServing(lm, sched.cfg, m, start, sched.cache.View(), ready, Finished);
    FinishSequence(q, sched);
  }

  // The flag is polled once more before the first token may finish the sequence.
  method AfterFirstToken(lm: Lm, q: Record, sched: SchedulerObject, aborts: nat -> bool, fails: nat -> bool,
                         ghost m: Memory, ghost start: Sequence)
    requires sched.pool == sched.cache.pool && Serving(lm, sched.cfg, m, start, sched.cache.View(), q.View())
    requires Progress(lm, q.View()) && q.status.Decoding? && |q.output| == 1 && !q.abortRequested && !fails(0)
    modifies sched.pool, sched.cache, q
    ensures ServedAlone(lm, m, start, sched.cache.View(), q.View()) && Told(q.View(), false, aborts, fails)
  {
    hide Serving, Progress, ServedAlone, CanEnd, L.EndAs;
    ServingLimits(lm, sched.cfg, m, start, sched.cache.View(), q.View());
    FlagServes(lm, sched.cfg, m, start, sched.cache.View(), q.View());
    if aborts(1) { q.RequestAbort(); }
    CanStop(lm, q.View());
    if q.abortRequested {
      EndServing(lm, q, sched, Aborted, m, start);
      return;
    }
    DecodeLoop(lm, q, sched, aborts, fails, m, start);
  }

  // run's body for one admitted sequence: whatever happens it is served exactly once, it ends the first
  // time it is told to and for that reason, and left alone it finishes.
  method RunOne(lm: Lm, q: Record, sched: SchedulerObject, now: int, aborts: nat -> bool, fails: nat -> bool)
    requires sched.pool == sched.cache.pool && Servable(lm, sched.cfg, sched.cache.View(), q.View())
    modifies sched.pool, sched.cache, q
    ensures ServedAlone(lm, old(sched.cache.View()), old(q.View()), sched.cache.View(), q.View())
    ensures Told(q.View(), old(q.abortRequested), aborts, fails)
    ensures (forall k :: !aborts(k) && !fails(k)) && !old(q.abortRequested) && q.req.prompt != [] ==> q.status.Finished?
  {
    hide Serving, Progress, ServedAlone, CanEnd, L.EndAs, L.PrefillWithReuse, Servable;
    ghost var m, start := sched.cache.View(), q.View();
    Unstarted(lm, sched.cfg, m, start);
    if q.abortRequested || q.status.Aborted? {
      EndServing(lm, q, sched, Aborted, m, start);
      return;
    }
    q.status := Decoding;
    PrefillServes(lm, sched.cfg, m, start, now, fails(0));
    var out := PrefillWithReuse(lm, q, sched, now, fails(0));
    if out.Err? {
      EndServing(lm, q, sched, Errored, m, start);
      return;
    }
    NoteToken(q, Argmax(out.value.logits));
    q.kv := Some(out.value.cache);
    AfterFirstToken(lm, q, sched, aborts, fails, m, start);
    ServedEnds(lm, m, start, sched.cache.View(), q.View());
  }

  lemma ServedEnds(lm: Lm, m: Memory, q: Sequence, m': Memory, q': Sequence)
    requires ServedAlone(lm, m, q, m', q')
    ensures Terminal(q'.status) && q'.req == q.req
  {
    hide Moved, Ended;
  }

  lemma Unstarted(lm: Lm, cfg: Config, m: Memory, q: Sequence)
    requires Servable(lm, cfg, m, q)
    ensures Serving(lm, cfg, m, q, m, q) && CanEnd(lm, q, Aborted) && q.status.Waiting? && q.req.maxTokens >= 1
    ensures q.output == []
  {
    hide Inv, AllMean, RefsOf, KvOf, LogitsOf;
    assert Tokens([]) == [];
  }
}
