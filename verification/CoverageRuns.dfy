// Coverage along whole runs: a live sequence is covered exactly when neither its admission nor its
// late bind took the branch that leaves it short.
module CoverageRuns {
  import opened Common
  import opened KvCache
  import opened LanguageModel
  import opened Engines
  import opened Generation
  import opened Sequences
  import opened BlockPool
  import opened PrefixCache
  import opened PrefixLaws
  import opened PrefixOps
  import opened Scheduler
  import opened Lifecycle
  import opened HeldBlocks
  import opened Coverage
  import opened Worker
  import opened WorkerCore
  import opened WorkerRecords
  import opened WorkerInvariant
  import opened WorkerAdmits
  import opened WorkerEnvironment
  import opened WorkerSteps
  import opened WorkerRuns
  import opened WorkerHistory

  // Admitted and not yet ended.
  ghost predicate Alive(s: State, id: Id) {
    id in s.seqs && !Terminal(s.seqs[id].status) && id !in s.waiting
  }

  // ---- Steps that leave a sequence's coverage alone ----

  // Same reservation, same binding, same blocks on both sides.
  ghost predicate Calm(s: State, s': State, id: Id) {
    && id in s.seqs && id in s'.seqs && s'.seqs[id].id == s.seqs[id].id == id
    && s'.seqs[id].req == s.seqs[id].req && s'.seqs[id].prefixKey == s.seqs[id].prefixKey
    && s'.m.pool.blockSize == s.m.pool.blockSize
    && id in s.m.pool.alloc && id in s'.m.pool.alloc && s'.m.pool.alloc[id] == s.m.pool.alloc[id]
    && (s.seqs[id].prefixKey.Some? ==>
      EntryBlocks(s'.m.cache, s.seqs[id].prefixKey.value) == EntryBlocks(s.m.cache, s.seqs[id].prefixKey.value))
  }

  lemma CalmCovers(s: State, s': State, id: Id)
    requires Calm(s, s', id)
    ensures Covers(s'.m, s'.seqs[id]) == Covers(s.m, s.seqs[id])
  {
    hide BlocksNeeded, EntryBlocks;
  }

  lemma CalmThen(a: State, b: State, c: State, id: Id)
    requires Calm(a, b, id) && Calm(b, c, id)
    ensures Calm(a, c, id)
  {
    hide EntryBlocks;
  }

  // What a live sequence holds: its list of blocks and, if bound, a reference.
  lemma AliveHolds(lm: Lm, cfg: Config, s: State, id: Id)
    requires CoreOf(lm, cfg, s) && Alive(s, id)
    ensures s.seqs[id].id == id && id in s.m.pool.alloc && s.seqs[id].req.maxTokens >= 1
    ensures s.seqs[id].prefixKey.Some? ==> RefsOf(s.m.cache, s.seqs[id].prefixKey.value) > 0
  {
    hide Core, Inv, AllMean, Progress, Untouched, Admitted;
    CoreAt(lm, cfg, s.m, s.waiting, s.seqs, id);
    if s.seqs[id].prefixKey.Some? { LiveKeyResolves(lm, cfg, s.m, s.waiting, s.seqs, id); }
  }

  lemma MemoryStill(lm: Lm, cfg: Config, s: State, s': State, id: Id)
    requires CoreOf(lm, cfg, s) && Alive(s, id) && s'.m == s.m && id in s'.seqs
    requires s'.seqs[id].id == s.seqs[id].id && s'.seqs[id].req == s.seqs[id].req
    requires s'.seqs[id].prefixKey == s.seqs[id].prefixKey
    ensures Calm(s, s', id)
  {
    hide CoreOf, EntryBlocks;
    AliveHolds(lm, cfg, s, id);
  }

  // Memory moved for somebody else.
  lemma OtherCalm(lm: Lm, cfg: Config, s: State, s': State, t: Id, id: Id)
    requires CoreOf(lm, cfg, s) && CoreOf(lm, cfg, s') && Alive(s, id) && Alive(s', id) && id != t
    requires s'.seqs[id] == s.seqs[id] && Settled(s.m.cache, s'.m.cache) && s'.m.pool.blockSize == s.m.pool.blockSize
    requires s'.m.pool.alloc - {t} == s.m.pool.alloc - {t}
    ensures Calm(s, s', id)
  {
    hide CoreOf, EntryBlocks, RefsOf;
    AliveHolds(lm, cfg, s, id);
    AliveHolds(lm, cfg, s', id);
    assert (s'.m.pool.alloc - {t})[id] == s'.m.pool.alloc[id] && (s.m.pool.alloc - {t})[id] == s.m.pool.alloc[id];
  }

  // Somebody else ended.
  lemma EndedCalm(lm: Lm, cfg: Config, s: State, s': State, q: Sequence, status: Status, id: Id)
    requires CoreOf(lm, cfg, s) && CoreOf(lm, cfg, s') && Alive(s, id) && Alive(s', id) && Terminal(status)
    requires s'.m == EndAs(cfg, s.m, q, status).0 && s'.seqs == s.seqs[q.id := EndAs(cfg, s.m, q, status).1]
    ensures Calm(s, s', id)
  {
    hide CoreOf, EndAs, Settled, Calm;
    EndSettles(cfg, s.m, q, status);
    EndSizes(cfg, s.m, q, status);
    EndedAs(cfg, s.m, q, status);
    assert s.m.pool.alloc - {q.id} - {q.id} == s.m.pool.alloc - {q.id};
    OtherCalm(lm, cfg, s, s', q.id, id);
  }

  lemma AbortedCalm(lm: Lm, cfg: Config, s: State, s': State, t: Id, id: Id)
    requires CoreOf(lm, cfg, s) && CoreOf(lm, cfg, s') && Alive(s, id) && Alive(s', id) && t in s.seqs
    requires s'.m == AbortId(cfg, s, t).m && s'.seqs == AbortId(cfg, s, t).seqs
    ensures Calm(s, s', id)
  {
    hide CoreOf, EndAs, Calm;
    IdOf(lm, cfg, s, t);
    EndedAs(cfg, s.m, s.seqs[t], Aborted);
    EndedCalm(lm, cfg, s, s', s.seqs[t], Aborted, id);
  }

  ghost predicate WalkStep(cfg: Config, s: State, s': State, now: int) {
    || (s.pc.Dropping? && s.pc.todo != [] && s' == StepDropping(cfg, s, now))
    || (s.pc.Prefills? && s' == StepPrefills(cfg, s))
    || (s.pc.Sweeping? && s' == StepSweeping(cfg, s)) || (s.pc.Settling? && s' == StepSettling(cfg, s))
  }

  // A walk's step ends the sequence it meets, or touches no record and no memory.
  lemma WalkEffect(cfg: Config, s: State, s': State, now: int)
    requires WalkStep(cfg, s, s', now)
    ensures (s'.m == s.m && s'.seqs == s.seqs)
      || (s.pc.todo != [] && s'.m == AbortId(cfg, s, s.pc.todo[0]).m && s'.seqs == AbortId(cfg, s, s.pc.todo[0]).seqs)
  {
    hide AbortId, Admit;
  }

  lemma WalkKnows(lm: Lm, s: State)
    requires Shape(lm, s) && (s.pc.Dropping? || s.pc.Prefills? || s.pc.Sweeping? || s.pc.Settling?) && s.pc.todo != []
    ensures s.pc.todo[0] in s.seqs
  {
    assert s.pc.Dropping? ==> s.pc.todo[0] in s.pc.kept + s.pc.todo;
  }

  lemma WalksCalm(lm: Lm, cfg: Config, s: State, s': State, id: Id, now: int)
    requires CoreOf(lm, cfg, s) && CoreOf(lm, cfg, s') && Shape(lm, s) && Alive(s, id) && Alive(s', id)
    requires WalkStep(cfg, s, s', now)
    ensures Calm(s, s', id)
  {
    hide CoreOf, AbortId, Calm, Shape, StepDropping, StepPrefills, StepSweeping, StepSettling;
    WalkEffect(cfg, s, s', now);
    if s'.m == s.m && s'.seqs == s.seqs {
      MemoryStill(lm, cfg, s, s', id);
    } else {
      WalkKnows(lm, s);
      AbortedCalm(lm, cfg, s, s', s.pc.todo[0], id);
    }
  }

  lemma SampledCalm(lm: Lm, cfg: Config, s: State, id: Id)
    requires CoreOf(lm, cfg, s) && Shape(lm, s) && s.pc.Sampled?
    requires Alive(s, id) && var s' := StepSampled(cfg, s); CoreOf(lm, cfg, s') && Alive(s', id)
    ensures Calm(s, StepSampled(cfg, s), id)
  {
    hide CoreOf, EndAs, Calm;
    var t, s' := s.pc.id, StepSampled(cfg, s);
    var q := s.seqs[t];
    IdOf(lm, cfg, s, t);
    if WantsAbort(q) {
      AbortedCalm(lm, cfg, s, s', t, id);
    } else if q.reason.Some? {
      var r := q.(result := Some(Generation(q.output, q.reason.value)));
      EndedAs(cfg, s.m, r, Finished);
      EndedCalm(lm, cfg, s, s', r, Finished, id);
    } else {
      MemoryStill(lm, cfg, s, s', id);
    }
  }

  lemma RowsCalm(lm: Lm, cfg: Config, s: State, id: Id)
    requires CoreOf(lm, cfg, s) && Shape(lm, s) && s.pc.Rows?
    requires Alive(s, id) && var s' := StepRows(cfg, s); CoreOf(lm, cfg, s') && Alive(s', id)
    ensures Calm(s, StepRows(cfg, s), id)
  {
    hide CoreOf, EndAs, Calm, RowTrue;
    var live, row, out, s' := s.pc.live, s.pc.row, s.pc.out, StepRows(cfg, s);
    if row == |live| {
      MemoryStill(lm, cfg, s, s', id);
    } else {
      var t := live[row];
      var q := s.seqs[t];
      IdOf(lm, cfg, s, t);
      var noted := NoteToken(q, Argmax(out.logits[row])).(kv := Some(out.caches[row]));
      if WantsAbort(q) {
        AbortedCalm(lm, cfg, s, s', t, id);
      } else if noted.reason.Some? {
        var r := noted.(result := Some(Generation(noted.output, noted.reason.value)));
        EndedAs(cfg, s.m, r, Finished);
        EndedCalm(lm, cfg, s, s', r, Finished, id);
      } else {
        MemoryStill(lm, cfg, s, s', id);
      }
    }
  }

  lemma FailingCalm(lm: Lm, cfg: Config, s: State, id: Id)
    requires CoreOf(lm, cfg, s) && Shape(lm, s) && s.pc.Failing?
    requires Alive(s, id) && var s' := StepFailing(cfg, s); CoreOf(lm, cfg, s') && Alive(s', id)
    ensures Calm(s, StepFailing(cfg, s), id)
  {
    hide CoreOf, EndAs, Calm;
    if s.pc.todo == [] {
      MemoryStill(lm, cfg, s, StepFailing(cfg, s), id);
    } else {
      var t := s.pc.todo[0];
      IdOf(lm, cfg, s, t);
      EndedAs(cfg, s.m, s.seqs[t], Errored);
      EndedCalm(lm, cfg, s, StepFailing(cfg, s), s.seqs[t], Errored, id);
    }
  }

  // ---- Prefill ----

  // A late bind that leaves its sequence short: a hit without blocks, or too few of its own left.
  ghost predicate LateBindLoses(cfg: Config, m: Memory, q: Sequence) {
    cfg.prefixOn && q.prefixKey.None? && Peek(m.cache, q.req.prompt).Some? && !BindWillCover(cfg, m, q)
  }

  lemma PrefillTarget(lm: Lm, cfg: Config, s: State)
    requires CoreOf(lm, cfg, s) && Lists(cfg, s, Hands(s)) && Shape(lm, s) && s.pc.InPrefill?
    ensures var t := s.pc.id;
      && t in s.seqs && t !in s.waiting && s.seqs[t].status.Waiting? && s.seqs[t].id == t
      && Inv(s.m) && AllMean(lm, s.m.cache.entries) && Admitted(lm, cfg, s.m, s.seqs[t]) && s.seqs[t].req.maxTokens >= 1
      && (s.seqs[t].prefixKey.Some? ==> RefsOf(s.m.cache, s.seqs[t].prefixKey.value) > 0)
  {
    hide Core, Lists, Inv, AllMean, Admitted, AllDecoding, RefsOf;
    TailIn([s.pc.id] + s.pc.todo);
    CoreAt(lm, cfg, s.m, s.waiting, s.seqs, s.pc.id);
    AliveHolds(lm, cfg, s, s.pc.id);
  }

  lemma PrefillOther(lm: Lm, cfg: Config, s: State, id: Id, now: int, fails: bool, sampleFails: bool)
    requires CoreOf(lm, cfg, s) && Lists(cfg, s, Hands(s)) && Shape(lm, s) && s.pc.InPrefill? && id != s.pc.id
    requires Alive(s, id)
    requires var s' := StepInPrefill(lm, cfg, s, now, fails, sampleFails); CoreOf(lm, cfg, s') && Alive(s', id)
    ensures Calm(s, StepInPrefill(lm, cfg, s, now, fails, sampleFails), id)
  {
    hide Core, Lists, Shape, EndAs, Calm, PrefillWithReuse, NoteToken, Inv, AllMean, Admitted, Settled, RefsOf, AbortId;
    var t, s' := s.pc.id, StepInPrefill(lm, cfg, s, now, fails, sampleFails);
    PrefillTarget(lm, cfg, s);
    if WantsAbort(s.seqs[t]) {
      AbortedCalm(lm, cfg, s, s', t, id);
    } else {
      var p := PrefillWithReuse(lm, cfg, s.m, s.seqs[t].(status := Prefilling), now, fails);
      var mid := s.(m := p.m, seqs := s.seqs[t := p.q.(status := Waiting)]);
      PrefillMoves(lm, cfg, s, now, fails);
      if p.out.Err? || sampleFails {
        OtherCalm(lm, cfg, s, mid, t, id);
        EndedAs(cfg, p.m, p.q, Errored);
        assert s'.seqs == mid.seqs[p.q.id := EndAs(cfg, p.m, p.q, Errored).1];
        EndedCalm(lm, cfg, mid, s', p.q, Errored, id);
        CalmThen(s, mid, s', id);
      } else {
        NotedKeeps(p.q, Argmax(p.out.value.logits), p.out.value.cache);
        OtherCalm(lm, cfg, s, s', t, id);
      }
    }
  }

  lemma NotedKeeps(q: Sequence, token: Token, kv: Cache)
    ensures var q' := NoteToken(q, token).(kv := Some(kv));
      q'.id == q.id && q'.req == q.req && q'.prefixKey == q.prefixKey && q'.status == q.status
  {
  }

  lemma PrefillMoves(lm: Lm, cfg: Config, s: State, now: int, fails: bool)
    requires CoreOf(lm, cfg, s) && Lists(cfg, s, Hands(s)) && Shape(lm, s) && s.pc.InPrefill?
    ensures var t := s.pc.id;
      && t in s.seqs
      && var p := PrefillWithReuse(lm, cfg, s.m, s.seqs[t].(status := Prefilling), now, fails);
      && p.q.id == t && Settled(s.m.cache, p.m.cache) && p.m.pool.alloc - {t} == s.m.pool.alloc - {t}
      && p.m.pool.blockSize == s.m.pool.blockSize && !Terminal(p.q.status)
      && CoreOf(lm, cfg, s.(m := p.m, seqs := s.seqs[t := p.q.(status := Waiting)]))
      && p.q.req == s.seqs[t].req
  {
    hide Core, Lists, Shape, PrefillWithReuse, Inv, AllMean, Settled, RefsOf, NoneGiven, PrefixOk, Budgeted;
    PrefillTarget(lm, cfg, s);
    var q := s.seqs[s.pc.id].(status := Prefilling);
    SameBudget(lm, cfg, s.m, s.seqs[s.pc.id], q);
    PrefillCore(lm, cfg, s.m, s.waiting, s.seqs, s.pc.id, now, fails);
    PrefillKeeps(lm, cfg, s.m, q, now, fails);
    PrefillSettles(lm, cfg, s.m, q, now, fails);
  }

  lemma SameBudget(lm: Lm, cfg: Config, m: Memory, q: Sequence, q': Sequence)
    requires q' == q.(status := q'.status) && Admitted(lm, cfg, m, q)
    ensures Budgeted(m, q') && PrefixOk(lm, cfg, q')
  {
    hide KvOf, LogitsOf;
  }

  lemma PrefillSelf(lm: Lm, cfg: Config, s: State, now: int, fails: bool, sampleFails: bool)
    requires CoreOf(lm, cfg, s) && Lists(cfg, s, Hands(s)) && Shape(lm, s) && s.pc.InPrefill? && s.pc.id in s.seqs
    requires Alive(StepInPrefill(lm, cfg, s, now, fails, sampleFails), s.pc.id)
    ensures var s' := StepInPrefill(lm, cfg, s, now, fails, sampleFails);
      Covers(s'.m, s'.seqs[s.pc.id]) <==> Covers(s.m, s.seqs[s.pc.id]) && !LateBindLoses(cfg, s.m, s.seqs[s.pc.id])
  {
    hide Core, Lists, Shape, EndAs, PrefillWithReuse, NoteToken;
    hide Inv, AllMean, Admitted, BindWillCover, SharedAndOwned, RefsOf;
    var t := s.pc.id;
    PrefillTarget(lm, cfg, s);
    EndedAs(cfg, s.m, s.seqs[t], Aborted);
    if !WantsAbort(s.seqs[t]) {
      var q := s.seqs[t].(status := Prefilling);
      var p := PrefillWithReuse(lm, cfg, s.m, q, now, fails);
      PrefillMoves(lm, cfg, s, now, fails);
      EndedAs(cfg, p.m, p.q, Errored);
      SameBudget(lm, cfg, s.m, s.seqs[t], q);
      PrefillCoversExactlyWhen(lm, cfg, s.m, q, now, fails);
      BindVerdict(cfg, s.m, s.seqs[t], q);
      if p.out.Ok? {
        NotedKeeps(p.q, Argmax(p.out.value.logits), p.out.value.cache);
        CoversByBinding(p.m, p.q, NoteToken(p.q, Argmax(p.out.value.logits)).(kv := Some(p.out.value.cache)));
      }
    }
  }

  lemma CoversByBinding(m: Memory, q: Sequence, q': Sequence)
    requires q'.id == q.id && q'.req == q.req && q'.prefixKey == q.prefixKey
    ensures Covers(m, q') == Covers(m, q)
  {
    hide EntryBlocks, BlocksNeeded;
  }

  // An unbound sequence within its budget is covered, so only a losing bind can leave it short.
  lemma BindVerdict(cfg: Config, m: Memory, q: Sequence, q': Sequence)
    requires Budgeted(m, q) && q' == q.(status := q'.status)
    ensures BindWillCover(cfg, m, q') <==> Covers(m, q) && !LateBindLoses(cfg, m, q)
  {
    hide EntryBlocks, BlocksNeeded, Peek, Blockless;
    CoversByBinding(m, q, q');
    if q.prefixKey.None? { UnboundCovers(m, q); }
  }

  // ---- Admission ----

  lemma TakenCalm(lm: Lm, cfg: Config, s: State, c: nat, held: seq<Id>, now: int, id: Id)
    requires CoreOf(lm, cfg, s) && Lists(cfg, s, held) && c < |s.waiting| && |held| < cfg.maxBatch
    requires Attempted(cfg, s, c, now).ok && Alive(s, id)
    ensures Alive(Taken(cfg, s, c, now), id) && Calm(s, Taken(cfg, s, c, now), id)
  {
    hide Core, Lists, TryAllocate, NoDup, Calm, Settled;
    var t, s1 := s.waiting[c], Taken(cfg, s, c, now);
    WaitingAreListed(cfg, s, held);
    assert t in s.waiting;
    TakenRound(lm, cfg, s, c, held, now);
    AttemptMoves(lm, cfg, s, c, now);
    OtherCalm(lm, cfg, s, s1, t, id);
  }

  lemma AttemptMoves(lm: Lm, cfg: Config, s: State, c: nat, now: int)
    requires CoreOf(lm, cfg, s) && c < |s.waiting| && s.waiting[c] in s.seqs
    ensures var t := Attempted(cfg, s, c, now);
      && Settled(s.m.cache, t.m.cache) && t.m.pool.alloc - {s.waiting[c]} == s.m.pool.alloc - {s.waiting[c]}
      && SameConfig(s.m, t.m) && SameProgress(s.seqs[s.waiting[c]], t.q)
      && Inv(s.m) && AllMean(lm, s.m.cache.entries) && Unbound(s.seqs[s.waiting[c]])
      && s.seqs[s.waiting[c]].req.maxTokens >= 1
      && s.seqs[s.waiting[c]].id == s.waiting[c]
  {
    hide Core, TryAllocate, Inv, AllMean, Settled, Untouched;
    var id := s.waiting[c];
    assert id in s.waiting;
    CoreAt(lm, cfg, s.m, s.waiting, s.seqs, id);
    TryAllocateKeeps(lm, cfg, s.m, s.seqs[id], now);
    AttemptSettles(lm, cfg, s.m, s.seqs[id], now);
  }

  lemma PutBackCalm(lm: Lm, cfg: Config, s: State, c: nat, held: seq<Id>, now: int, id: Id)
    requires CoreOf(lm, cfg, s) && Lists(cfg, s, held) && c < |s.waiting| && !Attempted(cfg, s, c, now).ok
    requires Alive(s, id)
    ensures Alive(PutBack(cfg, s, c, now), id) && Calm(s, PutBack(cfg, s, c, now), id)
  {
    hide Core, Lists, TryAllocate, NoDup, Calm, Settled;
    WaitingAreListed(cfg, s, held);
    assert s.waiting[c] in s.waiting;
    FailedRound(lm, cfg, s, c, held, now);
    AttemptMoves(lm, cfg, s, c, now);
    OtherCalm(lm, cfg, s, PutBack(cfg, s, c, now), s.waiting[c], id);
  }

  lemma {:induction false} AdmitCalm(lm: Lm, cfg: Config, s: State, held: seq<Id>, room: nat, now: int, id: Id)
    requires CoreOf(lm, cfg, s) && Lists(cfg, s, held) && |held| + room <= cfg.maxBatch && Alive(s, id)
    ensures Alive(Admit(cfg, s, room, now).0, id) && Calm(s, Admit(cfg, s, room, now).0, id)
    decreases room
  {
    hide CoreOf, Lists, Admit, Attempted, Taken, PutBack, Calm, Alive;
    if room == 0 || Candidate(cfg, s, 0) == |s.waiting| {
      AdmitNone(cfg, s, room, now);
      AliveSelf(lm, cfg, s, id);
    } else {
      var c := Candidate(cfg, s, 0);
      RoundUnfolds(cfg, s, c, room, now);
      if Attempted(cfg, s, c, now).ok {
        var s1 := Taken(cfg, s, c, now);
        TakenCalm(lm, cfg, s, c, held, now, id);
        TakenKeeps(lm, cfg, s, c, held, now);
        AdmitCalm(lm, cfg, s1, held + [s.waiting[c]], room - 1, now, id);
        CalmThen(s, s1, Admit(cfg, s1, room - 1, now).0, id);
      } else {
        PutBackCalm(lm, cfg, s, c, held, now, id);
      }
    }
  }

  lemma AliveSelf(lm: Lm, cfg: Config, s: State, id: Id)
    requires CoreOf(lm, cfg, s) && Alive(s, id)
    ensures Calm(s, s, id)
  {
    hide CoreOf;
    MemoryStill(lm, cfg, s, s, id);
  }

  lemma TakenKeeps(lm: Lm, cfg: Config, s: State, c: nat, held: seq<Id>, now: int)
    requires CoreOf(lm, cfg, s) && Lists(cfg, s, held) && c < |s.waiting| && |held| < cfg.maxBatch
    requires Attempted(cfg, s, c, now).ok
    ensures var s1 := Taken(cfg, s, c, now);
      && CoreOf(lm, cfg, s1) && Lists(cfg, s1, held + [s.waiting[c]]) && Alive(s1, s.waiting[c])
      && (forall x :: x in s1.waiting <==> x in s.waiting && x != s.waiting[c])
      && (forall x :: x in s.seqs && x != s.waiting[c] ==> x in s1.seqs && s1.seqs[x] == s.seqs[x])
  {
    hide Core, Lists, TryAllocate, NoDup;
    WaitingAreListed(cfg, s, held);
    TakenRound(lm, cfg, s, c, held, now);
  }

  // The admission whose round takes `id` leaves it short.
  ghost predicate AdmissionLoses(cfg: Config, s: State, room: nat, now: int, id: Id)
    decreases room
  {
    && room > 0
    && var c := Candidate(cfg, s, 0);
    && c < |s.waiting| && Attempted(cfg, s, c, now).ok
    && if s.waiting[c] == id then !WillCover(cfg, s.m, Get(s, id))
       else AdmissionLoses(cfg, Taken(cfg, s, c, now), room - 1, now, id)
  }

  lemma TakenCovers(lm: Lm, cfg: Config, s: State, c: nat, now: int)
    requires CoreOf(lm, cfg, s) && c < |s.waiting| && s.waiting[c] in s.seqs && Attempted(cfg, s, c, now).ok
    ensures var s1, id := Taken(cfg, s, c, now), s.waiting[c];
      id in s1.seqs && (Covers(s1.m, s1.seqs[id]) <==> WillCover(cfg, s.m, Get(s, id)))
  {
    hide Core, TryAllocate, Inv, AllMean, Settled, SharedAndOwned, WillCover;
    AttemptMoves(lm, cfg, s, c, now);
    AdmissionCoversExactlyWhen(lm, cfg, s.m, s.seqs[s.waiting[c]], now);
  }

  lemma {:induction false} AdmitCovers(lm: Lm, cfg: Config, s: State, held: seq<Id>, room: nat, now: int, id: Id)
    requires CoreOf(lm, cfg, s) && Lists(cfg, s, held) && |held| + room <= cfg.maxBatch && id in s.waiting
    ensures var s' := Admit(cfg, s, room, now).0;
      id !in s'.waiting ==> id in s'.seqs && (Covers(s'.m, s'.seqs[id]) <==> !AdmissionLoses(cfg, s, room, now, id))
    ensures id in Admit(cfg, s, room, now).0.waiting ==> !AdmissionLoses(cfg, s, room, now, id)
    decreases room
  {
    hide CoreOf, Lists, Admit, Attempted, Taken, PutBack, Calm, Covers, WillCover;
    if room == 0 || Candidate(cfg, s, 0) == |s.waiting| {
      AdmitNone(cfg, s, room, now);
    } else {
      var c := Candidate(cfg, s, 0);
      RoundUnfolds(cfg, s, c, room, now);
      RoundQueue(cfg, s, c, now);
      if Attempted(cfg, s, c, now).ok {
        var s1 := Taken(cfg, s, c, now);
        TakenKeeps(lm, cfg, s, c, held, now);
        if s.waiting[c] == id {
          WaitingAreListed(cfg, s, held);
          TakenCovers(lm, cfg, s, c, now);
          AdmitCalm(lm, cfg, s1, held + [id], room - 1, now, id);
          CalmCovers(s1, Admit(cfg, s1, room - 1, now).0, id);
        } else {
          AdmitCovers(lm, cfg, s1, held + [s.waiting[c]], room - 1, now, id);
        }
      } else {
        assert s.waiting == s.waiting[..c] + [s.waiting[c]] + s.waiting[c + 1..];
      }
    }
  }

  // ---- One step ----

  function Room(cfg: Config, s: State): nat
    requires s.pc.Dropping?
  {
    if |s.pc.kept| <= cfg.maxBatch then cfg.maxBatch - |s.pc.kept| else 0
  }

  // The step takes `id` into the batch, or binds it late, in the branch that leaves it short.
  ghost predicate LosesCover(cfg: Config, s: State, e: Event, id: Id) {
    && e.Work? && id in s.seqs
    && ((s.pc.Dropping? && s.pc.todo == [] && id in s.waiting
        && AdmissionLoses(cfg, s.(running := s.pc.kept), Room(cfg, s), e.now, id))
      || (s.pc.InPrefill? && s.pc.id == id && !WantsAbort(s.seqs[id]) && LateBindLoses(cfg, s.m, s.seqs[id])))
  }

  lemma WalksKeepQueue(lm: Lm, cfg: Config, s: State, now: int, fails: bool, sampleFails: bool)
    requires s.pc.Dropping? ==> s.pc.todo != []
    requires s.pc.Dropping? || s.pc.Prefills? || s.pc.Sweeping? || s.pc.Settling? || s.pc.Failing? ||
      s.pc.Collecting? || s.pc.Stopped?
    ensures WorkStep(lm, cfg, s, now, fails, sampleFails).waiting == s.waiting
  {
    hide EndAs, DecodeLive, Admit;
  }

  lemma QueueStays(lm: Lm, cfg: Config, s: State, now: int, fails: bool, sampleFails: bool)
    requires !(s.pc.Dropping? && s.pc.todo == []) && !s.pc.Top? && !s.pc.Blocked?
    ensures WorkStep(lm, cfg, s, now, fails, sampleFails).waiting == s.waiting
  {
    hide EndAs, PrefillWithReuse, NoteToken, FinishSequence, StepDropping;
    hide StepPrefills, StepSweeping, StepSettling, StepFailing, StepCollecting;
    if !s.pc.InPrefill? && !s.pc.Sampled? && !s.pc.Rows? { WalksKeepQueue(lm, cfg, s, now, fails, sampleFails); }
  }

  // Whoever has left the queue never comes back to it.
  lemma NotRequeued(lm: Lm, cfg: Config, s: State, e: Event, id: Id)
    requires StateInv(lm, cfg, s) && id in s.seqs && id !in s.waiting
    ensures id !in Next(lm, cfg, s, e).waiting
  {
    hide Core, Shape, NeedTokens, BlocksNeeded, EndAs, WorkStep, NoDup;
    match e {
      case Submit(_, _) =>
      case RequestAbort(_) =>
      case AdminAbort(j) =>
        if IndexOf(s.waiting, j) < |s.waiting| {
          NotAmongRest(s.waiting, IndexOf(s.waiting, j), id);
        }
      case RequestStop =>
      case Work(now, fails, sampleFails) => WorkNotRequeued(lm, cfg, s, now, fails, sampleFails, id);
    }
  }

  lemma NotAmongRest(ids: seq<Id>, i: nat, id: Id)
    requires i < |ids| && id !in ids
    ensures id !in ids[..i] + ids[i + 1..]
  {
  }

  lemma WorkNotRequeued(lm: Lm, cfg: Config, s: State, now: int, fails: bool, sampleFails: bool, id: Id)
    requires StateInv(lm, cfg, s) && id in s.seqs && id !in s.waiting
    ensures id !in WorkStep(lm, cfg, s, now, fails, sampleFails).waiting
  {
    hide StateInv, CoreOf, Lists, Shape, Admit, AbortLeftovers;
    Parts(lm, cfg, s);
    if s.pc.Dropping? && s.pc.todo == [] {
      AdmissionKeeps(lm, cfg, s, now);
    } else if s.pc.Top? || s.pc.Blocked? {
      LeftoversEmpty(lm, cfg, s);
    } else {
      QueueStays(lm, cfg, s, now, fails, sampleFails);
    }
  }

  lemma AdmissionKeeps(lm: Lm, cfg: Config, s: State, now: int)
    requires CoreOf(lm, cfg, s) && Lists(cfg, s, Hands(s)) && s.pc.Dropping? && s.pc.todo == []
    ensures var kept := s.(running := s.pc.kept); var r := Admit(cfg, kept, Room(cfg, s), now);
      && CoreOf(lm, cfg, kept) && Lists(cfg, kept, s.pc.kept) && |s.pc.kept| + Room(cfg, s) <= cfg.maxBatch
      && AdmitOk(lm, cfg, kept, s.pc.kept, r.0, r.1) && StepDropping(cfg, s, now) == r.0.(pc := Prefills(r.1))
  {
    hide Core, Lists, Admit, AdmitOk;
    var held := s.pc.kept;
    assert s.pc.kept + s.pc.todo == held;
    var kept := s.(running := held);
    ListsOf(cfg, s, kept, held);
    HandsBounded(cfg, kept, held);
    AdmitKeeps(lm, cfg, kept, held, cfg.maxBatch - |held|, now);
  }

  lemma LeftoversEmpty(lm: Lm, cfg: Config, s: State)
    requires CoreOf(lm, cfg, s) && Lists(cfg, s, Hands(s)) && Shape(lm, s) && (s.pc.Top? || s.pc.Blocked?)
    ensures var s' := AbortLeftovers(cfg, s);
      s'.waiting == [] && forall id :: id in s'.seqs ==> Terminal(s'.seqs[id].status)
  {
    hide Core, AbortLeftovers, NoDup;
    AbortLeftoversKeeps(lm, cfg, s);
  }

  // Coverage of a sequence that was admitted before the step.
  lemma WorkCovers(lm: Lm, cfg: Config, s: State, e: Event, id: Id)
    requires StateInv(lm, cfg, s) && StateInv(lm, cfg, Next(lm, cfg, s, e)) && e.Work?
    requires Alive(s, id) && Alive(Next(lm, cfg, s, e), id)
    ensures var s' := Next(lm, cfg, s, e);
      Covers(s'.m, s'.seqs[id]) <==> Covers(s.m, s.seqs[id]) && !LosesCover(cfg, s, e, id)
  {
    hide StateInv, CoreOf, Lists, Shape, Covers, LateBindLoses, AdmissionLoses, StepInPrefill, Calm;
    var s' := Next(lm, cfg, s, e);
    Parts(lm, cfg, s);
    Parts(lm, cfg, s');
    if s.pc.InPrefill? && s.pc.id == id {
      PrefillSelf(lm, cfg, s, e.now, e.fails, e.sampleFails);
      IdOf(lm, cfg, s, id);
      FlaggedEnds(lm, cfg, s, e.now, e.fails, e.sampleFails);
    } else {
      WorkCalm(lm, cfg, s, e, id);
      CalmCovers(s, s', id);
    }
  }

  lemma FlaggedEnds(lm: Lm, cfg: Config, s: State, now: int, fails: bool, sampleFails: bool)
    requires s.pc.InPrefill? && s.pc.id in s.seqs && s.seqs[s.pc.id].id == s.pc.id
    ensures WantsAbort(s.seqs[s.pc.id]) ==> !Alive(StepInPrefill(lm, cfg, s, now, fails, sampleFails), s.pc.id)
  {
    hide EndAs, PrefillWithReuse, NoteToken;
    EndedAs(cfg, s.m, s.seqs[s.pc.id], Aborted);
  }

  lemma WorkCalm(lm: Lm, cfg: Config, s: State, e: Event, id: Id)
    requires CoreOf(lm, cfg, s) && Lists(cfg, s, Hands(s)) && Shape(lm, s) && e.Work?
    requires CoreOf(lm, cfg, Next(lm, cfg, s, e)) && Alive(s, id) && Alive(Next(lm, cfg, s, e), id)
    requires !(s.pc.InPrefill? && s.pc.id == id)
    ensures Calm(s, Next(lm, cfg, s, e), id)
  {
    hide CoreOf, Lists, Shape, Calm, Admit, AbortLeftovers, StepDropping, StepPrefills, StepInPrefill, StepSampled;
    hide StepSweeping, StepRows, StepFailing, StepSettling, DecodeLive;
    var s' := Next(lm, cfg, s, e);
    match s.pc {
      case Top => if s.stop { LeftoversEmpty(lm, cfg, s); } else { MemoryStill(lm, cfg, s, s', id); }
      case Blocked(woken) =>
        if woken && s.stop {
          LeftoversEmpty(lm, cfg, s);
        } else {
          MemoryStill(lm, cfg, s, s', id);
        }
      case Dropping(todo, kept) =>
        if todo == [] {
          AdmissionKeeps(lm, cfg, s, e.now);
          AdmitCalm(lm, cfg, s.(running := kept), kept, Room(cfg, s), e.now, id);
          PcCalm(s, Admit(cfg, s.(running := kept), Room(cfg, s), e.now).0, s', id);
        } else {
          WalksCalm(lm, cfg, s, s', id, e.now);
        }
      case Prefills(_) => WalksCalm(lm, cfg, s, s', id, e.now);
      case InPrefill(_, _) => PrefillOther(lm, cfg, s, id, e.now, e.fails, e.sampleFails);
      case Sampled(_, _) => SampledCalm(lm, cfg, s, id);
      case Sweeping(_) => WalksCalm(lm, cfg, s, s', id, e.now);
      case Collecting(_, _) => MemoryStill(lm, cfg, s, s', id);
      case Rows(_, _, _) => RowsCalm(lm, cfg, s, id);
      case Failing(_) => FailingCalm(lm, cfg, s, id);
      case Settling(_, _) => WalksCalm(lm, cfg, s, s', id, e.now);
      case Stopped => MemoryStill(lm, cfg, s, s', id);
    }
  }

  lemma PcCalm(s: State, s1: State, s2: State, id: Id)
    requires s.pc.Dropping? && Calm(s.(running := s.pc.kept), s1, id) && s2.m == s1.m && s2.seqs == s1.seqs
    ensures Calm(s, s2, id)
  {
    hide EntryBlocks;
  }

  lemma OutsideCalm(lm: Lm, cfg: Config, s: State, e: Event, id: Id)
    requires StateInv(lm, cfg, s) && !e.Work? && Alive(s, id) && Alive(Next(lm, cfg, s, e), id)
    ensures Calm(s, Next(lm, cfg, s, e), id)
  {
    hide CoreOf, Lists, Shape, Calm, EndAs, NeedTokens, BlocksNeeded;
    var s' := Next(lm, cfg, s, e);
    if e.AdminAbort? && IndexOf(s.waiting, e.id) < |s.waiting| { WaiterEnded(lm, cfg, s, e.id); }
    MemoryStill(lm, cfg, s, s', id);
  }

  lemma WaiterEnded(lm: Lm, cfg: Config, s: State, t: Id)
    requires CoreOf(lm, cfg, s) && Lists(cfg, s, Hands(s)) && t in s.waiting
    ensures t in s.seqs && s.seqs[t].id == t && EndAs(cfg, s.m, s.seqs[t], Aborted).0 == s.m
    ensures EndAs(cfg, s.m, s.seqs[t], Aborted).1.id == t
  {
    hide CoreOf, Lists, EndAs;
    WaiterIsLive(lm, cfg, s, Hands(s), t);
    WaiterHoldsNothing(lm, cfg, s, t);
    EndedAs(cfg, s.m, s.seqs[t], Aborted);
  }

  // ---- Runs ----

  lemma StepCovers(lm: Lm, cfg: Config, s: State, e: Event, id: Id)
    requires StateInv(lm, cfg, s) && Alive(Next(lm, cfg, s, e), id)
    ensures var s' := Next(lm, cfg, s, e);
      if Alive(s, id) then Covers(s'.m, s'.seqs[id]) <==> Covers(s.m, s.seqs[id]) && !LosesCover(cfg, s, e, id)
      else id in s.waiting && (Covers(s'.m, s'.seqs[id]) <==> !LosesCover(cfg, s, e, id))
  {
    hide StateInv, Next, Covers, LosesCover, Calm;
    NextKeeps(lm, cfg, s, e);
    if Alive(s, id) {
      if e.Work? {
        WorkCovers(lm, cfg, s, e, id);
      } else {
        OutsideCalm(lm, cfg, s, e, id);
        CalmCovers(s, Next(lm, cfg, s, e), id);
        OutsideLosesNothing(cfg, s, e, id);
      }
    } else {
      NewlyAlive(lm, cfg, s, e, id);
    }
  }

  lemma OutsideLosesNothing(cfg: Config, s: State, e: Event, id: Id)
    requires !e.Work?
    ensures !LosesCover(cfg, s, e, id)
  {
  }

  // Only admission brings a sequence to life.
  lemma NewlyAlive(lm: Lm, cfg: Config, s: State, e: Event, id: Id)
    requires StateInv(lm, cfg, s) && !Alive(s, id) && Alive(Next(lm, cfg, s, e), id)
    ensures id in s.waiting
    ensures (Covers(Next(lm, cfg, s, e).m, Next(lm, cfg, s, e).seqs[id]) <==> !LosesCover(cfg, s, e, id))
  {
    hide StateInv, CoreOf, Lists, Shape, Next, Covers, AdmissionLoses, Admit, Onward;
    Parts(lm, cfg, s);
    NextOnward(lm, cfg, s, e);
    WasWaiting(lm, cfg, s, e, id);
    AdmitsOnlyThere(lm, cfg, s, e, id);
    AdmissionKeeps(lm, cfg, s, e.now);
    var kept := s.(running := s.pc.kept);
    AdmitCovers(lm, cfg, kept, s.pc.kept, Room(cfg, s), e.now, id);
    DroppingNext(lm, cfg, s, e);
    WaitingAreListed(cfg, s, Hands(s));
  }

  lemma DroppingNext(lm: Lm, cfg: Config, s: State, e: Event)
    requires e.Work? && s.pc.Dropping?
    ensures Next(lm, cfg, s, e) == StepDropping(cfg, s, e.now)
  {
    hide StepDropping;
  }

  lemma WasWaiting(lm: Lm, cfg: Config, s: State, e: Event, id: Id)
    requires StateInv(lm, cfg, s) && Later(s, Next(lm, cfg, s, e)) && !Alive(s, id) && Alive(Next(lm, cfg, s, e), id)
    ensures id in s.waiting
  {
    hide CoreOf, Shape, WorkStep, NeedTokens, BlocksNeeded, StepAdminAbort;
    var s' := Next(lm, cfg, s, e);
    if id in s.seqs {
      assert Onward(s.seqs[id], s'.seqs[id]);
    } else {
      NextOnward(lm, cfg, s, e);
      NextKeeps(lm, cfg, s, e);
      NewIsWaiting(lm, cfg, s, e, id);
    }
  }

  lemma NewIsWaiting(lm: Lm, cfg: Config, s: State, e: Event, id: Id)
    requires StateInv(lm, cfg, s) && StateInv(lm, cfg, Next(lm, cfg, s, e)) && id !in s.seqs
    requires id in Next(lm, cfg, s, e).seqs
    requires !e.Submit? ==> AllOnward(s, Next(lm, cfg, s, e))
    ensures id in Next(lm, cfg, s, e).waiting
  {
    hide CoreOf, Shape, NoDup, NeedTokens, BlocksNeeded, WorkStep, StepAdminAbort, StepRequestAbort;
    var s' := Next(lm, cfg, s, e);
    assert id in s'.submitted && (s'.submitted == s.submitted ==> id in s.seqs);
  }

  lemma AdmitsOnlyThere(lm: Lm, cfg: Config, s: State, e: Event, id: Id)
    requires CoreOf(lm, cfg, s) && Lists(cfg, s, Hands(s)) && Shape(lm, s)
    requires id in s.waiting && Alive(Next(lm, cfg, s, e), id)
    ensures e.Work? && s.pc.Dropping? && s.pc.todo == []
  {
    hide CoreOf, Lists, Shape, NeedTokens, BlocksNeeded, EndAs, WorkStep, AbortLeftovers;
    match e {
      case Work(now, fails, sampleFails) =>
        if s.pc.Top? || s.pc.Blocked? {
          LeftoversEmpty(lm, cfg, s);
          TopWaits(lm, cfg, s, now, fails, sampleFails);
        } else if !(s.pc.Dropping? && s.pc.todo == []) {
          QueueStays(lm, cfg, s, now, fails, sampleFails);
        }
      case AdminAbort(j) => if IndexOf(s.waiting, j) < |s.waiting| { AbortedWaiterGone(lm, cfg, s, j, id); }
      case _ =>
    }
  }

  lemma TopWaits(lm: Lm, cfg: Config, s: State, now: int, fails: bool, sampleFails: bool)
    requires s.pc.Top? || s.pc.Blocked?
    ensures var s' := WorkStep(lm, cfg, s, now, fails, sampleFails);
      s' == AbortLeftovers(cfg, s) || s'.waiting == s.waiting
  {
    hide AbortLeftovers;
  }

  lemma AbortedWaiterGone(lm: Lm, cfg: Config, s: State, j: Id, id: Id)
    requires CoreOf(lm, cfg, s) && Lists(cfg, s, Hands(s)) && j in s.waiting && id in s.waiting
    ensures !Alive(StepAdminAbort(cfg, s, j), id)
  {
    hide CoreOf, Lists, EndAs;
    var i := IndexOf(s.waiting, j);
    WaiterEnded(lm, cfg, s, j);
    EndedAs(cfg, s.m, s.seqs[j], Aborted);
    if id != j { StillThere(s.waiting, i, id); }
  }

  lemma StillThere(ids: seq<Id>, i: nat, id: Id)
    requires i < |ids| && id in ids && id != ids[i]
    ensures id in ids[..i] + ids[i + 1..]
  {
    assert ids == ids[..i] + [ids[i]] + ids[i + 1..];
  }

  // Somewhere along the run the sequence was left short.
  ghost predicate LostCover(lm: Lm, cfg: Config, s: State, events: seq<Event>, id: Id) {
    events != [] &&
      var before := Serve(lm, cfg, s, events[..|events| - 1]);
      LostCover(lm, cfg, s, events[..|events| - 1], id) || LosesCover(cfg, before, events[|events| - 1], id)
  }

  lemma LosersHaveLeft(lm: Lm, cfg: Config, s: State, e: Event, id: Id)
    requires StateInv(lm, cfg, s) && LosesCover(cfg, s, e, id)
    ensures id in Next(lm, cfg, s, e).seqs && id !in Next(lm, cfg, s, e).waiting
  {
    hide CoreOf, Lists, Shape, Next, AdmissionLoses, LateBindLoses, Admit, Onward;
    Parts(lm, cfg, s);
    NextOnward(lm, cfg, s, e);
    if s.pc.Dropping? {
      AdmissionKeeps(lm, cfg, s, e.now);
      AdmitCovers(lm, cfg, s.(running := s.pc.kept), s.pc.kept, Room(cfg, s), e.now, id);
      DroppingNext(lm, cfg, s, e);
    } else {
      PrefillTarget(lm, cfg, s);
      NotRequeued(lm, cfg, s, e, id);
    }
  }

  // A sequence still waiting, or not yet known, has lost nothing.
  lemma {:induction false} LostHasLeft(lm: Lm, cfg: Config, s: State, events: seq<Event>, id: Id)
    requires StateInv(lm, cfg, s) && LostCover(lm, cfg, s, events, id)
    ensures id in Serve(lm, cfg, s, events).seqs && id !in Serve(lm, cfg, s, events).waiting
  {
    hide StateInv, Next, LosesCover, Onward;
    var before, e := Serve(lm, cfg, s, events[..|events| - 1]), events[|events| - 1];
    ServeKeeps(lm, cfg, s, events[..|events| - 1]);
    NextOnward(lm, cfg, before, e);
    if LosesCover(cfg, before, e, id) {
      LosersHaveLeft(lm, cfg, before, e, id);
    } else {
      LostHasLeft(lm, cfg, s, events[..|events| - 1], id);
      NotRequeued(lm, cfg, before, e, id);
    }
  }

  // For every run: an admitted sequence that has not ended is covered for its whole reservation by
  // the blocks it shares and owns exactly when neither its admission nor its late bind left it short.
  lemma {:induction false} CoveredExactlyWhen(lm: Lm, cfg: Config, u: Setup, events: seq<Event>, id: Id)
    requires Alive(Serve(lm, cfg, Init(u), events), id)
    ensures var s := Serve(lm, cfg, Init(u), events);
      Covers(s.m, s.seqs[id]) <==> !LostCover(lm, cfg, Init(u), events, id)
  {
    hide StateInv, Next, LosesCover, Covers, Init;
    InitHolds(lm, cfg, u);
    if events == [] {
      NobodyAlive(u, id);
    } else {
      var past := events[..|events| - 1];
      var before, e := Serve(lm, cfg, Init(u), past), events[|events| - 1];
      ServeKeeps(lm, cfg, Init(u), past);
      StepCovers(lm, cfg, before, e, id);
      if Alive(before, id) {
        CoveredExactlyWhen(lm, cfg, u, past, id);
      } else if LostCover(lm, cfg, Init(u), past, id) {
        LostHasLeft(lm, cfg, Init(u), past, id);
      }
    }
  }

  lemma NobodyAlive(u: Setup, id: Id)
    ensures !Alive(Init(u), id)
  {
  }
}
