// Under memory_fit a waiter that would be admitted into an empty batch can be overtaken any number
// of times: the batch is never empty, and what comes after it is small enough to fit beside.
module Overtaking {
  import opened Common
  import opened KvCache
  import opened LanguageModel
  import opened Engines
  import opened Generation
  import opened Sequences
  import opened BlockPool
  import opened PrefixCache
  import opened Scheduler
  import opened Lifecycle
  import opened EmptyBatch
  import opened Worker
  import opened WorkerCore
  import opened WorkerInvariant
  import opened WorkerAdmits
  import opened WorkerSteps
  import opened WorkerRuns
  import opened FailingRuns

  // Two blocks; a long request takes one, and so does a short one, but a wide one takes both.
  function TwoBlocks(size: Pos): Setup {
    Setup(2, size, 1, 1, 1)
  }

  function Long(size: Pos): Request {
    Request([7], size - 1, {})
  }

  function Wide(size: Pos): Request {
    Request(Sevens(size), 1, {})
  }

  function Short(): Request {
    Request([7], 1, {})
  }

  lemma BlocksOfThese(size: Pos)
    requires size >= 2
    ensures BlocksNeeded(size, 2) == 1 && BlocksNeeded(size, size) == 1 && BlocksNeeded(size, size + 1) == 2
  {
    BlocksLeast(size, 2, 1);
    BlocksLeast(size, size, 1);
    BlocksLeast(size, size + 1, 1);
    BlocksLeast(size, size + 1, 2);
  }

  // The long one runs and has more than `left` tokens to go, the wide one waits, one block is free.
  ghost predicate Blocking(s: State, size: Pos, left: nat) {
    && s.running == [0] && s.waiting == [1] && !s.stop && 0 in s.seqs && 1 in s.seqs
    && s.seqs[0].id == 0 && s.seqs[0].status.Decoding? && !s.seqs[0].abortRequested && s.seqs[0].req == Long(size)
    && |s.seqs[0].output| + left < size - 1
    && s.seqs[1] == NewSequence(1, Wide(size))
    && s.m.pool.numBlocks == 2 && s.m.pool.blockSize == size && |s.m.pool.free| == 1
  }

  // ---- One decode step of the long one ----

  lemma StepsTo(lm: Lm, cfg: Config, s: State) returns (s': State)
    requires Reachable(lm, cfg, s)
    ensures s' == Next(lm, cfg, s, WORK) && Reachable(lm, cfg, s')
  {
    ReachableNext(lm, cfg, s, WORK);
    s' := Next(lm, cfg, s, WORK);
  }

  lemma CollectsIt(lm: Lm, cfg: Config, s: State, size: Pos, left: nat) returns (s': State)
    requires Reachable(lm, cfg, s) && Blocking(s, size, left) && s.pc == Prefills([])
    ensures Reachable(lm, cfg, s') && s' == s.(pc := Collecting([], [0]))
  {
    hide Reachable, CoreOf, Lists, AbortId, Admit;
    hide FinishSequence, AbortLeftovers, PrefillWithReuse, DecodeLive, NoteToken;
    var a := StepsTo(lm, cfg, s);
    assert a == s.(pc := Sweeping([0]));
    var b := StepsTo(lm, cfg, a);
    assert [0][1..] == [] && b == s.(pc := Sweeping([]));
    var c := StepsTo(lm, cfg, b);
    assert c == s.(pc := Collecting([0], []));
    DecodingHasToken(lm, cfg, c);
    s' := StepsTo(lm, cfg, c);
    assert [] + [0] == [0];
  }

  lemma DecodingHasToken(lm: Lm, cfg: Config, s: State)
    requires Reachable(lm, cfg, s) && 0 in s.seqs && s.seqs[0].status.Decoding?
    ensures s.seqs[0].lastToken.Some? && s.seqs[0].reason.None?
  {
    hide Reachable, Core, Lists, Shape;
    ReachableHolds(lm, cfg, s);
    CoreAt(lm, cfg, s.m, s.waiting, s.seqs, 0);
  }

  lemma DecodesIt(lm: Lm, cfg: Config, s: State, size: Pos, left: nat) returns (s': State)
    requires Reachable(lm, cfg, s) && Blocking(s, size, left + 1) && s.pc == Collecting([], [0])
    ensures Reachable(lm, cfg, s') && s'.pc == Settling([0], []) && Blocking(s', size, left)
    ensures s' == s.(seqs := s.seqs[0 := s'.seqs[0]], pc := s'.pc)
  {
    hide Reachable, CoreOf, Lists, DecodeLive, NoteToken;
    hide AbortId, Admit, FinishSequence, AbortLeftovers, PrefillWithReuse;
    ReachableHolds(lm, cfg, s);
    DecodeLiveTrue(lm, cfg, s, [0]);
    DecodingHasToken(lm, cfg, s);
    var out := DecodeLive(lm, s, [0]).value;
    var a := StepsTo(lm, cfg, s);
    assert a == s.(pc := Rows([0], 0, out));
    NotesOn(s.seqs[0], Argmax(out.logits[0]), out.caches[0]);
    var b := StepsTo(lm, cfg, a);
    s' := StepsTo(lm, cfg, b);
  }

  // A token that is not the last allowed leaves the record as it is otherwise.
  lemma NotesOn(q: Sequence, token: Token, kv: Cache)
    requires q.req.stop == {} && q.reason.None? && |q.output| + 1 < q.req.maxTokens
    ensures var q' := NoteToken(q, token).(kv := Some(kv));
      && q'.id == q.id && q'.req == q.req && q'.status == q.status && q'.abortRequested == q.abortRequested
      && |q'.output| == |q.output| + 1 && q'.reason.None?
  {
  }

  lemma DecodeRound(lm: Lm, cfg: Config, s: State, size: Pos, left: nat) returns (s': State)
    requires Reachable(lm, cfg, s) && Blocking(s, size, left + 1) && s.pc == Prefills([])
    ensures Reachable(lm, cfg, s') && s'.pc == Top && Blocking(s', size, left)
    ensures s' == s.(seqs := s.seqs[0 := s'.seqs[0]], pc := Top)
  {
    hide Reachable, AbortId, Admit, FinishSequence, AbortLeftovers, PrefillWithReuse, DecodeLive, NoteToken;
    var a := CollectsIt(lm, cfg, s, size, left + 1);
    var b := DecodesIt(lm, cfg, a, size, left);
    var c := StepsTo(lm, cfg, b);
    assert [0][1..] == [] && [] + [0] == [0] && c == b.(pc := Settling([], [0]));
    s' := StepsTo(lm, cfg, c);
  }

  // ---- A short one comes and goes ----

  // Without the prefix cache an attempt takes what the whole reservation needs.
  lemma PlainAttempt(cfg: Config, m: Memory, q: Sequence, now: int)
    requires !cfg.prefixOn
    ensures Fits(cfg, m, q) <==> BlocksNeeded(m.pool.blockSize, ReservationTokens(q)) <= |m.pool.free|
    ensures Fits(cfg, m, q) ==> TryAllocate(cfg, m, q, now) == MissTaken(m, q)
  {
    hide BlocksNeeded;
  }

  // It is admitted past the wide one, and nobody else is.
  lemma AdmitsShort(cfg: Config, s: State, size: Pos, left: nat, id: Id, room: nat) returns (s': State)
    requires !cfg.prefixOn && cfg.memoryFit && room > 0 && size >= 2
    requires Blocking(s.(waiting := [1]), size, left) && s.waiting == [1, id] && id in s.seqs
    requires s.seqs[id] == NewSequence(id, Short())
    ensures Admit(cfg, s, room, 0) == (s', [id])
    ensures s'.waiting == [1] && s'.running == s.running && s'.stop == s.stop && s'.submitted == s.submitted
    ensures s'.m.cache == s.m.cache && s'.m.pool.numBlocks == 2 && s'.m.pool.blockSize == size && s'.m.pool.free == []
    ensures id in s'.m.pool.alloc && |s'.m.pool.alloc[id]| == 1
    ensures id in s'.seqs && s'.seqs == s.seqs[id := s'.seqs[id]]
    ensures var q := s'.seqs[id];
      q == NewSequence(id, Short()).(blockIds := q.blockIds, ownedBlockIds := q.ownedBlockIds)
  {
    hide BlocksNeeded, Admit, Fits, TryAllocate;
    BlocksOfThese(size);
    PlainAttempt(cfg, s.m, Get(s, 1), 0);
    PlainAttempt(cfg, s.m, Get(s, id), 0);
    SecondIsCandidate(cfg, s);
    RoundUnfolds(cfg, s, 1, room, 0);
    RoundQueue(cfg, s, 1, 0);
    s' := Taken(cfg, s, 1, 0);
    assert Rest(s.waiting, 1) == [1];
    PlainAttempt(cfg, s'.m, Get(s', 1), 0);
    NobodyCandidate(cfg, s');
    AdmitNone(cfg, s', room - 1, 0);
    assert [id] + [] == [id];
  }

  lemma SecondIsCandidate(cfg: Config, s: State)
    requires cfg.memoryFit && |s.waiting| == 2
    requires !Fits(cfg, s.m, Get(s, s.waiting[0])) && Fits(cfg, s.m, Get(s, s.waiting[1]))
    ensures Candidate(cfg, s, 0) == 1
  {
    hide Fits;
  }

  lemma NobodyCandidate(cfg: Config, s: State)
    requires cfg.memoryFit && |s.waiting| == 1 && !Fits(cfg, s.m, Get(s, s.waiting[0]))
    ensures Candidate(cfg, s, 0) == 1
  {
    hide Fits;
  }

  // Prefill without the prefix cache, for a prompt that is not empty.
  lemma PlainPrefill(lm: Lm, cfg: Config, m: Memory, q: Sequence, now: int)
    requires !cfg.prefixOn && q.prefixTokens == 0 && q.req.prompt != []
    ensures PrefillWithReuse(lm, cfg, m, q, now, false) == Prefilled(m, q, Ok(Recompute(lm, q.req.prompt)))
  {
    hide KvOf, LogitsOf, Prefill;
    PrefillRecomputes(lm, q.req.prompt);
  }

  lemma PlainFinish(cfg: Config, m: Memory, q: Sequence)
    requires !cfg.prefixOn && q.id in m.pool.alloc
    ensures var (m', q') := FinishSequence(cfg, m, q);
      && q'.id == q.id && q'.status.Finished? && m'.cache == m.cache
      && m'.pool.numBlocks == m.pool.numBlocks && m'.pool.blockSize == m.pool.blockSize
      && |m'.pool.free| == |m.pool.free| + |m.pool.alloc[q.id]|
  {
  }

  lemma AdmittedBeside(lm: Lm, cfg: Config, s: State, size: Pos, left: nat, id: Id) returns (s': State)
    requires !cfg.prefixOn && cfg.memoryFit && cfg.maxBatch >= 2 && cfg.maxWaiting >= 2 && size >= 2
    requires Reachable(lm, cfg, s) && Blocking(s, size, left) && s.pc == Top && id !in s.seqs
    ensures Reachable(lm, cfg, s') && s'.pc == Prefills([id]) && s'.waiting == [1] && s'.running == [0] && !s'.stop
    ensures s'.submitted == s.submitted + [id] && id in s'.seqs && s'.seqs == s.seqs[id := s'.seqs[id]]
    ensures s'.m.pool.numBlocks == 2 && s'.m.pool.blockSize == size && s'.m.pool.free == []
    ensures id in s'.m.pool.alloc && |s'.m.pool.alloc[id]| == 1
    ensures var q := s'.seqs[id];
      q == NewSequence(id, Short()).(blockIds := q.blockIds, ownedBlockIds := q.ownedBlockIds)
  {
    hide Reachable, Admit, BlocksNeeded, AbortId;
    hide FinishSequence, AbortLeftovers, PrefillWithReuse, DecodeLive, NoteToken;
    BlocksOfThese(size);
    SubmitAccepted(lm, cfg, s, id, Short());
    var a := Next(lm, cfg, s, Submit(id, Short()));
    ReachableNext(lm, cfg, s, Submit(id, Short()));
    assert [1] + [id] == [1, id];
    var b := StepsTo(lm, cfg, a);
    assert b == a.(pc := Dropping([0], []));
    var c := StepsTo(lm, cfg, b);
    assert [0][1..] == [] && [] + [0] == [0] && c == b.(pc := Dropping([], [0]));
    var kept := c.(running := [0]);
    var taken := AdmitsShort(cfg, kept, size, left, id, cfg.maxBatch - 1);
    s' := StepsTo(lm, cfg, c);
    assert s' == taken.(pc := Prefills([id]));
  }

  lemma ServesShort(lm: Lm, cfg: Config, s: State, size: Pos, left: nat, id: Id) returns (s': State)
    requires !cfg.prefixOn && cfg.memoryFit && cfg.maxBatch >= 2 && cfg.maxWaiting >= 2 && size >= 2
    requires Reachable(lm, cfg, s) && Blocking(s, size, left) && s.pc == Top && id !in s.seqs
    ensures Reachable(lm, cfg, s') && s'.pc == Prefills([]) && Blocking(s', size, left)
    ensures s'.submitted == s.submitted + [id] && id in s'.seqs && s'.seqs == s.seqs[id := s'.seqs[id]]
    ensures s'.seqs[id].status.Finished?
  {
    hide Reachable, PrefillWithReuse, FinishSequence, KvOf, LogitsOf, AbortId, Admit, AbortLeftovers, DecodeLive;
    var a := AdmittedBeside(lm, cfg, s, size, left, id);
    var b := StepsTo(lm, cfg, a);
    assert [id][1..] == [] && b == a.(pc := InPrefill(id, []));
    var q := b.seqs[id].(status := Prefilling);
    PlainPrefill(lm, cfg, b.m, q, 0);
    var out := Recompute(lm, q.req.prompt);
    var noted := NoteToken(q, Argmax(out.logits)).(kv := Some(out.cache));
    var c := StepsTo(lm, cfg, b);
    assert c == Put(b, (b.m, noted)).(pc := Sampled(id, []));
    PlainFinish(cfg, c.m, noted);
    s' := StepsTo(lm, cfg, c);
    assert s' == Put(c, FinishSequence(cfg, c.m, noted)).(pc := Prefills([]));
  }

  // ---- The long one starts, and the wide one waits ----

  lemma BothWait(lm: Lm, cfg: Config, size: Pos) returns (s: State)
    requires cfg.maxWaiting >= 2 && size >= 2
    ensures Reachable(lm, cfg, s) && s.pc == Dropping([], []) && s.running == [] && s.waiting == [0, 1] && !s.stop
    ensures s.seqs == map[0 := NewSequence(0, Long(size)), 1 := NewSequence(1, Wide(size))]
    ensures s.m == Init(TwoBlocks(size)).m && s.submitted == [0, 1]
  {
    hide Reachable, BlocksNeeded, AbortId, Admit, AbortLeftovers, DecodeLive;
    BlocksOfThese(size);
    var a := Init(TwoBlocks(size));
    ReachableStart(lm, cfg, TwoBlocks(size));
    SubmitAccepted(lm, cfg, a, 0, Long(size));
    var b := Next(lm, cfg, a, Submit(0, Long(size)));
    ReachableNext(lm, cfg, a, Submit(0, Long(size)));
    SubmitAccepted(lm, cfg, b, 1, Wide(size));
    var c := Next(lm, cfg, b, Submit(1, Wide(size)));
    ReachableNext(lm, cfg, b, Submit(1, Wide(size)));
    s := StepsTo(lm, cfg, c);
    assert s == c.(pc := Dropping([], []));
  }

  lemma LongAdmitted(lm: Lm, cfg: Config, size: Pos) returns (s: State)
    requires !cfg.prefixOn && cfg.memoryFit && cfg.maxWaiting >= 2 && size >= 2
    ensures Reachable(lm, cfg, s) && s.pc == Prefills([0]) && s.running == [] && s.waiting == [1] && !s.stop
    ensures s.submitted == [0, 1] && s.seqs.Keys == {0, 1} && s.seqs[1] == NewSequence(1, Wide(size))
    ensures var q := s.seqs[0];
      q == NewSequence(0, Long(size)).(blockIds := q.blockIds, ownedBlockIds := q.ownedBlockIds)
    ensures s.m.pool.numBlocks == 2 && s.m.pool.blockSize == size && |s.m.pool.free| == 1
  {
    hide Reachable, Admit, BlocksNeeded, AbortId;
    var a := BothWait(lm, cfg, size);
    var b := AdmitsLong(cfg, a, size);
    assert a.(running := []) == a;
    s := StepsTo(lm, cfg, a);
    assert s == b.(pc := Prefills([0]));
  }

  lemma AdmitsLong(cfg: Config, s: State, size: Pos) returns (s': State)
    requires !cfg.prefixOn && cfg.memoryFit && size >= 2 && s.waiting == [0, 1] && s.m == Init(TwoBlocks(size)).m
    requires s.seqs == map[0 := NewSequence(0, Long(size)), 1 := NewSequence(1, Wide(size))]
    ensures Admit(cfg, s, cfg.maxBatch, 0) == (s', [0])
    ensures 0 in s'.seqs && s' == s.(waiting := [1], m := s'.m, seqs := s.seqs[0 := s'.seqs[0]])
    ensures var q := s'.seqs[0];
      q == NewSequence(0, Long(size)).(blockIds := q.blockIds, ownedBlockIds := q.ownedBlockIds)
    ensures s'.m.pool.numBlocks == 2 && s'.m.pool.blockSize == size && |s'.m.pool.free| == 1
  {
    hide Admit, BlocksNeeded, Fits, TryAllocate;
    BlocksOfThese(size);
    PlainAttempt(cfg, s.m, Get(s, 0), 0);
    RoundUnfolds(cfg, s, 0, cfg.maxBatch, 0);
    RoundQueue(cfg, s, 0, 0);
    s' := Taken(cfg, s, 0, 0);
    assert Rest(s.waiting, 0) == [1];
    PlainAttempt(cfg, s'.m, Get(s', 1), 0);
    NobodyCandidate(cfg, s');
    AdmitNone(cfg, s', cfg.maxBatch - 1, 0);
    assert [0] + [] == [0];
  }

  lemma LongRuns(lm: Lm, cfg: Config, size: Pos, left: nat) returns (s: State)
    requires !cfg.prefixOn && cfg.memoryFit && cfg.maxWaiting >= 2 && left + 3 <= size
    ensures Reachable(lm, cfg, s) && s.pc == Prefills([]) && Blocking(s, size, left)
    ensures s.submitted == [0, 1] && s.seqs.Keys == {0, 1}
  {
    hide Reachable, PrefillWithReuse, KvOf, LogitsOf, AbortId, Admit, AbortLeftovers, DecodeLive;
    var a := LongAdmitted(lm, cfg, size);
    var b := StepsTo(lm, cfg, a);
    assert [0][1..] == [] && b == a.(pc := InPrefill(0, []));
    var q := b.seqs[0].(status := Prefilling);
    PlainPrefill(lm, cfg, b.m, q, 0);
    var out := Recompute(lm, q.req.prompt);
    var noted := NoteToken(q, Argmax(out.logits)).(kv := Some(out.cache));
    NotesOn(q, Argmax(out.logits), out.cache);
    var c := StepsTo(lm, cfg, b);
    assert c == Put(b, (b.m, noted)).(pc := Sampled(0, []));
    s := StepsTo(lm, cfg, c);
  }

  // ---- Any number of times ----

  // Everybody submitted after the wide one has been served.
  ghost predicate LaterServed(s: State, k: nat) {
    && |s.submitted| == k + 2 && s.submitted[..2] == [0, 1]
    && (forall id :: id in s.seqs ==> id < k + 2)
    && forall i :: 2 <= i < k + 2 ==> s.submitted[i] in s.seqs && s.seqs[s.submitted[i]].status.Finished?
  }

  lemma {:induction false} Overtakes(lm: Lm, cfg: Config, size: Pos, left: nat, k: nat) returns (s: State)
    requires !cfg.prefixOn && cfg.memoryFit && cfg.maxBatch >= 2 && cfg.maxWaiting >= 2 && left + k + 4 <= size
    ensures Reachable(lm, cfg, s) && s.pc == Top && Blocking(s, size, left) && LaterServed(s, k)
    decreases k
  {
    hide Reachable;
    if k == 0 {
      var a := LongRuns(lm, cfg, size, left + 1);
      s := DecodeRound(lm, cfg, a, size, left);
    } else {
      var a := Overtakes(lm, cfg, size, left + 1, k - 1);
      var b := ServesShort(lm, cfg, a, size, left + 1, k + 1);
      s := DecodeRound(lm, cfg, b, size, left);
    }
  }

  // However large k: a run in which the second request submitted fits an empty pool whatever is
  // stored, and waits while k requests submitted after it are admitted and finished.
  lemma OvertakenAnyNumberOfTimes(lm: Lm, cfg: Config, k: nat) returns (s: State)
    requires !cfg.prefixOn && cfg.memoryFit && cfg.maxBatch >= 2 && cfg.maxWaiting >= 2
    ensures Reachable(lm, cfg, s) && s.waiting == [1] && 1 in s.seqs && Roomy(cfg, s.m, s.seqs[1].req)
    ensures |s.submitted| == k + 2 && s.submitted[1] == 1
    ensures forall i :: 2 <= i < k + 2 ==> s.submitted[i] in s.seqs && s.seqs[s.submitted[i]].status.Finished?
  {
    hide Reachable;
    s := Overtakes(lm, cfg, k + 4, 0, k);
    BlocksOfThese(k + 4);
    assert s.submitted[..2][1] == 1;
  }
}
