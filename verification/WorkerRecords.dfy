// Each thing the worker does to one record keeps the core invariant.
module WorkerRecords {
  import opened Common
  import opened KvCache
  import opened LanguageModel
  import opened Engines
  import opened Generation
  import opened Sequences
  import opened BlockPool
  import opened PrefixCache
  import opened PrefixLaws
  import opened PrefixOps
  import opened Scheduler
  import opened Lifecycle
  import opened WorkerCore

  ghost predicate SameOthers(waiting: seq<Id>, waiting': seq<Id>, id: Id) {
    forall j :: j != id ==> (j in waiting' <==> j in waiting)
  }

  // ---- Ending ----

  ghost predicate CanEnd(lm: Lm, q: Sequence, status: Status) {
    && q.req.maxTokens >= 1 && Terminal(status)
    && q.releases == 0 && q.signals == 0 && q.pushed == Tokens(q.output)
    && (q.output == [] || Greedy(lm, q.req, q.output))
    && (status.Finished? ==>
      && q.result.Some? && q.result.value.output == q.output && Completion(lm, q.req, q.result.value))
    && (!status.Finished? ==> q.result.None?)
  }

  lemma EndedRecord(lm: Lm, cfg: Config, m: Memory, q: Sequence, status: Status)
    requires CanEnd(lm, q, status)
    ensures var q' := EndAs(cfg, m, q, status).1;
      q'.id == q.id && q'.status == status && Ended(lm, q') && q'.req == q.req
  {
    hide ReleasePrefix, Greedy, Completion, KvOf;
  }

  lemma EndCore(lm: Lm, cfg: Config, m: Memory, waiting: seq<Id>, waiting': seq<Id>, seqs: map<Id, Sequence>,
                q: Sequence, status: Status)
    requires Core(lm, cfg, m, waiting, seqs) && q.id in seqs && !Terminal(seqs[q.id].status)
    requires q.prefixKey == seqs[q.id].prefixKey && Recorded(q) == Recorded(seqs[q.id]) && CanEnd(lm, q, status)
    requires SameOthers(waiting, waiting', q.id) && q.id !in waiting'
    ensures var (m', q') := EndAs(cfg, m, q, status);
      q'.id == q.id && q'.status == status && Core(lm, cfg, m', waiting', seqs[q.id := q'])
  {
    hide Inv, AllMean, RefsOf, Ended, CanEnd, Progress, Untouched, EndAs;
    var (m', q') := EndAs(cfg, m, q, status);
    assert SeqOk(lm, cfg, m, q.id in waiting, seqs[q.id]);
    assert q.id in m.pool.alloc <==> Owning(waiting, seqs, q.id);
    if q.prefixKey.Some? {
      LiveKeyResolves(lm, cfg, m, waiting, seqs, q.id);
    }
    EndKeeps(lm, cfg, m, q, status);
    EndedRecord(lm, cfg, m, q, status);
    CanEndIsTerminal(lm, q, status);
    CoreUpdate(lm, cfg, m, m', waiting, waiting', seqs, q');
  }

  lemma CanEndIsTerminal(lm: Lm, q: Sequence, status: Status)
    requires CanEnd(lm, q, status)
    ensures Terminal(status) && q.req.maxTokens >= 1
  {
  }

  // Any live record can be aborted or failed.
  lemma LiveCanEnd(lm: Lm, cfg: Config, m: Memory, queued: bool, q: Sequence, status: Status)
    requires SeqOk(lm, cfg, m, queued, q) && !Terminal(q.status) && (status.Aborted? || status.Errored?)
    ensures CanEnd(lm, q, status)
  {
    assert Tokens([]) == [];
  }

  lemma AbortCore(lm: Lm, cfg: Config, m: Memory, waiting: seq<Id>, waiting': seq<Id>, seqs: map<Id, Sequence>,
                  id: Id, status: Status)
    requires Core(lm, cfg, m, waiting, seqs) && id in seqs && !Terminal(seqs[id].status)
    requires status.Aborted? || status.Errored?
    requires SameOthers(waiting, waiting', id) && id !in waiting'
    ensures var (m', q') := EndAs(cfg, m, seqs[id], status);
      q'.id == id && q'.status == status && Core(lm, cfg, m', waiting', seqs[id := q'])
  {
    hide Inv, AllMean, RefsOf, Ended, CanEnd, Progress, Untouched, EndAs;
    assert SeqOk(lm, cfg, m, id in waiting, seqs[id]);
    LiveCanEnd(lm, cfg, m, id in waiting, seqs[id], status);
    EndCore(lm, cfg, m, waiting, waiting', seqs, seqs[id], status);
  }

  // ---- Admission ----

  lemma AllocateCore(lm: Lm, cfg: Config, m: Memory, waiting: seq<Id>, waiting': seq<Id>, seqs: map<Id, Sequence>,
                     id: Id, now: int)
    requires Core(lm, cfg, m, waiting, seqs) && id in seqs && id in waiting
    requires SameOthers(waiting, waiting', id)
    ensures var t := TryAllocate(cfg, m, seqs[id], now);
      && t.q.id == id && t.q.status.Waiting?
      && (t.ok && id !in waiting' ==> Core(lm, cfg, t.m, waiting', seqs[id := t.q]))
      && (!t.ok && id in waiting' ==> Core(lm, cfg, t.m, waiting', seqs))
  {
    hide Inv, AllMean, RefsOf, TryAllocate;
    var q := seqs[id];
    var t := TryAllocate(cfg, m, q, now);
    assert SeqOk(lm, cfg, m, true, q);
    assert id in m.pool.alloc <==> Owning(waiting, seqs, id);
    TryAllocateKeeps(lm, cfg, m, q, now);
    if t.ok && id !in waiting' {
      CoreUpdate(lm, cfg, m, t.m, waiting, waiting', seqs, t.q);
    }
    if !t.ok && id in waiting' {
      CoreUpdate(lm, cfg, m, t.m, waiting, waiting', seqs, q);
      assert seqs[id := q] == seqs;
    }
  }

  // ---- Prefill ----

  lemma NotedRecord(lm: Lm, cfg: Config, m: Memory, q: Sequence, token: Token, kv: Cache)
    requires Admitted(lm, cfg, m, q) && q.pushed == Tokens(q.output) && q.result.None? && q.releases == 0
    requires q.signals == 0
    requires q.reason.None? && |q.output| < q.req.maxTokens
    requires forall i :: 0 <= i < |q.output| ==> q.output[i] !in q.req.stop
    requires Greedy(lm, q.req, q.output + [token]) && kv == KvOf(lm, q.req.prompt + q.output)
    ensures var q' := NoteToken(q, token).(kv := Some(kv));
      Progress(lm, q') && Admitted(lm, cfg, m, q') && q'.id == q.id && q'.req == q.req && q'.status == q.status
  {
    hide Greedy, KvOf, LogitsOf;
    var q' := NoteToken(q, token).(kv := Some(kv));
    assert q'.output[..|q'.output| - 1] == q.output;
    assert Tokens(q'.output) == Tokens(q.output) + [Push(token)];
  }

  lemma PrefillCore(lm: Lm, cfg: Config, m: Memory, waiting: seq<Id>, seqs: map<Id, Sequence>,
                    id: Id, now: int, fails: bool)
    requires Core(lm, cfg, m, waiting, seqs) && id in seqs && id !in waiting && seqs[id].status.Waiting?
    ensures var p := PrefillWithReuse(lm, cfg, m, seqs[id].(status := Prefilling), now, fails);
      && p.q.id == id && SameProgress(seqs[id].(status := Prefilling), p.q) && Admitted(lm, cfg, p.m, p.q)
      && Core(lm, cfg, p.m, waiting, seqs[id := p.q.(status := Waiting)])
      && (p.out.Ok? ==> p.q.req.prompt != [] && p.out.value == Recompute(lm, p.q.req.prompt))
  {
    hide Inv, AllMean, RefsOf, PrefillWithReuse, KvOf, LogitsOf, Core, Moved, Progress, Ended, Queued;
    var q := seqs[id].(status := Prefilling);
    CoreAt(lm, cfg, m, waiting, seqs, id);
    PrefillKeeps(lm, cfg, m, q, now, fails);
    var p := PrefillWithReuse(lm, cfg, m, q, now, fails);
    BudgetedOwns(p.m, p.q);
    CoreUpdate(lm, cfg, m, p.m, waiting, waiting, seqs, p.q.(status := Waiting));
  }

  lemma BudgetedOwns(m: Memory, q: Sequence)
    requires Budgeted(m, q)
    ensures q.id in m.pool.alloc
  {
  }

  // The record a successful prefill and its first token leave behind.
  lemma SampledCore(lm: Lm, cfg: Config, m: Memory, waiting: seq<Id>, seqs: map<Id, Sequence>,
                    id: Id, now: int, fails: bool)
    requires Core(lm, cfg, m, waiting, seqs) && id in seqs && id !in waiting && seqs[id].status.Waiting?
    requires PrefillWithReuse(lm, cfg, m, seqs[id].(status := Prefilling), now, fails).out.Ok?
    ensures var p := PrefillWithReuse(lm, cfg, m, seqs[id].(status := Prefilling), now, fails);
      var q' := NoteToken(p.q, Argmax(p.out.value.logits)).(kv := Some(p.out.value.cache));
      && q'.id == id && q'.status.Prefilling? && Core(lm, cfg, p.m, waiting, seqs[id := q'])
  {
    hide Inv, AllMean, RefsOf, PrefillWithReuse, KvOf, LogitsOf, Progress, Greedy;
    PrefillCore(lm, cfg, m, waiting, seqs, id, now, fails);
    var p := PrefillWithReuse(lm, cfg, m, seqs[id].(status := Prefilling), now, fails);
    var token := Argmax(p.out.value.logits);
    var q' := NoteToken(p.q, token).(kv := Some(p.out.value.cache));
    assert SeqOk(lm, cfg, m, false, seqs[id]);
    PrefillStep(lm, p.q.req);
    assert p.q.output + [token] == [token] && p.q.req.prompt + p.q.output == p.q.req.prompt;
    assert p.q.pushed == Tokens(p.q.output);
    NotedRecord(lm, cfg, p.m, p.q, token, p.out.value.cache);
    var seqs1 := seqs[id := p.q.(status := Waiting)];
    Still(lm, p.m, id);
    assert id in p.m.pool.alloc <==> Owning(waiting, seqs1, id);
    CoreUpdate(lm, cfg, p.m, p.m, waiting, waiting, seqs1, q');
    assert seqs1[id := q'] == seqs[id := q'];
  }

  lemma PrefillFailsCore(lm: Lm, cfg: Config, m: Memory, waiting: seq<Id>, seqs: map<Id, Sequence>,
                         id: Id, now: int, fails: bool)
    requires Core(lm, cfg, m, waiting, seqs) && id in seqs && id !in waiting && seqs[id].status.Waiting?
    ensures var p := PrefillWithReuse(lm, cfg, m, seqs[id].(status := Prefilling), now, fails);
      var (m', q') := FailOne(cfg, p.m, p.q);
      && q'.id == id && q'.status.Errored? && Core(lm, cfg, m', waiting, seqs[id := q'])
  {
    hide Inv, AllMean, RefsOf, PrefillWithReuse, KvOf, LogitsOf, Progress, Greedy, Core;
    PrefillCore(lm, cfg, m, waiting, seqs, id, now, fails);
    var p := PrefillWithReuse(lm, cfg, m, seqs[id].(status := Prefilling), now, fails);
    var seqs1 := seqs[id := p.q.(status := Waiting)];
    AbortCore(lm, cfg, p.m, waiting, waiting, seqs1, id, Errored);
    assert FailOne(cfg, p.m, p.q) == EndAs(cfg, p.m, seqs1[id], Errored);
    assert seqs1[id := FailOne(cfg, p.m, p.q).1] == seqs[id := FailOne(cfg, p.m, p.q).1];
  }

  lemma FinishCore(lm: Lm, cfg: Config, m: Memory, waiting: seq<Id>, seqs: map<Id, Sequence>, q: Sequence)
    requires Core(lm, cfg, m, waiting, seqs) && q.id in seqs && q.id !in waiting && !Terminal(seqs[q.id].status)
    requires q.prefixKey == seqs[q.id].prefixKey && Recorded(q) == Recorded(seqs[q.id])
    requires q.req.maxTokens >= 1 && Progress(lm, q) && q.reason.Some?
    ensures var (m', q') := FinishSequence(cfg, m, q);
      && q'.id == q.id && q'.status.Finished? && Core(lm, cfg, m', waiting, seqs[q.id := q'])
  {
    hide Inv, AllMean, RefsOf, KvOf, LogitsOf, Greedy, EndAs, Core;
    EndCore(lm, cfg, m, waiting, waiting, seqs, q.(result := Some(Generation(q.output, q.reason.value))), Finished);
  }

  // Not finished by its first token: the sequence joins the decode batch.
  lemma JoinCore(lm: Lm, cfg: Config, m: Memory, waiting: seq<Id>, seqs: map<Id, Sequence>, id: Id)
    requires Core(lm, cfg, m, waiting, seqs) && id in seqs && seqs[id].status.Prefilling? && seqs[id].reason.None?
    ensures Core(lm, cfg, m, waiting, seqs[id := seqs[id].(status := Decoding)])
  {
    hide Inv, AllMean, RefsOf, KvOf, LogitsOf, Greedy, Core;
    CoreAt(lm, cfg, m, waiting, seqs, id);
    Still(lm, m, id);
    CoreUpdate(lm, cfg, m, m, waiting, waiting, seqs, seqs[id].(status := Decoding));
  }

  // ---- Decode ----

  // The results a decode batch holds for a sequence that is still decoding.
  ghost predicate RowTrue(lm: Lm, q: Sequence, logits: Logits, kv: Cache) {
    && q.kv.Some? && q.lastToken.Some?
    && Shaped(lm, q.kv.value, SeqLen(q.kv.value))
    && Output(logits, kv) == Decode(lm, q.lastToken.value, q.kv.value)
  }

  lemma RowRecord(lm: Lm, cfg: Config, m: Memory, q: Sequence, logits: Logits, kv: Cache)
    requires SeqOk(lm, cfg, m, false, q) && q.status.Decoding? && RowTrue(lm, q, logits, kv)
    ensures var q' := NoteToken(q, Argmax(logits)).(kv := Some(kv));
      Progress(lm, q') && Admitted(lm, cfg, m, q') && q'.id == q.id && q'.req == q.req && q'.status.Decoding?
  {
    hide Run, KvOf, LogitsOf, Forward, Greedy, Decode;
    GreedyHasPrompt(lm, q.req, q.output);
    DecodeStep(lm, q.req, q.output, q.kv.value);
    NotedRecord(lm, cfg, m, q, Argmax(logits), kv);
  }

  lemma GreedyHasPrompt(lm: Lm, q: Request, out: seq<Token>)
    requires Greedy(lm, q, out)
    ensures q.prompt != []
  {
  }

  lemma RowCore(lm: Lm, cfg: Config, m: Memory, waiting: seq<Id>, seqs: map<Id, Sequence>, id: Id, logits: Logits,
          kv: Cache)
    requires Core(lm, cfg, m, waiting, seqs) && id in seqs && seqs[id].status.Decoding?
    requires RowTrue(lm, seqs[id], logits, kv)
    ensures var noted := NoteToken(seqs[id], Argmax(logits)).(kv := Some(kv));
      var (m', q') := if noted.reason.Some? then FinishSequence(cfg, m, noted) else (m, noted);
      && q'.id == id && (q'.status.Finished? || q'.status.Decoding?) && Core(lm, cfg, m', waiting, seqs[id := q'])
  {
    hide Inv, AllMean, RefsOf, KvOf, LogitsOf, Greedy, Run, RowTrue, FinishSequence;
    var q := seqs[id];
    assert SeqOk(lm, cfg, m, id in waiting, q);
    assert id in m.pool.alloc <==> Owning(waiting, seqs, id);
    RowRecord(lm, cfg, m, q, logits, kv);
    var noted := NoteToken(q, Argmax(logits)).(kv := Some(kv));
    if noted.reason.Some? {
      FinishCore(lm, cfg, m, waiting, seqs, noted);
    } else {
      Still(lm, m, id);
      CoreUpdate(lm, cfg, m, m, waiting, waiting, seqs, noted);
    }
  }
}
