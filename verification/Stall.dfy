// The other side of the drain, under either policy: when the first waiter that fits does not meet
// the exact admission condition, or none fits, an otherwise empty loop never admits anybody.
module Stall {
  import opened Common
  import opened LanguageModel
  import opened Generation
  import opened Sequences
  import opened BlockPool
  import opened PrefixCache
  import opened PrefixLaws
  import opened PrefixOps
  import opened Scheduler
  import opened Worker
  import opened WorkerCore
  import opened WorkerInvariant
  import opened WorkerAdmits
  import opened AdmissionOrder
  import opened WorkerEnvironment
  import opened WorkerRuns
  import opened WorkerHistory
  import opened EmptyBatch

  lemma {:induction false} PeekStable(c: Prefixes, c': Prefixes, ids: Key, n: nat)
    requires SameContents(c.entries, c'.entries) && c'.minTokens == c.minTokens && n <= |ids|
    ensures PeekFrom(c, ids, n).Some? <==> PeekFrom(c', ids, n).Some?
    ensures PeekFrom(c, ids, n).Some? ==> PeekFrom(c, ids, n).value.tokenIds == PeekFrom(c', ids, n).value.tokenIds
  {
    if n >= c.minTokens {
      FindStable(c.entries, c'.entries, ids[..n]);
      if !Has(c, ids[..n]) { PeekStable(c, c', ids, n - 1); }
    }
  }

  // The verdict depends on keys and sizes only, so a failed attempt does not change it.
  lemma VerdictStable(cfg: Config, m: Memory, m': Memory, q: Sequence)
    requires SameContents(m.cache.entries, m'.cache.entries) && SameConfig(m, m')
    ensures AdmitsWhenIdle(cfg, m', q) == AdmitsWhenIdle(cfg, m, q)
  {
    PeekStable(m.cache, m'.cache, q.req.prompt, |q.req.prompt|);
  }

  lemma FitsStable(cfg: Config, m: Memory, m': Memory, q: Sequence)
    requires Idle(m) && Idle(m') && SameContents(m.cache.entries, m'.cache.entries) && SameConfig(m, m')
    ensures Fits(cfg, m', q) == Fits(cfg, m, q)
  {
    PeekStable(m.cache, m'.cache, q.req.prompt, |q.req.prompt|);
    IdleFits(cfg, m, q);
    IdleFits(cfg, m', q);
  }

  // ---- An empty loop that admits nobody ----

  // No waiter fits, or the first that does cannot be allocated.
  ghost predicate Barred(cfg: Config, s: State) {
    var c := Candidate(cfg, s, 0);
    c == |s.waiting| || !AdmitsWhenIdle(cfg, s.m, Get(s, s.waiting[c]))
  }

  ghost predicate Stuck(cfg: Config, s: State) {
    && !s.stop && s.running == [] && s.waiting != [] && Barred(cfg, s)
    && (s.pc == Top || s.pc == Dropping([], []) || s.pc == Prefills([]))
  }

  // Somebody in front keeps the others from being looked at: under memory_fit a waiter that fits,
  // first come, first served the head whether or not it fits.
  ghost predicate Headed(cfg: Config, s: State) {
    cfg.memoryFit ==> Candidate(cfg, s, 0) < |s.waiting|
  }

  // Records change in nothing but their abort flags, and nobody leaves the queue or has come and
  // gone; first come, first served the old queue stays in front.
  ghost predicate Unserved(cfg: Config, s: State, s': State) {
    && s'.running == s.running
    && (forall id :: id in s.seqs ==>
      id in s'.seqs && s'.seqs[id] == s.seqs[id].(abortRequested := s'.seqs[id].abortRequested))
    && (forall id :: id in s'.seqs && id !in s.seqs ==> id in s'.waiting)
    && (forall id :: id in s.waiting ==> id in s'.waiting)
    && (!cfg.memoryFit ==> s.waiting <= s'.waiting)
  }

  lemma BarredAdmits(cfg: Config, s: State, now: int)
    requires Idle(s.m) && Barred(cfg, s)
    ensures var c := Candidate(cfg, s, 0);
      Admit(cfg, s, cfg.maxBatch, now) == (if c == |s.waiting| then s else PutBack(cfg, s, c, now), [])
  {
    hide TryAllocate, Fits, AdmitsWhenIdle, Admit, PutBack, Taken, Idle;
    var c := Candidate(cfg, s, 0);
    if c == |s.waiting| {
      AdmitNone(cfg, s, cfg.maxBatch, now);
    } else {
      IdleAdmission(cfg, s.m, Get(s, s.waiting[c]), now);
      RoundUnfolds(cfg, s, c, cfg.maxBatch, now);
    }
  }

  // The waiter put back in front is the first that fits again, and fails again.
  lemma StillBarred(cfg: Config, s: State, c: nat, now: int)
    requires Idle(s.m) && Barred(cfg, s) && c == Candidate(cfg, s, 0) < |s.waiting|
    requires Idle(PutBack(cfg, s, c, now).m)
    ensures Barred(cfg, PutBack(cfg, s, c, now)) && Headed(cfg, PutBack(cfg, s, c, now))
  {
    hide TryAllocate, Fits, AdmitsWhenIdle, Idle, SameContents, SameConfig;
    var s', q := PutBack(cfg, s, c, now), Get(s, s.waiting[c]);
    RoundQueue(cfg, s, c, now);
    AttemptContents(cfg, s.m, q, now);
    TryAllocateSizes(cfg, s.m, q, now);
    FitsStable(cfg, s.m, s'.m, q);
    VerdictStable(cfg, s.m, s'.m, q);
    assert Get(s', s'.waiting[0]) == q;
  }

  lemma PutBackUnserved(cfg: Config, s: State, c: nat, now: int)
    requires c == Candidate(cfg, s, 0) < |s.waiting|
    ensures Unserved(cfg, s, PutBack(cfg, s, c, now))
    ensures PutBack(cfg, s, c, now).pc == s.pc && PutBack(cfg, s, c, now).stop == s.stop
  {
    hide TryAllocate, Fits;
    RoundQueue(cfg, s, c, now);
    forall id | id in s.waiting ensures id in [s.waiting[c]] + Rest(s.waiting, c) {
      assert id in s.waiting[..c] + [s.waiting[c]] + s.waiting[c + 1..];
    }
    assert !cfg.memoryFit ==> [s.waiting[c]] + Rest(s.waiting, c) == s.waiting;
  }

  lemma RefusesAll(lm: Lm, cfg: Config, s: State, now: int)
    requires CoreOf(lm, cfg, s) && Lists(cfg, s, []) && Stuck(cfg, s)
    ensures var (s', admitted) := Admit(cfg, s, cfg.maxBatch, now);
      && admitted == [] && Unserved(cfg, s, s') && Barred(cfg, s') && (Headed(cfg, s) ==> Headed(cfg, s'))
      && s'.waiting != []
      && s'.pc == s.pc && s'.stop == s.stop
  {
    hide Core, TryAllocate, Fits, AdmitsWhenIdle, Barred, Headed, PutBack, Admit, Unserved;
    var c := Candidate(cfg, s, 0);
    QuietMemory(lm, cfg, s);
    BarredAdmits(cfg, s, now);
    if c == |s.waiting| {
      UnservedSelf(cfg, s);
    } else {
      AdmitKeeps(lm, cfg, s, [], cfg.maxBatch, now);
      var s' := PutBack(cfg, s, c, now);
      assert Admit(cfg, s, cfg.maxBatch, now) == (s', []) && [] + Admit(cfg, s, cfg.maxBatch, now).1 == [];
      QuietMemory(lm, cfg, s');
      StillBarred(cfg, s, c, now);
      PutBackUnserved(cfg, s, c, now);
      RoundQueue(cfg, s, c, now);
    }
  }

  lemma UnservedSelf(cfg: Config, s: State)
    ensures Unserved(cfg, s, s)
  {
  }

  lemma UnservedThen(cfg: Config, a: State, b: State, c: State)
    requires Unserved(cfg, a, b) && Unserved(cfg, b, c)
    ensures Unserved(cfg, a, c)
  {
  }

  lemma StuckStays(lm: Lm, cfg: Config, s: State, now: int, fails: bool, sampleFails: bool)
    requires StateInv(lm, cfg, s) && Stuck(cfg, s)
    ensures var s' := WorkStep(lm, cfg, s, now, fails, sampleFails);
      Stuck(cfg, s') && Unserved(cfg, s, s') && (Headed(cfg, s) ==> Headed(cfg, s'))
  {
    hide StateInv, CoreOf, Lists, Shape, Admit, AdmitsWhenIdle, Unserved, Fits;
    Parts(lm, cfg, s);
    if s.pc.Dropping? {
      assert [] + s.pc.todo == [];
      RefusesAll(lm, cfg, s, now);
      assert s.(running := []) == s;
      BarredPc(cfg, Admit(cfg, s, cfg.maxBatch, now).0, Prefills([]));
      UnservedPc(cfg, s, Admit(cfg, s, cfg.maxBatch, now).0, Prefills([]));
    } else {
      UnservedSelf(cfg, s);
      BarredPc(cfg, s, if s.pc == Top then Dropping([], []) else Top);
      UnservedPc(cfg, s, s, if s.pc == Top then Dropping([], []) else Top);
    }
  }

  lemma {:induction false} CandidatePc(cfg: Config, s: State, pc: Pc, i: nat)
    requires i <= |s.waiting|
    ensures Candidate(cfg, s.(pc := pc), i) == Candidate(cfg, s, i)
    decreases |s.waiting| - i
  {
    hide Fits;
    if i < |s.waiting| { CandidatePc(cfg, s, pc, i + 1); }
  }

  lemma BarredPc(cfg: Config, s: State, pc: Pc)
    ensures Barred(cfg, s.(pc := pc)) == Barred(cfg, s) && Headed(cfg, s.(pc := pc)) == Headed(cfg, s)
  {
    hide Candidate, AdmitsWhenIdle;
    CandidatePc(cfg, s, pc, 0);
  }

  lemma UnservedPc(cfg: Config, s: State, s': State, pc: Pc)
    requires Unserved(cfg, s, s')
    ensures Unserved(cfg, s, s'.(pc := pc))
  {
  }

  // Under either policy an empty batch admits somebody exactly when some waiter fits and the first
  // that does can be allocated; that waiter is then the first admitted.
  lemma EmptyBatchVerdict(lm: Lm, cfg: Config, s: State, now: int)
    requires StateInv(lm, cfg, s) && s.pc == Dropping([], []) && s.running == []
    ensures var todo := StepDropping(cfg, s, now).pc.todo;
      && (todo != [] <==> !Barred(cfg, s))
      && (todo != [] ==> Candidate(cfg, s, 0) < |s.waiting| && todo[0] == s.waiting[Candidate(cfg, s, 0)])
  {
    hide StateInv, CoreOf, Lists, Shape, TryAllocate, Fits, AdmitsWhenIdle, Admit;
    Parts(lm, cfg, s);
    assert [] + s.pc.todo == [];
    QuietMemory(lm, cfg, s);
    var c := Candidate(cfg, s, 0);
    if Barred(cfg, s) {
      BarredAdmits(cfg, s, now);
    } else {
      IdleAdmission(cfg, s.m, Get(s, s.waiting[c]), now);
      RoundUnfolds(cfg, s, c, cfg.maxBatch, now);
    }
    assert s.(running := []) == s;
  }

  // First come, first served the condition speaks of the head alone.
  lemma FcfsVerdict(lm: Lm, cfg: Config, s: State)
    requires StateInv(lm, cfg, s) && !cfg.memoryFit && s.pc == Dropping([], []) && s.running == [] && s.waiting != []
    ensures s.waiting[0] in s.seqs && (Barred(cfg, s) <==> !AdmitsWhenIdle(cfg, s.m, s.seqs[s.waiting[0]]))
  {
    hide StateInv, CoreOf, Lists, Shape, Fits, AdmitsWhenIdle;
    Parts(lm, cfg, s);
    assert [] + s.pc.todo == [];
    Waiters(cfg, s, []);
    QuietMemory(lm, cfg, s);
    HeadIsCandidate(cfg, s);
    VerdictFits(cfg, s.m, s.seqs[s.waiting[0]]);
  }

  lemma VerdictFits(cfg: Config, m: Memory, q: Sequence)
    requires Idle(m)
    ensures AdmitsWhenIdle(cfg, m, q) ==> Fits(cfg, m, q)
  {
    IdleFits(cfg, m, q);
  }

  // ---- Others come, and flags are raised ----

  // Who is looked at first depends on the memory, the queue up to there, and the requests in it.
  lemma CandidateStays(cfg: Config, s: State, s': State)
    requires s'.m == s.m && s.waiting <= s'.waiting && (s'.waiting == s.waiting || (Headed(cfg, s) && s.waiting != []))
    requires forall i :: 0 <= i < |s.waiting| ==> Get(s', s.waiting[i]).req == Get(s, s.waiting[i]).req
    ensures var c := Candidate(cfg, s, 0);
      Candidate(cfg, s', 0) == if c < |s.waiting| then c else |s'.waiting|
  {
    hide Fits, AdmitsWhenIdle;
    var c := Candidate(cfg, s, 0);
    forall i | 0 <= i < |s.waiting|
      ensures Fits(cfg, s'.m, Get(s', s'.waiting[i])) == Fits(cfg, s.m, Get(s, s.waiting[i]))
    {
      FitsByRequest(cfg, s.m, Get(s, s.waiting[i]), Get(s', s.waiting[i]));
    }
    if c < |s.waiting| {
      FirstFitIsCandidate(cfg, s', c);
    }
  }

  lemma BarredStays(cfg: Config, s: State, s': State)
    requires s'.m == s.m && s.waiting <= s'.waiting && (s'.waiting == s.waiting || (Headed(cfg, s) && s.waiting != []))
    requires forall i :: 0 <= i < |s.waiting| ==> Get(s', s.waiting[i]).req == Get(s, s.waiting[i]).req
    requires Barred(cfg, s)
    ensures Barred(cfg, s') && (Headed(cfg, s) ==> Headed(cfg, s'))
  {
    hide Fits, AdmitsWhenIdle;
    CandidateStays(cfg, s, s');
    var c := Candidate(cfg, s, 0);
    if c < |s.waiting| { FitsByRequest(cfg, s.m, Get(s, s.waiting[c]), Get(s', s.waiting[c])); }
  }

  lemma StuckSubmit(cfg: Config, s: State, id: Id, req: Request)
    requires Lists(cfg, s, []) && Stuck(cfg, s) && Headed(cfg, s)
    ensures var s' := StepSubmit(cfg, s, id, req); Stuck(cfg, s') && Unserved(cfg, s, s') && Headed(cfg, s')
  {
    hide NoDup, Barred, Headed, NeedTokens, BlocksNeeded;
    var s' := StepSubmit(cfg, s, id, req);
    if s' != s {
      Waiters(cfg, s, []);
      BarredStays(cfg, s, s');
    }
  }

  lemma StuckFlag(cfg: Config, s: State, id: Id)
    requires Stuck(cfg, s)
    ensures var s' := StepRequestAbort(s, id);
      Stuck(cfg, s') && Unserved(cfg, s, s') && (Headed(cfg, s) ==> Headed(cfg, s'))
  {
    hide Barred, Headed;
    BarredStays(cfg, s, StepRequestAbort(s, id));
  }

  // Worker steps, submissions and abort flags: no stop request, and no administrative abort.
  predicate NobodyIntervenes(events: seq<Event>) {
    forall i :: 0 <= i < |events| ==> events[i].Work? || events[i].Submit? || events[i].RequestAbort?
  }

  lemma StuckNext(lm: Lm, cfg: Config, s: State, e: Event)
    requires StateInv(lm, cfg, s) && Stuck(cfg, s) && (e.Work? || e.RequestAbort? || (e.Submit? && Headed(cfg, s)))
    ensures var s' := Next(lm, cfg, s, e);
      Stuck(cfg, s') && Unserved(cfg, s, s') && (Headed(cfg, s) ==> Headed(cfg, s'))
  {
    hide StateInv, CoreOf, Shape, Lists, WorkStep, Stuck, Unserved, Headed, StepSubmit, StepRequestAbort;
    Parts(lm, cfg, s);
    StuckHands(cfg, s);
    match e {
      case Work(now, fails, sampleFails) => StuckStays(lm, cfg, s, now, fails, sampleFails);
      case Submit(id, req) => StuckSubmit(cfg, s, id, req);
      case RequestAbort(id) => StuckFlag(cfg, s, id);
      case _ =>
    }
  }

  lemma StuckHands(cfg: Config, s: State)
    requires Stuck(cfg, s)
    ensures Hands(s) == []
  {
  }

  // However long the worker runs, whoever comes and whatever is flagged, nobody is ever admitted.
  // Only when no waiter fits at all, under memory_fit, could a newcomer be.
  lemma {:induction false} StallsForever(lm: Lm, cfg: Config, s: State, events: seq<Event>)
    requires StateInv(lm, cfg, s) && Stuck(cfg, s) && NobodyIntervenes(events)
    requires Headed(cfg, s) || NoSubmissions(events)
    ensures var s' := Serve(lm, cfg, s, events);
      Stuck(cfg, s') && Unserved(cfg, s, s') && (Headed(cfg, s) ==> Headed(cfg, s'))
  {
    hide StateInv, Next, Stuck, Unserved, Headed;
    if events == [] {
      UnservedSelf(cfg, s);
    } else {
      StallsForever(lm, cfg, s, events[..|events| - 1]);
      ServeKeeps(lm, cfg, s, events[..|events| - 1]);
      var before := Serve(lm, cfg, s, events[..|events| - 1]);
      StuckNext(lm, cfg, before, events[|events| - 1]);
      UnservedThen(cfg, s, before, Serve(lm, cfg, s, events));
    }
  }
}
