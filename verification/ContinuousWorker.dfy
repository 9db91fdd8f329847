// The continuous worker's methods as they act on the objects between two awaits. Left undisturbed,
// each takes exactly the steps the state machine says, so what is proved of every run holds of them.
module ContinuousWorker {
  import opened Common
  import opened KvCache
  import opened LanguageModel
  import opened Engines
  import opened Sequences
  import opened SequenceRecord
  import opened PrefixCache
  import opened Scheduler
  import opened SchedulerObject
  import L = Lifecycle
  import O = WorkerObject
  import W = Worker
  import opened Worker
  import opened WorkerAdmits
  import WorkerRuns
  import Drain
  import DrainRuns
  import Iterations

  // What the next worker step of a walk does.
  lemma DropStep(lm: Lm, cfg: Config, s: State, todo: seq<Id>, kept: seq<Id>)
    requires s.pc == Dropping(todo, kept) && todo != []
    ensures Next(lm, cfg, s, Work(0, false, false)) ==
      if WantsAbort(Get(s, todo[0])) then AbortId(cfg, s, todo[0]).(pc := Dropping(todo[1..], kept))
      else s.(pc := Dropping(todo[1..], kept + [todo[0]]))
  {
    hide AbortId;
  }

  lemma SettleStep(lm: Lm, cfg: Config, s: State, todo: seq<Id>, still: seq<Id>)
    requires s.pc == Settling(todo, still) && todo != []
    ensures Next(lm, cfg, s, Work(0, false, false)) ==
      if Terminal(Get(s, todo[0]).status) then s.(pc := Settling(todo[1..], still))
      else if WantsAbort(Get(s, todo[0])) then AbortId(cfg, s, todo[0]).(pc := Settling(todo[1..], still))
      else s.(pc := Settling(todo[1..], still + [todo[0]]))
  {
    hide AbortId;
  }

  lemma SettledStep(lm: Lm, cfg: Config, s: State, still: seq<Id>)
    requires s.pc == Settling([], still)
    ensures Next(lm, cfg, s, Work(0, false, false)) == s.(running := still, pc := Top)
  {
  }

  lemma SweepStep(lm: Lm, cfg: Config, s: State, todo: seq<Id>)
    requires s.pc == Sweeping(todo) && todo != []
    ensures Next(lm, cfg, s, Work(0, false, false)) ==
      (if WantsAbort(Get(s, todo[0])) then AbortId(cfg, s, todo[0]) else s).(pc := Sweeping(todo[1..]))
  {
    hide AbortId;
  }

  lemma SweptStep(lm: Lm, cfg: Config, s: State)
    requires s.pc == Sweeping([])
    ensures Next(lm, cfg, s, Work(0, false, false)) == s.(pc := Collecting(s.running, []))
  {
  }

  predicate Joins(q: Sequence) {
    q.status.Decoding? && q.lastToken.Some? && !WantsAbort(q)
  }

  lemma CollectStep(lm: Lm, cfg: Config, s: State, todo: seq<Id>, live: seq<Id>)
    requires s.pc == Collecting(todo, live) && todo != []
    ensures Next(lm, cfg, s, Work(0, false, false)) ==
      s.(pc := Collecting(todo[1..], if Joins(Get(s, todo[0])) then live + [todo[0]] else live))
  {
  }

  lemma FailStep(lm: Lm, cfg: Config, s: State, todo: seq<Id>)
    requires s.pc == Failing(todo) && todo != []
    ensures Next(lm, cfg, s, Work(0, false, false)) ==
      Put(s, L.EndAs(cfg, s.m, Get(s, todo[0]), Errored)).(pc := Failing(todo[1..]))
  {
    hide L.EndAs;
  }

  lemma FailedStep(lm: Lm, cfg: Config, s: State)
    requires s.pc == Failing([])
    ensures Next(lm, cfg, s, Work(0, false, false)) == s.(pc := Settling(s.running, []))
  {
  }

  // What a decode step does with one row.
  function RowHandled(cfg: Config, s: State, id: Id, logits: Logits, kv: Cache): State
    requires logits != []
  {
    var q := Get(s, id);
    if WantsAbort(q) then AbortId(cfg, s, id)
    else
      var noted := L.NoteToken(q, Argmax(logits)).(kv := Some(kv));
      Put(s, if noted.reason.Some? then L.FinishSequence(cfg, s.m, noted) else (s.m, noted))
  }

  lemma HandleStep(lm: Lm, cfg: Config, s: State)
    requires s.pc.Rows? && s.pc.row < |s.pc.live| && s.pc.row < |s.pc.out.logits| && s.pc.row < |s.pc.out.caches|
    ensures Next(lm, cfg, s, Work(0, false, false)) ==
      RowHandled(cfg, s, s.pc.live[s.pc.row], s.pc.out.logits[s.pc.row], s.pc.out.caches[s.pc.row])
        .(pc := Rows(s.pc.live, s.pc.row + 1, s.pc.out))
  {
    hide AbortId, L.NoteToken, L.FinishSequence;
  }

  lemma RowsDoneStep(lm: Lm, cfg: Config, s: State)
    requires s.pc.Rows? && (s.pc.row >= |s.pc.live| || s.pc.row >= |s.pc.out.logits| || s.pc.row >= |s.pc.out.caches|)
    ensures Next(lm, cfg, s, Work(0, false, false)) == s.(pc := Settling(s.running, []))
  {
  }

  lemma PutTwice(s: State, a: (Memory, Sequence), b: (Memory, Sequence))
    requires a.1.id == b.1.id
    ensures Put(Put(s, a), b) == Put(s, b)
  {
    assert s.seqs[a.1.id := a.1][b.1.id := b.1] == s.seqs[b.1.id := b.1];
  }

  lemma CollectedStep(lm: Lm, cfg: Config, s: State, fails: bool)
    requires s.pc.Collecting? && s.pc.todo == []
    ensures var out := if fails then Err else DecodeLive(lm, s, s.pc.live);
      Next(lm, cfg, s, Work(0, fails, false)) ==
      s.(pc :=
        if s.pc.live == [] then Settling(s.running, [])
        else if out.Err? then Failing(s.pc.live)
        else Rows(s.pc.live, 0, out.value))
  {
    hide DecodeLive;
  }

  lemma InPrefillStep(lm: Lm, cfg: Config, s: State, id: Id, todo: seq<Id>, e: Event)
    requires s.pc == InPrefill(id, todo) && e.Work?
    ensures Next(lm, cfg, s, e) ==
      var q := Get(s, id);
      if WantsAbort(q) then AbortId(cfg, s, id).(pc := Prefills(todo))
      else
        var p := L.PrefillWithReuse(lm, cfg, s.m, q.(status := Prefilling), e.now, e.fails);
        if p.out.Err? || e.sampleFails then Put(s, L.EndAs(cfg, p.m, p.q, Errored)).(pc := Prefills(todo))
        else
          var noted := L.NoteToken(p.q, Argmax(p.out.value.logits)).(kv := Some(p.out.value.cache));
          Put(s, (p.m, noted)).(pc := Sampled(id, todo))
  {
    hide AbortId, L.PrefillWithReuse, L.EndAs, L.NoteToken;
  }

  lemma SampledStep(lm: Lm, cfg: Config, s: State, id: Id, todo: seq<Id>)
    requires s.pc == Sampled(id, todo)
    ensures Next(lm, cfg, s, Work(0, false, false)) ==
      var q := Get(s, id);
      if WantsAbort(q) then AbortId(cfg, s, id).(pc := Prefills(todo))
      else if q.reason.Some? then Put(s, L.FinishSequence(cfg, s.m, q)).(pc := Prefills(todo))
      else Put(s, (s.m, q.(status := Decoding))).(running := s.running + [id], pc := Prefills(todo))
  {
    hide AbortId, L.FinishSequence;
  }

  lemma JoinedRunning(s: State, mq: (Memory, Sequence))
    ensures Put(s, mq).running == s.running
  {
  }

  // The parts of a state that admission does not look at.
  function Within(s: State, running: seq<Id>, submitted: seq<Id>, pc: Pc, stop: bool): State {
    s.(running := running, submitted := submitted, pc := pc, stop := stop)
  }

  lemma {:induction false} CandidateIgnores(cfg: Config, s: State, running: seq<Id>, submitted: seq<Id>, pc: Pc,
          stop: bool, i: nat)
    requires i <= |s.waiting|
    ensures Candidate(cfg, Within(s, running, submitted, pc, stop), i) == Candidate(cfg, s, i)
    decreases |s.waiting| - i
  {
    hide Scheduler.Fits;
    if i < |s.waiting| { CandidateIgnores(cfg, s, running, submitted, pc, stop, i + 1); }
  }

  lemma RoundIgnores(cfg: Config, s: State, running: seq<Id>, submitted: seq<Id>, pc: Pc, stop: bool, c: nat, now: int)
    requires c < |s.waiting|
    ensures var s' := Within(s, running, submitted, pc, stop);
      && Attempted(cfg, s', c, now) == Attempted(cfg, s, c, now)
      && Taken(cfg, s', c, now) == Within(Taken(cfg, s, c, now), running, submitted, pc, stop)
      && PutBack(cfg, s', c, now) == Within(PutBack(cfg, s, c, now), running, submitted, pc, stop)
  {
    hide Scheduler.TryAllocate;
  }

  lemma {:induction false} AdmitIgnores(cfg: Config, s: State, running: seq<Id>, submitted: seq<Id>, pc: Pc,
          stop: bool, room: nat, now: int)
    ensures W.Admit(cfg, Within(s, running, submitted, pc, stop), room, now)
         == (Within(W.Admit(cfg, s, room, now).0, running, submitted, pc, stop), W.Admit(cfg, s, room, now).1)
    decreases room
  {
    hide W.Admit, Candidate, Attempted, Taken, PutBack;
    var s' := Within(s, running, submitted, pc, stop);
    CandidateIgnores(cfg, s, running, submitted, pc, stop, 0);
    var c := Candidate(cfg, s, 0);
    if room == 0 || c == |s.waiting| {
      AdmitNone(cfg, s, room, now);
      AdmitNone(cfg, s', room, now);
    } else {
      RoundUnfolds(cfg, s, c, room, now);
      RoundUnfolds(cfg, s', c, room, now);
      RoundIgnores(cfg, s, running, submitted, pc, stop, c, now);
      if Attempted(cfg, s, c, now).ok {
        AdmitIgnores(cfg, Taken(cfg, s, c, now), running, submitted, pc, stop, room - 1, now);
      }
    }
  }

  lemma AdmittedKnown(admitted: seq<Record>, before: seq<Record>, after: seq<Record>, all: seq<Record>)
    requires Split(admitted, after, before) && forall r :: r in before ==> r in all
    ensures forall r :: r in admitted || r in after ==> r in all
  {
    forall r | r in admitted || r in after ensures r in all {
      assert r in multiset(admitted) + multiset(after);
      assert r in multiset(before);
    }
  }

  lemma DroppedStep(lm: Lm, cfg: Config, s: State, was: seq<Id>, now: int)
    requires s.pc == Dropping([], s.running)
    ensures var room := if |s.running| <= cfg.maxBatch then cfg.maxBatch - |s.running| else 0;
      var r := W.Admit(cfg, s, room, now);
      Next(lm, cfg, s.(running := was), Work(now, false, false)) == r.0.(pc := Prefills(r.1))
  {
    hide W.Admit;
    assert s.(running := was).(running := s.running) == s;
  }

  lemma PrefillsStep(lm: Lm, cfg: Config, s: State, todo: seq<Id>)
    requires s.pc == Prefills(todo) && todo != []
    ensures Next(lm, cfg, s, Work(0, false, false)) ==
      if WantsAbort(Get(s, todo[0])) then AbortId(cfg, s, todo[0]).(pc := Prefills(todo[1..]))
      else s.(pc := InPrefill(todo[0], todo[1..]))
  {
    hide AbortId;
  }

  lemma PrefilledStep(lm: Lm, cfg: Config, s: State)
    requires s.pc == Prefills([])
    ensures Next(lm, cfg, s, Work(0, false, false)) == s.(pc := if s.running == [] then Top else Sweeping(s.running))
  {
  }

  lemma BeginStep(lm: Lm, cfg: Config, s: State)
    requires s.pc == Top && !s.stop && (s.running != [] || s.waiting != [] || s.event)
    ensures Next(lm, cfg, s, Work(0, false, false)) == s.(pc := Dropping(s.running, []))
  {
  }

  lemma IdsTail(all: seq<Record>, i: nat)
    requires i < |all|
    ensures Ids(all[i..]) == [all[i].id] + Ids(all[i + 1..]) && Ids(all[i..])[1..] == Ids(all[i + 1..])
  {
  }

  class ContinuousWorkerObject {
    const sched: SchedulerObject
    var running: seq<Record>
    var stop: bool

    constructor (sched: SchedulerObject)
      ensures this.sched == sched && running == [] && !stop
    {
      this.sched, running, stop := sched, [], false;
    }

    // The state of the machine that the objects are in. `all` are the records ever accepted.
    ghost function At(all: seq<Record>, submitted: seq<Id>, pc: Pc): State
      requires DistinctIds(all)
      reads this, sched.queue, sched.pool, sched.cache, sched.cache.pool, all
    {
      State(sched.cache.View(), Ids(sched.queue.waiting), sched.queue.event, Ids(running), Values(all), submitted,
        pc, stop)
    }

    ghost predicate Knows(all: seq<Record>)
      reads this, sched
    {
      DistinctIds(all) && sched.pool == sched.cache.pool && forall r :: r in running ==> r in all
    }

    // One record ends, with the given status.
    method EndOne(q: Record, status: Status, ghost all: seq<Record>, ghost submitted: seq<Id>, ghost pc: Pc)
      requires Knows(all) && q in all
      modifies sched.pool, sched.cache, q
      ensures At(all, submitted, pc) ==
        Put(old(At(all, submitted, pc)), L.EndAs(sched.cfg, old(sched.cache.View()), old(q.View()), status))
    {
      O.EndAs(q, sched, status);
      OnlyOneChanged(all, q, old(Values(all)));
    }

    method AbortOne(q: Record, ghost all: seq<Record>, ghost submitted: seq<Id>, ghost pc: Pc)
      requires Knows(all) && q in all
      modifies sched.pool, sched.cache, q
      ensures At(all, submitted, pc) == AbortId(sched.cfg, old(At(all, submitted, pc)), q.id)
    {
      hide L.EndAs;
      assert Get(At(all, submitted, pc), q.id) == q.View();
      EndOne(q, Aborted, all, submitted, pc);
    }

    lemma AtPc(all: seq<Record>, submitted: seq<Id>, pc: Pc, pc': Pc)
      requires DistinctIds(all)
      ensures At(all, submitted, pc).(pc := pc') == At(all, submitted, pc') && At(all, submitted, pc).pc == pc
      ensures At(all, submitted, pc).m == sched.cache.View() && At(all, submitted, pc).running == Ids(running)
    {
    }

    lemma AtGet(all: seq<Record>, submitted: seq<Id>, pc: Pc, q: Record)
      requires DistinctIds(all) && q in all
      ensures Get(At(all, submitted, pc), q.id) == q.View()
    {
    }

    // _drop_aborted: the flagged are ended and the rest kept, in order.
    method DropAborted(lm: Lm, ghost all: seq<Record>, ghost submitted: seq<Id>) returns (ghost steps: seq<Event>)
      requires Knows(all)
      modifies this`running, sched.pool, sched.cache, all
      ensures Knows(all) && forall r :: r in running ==> r in old(running)
      ensures Leads(lm, sched.cfg, old(At(all, submitted, Dropping(Ids(running), []))), steps,
        At(all, submitted, Dropping([], Ids(running))).(running := Ids(old(running))))
    {
      hide AbortId, Leads, At, Next;
      ghost var start := At(all, submitted, Dropping(Ids(running), []));
      var kept: seq<Record> := [];
      steps := [];
      assert running[0..] == running && Ids(kept) == [];
      LeadsNowhere(lm, sched.cfg, start);
      for i := 0 to |running|
        invariant Knows(all) && running == old(running)
        invariant forall r :: r in kept ==> r in running
        invariant Leads(lm, sched.cfg, start, steps, At(all, submitted, Dropping(Ids(running[i..]), Ids(kept))))
      {
        var q := running[i];
        assert q in running && q in all;
        ghost var pc, rest := Dropping(Ids(running[i..]), Ids(kept)), Ids(running[i + 1..]);
        IdsTail(running, i);
        AtGet(all, submitted, pc, q);
        AtPc(all, submitted, pc, pc);
        DropStep(lm, sched.cfg, At(all, submitted, pc), Ids(running[i..]), Ids(kept));
        LeadsFurther(lm, sched.cfg, start, steps, At(all, submitted, pc), Work(0, false, false));
        if q.abortRequested || q.status.Aborted? {
          AbortOne(q, all, submitted, pc);
          AtPc(all, submitted, pc, Dropping(rest, Ids(kept)));
        } else {
          IdsAppend(kept, q);
          AtPc(all, submitted, pc, Dropping(rest, Ids(kept + [q])));
          kept := kept + [q];
        }
        steps := steps + [Work(0, false, false)];
      }
      assert running[|running|..] == [];
      ghost var pc := Dropping([], Ids(kept));
      AtPc(all, submitted, pc, pc);
      SetRunning(kept, all, submitted, pc);
    }

    method SetRunning(kept: seq<Record>, ghost all: seq<Record>, ghost submitted: seq<Id>, ghost pc: Pc)
      requires DistinctIds(all)
      modifies this`running
      ensures running == kept && At(all, submitted, pc) == old(At(all, submitted, pc)).(running := Ids(kept))
    {
      running := kept;
    }

    // ---- After a decode step ----

    // The loop over running after _decode_one_step: what ended leaves, the flagged are ended.
    method Settle(lm: Lm, ghost all: seq<Record>, ghost submitted: seq<Id>) returns (ghost steps: seq<Event>)
      requires Knows(all)
      modifies this`running, sched.pool, sched.cache, all
      ensures Knows(all) && forall r :: r in running ==> r in old(running)
      ensures Leads(lm, sched.cfg, old(At(all, submitted, Settling(Ids(running), []))), steps, At(all, submitted, Top))
    {
      hide AbortId, Leads, At, Next;
      ghost var start := At(all, submitted, Settling(Ids(running), []));
      var still: seq<Record> := [];
      steps := [];
      assert running[0..] == running && Ids(still) == [];
      LeadsNowhere(lm, sched.cfg, start);
      for i := 0 to |running|
        invariant Knows(all) && running == old(running)
        invariant forall r :: r in still ==> r in running
        invariant Leads(lm, sched.cfg, start, steps, At(all, submitted, Settling(Ids(running[i..]), Ids(still))))
      {
        var q := running[i];
        assert q in running && q in all;
        ghost var pc, rest := Settling(Ids(running[i..]), Ids(still)), Ids(running[i + 1..]);
        IdsTail(running, i);
        AtGet(all, submitted, pc, q);
        AtPc(all, submitted, pc, pc);
        SettleStep(lm, sched.cfg, At(all, submitted, pc), Ids(running[i..]), Ids(still));
        LeadsFurther(lm, sched.cfg, start, steps, At(all, submitted, pc), Work(0, false, false));
        if Terminal(q.status) {
          AtPc(all, submitted, pc, Settling(rest, Ids(still)));
        } else if q.abortRequested || q.status.Aborted? {
          AbortOne(q, all, submitted, pc);
          AtPc(all, submitted, pc, Settling(rest, Ids(still)));
        } else {
          IdsAppend(still, q);
          AtPc(all, submitted, pc, Settling(rest, Ids(still + [q])));
          still := still + [q];
        }
        steps := steps + [Work(0, false, false)];
      }
      assert running[|running|..] == [];
      ghost var pc := Settling([], Ids(still));
      AtPc(all, submitted, pc, pc);
      SettledStep(lm, sched.cfg, At(all, submitted, pc), Ids(still));
      LeadsFurther(lm, sched.cfg, start, steps, At(all, submitted, pc), Work(0, false, false));
      steps := steps + [Work(0, false, false)];
      SetRunning(still, all, submitted, pc);
      AtPc(all, submitted, pc, Top);
    }

    // ---- One decode step ----

    method Sweep(lm: Lm, ghost all: seq<Record>, ghost submitted: seq<Id>) returns (ghost steps: seq<Event>)
      requires Knows(all)
      modifies sched.pool, sched.cache, all
      ensures Knows(all) && running == old(running)
      ensures Leads(lm, sched.cfg, old(At(all, submitted, Sweeping(Ids(running)))), steps,
        At(all, submitted, Collecting(Ids(running), [])))
    {
      hide AbortId, Leads, At, Next;
      ghost var start := At(all, submitted, Sweeping(Ids(running)));
      steps := [];
      assert running[0..] == running;
      LeadsNowhere(lm, sched.cfg, start);
      for i := 0 to |running|
        invariant Knows(all) && running == old(running)
        invariant Leads(lm, sched.cfg, start, steps, At(all, submitted, Sweeping(Ids(running[i..]))))
      {
        var q := running[i];
        assert q in running && q in all;
        ghost var pc, rest := Sweeping(Ids(running[i..])), Ids(running[i + 1..]);
        IdsTail(running, i);
        AtGet(all, submitted, pc, q);
        AtPc(all, submitted, pc, pc);
        SweepStep(lm, sched.cfg, At(all, submitted, pc), Ids(running[i..]));
        LeadsFurther(lm, sched.cfg, start, steps, At(all, submitted, pc), Work(0, false, false));
        if q.abortRequested || q.status.Aborted? {
          AbortOne(q, all, submitted, pc);
        }
        AtPc(all, submitted, pc, Sweeping(rest));
        steps := steps + [Work(0, false, false)];
      }
      assert running[|running|..] == [];
      AtPc(all, submitted, Sweeping([]), Collecting(Ids(running), []));
      SweptStep(lm, sched.cfg, At(all, submitted, Sweeping([])));
      LeadsFurther(lm, sched.cfg, start, steps, At(all, submitted, Sweeping([])), Work(0, false, false));
      steps := steps + [Work(0, false, false)];
    }

    // The comprehension that picks the rows of the batch.
    method Collect(lm: Lm, ghost all: seq<Record>, ghost submitted: seq<Id>)
      returns (live: seq<Record>, ghost steps: seq<Event>)
      requires Knows(all)
      ensures forall r :: r in live ==> r in running
      ensures Leads(lm, sched.cfg, At(all, submitted, Collecting(Ids(running), [])), steps,
        At(all, submitted, Collecting([], Ids(live))))
    {
      hide Leads, At, Next;
      ghost var start := At(all, submitted, Collecting(Ids(running), []));
      live, steps := [], [];
      assert running[0..] == running && Ids(live) == [];
      LeadsNowhere(lm, sched.cfg, start);
      for i := 0 to |running|
        invariant forall r :: r in live ==> r in running
        invariant Leads(lm, sched.cfg, start, steps, At(all, submitted, Collecting(Ids(running[i..]), Ids(live))))
      {
        var q := running[i];
        assert q in running && q in all;
        ghost var pc, rest := Collecting(Ids(running[i..]), Ids(live)), Ids(running[i + 1..]);
        IdsTail(running, i);
        AtGet(all, submitted, pc, q);
        AtPc(all, submitted, pc, pc);
        CollectStep(lm, sched.cfg, At(all, submitted, pc), Ids(running[i..]), Ids(live));
        LeadsFurther(lm, sched.cfg, start, steps, At(all, submitted, pc), Work(0, false, false));
        if q.status.Decoding? && q.lastToken.Some? && !(q.abortRequested || q.status.Aborted?) {
          IdsAppend(live, q);
          AtPc(all, submitted, pc, Collecting(rest, Ids(live + [q])));
          live := live + [q];
        } else {
          AtPc(all, submitted, pc, Collecting(rest, Ids(live)));
        }
        steps := steps + [Work(0, false, false)];
      }
      assert running[|running|..] == [];
    }

    // A failed batch fails every row.
    method FailLive(lm: Lm, live: seq<Record>, ghost all: seq<Record>, ghost submitted: seq<Id>)
      returns (ghost steps: seq<Event>)
      requires Knows(all) && forall r :: r in live ==> r in all
      modifies sched.pool, sched.cache, all
      ensures Knows(all)
      ensures Leads(lm, sched.cfg, old(At(all, submitted, Failing(Ids(live)))), steps,
        At(all, submitted, Settling(Ids(running), [])))
    {
      hide Leads, At, Next, L.EndAs;
      ghost var start := At(all, submitted, Failing(Ids(live)));
      steps := [];
      assert live[0..] == live;
      LeadsNowhere(lm, sched.cfg, start);
      for i := 0 to |live|
        invariant Knows(all) && running == old(running)
        invariant Leads(lm, sched.cfg, start, steps, At(all, submitted, Failing(Ids(live[i..]))))
      {
        var q := live[i];
        assert q in live && q in all;
        ghost var pc, rest := Failing(Ids(live[i..])), Ids(live[i + 1..]);
        IdsTail(live, i);
        AtGet(all, submitted, pc, q);
        AtPc(all, submitted, pc, pc);
        FailStep(lm, sched.cfg, At(all, submitted, pc), Ids(live[i..]));
        LeadsFurther(lm, sched.cfg, start, steps, At(all, submitted, pc), Work(0, false, false));
        EndOne(q, Errored, all, submitted, pc);
        AtPc(all, submitted, pc, Failing(rest));
        steps := steps + [Work(0, false, false)];
      }
      assert live[|live|..] == [];
      AtPc(all, submitted, Failing([]), Settling(Ids(running), []));
      FailedStep(lm, sched.cfg, At(all, submitted, Failing([])));
      LeadsFurther(lm, sched.cfg, start, steps, At(all, submitted, Failing([])), Work(0, false, false));
      steps := steps + [Work(0, false, false)];
    }

    method NoteOne(q: Record, token: Token, kv: Cache, ghost all: seq<Record>, ghost submitted: seq<Id>, ghost pc: Pc)
      requires Knows(all) && q in all
      modifies q`output, q`lastToken, q`pushed, q`reason, q`kv
      ensures q.View() == L.NoteToken(old(q.View()), token).(kv := Some(kv))
      ensures At(all, submitted, pc) == Put(old(At(all, submitted, pc)), (sched.cache.View(), q.View()))
    {
      hide L.NoteToken;
      O.NoteToken(q, token);
      q.kv := Some(kv);
      OnlyOneChanged(all, q, old(Values(all)));
    }

    method FinishOne(q: Record, ghost all: seq<Record>, ghost submitted: seq<Id>, ghost pc: Pc)
      requires Knows(all) && q in all
      modifies sched.pool, sched.cache, q
      ensures At(all, submitted, pc) ==
        Put(old(At(all, submitted, pc)), L.FinishSequence(sched.cfg, old(sched.cache.View()), old(q.View())))
    {
      O.FinishSequence(q, sched);
      OnlyOneChanged(all, q, old(Values(all)));
    }

    // One row: abort, or note its token and perhaps finish.
    method HandleRow(q: Record, logits: Logits, kv: Cache, ghost all: seq<Record>, ghost submitted: seq<Id>,
            ghost pc: Pc)
      requires Knows(all) && q in all && logits != []
      modifies sched.pool, sched.cache, q
      ensures At(all, submitted, pc) == RowHandled(sched.cfg, old(At(all, submitted, pc)), q.id, logits, kv)
    {
      hide AbortId, At, L.NoteToken, L.FinishSequence, Put;
      AtGet(all, submitted, pc, q);
      AtPc(all, submitted, pc, pc);
      if q.abortRequested || q.status.Aborted? {
        AbortOne(q, all, submitted, pc);
        return;
      }
      ghost var before := At(all, submitted, pc);
      NoteOne(q, Argmax(logits), kv, all, submitted, pc);
      if q.reason.Some? {
        ghost var noted, m := q.View(), sched.cache.View();
        FinishOne(q, all, submitted, pc);
        L.FinishedAs(sched.cfg, m, noted);
        PutTwice(before, (m, noted), L.FinishSequence(sched.cfg, m, noted));
      }
    }

    // The row loop of a decode step.
    method DecodeRows(lm: Lm, live: seq<Record>, out: BatchOutput, ghost all: seq<Record>, ghost submitted: seq<Id>)
      returns (ghost steps: seq<Event>)
      requires Knows(all) && forall r :: r in live ==> r in all
      modifies sched.pool, sched.cache, all
      ensures Knows(all)
      ensures Leads(lm, sched.cfg, old(At(all, submitted, Rows(Ids(live), 0, out))), steps,
        At(all, submitted, Settling(Ids(running), [])))
    {
      hide Leads, At, Next, RowHandled;
      ghost var start := At(all, submitted, Rows(Ids(live), 0, out));
      steps := [];
      LeadsNowhere(lm, sched.cfg, start);
      var row := 0;
      while row < |live| && row < |out.logits| && row < |out.caches|
        invariant row <= |live| && Knows(all) && running == old(running)
        invariant Leads(lm, sched.cfg, start, steps, At(all, submitted, Rows(Ids(live), row, out)))
      {
        var q := live[row];
        assert q in live && q in all;
        ghost var pc := Rows(Ids(live), row, out);
        AtPc(all, submitted, pc, pc);
        HandleStep(lm, sched.cfg, At(all, submitted, pc));
        LeadsFurther(lm, sched.cfg, start, steps, At(all, submitted, pc), Work(0, false, false));
        HandleRow(q, out.logits[row], out.caches[row], all, submitted, pc);
        AtPc(all, submitted, pc, Rows(Ids(live), row + 1, out));
        steps := steps + [Work(0, false, false)];
        row := row + 1;
      }
      ghost var pc := Rows(Ids(live), row, out);
      AtPc(all, submitted, pc, Settling(Ids(running), []));
      RowsDoneStep(lm, sched.cfg, At(all, submitted, pc));
      LeadsFurther(lm, sched.cfg, start, steps, At(all, submitted, pc), Work(0, false, false));
      steps := steps + [Work(0, false, false)];
    }

    // The batch as the engine sees it; without a cache or a token for every row it raises.
    method DecodeLiveRows(lm: Lm, live: seq<Record>, ghost all: seq<Record>, ghost submitted: seq<Id>, ghost pc: Pc)
      returns (out: Result<BatchOutput>)
      requires Knows(all) && forall r :: r in live ==> r in all
      ensures out == DecodeLive(lm, At(all, submitted, pc), Ids(live))
    {
      hide DecodeBatch;
      ghost var s := At(all, submitted, pc);
      forall r | r in live ensures Get(s, r.id) == r.View() { AtGet(all, submitted, pc, r); }
      var tokens: seq<Token>, caches: seq<Cache> := [], [];
      for i := 0 to |live|
        invariant tokens == LiveTokens(s, Ids(live))[..i] && caches == LiveCaches(s, Ids(live))[..i]
        invariant forall j :: 0 <= j < i ==> HasDecodeState(Get(s, Ids(live)[j]))
      {
        if live[i].kv.None? || live[i].lastToken.None? {
          assert Ids(live)[i] in Ids(live) && !HasDecodeState(Get(s, Ids(live)[i]));
          return Err;
        }
        tokens, caches := tokens + [live[i].lastToken.value], caches + [live[i].kv.value];
      }
      assert tokens == LiveTokens(s, Ids(live)) && caches == LiveCaches(s, Ids(live));
      if !AllShaped(lm, caches) { return Err; }
      out := DecodeBatchLoop(lm, tokens, caches);
    }

    // _decode_one_step as a whole; `fails` stands for the model raising.
    method DecodeOneStep(lm: Lm, fails: bool, ghost all: seq<Record>, ghost submitted: seq<Id>)
      returns (ghost steps: seq<Event>)
      requires Knows(all)
      modifies sched.pool, sched.cache, all
      ensures Knows(all) && running == old(running)
      ensures Leads(lm, sched.cfg, old(At(all, submitted, Sweeping(Ids(running)))), steps,
        At(all, submitted, Settling(Ids(running), [])))
    {
      hide Leads, At, Next, DecodeLive;
      ghost var start := At(all, submitted, Sweeping(Ids(running)));
      steps := Sweep(lm, all, submitted);
      ghost var more: seq<Event>, here := [], At(all, submitted, Collecting(Ids(running), []));
      var live;
      live, more := Collect(lm, all, submitted);
      ghost var pc := Collecting([], Ids(live));
      LeadsThrough(lm, sched.cfg, start, steps, here, more, At(all, submitted, pc));
      steps := steps + more;
      var out: Result<BatchOutput> := Err;
      if live != [] && !fails { out := DecodeLiveRows(lm, live, all, submitted, pc); }
      AtPc(all, submitted, pc, pc);
      CollectedStep(lm, sched.cfg, At(all, submitted, pc), fails);
      LeadsFurther(lm, sched.cfg, start, steps, At(all, submitted, pc), Work(0, fails, false));
      steps := steps + [Work(0, fails, false)];
      if live == [] {
        AtPc(all, submitted, pc, Settling(Ids(running), []));
        return;
      }
      here := Next(lm, sched.cfg, At(all, submitted, pc), Work(0, fails, false));
      if out.Err? {
        AtPc(all, submitted, pc, Failing(Ids(live)));
        more := FailLive(lm, live, all, submitted);
      } else {
        AtPc(all, submitted, pc, Rows(Ids(live), 0, out.value));
        more := DecodeRows(lm, live, out.value, all, submitted);
      }
      LeadsThrough(lm, sched.cfg, start, steps, here, more, At(all, submitted, Settling(Ids(running), [])));
      steps := steps + more;
    }

    // ---- Prefill of one admitted sequence ----

    method StartPrefill(lm: Lm, q: Record, now: int, fails: bool) returns (out: Result<Output>)
      requires sched.pool == sched.cache.pool
      modifies sched.pool, sched.cache, q
      ensures L.Prefilled(sched.cache.View(), q.View(), out)
           == L.PrefillWithReuse(
             lm, sched.cfg, old(sched.cache.View()), old(q.View()).(status := Prefilling), now, fails)
    {
      q.status := Prefilling;
      out := O.PrefillWithReuse(lm, q, sched, now, fails);
    }

    method PrefillRecord(lm: Lm, q: Record, now: int, fails: bool, ghost all: seq<Record>, ghost submitted: seq<Id>,
            ghost pc: Pc)
      returns (out: Result<Output>)
      requires Knows(all) && q in all
      modifies sched.pool, sched.cache, q
      ensures var p := L.PrefillWithReuse(
        lm, sched.cfg, old(sched.cache.View()), old(q.View()).(status := Prefilling), now, fails);
        && out == p.out && sched.cache.View() == p.m && q.View() == p.q
        && At(all, submitted, pc) == Put(old(At(all, submitted, pc)), (p.m, p.q))
    {
      hide L.PrefillWithReuse;
      out := StartPrefill(lm, q, now, fails);
      OnlyOneChanged(all, q, old(Values(all)));
    }

    // Up to the first token: abort, failure, or a token noted.
    method FirstToken(lm: Lm, q: Record, now: int, fails: bool, sampleFails: bool,
                      ghost todo: seq<Id>, ghost all: seq<Record>, ghost submitted: seq<Id>) returns (noted: bool)
      requires Knows(all) && q in all
      modifies sched.pool, sched.cache, q
      ensures Knows(all)
      ensures Next(lm, sched.cfg, old(At(all, submitted, InPrefill(q.id, todo))), Work(now, fails, sampleFails))
           == At(all, submitted, if noted then Sampled(q.id, todo) else Prefills(todo))
    {
      hide At, Next, AbortId, Put, L.PrefillWithReuse, L.EndAs, L.NoteToken;
      ghost var pc := InPrefill(q.id, todo);
      ghost var start := At(all, submitted, pc);
      AtPc(all, submitted, pc, pc);
      AtGet(all, submitted, pc, q);
      InPrefillStep(lm, sched.cfg, start, q.id, todo, Work(now, fails, sampleFails));
      if q.abortRequested || q.status.Aborted? {
        AbortOne(q, all, submitted, pc);
        AtPc(all, submitted, pc, Prefills(todo));
        return false;
      }
      ghost var p := L.PrefillWithReuse(lm, sched.cfg, sched.cache.View(), q.View().(status := Prefilling), now, fails);
      var out := PrefillRecord(lm, q, now, fails, all, submitted, pc);
      if out.Err? || sampleFails {
        EndOne(q, Errored, all, submitted, pc);
        L.EndedAs(sched.cfg, p.m, p.q, Errored);
        PutTwice(start, (p.m, p.q), L.EndAs(sched.cfg, p.m, p.q, Errored));
        AtPc(all, submitted, pc, Prefills(todo));
        return false;
      }
      NoteOne(q, Argmax(out.value.logits), out.value.cache, all, submitted, pc);
      PutTwice(start, (p.m, p.q), (p.m, q.View()));
      AtPc(all, submitted, pc, Sampled(q.id, todo));
      return true;
    }

    // _prefill_one and what run does with its outcome: the sequence ends, or joins the batch.
    method PrefillOne(lm: Lm, q: Record, now: int, fails: bool, sampleFails: bool,
                      ghost todo: seq<Id>, ghost all: seq<Record>, ghost submitted: seq<Id>)
      returns (ghost steps: seq<Event>)
      requires Knows(all) && q in all
      modifies this`running, sched.pool, sched.cache, q
      ensures Knows(all) && (running == old(running) || running == old(running) + [q])
      ensures Leads(lm, sched.cfg, old(At(all, submitted, InPrefill(q.id, todo))), steps,
        At(all, submitted, Prefills(todo)))
    {
      hide Leads, At, Next;
      ghost var start, e := At(all, submitted, InPrefill(q.id, todo)), Work(now, fails, sampleFails);
      AtPc(all, submitted, InPrefill(q.id, todo), Prefills(todo));
      LeadsNowhere(lm, sched.cfg, start);
      LeadsFurther(lm, sched.cfg, start, [], start, e);
      var noted := FirstToken(lm, q, now, fails, sampleFails, todo, all, submitted);
      steps := [] + [e];
      if noted {
        AtPc(all, submitted, Sampled(q.id, todo), Prefills(todo));
        LeadsFurther(lm, sched.cfg, start, steps, At(all, submitted, Sampled(q.id, todo)), Work(0, false, false));
        SampledOne(lm, q, todo, all, submitted);
        steps := steps + [Work(0, false, false)];
      }
    }

    // With its first token noted: abort, finish, or join.
    method SampledOne(lm: Lm, q: Record, ghost todo: seq<Id>, ghost all: seq<Record>, ghost submitted: seq<Id>)
      requires Knows(all) && q in all
      modifies this`running, sched.pool, sched.cache, q
      ensures Knows(all) && (running == old(running) || running == old(running) + [q])
      ensures Next(lm, sched.cfg, old(At(all, submitted, Sampled(q.id, todo))), Work(0, false, false)) ==
        At(all, submitted, Prefills(todo))
    {
      hide At, Next, AbortId, Put, L.FinishSequence;
      ghost var pc := Sampled(q.id, todo);
      AtPc(all, submitted, pc, pc);
      AtGet(all, submitted, pc, q);
      SampledStep(lm, sched.cfg, At(all, submitted, pc), q.id, todo);
      if q.abortRequested || q.status.Aborted? {
        AbortOne(q, all, submitted, pc);
      } else if q.reason.Some? {
        FinishOne(q, all, submitted, pc);
      } else {
        SetStatus(q, Decoding, all, submitted, pc);
        IdsAppend(running, q);
        AtPc(all, submitted, pc, pc);
        JoinedRunning(old(At(all, submitted, pc)), (sched.cache.View(), q.View()));
        SetRunning(running + [q], all, submitted, pc);
      }
      AtPc(all, submitted, pc, Prefills(todo));
    }

    method SetStatus(q: Record, status: Status, ghost all: seq<Record>, ghost submitted: seq<Id>, ghost pc: Pc)
      requires Knows(all) && q in all
      modifies q`status
      ensures q.View() == old(q.View()).(status := status)
      ensures At(all, submitted, pc) == Put(old(At(all, submitted, pc)), (sched.cache.View(), q.View()))
    {
      q.status := status;
      OnlyOneChanged(all, q, old(Values(all)));
    }

    // ---- Shutdown ----

    // _abort_leftovers: everybody waiting, then everybody running whose end was not signalled.
    method AbortLeftovers(ghost all: seq<Record>, ghost submitted: seq<Id>)
      requires Knows(all) && sched.queue.Wakeful() && forall r :: r in sched.queue.waiting ==> r in all
      modifies this`running, sched.queue, sched.pool, sched.cache, all
      ensures running == [] && sched.queue.waiting == []
      ensures At(all, submitted, Stopped) == W.AbortLeftovers(sched.cfg, old(At(all, submitted, Top)))
    {
      hide At, AbortId, TakeWaiter;
      ghost var start := At(all, submitted, Top);
      while sched.queue.waiting != []
        invariant Knows(all) && sched.queue.Wakeful() && running == old(running) &&
          forall r :: r in sched.queue.waiting ==> r in all
        invariant AbortWaiters(sched.cfg, At(all, submitted, Top)) == AbortWaiters(sched.cfg, start)
        decreases |sched.queue.waiting|
      {
        AtWaiting(all, submitted, Top);
        var q := PopWaiter(all, submitted, Top);
        assert q in all;
        AbortOne(q, all, submitted, Top);
      }
      AtWaiting(all, submitted, Top);
      ghost var swept := At(all, submitted, Top);
      assert running[0..] == running;
      for i := 0 to |running|
        invariant Knows(all) && running == old(running) && sched.queue.waiting == []
        invariant AbortRunning(sched.cfg, swept, Ids(running)) ==
          AbortRunning(sched.cfg, At(all, submitted, Top), Ids(running[i..]))
      {
        var q := running[i];
        IdsTail(running, i);
        AtGet(all, submitted, Top, q);
        assert q in all;
        if q.signals == 0 { AbortOne(q, all, submitted, Top); }
      }
      assert running[|running|..] == [];
      AtPc(all, submitted, Top, Stopped);
      SetRunning([], all, submitted, Top);
      AtPc(all, submitted, Top, Stopped);
    }

    lemma AtWaiting(all: seq<Record>, submitted: seq<Id>, pc: Pc)
      requires DistinctIds(all)
      ensures At(all, submitted, pc).waiting == Ids(sched.queue.waiting)
      ensures At(all, submitted, pc).running == Ids(running)
    {
    }

    method PopWaiter(ghost all: seq<Record>, ghost submitted: seq<Id>, ghost pc: Pc) returns (q: Record)
      requires Knows(all) && sched.queue.Wakeful() && sched.queue.waiting != []
      modifies sched.queue
      ensures old(sched.queue.waiting) == [q] + sched.queue.waiting && sched.queue.Wakeful()
      ensures At(all, submitted, pc) == TakeWaiter(old(At(all, submitted, pc)), 0)
    {
      q := sched.PopHead(all);
    }

    // ---- One iteration ----

    lemma AtIsAbstract(all: seq<Record>, submitted: seq<Id>, pc: Pc)
      requires DistinctIds(all) && sched.pool == sched.cache.pool
      ensures At(all, submitted, pc) == Within(sched.Abstract(all), Ids(running), submitted, pc, stop)
    {
    }

    // Admission at the end of the dropping phase.
    method AdmitBatch(lm: Lm, now: int, ghost was: seq<Id>, ghost all: seq<Record>, ghost submitted: seq<Id>)
      returns (admitted: seq<Record>)
      requires Knows(all) && sched.queue.Wakeful() && sched.Covers(all)
      modifies sched.queue, sched.pool, sched.cache, all
      ensures Knows(all) && sched.queue.Wakeful() && sched.Covers(all) && forall r :: r in admitted ==> r in all
      ensures Next(
        lm, sched.cfg, old(At(all, submitted, Dropping([], Ids(running)))).(running := was), Work(now, false, false))
           == At(all, submitted, Prefills(Ids(admitted)))
    {
      hide At, Next, W.Admit, SchedulerObject.Abstract;
      ghost var pc := Dropping([], Ids(running));
      AtPc(all, submitted, pc, pc);
      AtIsAbstract(all, submitted, pc);
      DroppedStep(lm, sched.cfg, At(all, submitted, pc), was, now);
      ghost var before := sched.Abstract(all);
      ghost var room: nat := if |running| <= sched.cfg.maxBatch then sched.cfg.maxBatch - |running| else 0;
      AdmitIgnores(sched.cfg, before, Ids(running), submitted, pc, stop, room, now);
      admitted := sched.Admit(|running|, now, all);
      AtIsAbstract(all, submitted, pc);
      AtPc(all, submitted, pc, Prefills(Ids(admitted)));
      AdmittedKnown(admitted, old(sched.queue.waiting), sched.queue.waiting, all);
    }

    // The admitted are prefilled one by one; the flagged among them are ended.
    method PrefillAll(lm: Lm, admitted: seq<Record>, now: int, fails: nat -> bool, sampleFails: nat -> bool,
                      ghost all: seq<Record>, ghost submitted: seq<Id>) returns (ghost steps: seq<Event>)
      requires Knows(all) && forall r :: r in admitted ==> r in all
      modifies this`running, sched.pool, sched.cache, all
      ensures Knows(all)
      ensures Leads(lm, sched.cfg, old(At(all, submitted, Prefills(Ids(admitted)))), steps,
        At(all, submitted, Prefills([])))
    {
      hide Leads, At, Next, AbortId;
      ghost var start := At(all, submitted, Prefills(Ids(admitted)));
      steps := [];
      assert admitted[0..] == admitted;
      LeadsNowhere(lm, sched.cfg, start);
      for i := 0 to |admitted|
        invariant Knows(all)
        invariant Leads(lm, sched.cfg, start, steps, At(all, submitted, Prefills(Ids(admitted[i..]))))
      {
        var q := admitted[i];
        assert q in admitted && q in all;
        ghost var pc, rest := Prefills(Ids(admitted[i..])), Ids(admitted[i + 1..]);
        IdsTail(admitted, i);
        AtGet(all, submitted, pc, q);
        AtPc(all, submitted, pc, InPrefill(q.id, rest));
        PrefillsStep(lm, sched.cfg, At(all, submitted, pc), Ids(admitted[i..]));
        LeadsFurther(lm, sched.cfg, start, steps, At(all, submitted, pc), Work(0, false, false));
        steps := steps + [Work(0, false, false)];
        if q.abortRequested || q.status.Aborted? {
          AbortOne(q, all, submitted, pc);
          AtPc(all, submitted, pc, Prefills(rest));
        } else {
          ghost var here := At(all, submitted, InPrefill(q.id, rest));
          ghost var more := PrefillOne(lm, q, now, fails(i), sampleFails(i), rest, all, submitted);
          LeadsThrough(lm, sched.cfg, start, steps, here, more, At(all, submitted, Prefills(rest)));
          steps := steps + more;
        }
      }
      assert admitted[|admitted|..] == [];
    }

    // Admission and prefill of what it admits.
    method AdmitAndPrefill(lm: Lm, now: int, fails: nat -> bool, sampleFails: nat -> bool,
                           ghost was: seq<Id>, ghost all: seq<Record>, ghost submitted: seq<Id>)
      returns (ghost steps: seq<Event>)
      requires Knows(all) && sched.queue.Wakeful() && sched.Covers(all)
      modifies this`running, sched.queue, sched.pool, sched.cache, all
      ensures Knows(all) && sched.queue.Wakeful() && sched.Covers(all)
      ensures Leads(lm, sched.cfg, old(At(all, submitted, Dropping([], Ids(running)))).(running := was), steps,
        At(all, submitted, if running == [] then Top else Sweeping(Ids(running))))
    {
      hide Leads, At, Next;
      ghost var start := At(all, submitted, Dropping([], Ids(running))).(running := was);
      AtPc(all, submitted, Dropping([], Ids(running)), Top);
      LeadsNowhere(lm, sched.cfg, start);
      LeadsFurther(lm, sched.cfg, start, [], start, Work(now, false, false));
      var admitted := AdmitBatch(lm, now, was, all, submitted);
      steps := [] + [Work(now, false, false)];
      ghost var here := At(all, submitted, Prefills(Ids(admitted)));
      ghost var more := PrefillAll(lm, admitted, now, fails, sampleFails, all, submitted);
      LeadsThrough(lm, sched.cfg, start, steps, here, more, At(all, submitted, Prefills([])));
      steps := steps + more;
      AtPc(all, submitted, Prefills([]), if running == [] then Top else Sweeping(Ids(running)));
      PrefilledStep(lm, sched.cfg, At(all, submitted, Prefills([])));
      LeadsFurther(lm, sched.cfg, start, steps, At(all, submitted, Prefills([])), Work(0, false, false));
      steps := steps + [Work(0, false, false)];
    }

    // A decode step and the sorting out after it.
    method DecodeAndSettle(lm: Lm, fails: bool, ghost all: seq<Record>, ghost submitted: seq<Id>)
      returns (ghost steps: seq<Event>)
      requires Knows(all)
      modifies this`running, sched.pool, sched.cache, all
      ensures Knows(all)
      ensures Leads(lm, sched.cfg, old(At(all, submitted, Sweeping(Ids(running)))), steps, At(all, submitted, Top))
    {
      hide Leads, At;
      ghost var start := At(all, submitted, Sweeping(Ids(running)));
      steps := DecodeOneStep(lm, fails, all, submitted);
      ghost var here := At(all, submitted, Settling(Ids(running), []));
      ghost var more := Settle(lm, all, submitted);
      LeadsThrough(lm, sched.cfg, start, steps, here, more, At(all, submitted, Top));
      steps := steps + more;
    }

    // The body of run's loop, undisturbed, is one whole iteration of the state machine: it leaves the
    // top, and comes back to it when it is over and not before.
    method RunIteration(lm: Lm, now: int, fails: nat -> bool, sampleFails: nat -> bool, decodeFails: bool,
                        ghost all: seq<Record>, ghost submitted: seq<Id>) returns (ghost steps: seq<Event>)
      requires Knows(all) && sched.queue.Wakeful() && sched.Covers(all)
      requires !stop && (running != [] || sched.queue.waiting != [] || sched.queue.event)
      modifies this`running, sched.queue, sched.pool, sched.cache, all
      ensures Knows(all) && sched.queue.Wakeful() && sched.Covers(all)
      ensures WholeIteration(lm, sched.cfg, old(At(all, submitted, Top)), steps) && OnlyWork(steps)
      ensures Serve(lm, sched.cfg, old(At(all, submitted, Top)), steps) == At(all, submitted, Top)
      ensures var s, s' := old(At(all, submitted, Top)), At(all, submitted, Top);
        WorkerRuns.Reachable(lm, sched.cfg, s) && DrainRuns.Ready(sched.cfg, s) ==>
          Drain.TotalLeft(s', submitted) < Drain.TotalLeft(s, submitted)
    {
      hide Leads, Serve, WholeIteration, At, Next, WorkerRuns.Reachable, DrainRuns.Ready, Drain.TotalLeft;
      ghost var start, begin := At(all, submitted, Top), Work(0, false, false);
      AtTopFacts(all, submitted);
      BeginStep(lm, sched.cfg, start);
      AtPc(all, submitted, Top, Dropping(Ids(running), []));
      ghost var begun, was := At(all, submitted, Dropping(Ids(running), [])), Ids(running);
      ghost var rest := DropAborted(lm, all, submitted);
      ghost var here := At(all, submitted, Dropping([], Ids(running))).(running := was);
      ghost var more := AdmitAndPrefill(lm, now, fails, sampleFails, was, all, submitted);
      ghost var pc := if running == [] then Top else Sweeping(Ids(running));
      LeadsThrough(lm, sched.cfg, begun, rest, here, more, At(all, submitted, pc));
      rest, here := rest + more, At(all, submitted, pc);
      if running != [] {
        more := DecodeAndSettle(lm, decodeFails, all, submitted);
        LeadsThrough(lm, sched.cfg, begun, rest, here, more, At(all, submitted, Top));
        rest := rest + more;
      }
      AtTopFacts(all, submitted);
      IterationIsWhole(lm, sched.cfg, start, begin, rest, At(all, submitted, Top));
      steps := [begin] + rest;
      if WorkerRuns.Reachable(lm, sched.cfg, start) && DrainRuns.Ready(sched.cfg, start) {
        Iterations.WholeIterationProgresses(lm, sched.cfg, start, steps);
      }
    }

    lemma AtTopFacts(all: seq<Record>, submitted: seq<Id>)
      requires DistinctIds(all)
      ensures var s := At(all, submitted, Top);
        && s.pc == Top && s.stop == stop && s.event == sched.queue.event && s.running == Ids(running)
        && s.waiting == Ids(sched.queue.waiting) && s.submitted == submitted
    {
    }
  }
}
