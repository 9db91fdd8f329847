// In every reachable state the stored keys are storable: only a prefill stores, and every other step
// leaves keys, KV and logits of the prefix cache alone.
module StoredRuns {
  import opened Common
  import opened LanguageModel
  import opened Engines
  import opened Generation
  import opened Sequences
  import opened BlockPool
  import opened PrefixCache
  import opened PrefixLaws
  import opened PrefixOps
  import opened Scheduler
  import opened StoredKeys
  import opened Lifecycle
  import opened Worker
  import opened WorkerInvariant
  import opened WorkerAdmits
  import opened WorkerRuns
  import opened WorkerHistory
  import opened CoverageRuns

  ghost predicate SameStore(s: State, s': State) {
    SameContents(s.m.cache.entries, s'.m.cache.entries)
  }

  lemma SameStoreThen(a: State, b: State, c: State)
    requires SameStore(a, b) && SameStore(b, c)
    ensures SameStore(a, c)
  {
    SameThen(a.m.cache.entries, b.m.cache.entries, c.m.cache.entries);
  }

  lemma StoreUntouched(s: State, s': State)
    requires s'.m == s.m
    ensures SameStore(s, s')
  {
  }

  lemma EndContents(cfg: Config, m: Memory, q: Sequence, status: Status)
    ensures SameContents(m.cache.entries, EndAs(cfg, m, q, status).0.cache.entries)
  {
    hide ReleasePrefix, SameContents;
    SameEntries(m.cache.entries);
    ReleaseContents(m, q.prefixKey);
  }

  lemma AbortContents(cfg: Config, s: State, id: Id)
    ensures SameStore(s, AbortId(cfg, s, id))
  {
    hide EndAs, SameContents;
    EndContents(cfg, s.m, Get(s, id), Aborted);
  }

  lemma FinishContents(cfg: Config, m: Memory, q: Sequence)
    ensures SameContents(m.cache.entries, FinishSequence(cfg, m, q).0.cache.entries)
  {
    hide EndAs, SameContents;
    var reason := if q.reason.Some? then q.reason.value else Length;
    EndContents(cfg, m, q.(result := Some(Generation(q.output, reason))), Finished);
  }

  lemma {:induction false} AdmitContents(cfg: Config, s: State, room: nat, now: int)
    ensures SameStore(s, Admit(cfg, s, room, now).0)
    decreases room
  {
    hide Admit, Candidate, SameStore, TryAllocate;
    var c := Candidate(cfg, s, 0);
    if room == 0 || c >= |s.waiting| {
      CandidateBound(cfg, s);
      AdmitNone(cfg, s, room, now);
      StoreUntouched(s, s);
    } else {
      RoundUnfolds(cfg, s, c, room, now);
      RoundContents(cfg, s, c, now);
      if Attempted(cfg, s, c, now).ok {
        var s1 := Taken(cfg, s, c, now);
        AdmitContents(cfg, s1, room - 1, now);
        SameStoreThen(s, s1, Admit(cfg, s1, room - 1, now).0);
      }
    }
  }

  lemma CandidateBound(cfg: Config, s: State)
    ensures Candidate(cfg, s, 0) <= |s.waiting|
  {
  }

  lemma RoundContents(cfg: Config, s: State, c: nat, now: int)
    requires c < |s.waiting|
    ensures SameStore(s, Taken(cfg, s, c, now)) && SameStore(s, PutBack(cfg, s, c, now))
  {
    hide TryAllocate, SameContents;
    AttemptContents(cfg, s.m, Get(s, s.waiting[c]), now);
  }

  lemma {:induction false} AbortWaitersContents(cfg: Config, s: State)
    ensures SameStore(s, AbortWaiters(cfg, s))
    decreases |s.waiting|
  {
    hide AbortId, SameStore;
    if s.waiting == [] {
      StoreUntouched(s, s);
    } else {
      var taken := TakeWaiter(s, 0);
      var s1 := AbortId(cfg, taken, s.waiting[0]);
      StoreUntouched(s, taken);
      AbortContents(cfg, taken, s.waiting[0]);
      SameStoreThen(s, taken, s1);
      AbortKeepsQueue(cfg, taken, s.waiting[0]);
      AbortWaitersContents(cfg, s1);
      SameStoreThen(s, s1, AbortWaiters(cfg, s1));
    }
  }

  lemma AbortKeepsQueue(cfg: Config, s: State, id: Id)
    ensures AbortId(cfg, s, id).waiting == s.waiting
  {
    hide AbortOne;
  }

  lemma {:induction false} AbortRunningContents(cfg: Config, s: State, ids: seq<Id>)
    ensures SameStore(s, AbortRunning(cfg, s, ids))
    decreases |ids|
  {
    hide AbortId, SameStore;
    if ids == [] {
      StoreUntouched(s, s);
    } else {
      var s1 := if Get(s, ids[0]).signals == 0 then AbortId(cfg, s, ids[0]) else s;
      StoreUntouched(s, s);
      AbortContents(cfg, s, ids[0]);
      AbortRunningContents(cfg, s1, ids[1..]);
      SameStoreThen(s, s1, AbortRunning(cfg, s1, ids[1..]));
    }
  }

  lemma LeftoversContents(cfg: Config, s: State)
    ensures SameStore(s, AbortLeftovers(cfg, s))
  {
    hide AbortWaiters, AbortRunning, SameStore;
    var s1 := AbortWaiters(cfg, s);
    var s2 := AbortRunning(cfg, s1, s1.running);
    AbortWaitersContents(cfg, s);
    AbortRunningContents(cfg, s1, s1.running);
    SameStoreThen(s, s1, s2);
    StoreUntouched(s2, AbortLeftovers(cfg, s));
    SameStoreThen(s, s2, AbortLeftovers(cfg, s));
  }

  lemma WalksContents(cfg: Config, s: State, now: int)
    ensures s.pc.Dropping? ==> SameStore(s, StepDropping(cfg, s, now))
    ensures s.pc.Prefills? ==> SameStore(s, StepPrefills(cfg, s))
    ensures s.pc.Sweeping? ==> SameStore(s, StepSweeping(cfg, s))
    ensures s.pc.Settling? ==> SameStore(s, StepSettling(cfg, s))
  {
    hide AbortId, Admit, SameContents;
    SameEntries(s.m.cache.entries);
    if s.pc.Dropping? && s.pc.todo == [] {
      var kept := s.(running := s.pc.kept);
      AdmitContents(cfg, kept, if |kept.running| <= cfg.maxBatch then cfg.maxBatch - |kept.running| else 0, now);
    } else if (s.pc.Dropping? || s.pc.Prefills? || s.pc.Sweeping? || s.pc.Settling?) && s.pc.todo != [] {
      AbortContents(cfg, s, s.pc.todo[0]);
    }
  }

  lemma TokensContents(lm: Lm, cfg: Config, s: State, fails: bool)
    ensures s.pc.Sampled? ==> SameStore(s, StepSampled(cfg, s))
    ensures s.pc.Collecting? ==> SameStore(s, StepCollecting(lm, cfg, s, fails))
    ensures s.pc.Rows? ==> SameStore(s, StepRows(cfg, s))
    ensures s.pc.Failing? ==> SameStore(s, StepFailing(cfg, s))
  {
    hide AbortId, FinishSequence, EndAs, SameContents, NoteToken, DecodeLive;
    SameEntries(s.m.cache.entries);
    if s.pc.Sampled? {
      AbortContents(cfg, s, s.pc.id);
      FinishContents(cfg, s.m, Get(s, s.pc.id));
    } else if s.pc.Rows? && s.pc.row < |s.pc.live| && s.pc.row < |s.pc.out.logits| && s.pc.row < |s.pc.out.caches| {
      var id, row, out := s.pc.live[s.pc.row], s.pc.row, s.pc.out;
      AbortContents(cfg, s, id);
      FinishContents(cfg, s.m, NoteToken(Get(s, id), Argmax(out.logits[row])).(kv := Some(out.caches[row])));
    } else if s.pc.Failing? && s.pc.todo != [] {
      EndContents(cfg, s.m, Get(s, s.pc.todo[0]), Errored);
    }
  }

  lemma WorkContents(lm: Lm, cfg: Config, s: State, now: int, fails: bool, sampleFails: bool)
    requires !s.pc.InPrefill?
    ensures SameStore(s, WorkStep(lm, cfg, s, now, fails, sampleFails))
  {
    hide AbortLeftovers, StepDropping, StepPrefills, StepSampled;
    hide StepSweeping, StepCollecting, StepRows, StepFailing, StepSettling, SameContents;
    SameEntries(s.m.cache.entries);
    LeftoversContents(cfg, s);
    WalksContents(cfg, s, now);
    TokensContents(lm, cfg, s, fails);
  }

  lemma EnvironmentContents(lm: Lm, cfg: Config, s: State, e: Event)
    requires !e.Work?
    ensures SameStore(s, Next(lm, cfg, s, e))
  {
    hide AbortId, NeedTokens, BlocksNeeded, SameContents, IndexOf;
    SameEntries(s.m.cache.entries);
    match e {
      case AdminAbort(id) =>
        var i := IndexOf(s.waiting, id);
        if i < |s.waiting| { AbortContents(cfg, TakeWaiter(s, i), id); }
      case _ =>
    }
  }

  lemma AbortStorable(cfg: Config, s: State, id: Id)
    requires KeysStorable(s.m.cache)
    ensures KeysStorable(AbortId(cfg, s, id).m.cache)
  {
    hide EndAs, KeysStorable;
    EndStorable(cfg, s.m, Get(s, id), Aborted);
  }

  lemma PrefillStepStorable(lm: Lm, cfg: Config, s: State, now: int, fails: bool, sampleFails: bool)
    requires StateInv(lm, cfg, s) && s.pc.InPrefill? && KeysStorable(s.m.cache)
    ensures KeysStorable(WorkStep(lm, cfg, s, now, fails, sampleFails).m.cache)
  {
    hide CoreOf, Lists, Shape, Inv, AllMean, KeysStorable;
    hide SameContents, RefsOf, PrefillWithReuse, EndAs, NoteToken, AbortId;
    hide Budgeted, PrefixOk;
    Parts(lm, cfg, s);
    PrefillTarget(lm, cfg, s);
    var q := s.seqs[s.pc.id];
    if WantsAbort(q) {
      AbortStorable(cfg, s, s.pc.id);
    } else {
      var p := PrefillWithReuse(lm, cfg, s.m, q.(status := Prefilling), now, fails);
      SameBudget(lm, cfg, s.m, q, q.(status := Prefilling));
      PrefillStorable(lm, cfg, s.m, q.(status := Prefilling), now, fails);
      EndStorable(cfg, p.m, p.q, Errored);
    }
  }

  lemma EndStorable(cfg: Config, m: Memory, q: Sequence, status: Status)
    requires KeysStorable(m.cache)
    ensures KeysStorable(EndAs(cfg, m, q, status).0.cache)
  {
    hide EndAs, KeysStorable, SameContents;
    EndContents(cfg, m, q, status);
    EndSizes(cfg, m, q, status);
    ContentsStorable(m.cache, EndAs(cfg, m, q, status).0.cache);
  }

  lemma NextStorable(lm: Lm, cfg: Config, s: State, e: Event)
    requires StateInv(lm, cfg, s) && KeysStorable(s.m.cache)
    ensures KeysStorable(Next(lm, cfg, s, e).m.cache)
  {
    hide StateInv, KeysStorable, SameContents, WorkStep, StepInPrefill, AllOnward;
    if e.Work? && s.pc.InPrefill? {
      PrefillStepStorable(lm, cfg, s, e.now, e.fails, e.sampleFails);
    } else {
      NextOnward(lm, cfg, s, e);
      if e.Work? {
        WorkContents(lm, cfg, s, e.now, e.fails, e.sampleFails);
      } else {
        EnvironmentContents(lm, cfg, s, e);
      }
      ContentsStorable(s.m.cache, Next(lm, cfg, s, e).m.cache);
    }
  }

  lemma {:induction false} ServeStorable(lm: Lm, cfg: Config, u: Setup, events: seq<Event>)
    ensures KeysStorable(Serve(lm, cfg, Init(u), events).m.cache)
  {
    hide StateInv, Next, KeysStorable;
    if events == [] {
      NothingStoredYet(u);
    } else {
      var before := Serve(lm, cfg, Init(u), events[..|events| - 1]);
      InitHolds(lm, cfg, u);
      ServeKeeps(lm, cfg, Init(u), events[..|events| - 1]);
      ServeStorable(lm, cfg, u, events[..|events| - 1]);
      NextStorable(lm, cfg, before, events[|events| - 1]);
    }
  }

  lemma NothingStoredYet(u: Setup)
    ensures KeysStorable(Init(u).m.cache)
  {
  }

  // No run ever leaves a prompt length stored that has too many candidate lengths.
  lemma StoredKeysAreStorable(lm: Lm, cfg: Config, s: State)
    requires Reachable(lm, cfg, s)
    ensures KeysStorable(s.m.cache)
  {
    hide Serve, Init, KeysStorable;
    var u: Setup, events: seq<Event> :| s == Serve(lm, cfg, Init(u), events);
    ServeStorable(lm, cfg, u, events);
  }
}
