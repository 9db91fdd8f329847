// What one step may do to the past: records only move on, a terminal one never changes again
// (but for its abort flag), and the memory keeps its sizes.
module WorkerHistory {
  import opened Common
  import opened KvCache
  import opened LanguageModel
  import opened Engines
  import opened Generation
  import opened Sequences
  import opened BlockPool
  import opened PrefixCache
  import opened PrefixLaws
  import opened PrefixOps
  import opened Scheduler
  import opened Lifecycle
  import opened Worker
  import opened WorkerCore
  import opened WorkerRecords
  import opened WorkerInvariant
  import opened WorkerAdmits
  import opened WorkerEnvironment
  import opened WorkerRuns

  ghost predicate Onward(q: Sequence, q': Sequence) {
    && q'.id == q.id && q'.req == q.req
    && q.output <= q'.output && q.pushed <= q'.pushed
    && (q.abortRequested ==> q'.abortRequested)
    && (Terminal(q.status) ==> q' == q.(abortRequested := q'.abortRequested))
  }

  ghost predicate AllOnward(s: State, s': State) {
    && SameConfig(s.m, s'.m) && s'.submitted == s.submitted
    && forall id :: id in s.seqs ==> id in s'.seqs && Onward(s.seqs[id], s'.seqs[id])
  }

  // The same for steps that may accept a new request.
  ghost predicate Later(s: State, s': State) {
    && SameConfig(s.m, s'.m) && s.submitted <= s'.submitted
    && forall id :: id in s.seqs ==> id in s'.seqs && Onward(s.seqs[id], s'.seqs[id])
  }

  lemma LaterTransitive(a: State, b: State, c: State)
    requires Later(a, b) && Later(b, c)
    ensures Later(a, c)
  {
    forall id | id in a.seqs ensures id in c.seqs && Onward(a.seqs[id], c.seqs[id]) {
      assert Onward(a.seqs[id], b.seqs[id]) && Onward(b.seqs[id], c.seqs[id]);
    }
  }

  lemma OnwardTransitive(a: State, b: State, c: State)
    requires AllOnward(a, b) && AllOnward(b, c)
    ensures AllOnward(a, c)
  {
    forall id | id in a.seqs ensures id in c.seqs && Onward(a.seqs[id], c.seqs[id]) {
      assert Onward(a.seqs[id], b.seqs[id]) && Onward(b.seqs[id], c.seqs[id]);
    }
  }

  // ---- Memory keeps its sizes ----

  lemma EndSizes(cfg: Config, m: Memory, q: Sequence, status: Status)
    ensures SameConfig(m, EndAs(cfg, m, q, status).0)
  {
    hide Unpin;
  }

  lemma LookupSizes(m: Memory, ids: Key, now: int)
    ensures SameConfig(m, Lookup(m, ids, now).0)
  {
    hide Pin, Peek, Find, ShareFromLive;
  }

  lemma TryAllocateSizes(cfg: Config, m: Memory, q: Sequence, now: int)
    ensures SameConfig(m, TryAllocate(cfg, m, q, now).m)
  {
    hide Lookup, Unpin;
    LookupSizes(m, q.req.prompt, now);
  }

  lemma {:induction false} EvictSizes(m: Memory)
    ensures SameConfig(m, Evict(m))
    decreases |m.cache.entries|
  {
    var v := LeastUsed(m.cache.entries);
    if |m.cache.entries| >= m.cache.maxEntries && v < |m.cache.entries| {
      var u := UnpinBlocks(m, m.cache.entries[v].blockIds);
      EvictSizes(u.(cache := u.cache.(entries := Without(m.cache.entries, v))));
    }
  }

  lemma {:induction false} InsertSizes(m: Memory, ids: Key, kv: Cache, logits: Option<Logits>, lengths: seq<nat>,
          now: int)
    ensures SameConfig(m, InsertAll(m, ids, kv, logits, lengths, now))
  {
    hide Find, Evict;
    if lengths != [] {
      var k := |lengths| - 1;
      InsertSizes(m, ids, kv, logits, lengths[..k], now);
      EvictSizes(InsertAll(m, ids, kv, logits, lengths[..k], now));
    }
  }

  lemma StoreSizes(m: Memory, q: Sequence, out: Output, now: int)
    ensures SameConfig(m, Store(m, q, out, now).0)
  {
    hide InsertAll, Find, Pin, ShareFromLive, CandidateLengths;
    InsertSizes(m, q.req.prompt, out.cache, Some(out.logits), CandidateLengths(m.cache, |q.req.prompt|), now);
  }

  lemma PrefillSizes(lm: Lm, cfg: Config, m: Memory, q: Sequence, now: int, fails: bool)
    ensures SameConfig(m, PrefillWithReuse(lm, cfg, m, q, now, fails).m)
  {
    hide Lookup, Store, Reuse;
    LookupSizes(m, q.req.prompt, now);
    var (m1, q1) := BindPrefixAtPrefill(cfg, m, q, now);
    var out := if fails then Err else Reuse(lm, q1);
    if out.Ok? { StoreSizes(m1, q1, out.value, now); }
  }

  // ---- One record moves on ----

  lemma PutOnward(s: State, s': State, id: Id)
    requires SameConfig(s.m, s'.m) && s'.submitted == s.submitted && SameBut(s, s', id)
    requires Onward(s.seqs[id], s'.seqs[id])
    ensures AllOnward(s, s')
  {
  }

  lemma SamePast(s: State, s': State)
    requires SameConfig(s.m, s'.m) && s'.submitted == s.submitted && s'.seqs == s.seqs
    ensures AllOnward(s, s')
  {
  }

  lemma EndOnward(cfg: Config, m: Memory, q: Sequence, status: Status)
    requires !Terminal(q.status)
    ensures Onward(q, EndAs(cfg, m, q, status).1) && EndAs(cfg, m, q, status).1.id == q.id
  {
    hide ReleasePrefix;
  }

  lemma AbortOnward(cfg: Config, s: State, id: Id)
    requires id in s.seqs && !Terminal(s.seqs[id].status) && s.seqs[id].id == id
    ensures AllOnward(s, AbortId(cfg, s, id))
  {
    hide EndAs, Onward, SameConfig;
    EndSizes(cfg, s.m, s.seqs[id], Aborted);
    EndOnward(cfg, s.m, s.seqs[id], Aborted);
    PutOnward(s, AbortId(cfg, s, id), id);
  }

  // ---- The worker's steps ----

  ghost predicate Known(s: State, ids: seq<Id>) {
    forall id :: id in ids ==> id in s.seqs && s.seqs[id].id == id && !Terminal(s.seqs[id].status)
  }

  lemma TryAllocateOnward(cfg: Config, m: Memory, q: Sequence, now: int)
    requires !Terminal(q.status)
    ensures var t := TryAllocate(cfg, m, q, now); Onward(q, t.q) && t.q.id == q.id && t.q.status == q.status
  {
    hide Lookup, ReleasePrefix, Reserve;
  }

  lemma TakenOnward(cfg: Config, s: State, c: nat, now: int)
    requires Known(s, s.waiting) && c < |s.waiting|
    ensures var t := TryAllocate(cfg, s.m, s.seqs[s.waiting[c]], now);
      var s1 := Put(TakeWaiter(s, c), (t.m, t.q));
      AllOnward(s, s1) && Known(s1, s1.waiting)
  {
    hide TryAllocate, Onward, SameConfig, AllOnward;
    var id := s.waiting[c];
    var t := TryAllocate(cfg, s.m, s.seqs[id], now);
    TryAllocateSizes(cfg, s.m, s.seqs[id], now);
    TryAllocateOnward(cfg, s.m, s.seqs[id], now);
    var s1 := Put(TakeWaiter(s, c), (t.m, t.q));
    assert forall x :: x in s1.waiting ==> x in s.waiting;
    PutOnward(s, s1, id);
  }

  lemma FailedOnward(cfg: Config, s: State, c: nat, now: int)
    requires Known(s, s.waiting) && c < |s.waiting|
    ensures AllOnward(s, PushFront(TakeWaiter(s, c).(m := TryAllocate(cfg, s.m, s.seqs[s.waiting[c]], now).m),
      s.waiting[c]))
  {
    hide TryAllocate, SameConfig, AllOnward;
    TryAllocateSizes(cfg, s.m, s.seqs[s.waiting[c]], now);
    SamePast(s, PushFront(TakeWaiter(s, c).(m := TryAllocate(cfg, s.m, s.seqs[s.waiting[c]], now).m), s.waiting[c]));
  }

  lemma {:induction false} AdmitOnward(cfg: Config, s: State, room: nat, now: int)
    requires Known(s, s.waiting)
    ensures AllOnward(s, Admit(cfg, s, room, now).0)
    decreases room
  {
    hide TryAllocate, Fits, AllOnward, Known, Put, TakeWaiter, PushFront;
    if room == 0 || Candidate(cfg, s, 0) == |s.waiting| {
      SamePast(s, s);
    } else {
      var c := Candidate(cfg, s, 0);
      KnownGet(s, c);
      var t := TryAllocate(cfg, s.m, s.seqs[s.waiting[c]], now);
      if t.ok {
        var s1 := Put(TakeWaiter(s, c), (t.m, t.q));
        TakenOnward(cfg, s, c, now);
        AdmitOnward(cfg, s1, room - 1, now);
        OnwardTransitive(s, s1, Admit(cfg, s1, room - 1, now).0);
      } else {
        FailedOnward(cfg, s, c, now);
      }
    }
  }

  lemma KnownGet(s: State, c: nat)
    requires Known(s, s.waiting) && c < |s.waiting|
    ensures s.waiting[c] in s.seqs && Get(s, s.waiting[c]) == s.seqs[s.waiting[c]]
  {
  }

  lemma SameSizes(m: Memory)
    ensures SameConfig(m, m)
  {
  }

  lemma {:induction false} AbortWaitersOnward(lm: Lm, cfg: Config, s: State, hands: seq<Id>)
    requires CoreOf(lm, cfg, s) && Lists(cfg, s, hands)
    ensures AllOnward(s, AbortWaiters(cfg, s))
    decreases |s.waiting|
  {
    hide CoreOf, Lists, AllOnward, AbortId, NoDup;
    if s.waiting == [] {
      SamePast(s, s);
    } else {
      var id := s.waiting[0];
      var s1 := AbortId(cfg, TakeWaiter(s, 0), id);
      AbortWaiterKeeps(lm, cfg, s, 0, hands);
      WaiterIsLive(lm, cfg, s, hands, id);
      AbortOnward(cfg, TakeWaiter(s, 0), id);
      SamePast(s, TakeWaiter(s, 0));
      OnwardTransitive(s, TakeWaiter(s, 0), s1);
      AbortWaitersOnward(lm, cfg, s1, hands);
      OnwardTransitive(s, s1, AbortWaiters(cfg, s1));
    }
  }

  lemma WaiterIsLive(lm: Lm, cfg: Config, s: State, hands: seq<Id>, id: Id)
    requires CoreOf(lm, cfg, s) && Lists(cfg, s, hands) && id in s.waiting
    ensures id in s.seqs && s.seqs[id].id == id && !Terminal(s.seqs[id].status)
  {
    hide Core;
    CoreAt(lm, cfg, s.m, s.waiting, s.seqs, id);
  }

  lemma {:induction false} AbortRunningOnward(lm: Lm, cfg: Config, s: State, ids: seq<Id>)
    requires CoreOf(lm, cfg, s) && Lists(cfg, s, ids) && AllDecoding(s, ids)
    ensures AllOnward(s, AbortRunning(cfg, s, ids))
    decreases |ids|
  {
    hide CoreOf, Lists, AllOnward, AbortId, NoDup;
    if ids == [] {
      SamePast(s, s);
    } else {
      assert [] + ids == ids && [] + ids[1..] == ids[1..];
      TailIn(ids);
      DecodingUnsignalled(lm, cfg, s, ids[0]);
      AbortInWalk(lm, cfg, s, [], ids);
      var s1 := AbortId(cfg, s, ids[0]);
      Frame(s, s1, ids[0], ids, ids[1..]);
      IdOf(lm, cfg, s, ids[0]);
      AbortOnward(cfg, s, ids[0]);
      AbortRunningOnward(lm, cfg, s1, ids[1..]);
      OnwardTransitive(s, s1, AbortRunning(cfg, s1, ids[1..]));
    }
  }

  lemma IdOf(lm: Lm, cfg: Config, s: State, id: Id)
    requires CoreOf(lm, cfg, s) && id in s.seqs
    ensures s.seqs[id].id == id
  {
    hide Core;
    CoreAt(lm, cfg, s.m, s.waiting, s.seqs, id);
  }

  lemma AbortLeftoversOnward(lm: Lm, cfg: Config, s: State)
    requires CoreOf(lm, cfg, s) && Lists(cfg, s, s.running) && AllDecoding(s, s.running)
    ensures AllOnward(s, AbortLeftovers(cfg, s))
  {
    hide CoreOf, Lists, AllOnward, AbortWaiters, AbortRunning;
    var s1 := AbortWaiters(cfg, s);
    AbortWaitersKeeps(lm, cfg, s, s.running);
    AbortWaitersOnward(lm, cfg, s, s.running);
    AbortRunningOnward(lm, cfg, s1, s1.running);
    var s2 := AbortRunning(cfg, s1, s1.running);
    OnwardTransitive(s, s1, s2);
    SamePast(s2, AbortLeftovers(cfg, s));
    OnwardTransitive(s, s2, AbortLeftovers(cfg, s));
  }

  lemma OnwardFrame(s: State, s1: State, s2: State)
    requires AllOnward(s, s1) && s2.m == s1.m && s2.seqs == s1.seqs && s2.submitted == s1.submitted
    ensures AllOnward(s, s2)
  {
  }

  // Every id the worker holds is a known live sequence, unless the decode step has ended it.
  lemma HandKnown(lm: Lm, cfg: Config, s: State, id: Id)
    requires CoreOf(lm, cfg, s) && id in s.seqs
    ensures s.seqs[id].id == id && (s.seqs[id].status.Decoding? ==> !Terminal(s.seqs[id].status))
  {
    IdOf(lm, cfg, s, id);
  }

  lemma WalksOnward(lm: Lm, cfg: Config, s: State, now: int)
    requires CoreOf(lm, cfg, s) && Shape(lm, s)
    ensures s.pc.Dropping? && s.pc.todo != [] ==> AllOnward(s, StepDropping(cfg, s, now))
    ensures s.pc.Prefills? ==> AllOnward(s, StepPrefills(cfg, s))
    ensures s.pc.Sweeping? ==> AllOnward(s, StepSweeping(cfg, s))
    ensures s.pc.Settling? ==> AllOnward(s, StepSettling(cfg, s))
  {
    hide CoreOf, AllOnward, AbortId;
    SamePast(s, s);
    if (s.pc.Dropping? || s.pc.Prefills? || s.pc.Sweeping? || s.pc.Settling?) && s.pc.todo != [] {
      var id := s.pc.todo[0];
      TailIn(s.pc.todo);
      HandKnown(lm, cfg, s, id);
      assert s.pc.Dropping? ==> id in s.pc.kept + s.pc.todo;
      if !Terminal(s.seqs[id].status) { AbortOnward(cfg, s, id); }
      var s1 := if WantsAbort(s.seqs[id]) && !Terminal(s.seqs[id].status) then AbortId(cfg, s, id) else s;
      forall pc { OnwardFrame(s, s1, s1.(pc := pc)); }
    } else {
      forall pc, running { OnwardFrame(s, s, s.(running := running, pc := pc)); }
    }
  }

  lemma DroppingDoneOnward(lm: Lm, cfg: Config, s: State, now: int)
    requires CoreOf(lm, cfg, s) && Lists(cfg, s, Hands(s)) && s.pc.Dropping? && s.pc.todo == []
    ensures AllOnward(s, StepDropping(cfg, s, now))
  {
    hide CoreOf, AllOnward, Admit, Lists;
    forall id | id in s.waiting ensures id in s.seqs && s.seqs[id].id == id && !Terminal(s.seqs[id].status) {
      WaiterIsLive(lm, cfg, s, Hands(s), id);
    }
    var kept := s.(running := s.pc.kept);
    var room := if |kept.running| <= cfg.maxBatch then cfg.maxBatch - |kept.running| else 0;
    SamePast(s, kept);
    AdmitOnward(cfg, kept, room, now);
    OnwardTransitive(s, kept, Admit(cfg, kept, room, now).0);
    OnwardFrame(s, Admit(cfg, kept, room, now).0, StepDropping(cfg, s, now));
  }

  // ---- Prefill ----

  lemma NoteOnward(q: Sequence, token: Token, kv: Cache)
    requires !Terminal(q.status)
    ensures Onward(q, NoteToken(q, token).(kv := Some(kv)))
  {
  }

  lemma ThenOnward(q: Sequence, q1: Sequence, q2: Sequence)
    requires Onward(q, q1) && Onward(q1, q2)
    ensures Onward(q, q2)
  {
  }

  lemma PrefillOnward(lm: Lm, cfg: Config, s: State, now: int, fails: bool, sampleFails: bool)
    requires CoreOf(lm, cfg, s) && Lists(cfg, s, Hands(s)) && Shape(lm, s) && s.pc.InPrefill?
    ensures AllOnward(s, StepInPrefill(lm, cfg, s, now, fails, sampleFails))
  {
    hide Core, Lists, AllOnward, AbortId, PrefillWithReuse, EndAs, NoteToken, Onward, SameConfig;
    var id := s.pc.id;
    TailIn([id] + s.pc.todo);
    IdOf(lm, cfg, s, id);
    var q := s.seqs[id];
    if WantsAbort(q) {
      AbortOnward(cfg, s, id);
      OnwardFrame(s, AbortId(cfg, s, id), StepInPrefill(lm, cfg, s, now, fails, sampleFails));
    } else {
      var p := PrefillWithReuse(lm, cfg, s.m, q.(status := Prefilling), now, fails);
      PrefillCore(lm, cfg, s.m, s.waiting, s.seqs, id, now, fails);
      PrefillSizes(lm, cfg, s.m, q.(status := Prefilling), now, fails);
      PrefilledOnward(q, p.q);
      var s' := StepInPrefill(lm, cfg, s, now, fails, sampleFails);
      if p.out.Err? || sampleFails {
        EndSizes(cfg, p.m, p.q, Errored);
        EndOnward(cfg, p.m, p.q, Errored);
        ThenOnward(q, p.q, FailOne(cfg, p.m, p.q).1);
        SizesThen(s.m, p.m, FailOne(cfg, p.m, p.q).0);
        PutOnward(s, s', id);
      } else {
        var noted := NoteToken(p.q, Argmax(p.out.value.logits)).(kv := Some(p.out.value.cache));
        NoteOnward(p.q, Argmax(p.out.value.logits), p.out.value.cache);
        ThenOnward(q, p.q, noted);
        NotedId(p.q, noted);
        PutOnward(s, s', id);
      }
    }
  }

  lemma NotedId(q: Sequence, q': Sequence)
    requires Onward(q, q')
    ensures q'.id == q.id
  {
  }

  lemma PrefilledOnward(q: Sequence, q': Sequence)
    requires q.status.Waiting? && SameProgress(q.(status := Prefilling), q')
    ensures Onward(q, q') && q'.id == q.id && !Terminal(q'.status)
  {
  }

  lemma SizesThen(a: Memory, b: Memory, c: Memory)
    requires SameConfig(a, b) && SameConfig(b, c)
    ensures SameConfig(a, c)
  {
  }

  // A record that notes a token may be finished by it.
  lemma FinishOnward(cfg: Config, m: Memory, q: Sequence)
    requires !Terminal(q.status)
    ensures Onward(q, FinishSequence(cfg, m, q).1) && FinishSequence(cfg, m, q).1.id == q.id
    ensures SameConfig(m, FinishSequence(cfg, m, q).0)
  {
    hide EndAs;
    var reason := if q.reason.Some? then q.reason.value else Length;
    var q1 := q.(result := Some(Generation(q.output, reason)));
    EndOnward(cfg, m, q1, Finished);
    EndSizes(cfg, m, q1, Finished);
  }

  lemma SampledOnward(lm: Lm, cfg: Config, s: State)
    requires CoreOf(lm, cfg, s) && Shape(lm, s) && s.pc.Sampled?
    ensures AllOnward(s, StepSampled(cfg, s))
  {
    hide Core, AllOnward, AbortId, FinishSequence, SameConfig;
    var id := s.pc.id;
    var q := s.seqs[id];
    IdOf(lm, cfg, s, id);
    if WantsAbort(q) {
      AbortOnward(cfg, s, id);
      OnwardFrame(s, AbortId(cfg, s, id), StepSampled(cfg, s));
    } else if q.reason.Some? {
      FinishOnward(cfg, s.m, q);
      PutOnward(s, StepSampled(cfg, s), id);
    } else {
      SameSizes(s.m);
      PutOnward(s, StepSampled(cfg, s), id);
    }
  }

  // ---- Decode ----

  lemma RowsOnward(lm: Lm, cfg: Config, s: State)
    requires CoreOf(lm, cfg, s) && Shape(lm, s) && s.pc.Rows?
    ensures AllOnward(s, StepRows(cfg, s))
  {
    hide Core, AllOnward, AbortId, FinishSequence, SameConfig, NoteToken, Onward, RowTrue;
    var live, row, out := s.pc.live, s.pc.row, s.pc.out;
    SameSizes(s.m);
    if row == |live| {
      SamePast(s, StepRows(cfg, s));
    } else {
      var id := live[row];
      var q := s.seqs[id];
      IdOf(lm, cfg, s, id);
      if WantsAbort(q) {
        AbortOnward(cfg, s, id);
        OnwardFrame(s, AbortId(cfg, s, id), StepRows(cfg, s));
      } else {
        var noted := NoteToken(q, Argmax(out.logits[row])).(kv := Some(out.caches[row]));
        NoteOnward(q, Argmax(out.logits[row]), out.caches[row]);
        NotedId(q, noted);
        NotedStatus(q, Argmax(out.logits[row]));
        if noted.reason.Some? {
          FinishOnward(cfg, s.m, noted);
          ThenOnward(q, noted, FinishSequence(cfg, s.m, noted).1);
        }
        PutOnward(s, StepRows(cfg, s), id);
      }
    }
  }

  lemma NotedStatus(q: Sequence, token: Token)
    ensures NoteToken(q, token).status == q.status
  {
  }

  lemma FailingOnward(lm: Lm, cfg: Config, s: State)
    requires CoreOf(lm, cfg, s) && Shape(lm, s) && s.pc.Failing?
    ensures AllOnward(s, StepFailing(cfg, s))
  {
    hide Core, AllOnward, EndAs, SameConfig, Onward;
    SameSizes(s.m);
    if s.pc.todo == [] {
      SamePast(s, StepFailing(cfg, s));
    } else {
      var id := s.pc.todo[0];
      IdOf(lm, cfg, s, id);
      EndSizes(cfg, s.m, s.seqs[id], Errored);
      EndOnward(cfg, s.m, s.seqs[id], Errored);
      PutOnward(s, StepFailing(cfg, s), id);
    }
  }

  lemma WorkOnward(lm: Lm, cfg: Config, s: State, now: int, fails: bool, sampleFails: bool)
    requires StateInv(lm, cfg, s)
    ensures AllOnward(s, WorkStep(lm, cfg, s, now, fails, sampleFails))
  {
    hide StateInv, CoreOf, Lists, AllOnward, AbortLeftovers, StepDropping, StepPrefills, StepInPrefill, StepSampled;
    hide StepSweeping, StepRows, StepFailing, StepSettling, AllRun;
    hide AllAdmitted, RowsTrue, Among, DecodeLive, SameConfig;
    Parts(lm, cfg, s);
    SameSizes(s.m);
    SamePast(s, s);
    WalksOnward(lm, cfg, s, now);
    match s.pc
    case Top => if s.stop { AbortLeftoversOnward(lm, cfg, s); } else { SamePast(s, StepTop(cfg, s)); }
    case Blocked(woken) =>
      assert AllDecoding(s, s.running);
      if woken && s.stop { AbortLeftoversOnward(lm, cfg, s); } else { SamePast(s, StepBlocked(cfg, s)); }
    case Dropping(todo, _) => if todo == [] { DroppingDoneOnward(lm, cfg, s, now); }
    case Prefills(_) =>
    case InPrefill(_, _) => PrefillOnward(lm, cfg, s, now, fails, sampleFails);
    case Sampled(_, _) => SampledOnward(lm, cfg, s);
    case Sweeping(_) =>
    case Collecting(_, _) => SamePast(s, StepCollecting(lm, cfg, s, fails));
    case Rows(_, _, _) => RowsOnward(lm, cfg, s);
    case Failing(_) => FailingOnward(lm, cfg, s);
    case Settling(_, _) =>
    case Stopped =>
  }

  // ---- The environment's steps ----

  lemma FlagOnward(s: State, id: Id)
    ensures AllOnward(s, StepRequestAbort(s, id))
  {
  }

  lemma AdminAbortOnward(lm: Lm, cfg: Config, s: State, id: Id)
    requires StateInv(lm, cfg, s)
    ensures AllOnward(s, StepAdminAbort(cfg, s, id))
  {
    hide Core, Lists, Shape, AllOnward, AbortId, StepRequestAbort;
    var i := IndexOf(s.waiting, id);
    if i < |s.waiting| {
      WaiterIsLive(lm, cfg, s, Hands(s), id);
      var taken := TakeWaiter(s, i);
      SamePast(s, taken);
      AbortOnward(cfg, taken, id);
      OnwardTransitive(s, taken, AbortId(cfg, taken, id));
    } else {
      SamePast(s, s);
      FlagOnward(s, id);
    }
  }

  lemma SubmitLater(cfg: Config, s: State, id: Id, req: Request)
    ensures Later(s, StepSubmit(cfg, s, id, req))
  {
    hide NeedTokens, BlocksNeeded;
  }

  lemma OnwardIsLater(s: State, s': State)
    requires AllOnward(s, s')
    ensures Later(s, s')
  {
  }

  lemma NextOnward(lm: Lm, cfg: Config, s: State, e: Event)
    requires StateInv(lm, cfg, s)
    ensures Later(s, Next(lm, cfg, s, e))
    ensures !e.Submit? ==> AllOnward(s, Next(lm, cfg, s, e))
  {
    hide StateInv, AllOnward, Later, WorkStep, StepSubmit, StepRequestAbort, StepAdminAbort;
    match e {
      case Submit(id, req) => SubmitLater(cfg, s, id, req);
      case RequestAbort(id) => FlagOnward(s, id);
      case AdminAbort(id) => AdminAbortOnward(lm, cfg, s, id);
      case RequestStop => SamePast(s, Next(lm, cfg, s, e));
      case Work(now, fails, sampleFails) => WorkOnward(lm, cfg, s, now, fails, sampleFails);
    }
    if !e.Submit? { OnwardIsLater(s, Next(lm, cfg, s, e)); }
  }

  lemma {:induction false} ServeOnward(lm: Lm, cfg: Config, s: State, events: seq<Event>)
    requires StateInv(lm, cfg, s)
    ensures Later(s, Serve(lm, cfg, s, events))
  {
    hide StateInv, Later, Next;
    if events == [] {
      SamePast(s, s);
      OnwardIsLater(s, s);
    } else {
      var before := Serve(lm, cfg, s, events[..|events| - 1]);
      ServeKeeps(lm, cfg, s, events[..|events| - 1]);
      ServeOnward(lm, cfg, s, events[..|events| - 1]);
      NextOnward(lm, cfg, before, events[|events| - 1]);
      LaterTransitive(s, before, Serve(lm, cfg, s, events));
    }
  }

  // Once terminal, a sequence keeps its status, output, result and what it pushed for ever; and
  // nothing pushed to a live one is ever taken back.
  lemma TerminalIsFinal(lm: Lm, cfg: Config, s: State, events: seq<Event>, id: Id)
    requires Reachable(lm, cfg, s) && id in s.seqs
    ensures var s' := Serve(lm, cfg, s, events);
      && id in s'.seqs && s.seqs[id].output <= s'.seqs[id].output && s.seqs[id].pushed <= s'.seqs[id].pushed
      && (Terminal(s.seqs[id].status) ==> s'.seqs[id] == s.seqs[id].(abortRequested := s'.seqs[id].abortRequested))
  {
    hide StateInv, CoreOf, Lists, Shape;
    ReachableHolds(lm, cfg, s);
    ServeOnward(lm, cfg, s, events);
    assert Onward(s.seqs[id], Serve(lm, cfg, s, events).seqs[id]);
  }
}
