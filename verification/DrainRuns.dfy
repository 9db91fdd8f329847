// The drain theorems: an iteration is short, an iteration with work makes progress, and so a run
// without new submissions ends every request after a number of worker steps known beforehand.
module DrainRuns {
  import opened Common
  import opened KvCache
  import opened LanguageModel
  import opened Engines
  import opened Generation
  import opened Sequences
  import opened BlockPool
  import opened PrefixCache
  import opened PrefixLaws
  import opened PrefixOps
  import opened Scheduler
  import opened Lifecycle
  import opened Worker
  import opened WorkerCore
  import opened WorkerRecords
  import opened WorkerInvariant
  import opened WorkerAdmits
  import opened WorkerEnvironment
  import opened WorkerSteps
  import opened WorkerRuns
  import opened WorkerHistory
  import opened StoredKeys
  import opened StoredRuns
  import opened EmptyBatch
  import opened Drain

  // ---- Iterations are short ----

  // At most so many worker steps until the loop is back at its top.
  function StepsLeft(cfg: Config, s: State): nat {
    match s.pc
    case Dropping(todo, kept) => |todo| + 7 * cfg.maxBatch + 6
    case Prefills(todo) => 7 * |todo| + 4 * |s.running| + 5
    case InPrefill(id, todo) => 7 * |todo| + 4 * |s.running| + 11
    case Sampled(id, todo) => 7 * |todo| + 4 * |s.running| + 10
    case Sweeping(todo) => |todo| + 3 * |s.running| + 4
    case Collecting(todo, live) => 2 * |todo| + |live| + |s.running| + 3
    case Rows(live, row, out) => (if row <= |live| then |live| - row else 0) + |s.running| + 2
    case Failing(todo) => |todo| + |s.running| + 2
    case Settling(todo, still) => |todo| + 1
    case _ => 0
  }

  // Aborting, noting and finishing change records, not lists.
  lemma PutKeepsLists(cfg: Config, s: State, id: Id, mq: (Memory, Sequence))
    ensures Put(s, mq).running == s.running && Put(s, mq).pc == s.pc
    ensures AbortId(cfg, s, id).running == s.running && AbortId(cfg, s, id).pc == s.pc
  {
    hide AbortOne;
  }

  lemma WalksFall(lm: Lm, cfg: Config, s: State, now: int)
    ensures s.pc.Dropping? && s.pc.todo != [] ==> StepsLeft(cfg, StepDropping(cfg, s, now)) < StepsLeft(cfg, s)
    ensures s.pc.Prefills? ==> StepsLeft(cfg, StepPrefills(cfg, s)) < StepsLeft(cfg, s)
    ensures s.pc.Sweeping? ==> StepsLeft(cfg, StepSweeping(cfg, s)) < StepsLeft(cfg, s)
    ensures s.pc.Settling? ==> StepsLeft(cfg, StepSettling(cfg, s)) < StepsLeft(cfg, s)
  {
    hide AbortId, Put, Admit;
    if (s.pc.Dropping? || s.pc.Prefills? || s.pc.Sweeping? || s.pc.Settling?) && s.pc.todo != [] {
      PutKeepsLists(cfg, s, s.pc.todo[0], (s.m, NewSequence(0, Request([], 1, {}))));
    }
  }

  lemma AdmissionFalls(lm: Lm, cfg: Config, s: State, now: int)
    requires CoreOf(lm, cfg, s) && Lists(cfg, s, Hands(s)) && s.pc.Dropping? && s.pc.todo == []
    ensures StepsLeft(cfg, StepDropping(cfg, s, now)) < StepsLeft(cfg, s)
  {
    hide Core, Lists, Admit;
    var held := s.pc.kept;
    assert s.pc.kept + s.pc.todo == held;
    var kept := s.(running := held);
    ListsOf(cfg, s, kept, held);
    HandsBounded(cfg, kept, held);
    AdmitKeeps(lm, cfg, kept, held, cfg.maxBatch - |held|, now);
  }

  lemma PrefillFalls(lm: Lm, cfg: Config, s: State, now: int, fails: bool, sampleFails: bool)
    ensures s.pc.InPrefill? ==> StepsLeft(cfg, StepInPrefill(lm, cfg, s, now, fails, sampleFails)) < StepsLeft(cfg, s)
    ensures s.pc.Sampled? ==> StepsLeft(cfg, StepSampled(cfg, s)) < StepsLeft(cfg, s)
  {
    hide AbortId, PrefillWithReuse, NoteToken, FailOne, FinishSequence;
    if s.pc.InPrefill? || s.pc.Sampled? {
      PutKeepsLists(cfg, s, s.pc.id, (s.m, NewSequence(0, Request([], 1, {}))));
    }
  }

  lemma DecodeFalls(lm: Lm, cfg: Config, s: State, fails: bool)
    ensures s.pc.Collecting? ==> StepsLeft(cfg, StepCollecting(lm, cfg, s, fails)) < StepsLeft(cfg, s)
    ensures s.pc.Rows? ==> StepsLeft(cfg, StepRows(cfg, s)) < StepsLeft(cfg, s)
    ensures s.pc.Failing? ==> StepsLeft(cfg, StepFailing(cfg, s)) < StepsLeft(cfg, s)
  {
    hide AbortId, DecodeLive, NoteToken, FailOne, FinishSequence;
    if s.pc.Rows? && s.pc.row < |s.pc.live| {
      PutKeepsLists(cfg, s, s.pc.live[s.pc.row], (s.m, NewSequence(0, Request([], 1, {}))));
    }
  }

  lemma StepsFall(lm: Lm, cfg: Config, s: State, now: int, fails: bool, sampleFails: bool)
    requires StateInv(lm, cfg, s) && !AtRest(s)
    ensures StepsLeft(cfg, WorkStep(lm, cfg, s, now, fails, sampleFails)) < StepsLeft(cfg, s)
  {
    hide StateInv, CoreOf, Lists, Shape, StepsLeft, StepDropping, StepPrefills, StepInPrefill, StepSampled;
    hide StepSweeping, StepCollecting, StepRows, StepFailing, StepSettling;
    Parts(lm, cfg, s);
    WalksFall(lm, cfg, s, now);
    PrefillFalls(lm, cfg, s, now, fails, sampleFails);
    DecodeFalls(lm, cfg, s, fails);
    if s.pc.Dropping? && s.pc.todo == [] { AdmissionFalls(lm, cfg, s, now); }
  }

  lemma EnvironmentWaits(lm: Lm, cfg: Config, s: State, e: Event)
    requires !e.Work?
    ensures StepsLeft(cfg, Next(lm, cfg, s, e)) == StepsLeft(cfg, s)
    ensures AtRest(Next(lm, cfg, s, e)) <==> AtRest(s)
  {
    hide NeedTokens, BlocksNeeded, EndAs;
  }

  // ---- An iteration with work makes progress ----

  lemma ServedThen(cfg: Config, s: State, s1: State, s2: State, w: Id)
    requires Served(cfg, s, s1, w) && Later(s, s1) && Later(s1, s2) && (Due(cfg, s1, w) ==> Served(cfg, s1, s2, w))
    ensures Served(cfg, s, s2, w)
  {
    assert Onward(s.seqs[w], s1.seqs[w]) && Onward(s1.seqs[w], s2.seqs[w]);
  }

  lemma ServedNow(cfg: Config, s: State, w: Id)
    requires Due(cfg, s, w)
    ensures Served(cfg, s, s, w)
  {
  }

  lemma {:induction false} ServeServes(lm: Lm, cfg: Config, s: State, events: seq<Event>, w: Id)
    requires StateInv(lm, cfg, s) && Due(cfg, s, w)
    ensures Served(cfg, s, Serve(lm, cfg, s, events), w)
  {
    hide StateInv, Next, Later, Due;
    if events == [] {
      ServedNow(cfg, s, w);
    } else {
      var before := Serve(lm, cfg, s, events[..|events| - 1]);
      var e := events[|events| - 1];
      ServeServes(lm, cfg, s, events[..|events| - 1], w);
      ServeKeeps(lm, cfg, s, events[..|events| - 1]);
      ServeOnward(lm, cfg, s, events[..|events| - 1]);
      NextOnward(lm, cfg, before, e);
      if Due(cfg, before, w) { NextServes(lm, cfg, before, e, w); }
      ServedThen(cfg, s, before, Next(lm, cfg, before, e), w);
    }
  }

  // An iteration beginning now has somebody to serve: a running sequence, or a first waiter that
  // fits and whose allocation will succeed.
  ghost predicate Ready(cfg: Config, s: State) {
    || s.running != []
    || (Candidate(cfg, s, 0) < |s.waiting| && AdmitsWhenIdle(cfg, s.m, Get(s, s.waiting[Candidate(cfg, s, 0)])))
  }

  // Whom it owes progress.
  ghost function FirstServed(cfg: Config, s: State): Id
    requires Ready(cfg, s)
  {
    if s.running != [] then s.running[0] else s.waiting[Candidate(cfg, s, 0)]
  }

  lemma LiveHasLeft(lm: Lm, cfg: Config, s: State, id: Id)
    requires CoreOf(lm, cfg, s) && id in s.seqs
    requires s.seqs[id].status.Decoding? || (s.seqs[id].status.Waiting? && id in s.waiting)
    ensures Left(s.seqs[id]) > 0
  {
    hide Core, Greedy, Admitted;
    CoreAt(lm, cfg, s.m, s.waiting, s.seqs, id);
  }

  lemma BeginOwes(lm: Lm, cfg: Config, s: State)
    requires StateInv(lm, cfg, s) && (s.pc.Top? || s.pc.Blocked?) && Ready(cfg, s)
    ensures var w := FirstServed(cfg, s);
      Due(cfg, BeginIteration(s), w) && w in s.submitted && w in s.seqs && Left(s.seqs[w]) > 0
  {
    hide Core, NoDup, AdmitsWhenIdle, Fits;
    var w := FirstServed(cfg, s);
    if s.running != [] {
      assert w in [] + s.running;
      LiveHasLeft(lm, cfg, s, w);
    } else {
      NextIsDue(lm, cfg, s);
      LiveHasLeft(lm, cfg, s, w);
    }
  }

  lemma NextIsDue(lm: Lm, cfg: Config, s: State)
    requires Lists(cfg, s, s.running) && s.running == [] && Ready(cfg, s)
    ensures AtHead(cfg, BeginIteration(s), FirstServed(cfg, s), [] + s.running)
    ensures var w := FirstServed(cfg, s); w in s.seqs && w in s.waiting && !Terminal(s.seqs[w].status)
  {
    hide NoDup, AdmitsWhenIdle, Fits;
    var w, c := FirstServed(cfg, s), Candidate(cfg, s, 0);
    assert s.waiting[c] in s.waiting;
    assert NextAt(cfg, s, w, c);
    SameQueue(cfg, s, BeginIteration(s), w, c);
  }

  lemma ServedFalls(cfg: Config, s: State, s': State, w: Id)
    requires Later(s, s') && w in s.submitted && (forall id :: id in s.submitted ==> id in s.seqs)
    requires Served(cfg, s, s', w) && !Due(cfg, s', w) && Left(s.seqs[w]) > 0
    ensures TotalLeft(s', s.submitted) < TotalLeft(s, s.submitted)
  {
    hide Due;
    OnwardLeft(s.seqs[w], s'.seqs[w]);
    TotalLeftFalls(s, s', s.submitted);
  }

  // Every iteration that has somebody to serve strictly decreases the tokens left to the requests
  // submitted so far, whatever is submitted or aborted meanwhile.
  lemma IterationMakesProgress(lm: Lm, cfg: Config, s: State, now: int, events: seq<Event>)
    requires Reachable(lm, cfg, s) && (s.pc.Top? || s.pc == Blocked(true)) && !s.stop && Ready(cfg, s)
    requires AtRest(Serve(lm, cfg, Next(lm, cfg, s, Work(now, false, false)), events))
    ensures TotalLeft(Serve(lm, cfg, Next(lm, cfg, s, Work(now, false, false)), events), s.submitted) <
      TotalLeft(s, s.submitted)
  {
    hide CoreOf, Shape, Serve, BeginIteration, AdmitsWhenIdle;
    ReachableHolds(lm, cfg, s);
    var s1 := BeginIteration(s);
    assert Next(lm, cfg, s, Work(now, false, false)) == s1;
    NextKeeps(lm, cfg, s, Work(now, false, false));
    ProgressFrom(lm, cfg, s, s1, events);
  }

  lemma RestOwesNothing(cfg: Config, s: State, w: Id)
    requires AtRest(s)
    ensures !Due(cfg, s, w)
  {
  }

  lemma BeginFrame(cfg: Config, s: State, s2: State, w: Id)
    ensures Served(cfg, BeginIteration(s), s2, w) ==> Served(cfg, s, s2, w)
    ensures Later(BeginIteration(s), s2) ==> Later(s, s2)
  {
    hide Due, Onward;
  }

  lemma SubmittedKnown(cfg: Config, s: State, hands: seq<Id>)
    requires Lists(cfg, s, hands)
    ensures forall id :: id in s.submitted <==> id in s.seqs
  {
  }

  lemma ProgressFrom(lm: Lm, cfg: Config, s: State, s1: State, events: seq<Event>)
    requires StateInv(lm, cfg, s) && StateInv(lm, cfg, s1) && s1 == BeginIteration(s)
    requires (s.pc.Top? || s.pc.Blocked?) && Ready(cfg, s)
    requires AtRest(Serve(lm, cfg, s1, events))
    ensures TotalLeft(Serve(lm, cfg, s1, events), s.submitted) < TotalLeft(s, s.submitted)
  {
    hide StateInv, CoreOf, Shape, Lists, Serve, Due, Served, Later, Left, Ready, TotalLeft;
    var w := FirstServed(cfg, s);
    var s2 := Serve(lm, cfg, s1, events);
    BeginOwes(lm, cfg, s);
    ServeOnward(lm, cfg, s1, events);
    ServeServes(lm, cfg, s1, events, w);
    Parts(lm, cfg, s);
    SubmittedKnown(cfg, s, Hands(s));
    BeginFrame(cfg, s, s2, w);
    RestOwesNothing(cfg, s2, w);
    ServedFalls(cfg, s, s2, w);
  }

  // ---- A run without submissions drains ----

  ghost predicate AllEnded(s: State) {
    forall id :: id in s.seqs ==> Terminal(s.seqs[id].status)
  }

  ghost predicate AllRoomy(cfg: Config, s: State) {
    forall id :: id in s.seqs && !Terminal(s.seqs[id].status) ==> Roomy(cfg, s.m, s.seqs[id].req)
  }

  function WorkCount(events: seq<Event>): nat {
    if events == [] then 0 else (if events[0].Work? then 1 else 0) + WorkCount(events[1..])
  }

  // No iteration takes more worker steps than this.
  function IterationSteps(cfg: Config): nat {
    8 * cfg.maxBatch + 7
  }

  ghost predicate Pending(cfg: Config, s: State) {
    exists w :: w in s.submitted && w in s.seqs && Due(cfg, s, w) && Left(s.seqs[w]) > 0
  }

  // Worker steps that are certainly enough; a pending sequence is one iteration paid in advance.
  ghost function Enough(cfg: Config, s: State): int {
    StepsLeft(cfg, s) + (TotalLeft(s, s.submitted) - if Pending(cfg, s) then 1 else 0) * IterationSteps(cfg)
  }

  lemma PendingStays(lm: Lm, cfg: Config, s: State, e: Event)
    requires StateInv(lm, cfg, s) && !e.Submit?
    ensures var s' := Next(lm, cfg, s, e);
      && s'.submitted == s.submitted && TotalLeft(s', s.submitted) <= TotalLeft(s, s.submitted)
      && (Pending(cfg, s) ==> Pending(cfg, s') || TotalLeft(s', s.submitted) < TotalLeft(s, s.submitted))
  {
    hide CoreOf, Shape, NoDup, Next, Due, Left, TotalLeft, Onward;
    var s' := Next(lm, cfg, s, e);
    NextOnward(lm, cfg, s, e);
    TotalLeftFalls(s, s', s.submitted);
    if Pending(cfg, s) {
      var w :| w in s.submitted && w in s.seqs && Due(cfg, s, w) && Left(s.seqs[w]) > 0;
      NextServes(lm, cfg, s, e, w);
      OnwardLeft(s.seqs[w], s'.seqs[w]);
    }
  }

  lemma Weigh(steps: int, steps': int, whole: nat, owed: int, owed': int)
    requires owed' <= owed
    ensures steps' < steps ==> steps' + owed' * whole < steps + owed * whole
    ensures steps' <= steps ==> steps' + owed' * whole <= steps + owed * whole
    ensures steps' < whole && owed' < owed && steps >= 0 ==> steps' + owed' * whole < steps + owed * whole
  {
    Scale(owed', owed, whole);
    if owed' < owed {
      Scale(owed' + 1, owed, whole);
      assert (owed' + 1) * whole == owed' * whole + whole;
    }
  }

  lemma RestIsLive(lm: Lm, cfg: Config, s: State)
    requires StateInv(lm, cfg, s) && AtRest(s) && !AllEnded(s) && !s.pc.Stopped?
    ensures (s.running != [] || s.waiting != []) && s.pc != Blocked(false)
  {
    hide Core, NoDup;
  }

  // With roomy requests only, an empty batch can always admit the head of its queue.
  lemma RoomyIsReady(lm: Lm, cfg: Config, s: State)
    requires StateInv(lm, cfg, s) && AllRoomy(cfg, s) && KeysStorable(s.m.cache)
    requires AtRest(s) && !s.pc.Stopped? && (s.running != [] || s.waiting != [])
    ensures Ready(cfg, s)
  {
    hide Core, NoDup, Roomy, Shape, AdmitsWhenIdle, Fits, TryAllocate, KeysStorable;
    if s.running == [] {
      var id := s.waiting[0];
      Waiters(cfg, s, Hands(s));
      QuietMemory(lm, cfg, s);
      CoreAt(lm, cfg, s.m, s.waiting, s.seqs, id);
      RoomyAdmits(cfg, s.m, s.seqs[id], 0);
    }
  }

  lemma RunningBounded(lm: Lm, cfg: Config, s: State)
    requires StateInv(lm, cfg, s) && AtRest(s)
    ensures |s.running| <= cfg.maxBatch
  {
    hide Core, NoDup;
  }

  // Leaving rest with work pays for the iteration that begins.
  lemma BeginFalls(lm: Lm, cfg: Config, s: State, s': State)
    requires StateInv(lm, cfg, s) && AtRest(s) && !AllEnded(s) && !s.pc.Stopped? && AllRoomy(cfg, s)
    requires KeysStorable(s.m.cache)
    requires s' == BeginIteration(s)
    ensures Enough(cfg, s') < Enough(cfg, s)
  {
    hide StateInv, Due, Left, TotalLeft, AllRoomy, Ready, AllEnded, KeysStorable;
    RestIsLive(lm, cfg, s);
    RoomyIsReady(lm, cfg, s);
    RunningBounded(lm, cfg, s);
    BeginOwes(lm, cfg, s);
    assert Pending(cfg, s');
    if Pending(cfg, s) {
      var w :| w in s.submitted && w in s.seqs && Due(cfg, s, w) && Left(s.seqs[w]) > 0;
      RestOwesNothing(cfg, s, w);
    }
    SameLeft(s, s', s.submitted);
    var left: int := TotalLeft(s, s.submitted);
    Weigh(0, StepsLeft(cfg, s'), IterationSteps(cfg), left, left - 1);
  }

  lemma {:induction false} SameLeft(s: State, s': State, ids: seq<Id>)
    requires s'.seqs == s.seqs
    ensures TotalLeft(s', ids) == TotalLeft(s, ids)
  {
    if ids != [] { SameLeft(s, s', ids[..|ids| - 1]); }
  }

  lemma LeftoversEnd(lm: Lm, cfg: Config, s: State)
    requires StateInv(lm, cfg, s) && AllDecoding(s, s.running) && (s.pc.Top? || s.pc.Blocked?)
    ensures AllEnded(AbortLeftovers(cfg, s))
  {
    hide Core, AbortLeftovers, NoDup;
    AbortLeftoversKeeps(lm, cfg, s);
  }

  lemma EnoughFalls(lm: Lm, cfg: Config, s: State, e: Event)
    requires StateInv(lm, cfg, s) && AllRoomy(cfg, s) && KeysStorable(s.m.cache)
    requires !e.Submit? && !AllEnded(s) && !s.pc.Stopped?
    ensures var s' := Next(lm, cfg, s, e);
      || AllEnded(s')
      || (!s'.pc.Stopped? && Enough(cfg, s') <= Enough(cfg, s) && (e.Work? ==> Enough(cfg, s') < Enough(cfg, s)))
  {
    hide StateInv, Due, TotalLeft, AllRoomy, AllEnded, AbortLeftovers, BeginIteration, Pending, StepsLeft, KeysStorable;
    var s' := Next(lm, cfg, s, e);
    if e.Work? && AtRest(s) {
      RestFalls(lm, cfg, s, e);
    } else {
      OtherFalls(lm, cfg, s, e);
    }
  }

  lemma RestFalls(lm: Lm, cfg: Config, s: State, e: Event)
    requires StateInv(lm, cfg, s) && AllRoomy(cfg, s) && KeysStorable(s.m.cache)
    requires e.Work? && AtRest(s) && !AllEnded(s) && !s.pc.Stopped?
    ensures var s' := Next(lm, cfg, s, e);
      AllEnded(s') || (!s'.pc.Stopped? && Enough(cfg, s') < Enough(cfg, s))
  {
    hide Core, Lists, AllRoomy, AllEnded, AbortLeftovers, Enough, KeysStorable;
    RestIsLive(lm, cfg, s);
    if s.stop {
      LeftoversEnd(lm, cfg, s);
    } else {
      BeginFalls(lm, cfg, s, BeginIteration(s));
    }
  }

  lemma StopsOnlyAtRest(lm: Lm, cfg: Config, s: State, e: Event)
    requires !AtRest(s) || !e.Work?
    ensures Next(lm, cfg, s, e).pc.Stopped? ==> s.pc.Stopped?
  {
    hide NeedTokens, BlocksNeeded, EndAs, PrefillWithReuse, NoteToken, FinishSequence, DecodeLive, Admit;
  }

  lemma OtherFalls(lm: Lm, cfg: Config, s: State, e: Event)
    requires StateInv(lm, cfg, s) && !e.Submit? && !s.pc.Stopped? && (!e.Work? || !AtRest(s))
    ensures var s' := Next(lm, cfg, s, e);
      !s'.pc.Stopped? && Enough(cfg, s') <= Enough(cfg, s) && (e.Work? ==> Enough(cfg, s') < Enough(cfg, s))
  {
    hide StateInv, Due, TotalLeft, Pending, StepsLeft, WorkStep;
    var s' := Next(lm, cfg, s, e);
    PendingStays(lm, cfg, s, e);
    StopsOnlyAtRest(lm, cfg, s, e);
    if e.Work? { StepsFall(lm, cfg, s, e.now, e.fails, e.sampleFails); } else { EnvironmentWaits(lm, cfg, s, e); }
    var owed := TotalLeft(s, s.submitted) - (if Pending(cfg, s) then 1 else 0);
    var owed' := TotalLeft(s', s.submitted) - (if Pending(cfg, s') then 1 else 0);
    Weigh(StepsLeft(cfg, s), StepsLeft(cfg, s'), IterationSteps(cfg), owed, owed');
  }

  // ---- The theorem ----

  lemma EndedStays(lm: Lm, cfg: Config, s: State, events: seq<Event>)
    requires StateInv(lm, cfg, s) && AllEnded(s) && NoSubmissions(events)
    ensures AllEnded(Serve(lm, cfg, s, events))
    decreases |events|
  {
    hide StateInv, Next;
    if events != [] {
      ServeCons(lm, cfg, s, events);
      OnlyEndsMore(lm, cfg, s, events[0]);
      NextKeeps(lm, cfg, s, events[0]);
      EndedStays(lm, cfg, Next(lm, cfg, s, events[0]), events[1..]);
    }
  }

  // Without a submission no new record appears, so what was ended or roomy stays so.
  lemma OnlyEndsMore(lm: Lm, cfg: Config, s: State, e: Event)
    requires StateInv(lm, cfg, s) && !e.Submit?
    ensures var s' := Next(lm, cfg, s, e);
      && (AllEnded(s) ==> AllEnded(s')) && (AllRoomy(cfg, s) ==> AllRoomy(cfg, s'))
  {
    hide CoreOf, Shape, NoDup, Next, Roomy;
    var s' := Next(lm, cfg, s, e);
    NextOnward(lm, cfg, s, e);
    NextKeeps(lm, cfg, s, e);
    SubmittedKnown(cfg, s, Hands(s));
    SubmittedKnown(cfg, s', Hands(s'));
    forall id | id in s'.seqs ensures id in s.seqs && Onward(s.seqs[id], s'.seqs[id]) { assert id in s'.submitted; }
    if AllRoomy(cfg, s) {
      forall id | id in s'.seqs && !Terminal(s'.seqs[id].status) ensures Roomy(cfg, s'.m, s'.seqs[id].req) {
        assert Onward(s.seqs[id], s'.seqs[id]);
        SameRoom(cfg, s.m, s'.m, s.seqs[id].req);
      }
    }
  }

  lemma EnoughPositive(lm: Lm, cfg: Config, s: State)
    requires StateInv(lm, cfg, s) && !AllEnded(s) && !s.pc.Stopped?
    ensures Enough(cfg, s) > 0
  {
    hide CoreOf, Lists, Shape, Due, Left;
    TotalLeftPositive(s, s.submitted);
    if Pending(cfg, s) {
      var w :| w in s.submitted && w in s.seqs && Due(cfg, s, w) && Left(s.seqs[w]) > 0;
      assert TotalLeft(s, s.submitted) > 0;
      assert AtRest(s) ==> !Due(cfg, s, w) by { if AtRest(s) { RestOwesNothing(cfg, s, w); } }
    }
    Scale(0, TotalLeft(s, s.submitted) - (if Pending(cfg, s) then 1 else 0), IterationSteps(cfg));
    if AtRest(s) {
      RestIsLive(lm, cfg, s);
      RestHasLeft(lm, cfg, s);
      Scale(1, TotalLeft(s, s.submitted), IterationSteps(cfg));
    }
  }

  lemma RestHasLeft(lm: Lm, cfg: Config, s: State)
    requires StateInv(lm, cfg, s) && AtRest(s) && !s.pc.Stopped? && (s.running != [] || s.waiting != [])
    ensures TotalLeft(s, s.submitted) > 0
  {
    hide Core, NoDup;
    var w := if s.running != [] then s.running[0] else s.waiting[0];
    assert w in s.running || w in s.waiting;
    LiveHasLeft(lm, cfg, s, w);
    TotalLeftPositive(s, s.submitted);
  }

  lemma {:induction false} DrainsFrom(lm: Lm, cfg: Config, s: State, events: seq<Event>)
    requires StateInv(lm, cfg, s) && AllRoomy(cfg, s) && KeysStorable(s.m.cache) && NoSubmissions(events)
    requires s.pc.Stopped? ==> AllEnded(s)
    requires WorkCount(events) >= Enough(cfg, s)
    ensures AllEnded(Serve(lm, cfg, s, events))
    decreases |events|
  {
    hide StateInv, Next, AllRoomy, AllEnded, Enough, KeysStorable;
    if AllEnded(s) {
      EndedStays(lm, cfg, s, events);
    } else {
      EnoughPositive(lm, cfg, s);
      var e := events[0];
      var s' := Next(lm, cfg, s, e);
      EnoughFalls(lm, cfg, s, e);
      NextKeeps(lm, cfg, s, e);
      OnlyEndsMore(lm, cfg, s, e);
      NextStorable(lm, cfg, s, e);
      ServeCons(lm, cfg, s, events);
      if AllEnded(s') { EndedStays(lm, cfg, s', events[1..]); } else { DrainsFrom(lm, cfg, s', events[1..]); }
    }
  }

  // From any state before shutdown whose unfinished requests fit an empty pool whatever a run can have
  // stored, every run without new submissions ends them all, however aborts, failures and a stop request
  // fall, and returns every block.
  lemma Drains(lm: Lm, cfg: Config, s: State, events: seq<Event>)
    requires Reachable(lm, cfg, s) && !s.pc.Stopped? && AllRoomy(cfg, s) && NoSubmissions(events)
    requires WorkCount(events) >= StepsLeft(cfg, s) + TotalLeft(s, s.submitted) * IterationSteps(cfg)
    ensures var s' := Serve(lm, cfg, s, events);
      AllEnded(s') && UsedBlocks(s'.m.pool) == 0 && s'.m.cache.pins == map[]
  {
    hide StateInv, CoreOf, Lists, Shape, AllRoomy, StepsLeft, Pending, TotalLeft, Serve, KeysStorable;
    ReachableHolds(lm, cfg, s);
    StoredKeysAreStorable(lm, cfg, s);
    var left: int := TotalLeft(s, s.submitted);
    var paid := if Pending(cfg, s) then 1 else 0;
    Weigh(0, 0, IterationSteps(cfg), left, left - paid);
    DrainsFrom(lm, cfg, s, events);
    ServeKeeps(lm, cfg, s, events);
    Parts(lm, cfg, Serve(lm, cfg, s, events));
    QuietMemory(lm, cfg, Serve(lm, cfg, s, events));
  }

  // ---- Without the prefix cache submission itself leaves room enough ----

  lemma {:induction false} PlainServeIsRoomy(lm: Lm, cfg: Config, u: Setup, events: seq<Event>)
    requires !cfg.prefixOn
    ensures AllRoomy(cfg, Serve(lm, cfg, Init(u), events))
  {
    hide StateInv, Next, AllRoomy;
    if events == [] {
      NobodyYet(cfg, u);
    } else {
      var before := Serve(lm, cfg, Init(u), events[..|events| - 1]);
      var e := events[|events| - 1];
      InitHolds(lm, cfg, u);
      ServeKeeps(lm, cfg, Init(u), events[..|events| - 1]);
      PlainServeIsRoomy(lm, cfg, u, events[..|events| - 1]);
      if e.Submit? { SubmitChecksRoom(lm, cfg, before, e); } else { OnlyEndsMore(lm, cfg, before, e); }
    }
  }

  lemma NobodyYet(cfg: Config, u: Setup)
    ensures AllRoomy(cfg, Init(u))
  {
  }

  lemma SubmitChecksRoom(lm: Lm, cfg: Config, s: State, e: Event)
    requires !cfg.prefixOn && AllRoomy(cfg, s) && e.Submit?
    ensures AllRoomy(cfg, Next(lm, cfg, s, e))
  {
  }

  // With the prefix cache off the drain needs no condition at all.
  lemma DrainsWithoutPrefixCache(lm: Lm, cfg: Config, s: State, events: seq<Event>)
    requires Reachable(lm, cfg, s) && !cfg.prefixOn && !s.pc.Stopped? && NoSubmissions(events)
    requires WorkCount(events) >= StepsLeft(cfg, s) + TotalLeft(s, s.submitted) * IterationSteps(cfg)
    ensures AllEnded(Serve(lm, cfg, s, events)) && UsedBlocks(Serve(lm, cfg, s, events).m.pool) == 0
  {
    hide Serve, Init, AllRoomy, StepsLeft, TotalLeft;
    var u: Setup, past: seq<Event> :| s == Serve(lm, cfg, Init(u), past);
    PlainServeIsRoomy(lm, cfg, u, past);
    Drains(lm, cfg, s, events);
  }
}
