// Why requests end, and that a raised flag ends them: an undisturbed request is finished, an aborted
// one was flagged, aborted administratively or stopped, a failed one met a failure.
module Endings {
  import opened Common
  import opened LanguageModel
  import opened Generation
  import opened Sequences
  import opened BlockPool
  import opened Scheduler
  import opened Lifecycle
  import opened Worker
  import opened WorkerCore
  import opened WorkerRecords
  import opened WorkerInvariant
  import opened WorkerSteps
  import opened WorkerRuns
  import opened WorkerHistory
  import opened Drain
  import opened DrainRuns
  import opened CoverageRuns
  import opened Fates
  import opened Fairness

  // ---- What ended it ----

  predicate Disturbed(events: seq<Event>, id: Id) {
    RequestAbort(id) in events || AdminAbort(id) in events || RequestStop in events
  }

  predicate Failure(e: Event) {
    e.Work? && (e.fails || e.sampleFails)
  }

  predicate Failed(events: seq<Event>) {
    exists i :: 0 <= i < |events| && Failure(events[i])
  }

  // What a run has done accounts for what is up and for what has ended.
  ghost predicate Accounted(s: State, events: seq<Event>) {
    && (s.stop ==> RequestStop in events)
    && (s.pc.Failing? ==> Failed(events))
    && forall id :: id in s.seqs ==> AccountedFor(s.seqs[id], events, id)
  }

  ghost predicate AccountedFor(q: Sequence, events: seq<Event>, id: Id) {
    && (!Terminal(q.status) && q.abortRequested ==> RequestAbort(id) in events || AdminAbort(id) in events)
    && (q.status.Aborted? ==> Disturbed(events, id))
    && (q.status.Errored? ==> Failed(events) || q.req.prompt == [])
  }

  lemma OneMore(events: seq<Event>, e: Event, id: Id)
    ensures RequestStop in events || e == RequestStop ==> RequestStop in events + [e]
    ensures RequestAbort(id) in events || e == RequestAbort(id) ==> RequestAbort(id) in events + [e]
    ensures AdminAbort(id) in events || e == AdminAbort(id) ==> AdminAbort(id) in events + [e]
    ensures Failed(events) || Failure(e) ==> Failed(events + [e])
  {
    var more := events + [e];
    assert more[|events|] == e;
    if Failed(events) {
      var i :| 0 <= i < |events| && Failure(events[i]);
      assert Failure(more[i]);
    }
  }

  lemma StopAsked(lm: Lm, cfg: Config, s: State, e: Event)
    ensures Next(lm, cfg, s, e).stop ==> s.stop || e == RequestStop
  {
    hide EndAs, PrefillWithReuse, NoteToken, FinishSequence, DecodeLive, Admit, NeedTokens, BlocksNeeded;
    if e.Work? && s.pc.Dropping? && s.pc.todo == [] { AdmitStop(cfg, s.(running := s.pc.kept), Room(cfg, s), e.now); }
    if e.Work? && AtRest(s) { LeftoversStop(cfg, s); }
  }

  lemma LeftoversStop(cfg: Config, s: State)
    ensures AbortLeftovers(cfg, s).stop == s.stop
  {
    hide AbortWaiters, AbortRunning;
    SweepStop(cfg, s);
    SweepRunningStop(cfg, AbortWaiters(cfg, s), AbortWaiters(cfg, s).running);
  }

  lemma {:induction false} SweepStop(cfg: Config, s: State)
    ensures AbortWaiters(cfg, s).stop == s.stop
    decreases |s.waiting|
  {
    hide AbortOne;
    if s.waiting != [] { SweepStop(cfg, AbortId(cfg, TakeWaiter(s, 0), s.waiting[0])); }
  }

  lemma {:induction false} SweepRunningStop(cfg: Config, s: State, ids: seq<Id>)
    ensures AbortRunning(cfg, s, ids).stop == s.stop
    decreases |ids|
  {
    hide AbortOne;
    if ids != [] {
      SweepRunningStop(cfg, if Get(s, ids[0]).signals == 0 then AbortId(cfg, s, ids[0]) else s, ids[1..]);
    }
  }

  // Only a failing batch leads to the loop that fails its rows.
  lemma FailingAsked(lm: Lm, cfg: Config, s: State, e: Event)
    requires StateInv(lm, cfg, s)
    ensures Next(lm, cfg, s, e).pc.Failing? ==> s.pc.Failing? || Failure(e)
  {
    hide Core, Lists, EndAs, PrefillWithReuse, NoteToken, FinishSequence, DecodeLive, Admit, NeedTokens, BlocksNeeded;
    hide AbortWaiters, AbortRunning, RowTrue, Among;
    if s.pc.Collecting? && s.pc.todo == [] && s.pc.live != [] { DecodeLiveTrue(lm, cfg, s, s.pc.live); }
  }

  // Of a live record, by what the step does to it.
  lemma LiveAccounted(lm: Lm, cfg: Config, s: State, events: seq<Event>, e: Event, id: Id)
    requires StateInv(lm, cfg, s) && Accounted(s, events) && Live(s, id)
    ensures id in Next(lm, cfg, s, e).seqs && AccountedFor(Next(lm, cfg, s, e).seqs[id], events + [e], id)
  {
    hide StateInv, Next, Failed;
    OneMore(events, e, id);
    if e.Work? { WorkFate(lm, cfg, s, e, id); } else { EnvironmentFate(lm, cfg, s, e, id); }
  }

  lemma EndedAccounted(lm: Lm, cfg: Config, s: State, events: seq<Event>, e: Event, id: Id)
    requires StateInv(lm, cfg, s) && Accounted(s, events) && id in s.seqs && Terminal(s.seqs[id].status)
    ensures id in Next(lm, cfg, s, e).seqs && AccountedFor(Next(lm, cfg, s, e).seqs[id], events + [e], id)
  {
    hide StateInv, Next, Failed;
    OneMore(events, e, id);
    NextOnward(lm, cfg, s, e);
  }

  // A record that was not there before has just been submitted.
  lemma NewAccounted(lm: Lm, cfg: Config, s: State, events: seq<Event>, e: Event, id: Id)
    requires StateInv(lm, cfg, s) && id in Next(lm, cfg, s, e).seqs && id !in s.seqs
    ensures AccountedFor(Next(lm, cfg, s, e).seqs[id], events, id)
  {
    hide StateInv, WorkStep, NeedTokens, BlocksNeeded, AllOnward, StepAdminAbort;
    if !e.Submit? { SameKeys(lm, cfg, s, e); }
  }

  lemma NextAccounted(lm: Lm, cfg: Config, s: State, events: seq<Event>, e: Event)
    requires StateInv(lm, cfg, s) && Accounted(s, events)
    ensures Accounted(Next(lm, cfg, s, e), events + [e])
  {
    hide StateInv, Next, Failed, AccountedFor;
    OneMore(events, e, 0);
    StopAsked(lm, cfg, s, e);
    FailingAsked(lm, cfg, s, e);
    var s' := Next(lm, cfg, s, e);
    forall id | id in s'.seqs ensures AccountedFor(s'.seqs[id], events + [e], id) {
      if id !in s.seqs {
        NewAccounted(lm, cfg, s, events + [e], e, id);
      } else if Terminal(s.seqs[id].status) {
        EndedAccounted(lm, cfg, s, events, e, id);
      } else {
        LiveAccounted(lm, cfg, s, events, e, id);
      }
    }
  }

  lemma {:induction false} ServeAccounted(lm: Lm, cfg: Config, u: Setup, events: seq<Event>)
    ensures Accounted(Serve(lm, cfg, Init(u), events), events)
  {
    hide StateInv, Next, Accounted;
    if events == [] {
      NothingToAccount(u);
    } else {
      var k := |events| - 1;
      InitHolds(lm, cfg, u);
      ServeKeeps(lm, cfg, Init(u), events[..k]);
      ServeAccounted(lm, cfg, u, events[..k]);
      NextAccounted(lm, cfg, Serve(lm, cfg, Init(u), events[..k]), events[..k], events[k]);
      assert events[..k] + [events[k]] == events;
    }
  }

  lemma NothingToAccount(u: Setup)
    ensures Accounted(Init(u), [])
  {
  }

  // In every run: an aborted request was flagged or aborted by name, or the process was stopped; one
  // that errored met a failing worker step, or had an empty prompt.
  lemma EndsForAReason(lm: Lm, cfg: Config, u: Setup, events: seq<Event>, id: Id)
    requires id in Serve(lm, cfg, Init(u), events).seqs
    ensures var q := Serve(lm, cfg, Init(u), events).seqs[id];
      && (q.status.Aborted? ==> RequestAbort(id) in events || AdminAbort(id) in events || RequestStop in events)
      && (q.status.Errored? ==>
        q.req.prompt == [] || exists e :: e in events && e.Work? && (e.fails || e.sampleFails))
  {
    hide Serve, Init;
    ServeAccounted(lm, cfg, u, events);
  }

  // So a request that nobody aborts, in a run without stop and failures, is finished once it has ended,
  // with what naive generation gives.
  lemma UndisturbedFinishes(lm: Lm, cfg: Config, u: Setup, events: seq<Event>, id: Id, naive: Result<Generation>)
    requires var s := Serve(lm, cfg, Init(u), events);
      && id in s.seqs && Terminal(s.seqs[id].status) && s.seqs[id].req.prompt != []
      && Generates(lm, s.seqs[id].req, naive)
    requires RequestAbort(id) !in events && AdminAbort(id) !in events && RequestStop !in events
    requires forall e :: e in events && e.Work? ==> !e.fails && !e.sampleFails
    ensures var q := Serve(lm, cfg, Init(u), events).seqs[id];
      q.status.Finished? && naive.Ok? && q.result == Some(naive.value)
  {
    hide Serve, Init, Generates;
    var s := Serve(lm, cfg, Init(u), events);
    EndsForAReason(lm, cfg, u, events, id);
    assert Reachable(lm, cfg, s);
    FinishedIsNaive(lm, cfg, s, id, naive);
  }

  // And when the requests left are roomy and nobody comes, it does end, after a number of worker steps
  // known beforehand.
  lemma UndisturbedDrains(lm: Lm, cfg: Config, u: Setup, past: seq<Event>, events: seq<Event>, id: Id,
          naive: Result<Generation>)
    requires var s := Serve(lm, cfg, Init(u), past);
      && id in s.seqs && s.seqs[id].req.prompt != [] && Generates(lm, s.seqs[id].req, naive)
      && AllRoomy(cfg, s) && NoSubmissions(events)
      && WorkCount(events) >= StepsLeft(cfg, s) + TotalLeft(s, s.submitted) * IterationSteps(cfg)
    requires var all := past + events;
      && RequestAbort(id) !in all && AdminAbort(id) !in all && RequestStop !in all
      && forall e :: e in all && e.Work? ==> !e.fails && !e.sampleFails
    ensures var s' := Serve(lm, cfg, Serve(lm, cfg, Init(u), past), events);
      id in s'.seqs && s'.seqs[id].status.Finished? && naive.Ok? && s'.seqs[id].result == Some(naive.value)
  {
    hide Serve, Init, Generates, AllRoomy, StepsLeft, TotalLeft;
    var s, s' := Serve(lm, cfg, Init(u), past), Serve(lm, cfg, Serve(lm, cfg, Init(u), past), events);
    assert Reachable(lm, cfg, s);
    ServeRunsOn(lm, cfg, u, past);
    assert RequestStop in past ==> RequestStop in past + events;
    Drains(lm, cfg, s, events);
    ReachableHolds(lm, cfg, s);
    ServeOnward(lm, cfg, s, events);
    assert Onward(s.seqs[id], s'.seqs[id]);
    ServeConcat(lm, cfg, Init(u), past, events);
    UndisturbedFinishes(lm, cfg, u, past + events, id, naive);
  }

  // Without a stop request the worker has not stopped.
  lemma {:induction false} ServeRunsOn(lm: Lm, cfg: Config, u: Setup, events: seq<Event>)
    ensures var s := Serve(lm, cfg, Init(u), events); (s.pc.Stopped? || s.stop ==> RequestStop in events)
  {
    hide Next;
    if events != [] {
      var k := |events| - 1;
      var before := Serve(lm, cfg, Init(u), events[..k]);
      ServeRunsOn(lm, cfg, u, events[..k]);
      StopAsked(lm, cfg, before, events[k]);
      StoppedAsked(lm, cfg, before, events[k]);
    }
  }

  lemma StoppedAsked(lm: Lm, cfg: Config, s: State, e: Event)
    ensures Next(lm, cfg, s, e).pc.Stopped? ==> s.pc.Stopped? || s.stop
  {
    hide AbortLeftovers, NeedTokens, BlocksNeeded, Next;
    if !AtRest(s) || !e.Work? { StopsOnlyAtRest(lm, cfg, s, e); } else { StoppedAtRest(lm, cfg, s, e); }
  }

  lemma StoppedAtRest(lm: Lm, cfg: Config, s: State, e: Event)
    requires AtRest(s) && e.Work?
    ensures Next(lm, cfg, s, e).pc.Stopped? ==> s.pc.Stopped? || s.stop
  {
    hide AbortLeftovers;
  }

  // ---- A raised flag ----

  // The next worker step reads the flag of this sequence.
  ghost predicate ReadNext(s: State, id: Id) {
    match s.pc
    case Dropping(todo, _) => todo != [] && todo[0] == id
    case Prefills(todo) => todo != [] && todo[0] == id
    case InPrefill(t, _) => t == id
    case Sampled(t, _) => t == id
    case Sweeping(todo) => todo != [] && todo[0] == id
    case Rows(live, row, _) => row < |live| && live[row] == id
    case Settling(todo, _) => todo != [] && todo[0] == id
    case _ => false
  }

  // A flag that is read aborts on the spot, and what was generated stays as it was.
  lemma FlagReadAborts(lm: Lm, cfg: Config, s: State, e: Event, id: Id)
    requires StateInv(lm, cfg, s) && Live(s, id) && s.seqs[id].abortRequested && ReadNext(s, id) && e.Work?
    ensures var s' := Next(lm, cfg, s, e);
      id in s'.seqs && s'.seqs[id].status.Aborted? && s'.seqs[id].output == s.seqs[id].output
  {
    hide StateInv, CoreOf, Lists, Shape, StepInPrefill, StepSampled, Admit, AbortId, Fate;
    Parts(lm, cfg, s);
    match s.pc {
      case InPrefill(_, _) => InPrefillFate(lm, cfg, s, e, id);
      case Sampled(_, _) => SampledFate(lm, cfg, s, id);
      case Rows(_, _, _) => RowFate(lm, cfg, s, id);
      case _ => WalkFates(lm, cfg, s, e, id);
    }
    AbortedKeepsOutput(lm, cfg, s, e, id);
  }

  lemma AbortedKeepsOutput(lm: Lm, cfg: Config, s: State, e: Event, id: Id)
    requires StateInv(lm, cfg, s) && Live(s, id)
    ensures var s', q := Next(lm, cfg, s, e), s.seqs[id];
      && id in s'.seqs
      && (q.abortRequested ==> s'.seqs[id].output == q.output && !s'.seqs[id].status.Finished?)
      && (s'.seqs[id].status.Aborted? || s'.seqs[id].status.Errored? ==> s'.seqs[id].output == q.output)
  {
    hide StateInv, Next;
    if e.Work? { WorkFate(lm, cfg, s, e, id); } else { EnvironmentFate(lm, cfg, s, e, id); }
  }

  // Not among those that a failing decode of this iteration takes with it.
  ghost predicate OutsideBatch(s: State, id: Id) {
    match s.pc
    case Collecting(_, live) => id !in live
    case Failing(todo) => id !in todo
    case _ => true
  }

  // Whoever is flagged does not join the batch any more.
  lemma StaysOutside(lm: Lm, cfg: Config, s: State, e: Event, id: Id)
    requires StateInv(lm, cfg, s) && Live(s, id) && s.seqs[id].abortRequested && OutsideBatch(s, id)
    ensures OutsideBatch(Next(lm, cfg, s, e), id)
  {
    hide StateInv, WorkStep;
    if !e.Work? {
      SamePlace(lm, cfg, s, e);
    } else if s.pc.Sweeping? || s.pc.Collecting? || s.pc.Failing? {
      BatchSteps(lm, cfg, s, e, id);
    } else {
      NoBatchAfter(lm, cfg, s, e);
    }
  }

  lemma SamePlace(lm: Lm, cfg: Config, s: State, e: Event)
    requires !e.Work?
    ensures Next(lm, cfg, s, e).pc == s.pc || (s.pc.Blocked? && Next(lm, cfg, s, e).pc.Blocked?)
    ensures Next(lm, cfg, s, e).running == s.running
  {
    hide EndAs, NeedTokens, BlocksNeeded;
  }

  lemma BatchSteps(lm: Lm, cfg: Config, s: State, e: Event, id: Id)
    requires e.Work? && id in s.seqs && s.seqs[id].abortRequested && OutsideBatch(s, id)
    requires s.pc.Sweeping? || s.pc.Collecting? || s.pc.Failing?
    ensures OutsideBatch(Next(lm, cfg, s, e), id)
  {
    hide EndAs, DecodeLive;
    if s.pc.Failing? && s.pc.todo != [] { TailIn(s.pc.todo); }
  }

  lemma NoBatchAfter(lm: Lm, cfg: Config, s: State, e: Event)
    requires e.Work? && !s.pc.Sweeping? && !s.pc.Collecting? && !s.pc.Failing?
    ensures !Next(lm, cfg, s, e).pc.Collecting? && !Next(lm, cfg, s, e).pc.Failing?
  {
    hide StepTop, StepBlocked, StepDropping, StepPrefills, StepInPrefill, StepSampled, StepRows, StepSettling;
    TokensLeadBack(lm, cfg, s, e.now, e.fails, e.sampleFails);
    WalksLeadOn(cfg, s, e.now);
  }

  lemma WalksLeadOn(cfg: Config, s: State, now: int)
    ensures s.pc.Top? ==> var s' := StepTop(cfg, s); AtRest(s') || s'.pc.Dropping?
    ensures s.pc.Blocked? ==> var s' := StepBlocked(cfg, s); AtRest(s') || s'.pc.Dropping?
    ensures s.pc.Dropping? ==> var s' := StepDropping(cfg, s, now); s'.pc.Dropping? || s'.pc.Prefills?
    ensures s.pc.Prefills? ==>
      var s' := StepPrefills(cfg, s); AtRest(s') || s'.pc.Prefills? || s'.pc.InPrefill? || s'.pc.Sweeping?
    ensures s.pc.Settling? ==> var s' := StepSettling(cfg, s); AtRest(s') || s'.pc.Settling?
  {
    hide Admit, AbortId, AbortWaiters, AbortRunning;
  }

  lemma TokensLeadBack(lm: Lm, cfg: Config, s: State, now: int, fails: bool, sampleFails: bool)
    ensures s.pc.InPrefill? ==>
      var s' := StepInPrefill(lm, cfg, s, now, fails, sampleFails); s'.pc.Prefills? || s'.pc.Sampled?
    ensures s.pc.Sampled? ==> StepSampled(cfg, s).pc.Prefills?
    ensures s.pc.Rows? ==> StepRows(cfg, s).pc.Rows? || StepRows(cfg, s).pc.Settling?
  {
    hide AbortId, PrefillWithReuse, FailOne, NoteToken, FinishSequence;
  }

  // What a raised flag fixes: nothing more is generated, and the sequence is not finished; outside the
  // batch it can only be aborted.
  ghost predicate Frozen(s: State, id: Id, output: seq<Token>) {
    && id in s.seqs && s.seqs[id].abortRequested && s.seqs[id].output == output && !s.seqs[id].status.Finished?
  }

  ghost predicate AbortsOnly(s: State, id: Id) {
    id in s.seqs && if Terminal(s.seqs[id].status) then s.seqs[id].status.Aborted? else OutsideBatch(s, id)
  }

  lemma FreezesNext(lm: Lm, cfg: Config, s: State, e: Event, id: Id, output: seq<Token>)
    requires StateInv(lm, cfg, s) && Frozen(s, id, output)
    ensures Frozen(Next(lm, cfg, s, e), id, output)
    ensures AbortsOnly(s, id) ==> AbortsOnly(Next(lm, cfg, s, e), id)
  {
    hide StateInv, Next, OutsideBatch;
    NextOnward(lm, cfg, s, e);
    if Live(s, id) {
      AbortedKeepsOutput(lm, cfg, s, e, id);
      if OutsideBatch(s, id) {
        StaysOutside(lm, cfg, s, e, id);
        NotFailed(lm, cfg, s, e, id);
      }
    }
  }

  lemma NotFailed(lm: Lm, cfg: Config, s: State, e: Event, id: Id)
    requires StateInv(lm, cfg, s) && Live(s, id) && s.seqs[id].abortRequested && OutsideBatch(s, id)
    ensures var s' := Next(lm, cfg, s, e); id in s'.seqs && !s'.seqs[id].status.Errored?
  {
    hide StateInv, Next;
    if e.Work? { WorkFate(lm, cfg, s, e, id); } else { EnvironmentFate(lm, cfg, s, e, id); }
  }

  lemma {:induction false} FlagFreezes(lm: Lm, cfg: Config, s: State, events: seq<Event>, id: Id)
    requires StateInv(lm, cfg, s) && Live(s, id) && s.seqs[id].abortRequested
    ensures Frozen(Serve(lm, cfg, s, events), id, s.seqs[id].output)
    ensures OutsideBatch(s, id) ==> AbortsOnly(Serve(lm, cfg, s, events), id)
  {
    hide StateInv, Next, OutsideBatch;
    if events != [] {
      var k := |events| - 1;
      FlagFreezes(lm, cfg, s, events[..k], id);
      ServeKeeps(lm, cfg, s, events[..k]);
      FreezesNext(lm, cfg, Serve(lm, cfg, s, events[..k]), events[k], id, s.seqs[id].output);
    }
  }

  // ---- A raised flag ends ----

  // Live, admitted and flagged, and its flag will be read before the iteration is over: always, unless
  // no iteration is going on or the loop that sorts out the batch has already let it through.
  ghost predicate Doomed(s: State, id: Id) {
    && Alive(s, id) && s.seqs[id].abortRequested && !AtRest(s)
    && (s.pc.Settling? ==> id in s.pc.todo)
  }

  lemma AliveInHands(cfg: Config, s: State, id: Id)
    requires Lists(cfg, s, Hands(s)) && Alive(s, id)
    ensures id in Hands(s)
  {
    hide NoDup;
  }

  // Where a worker step may lead the loop: to rest only when nobody is left to look at, and to the
  // sorting out with everybody who runs still ahead of it.
  lemma WhereTo(lm: Lm, cfg: Config, s: State, e: Event)
    requires e.Work? && !AtRest(s) && !s.pc.Settling?
    ensures var s' := Next(lm, cfg, s, e);
      && (AtRest(s') ==> Hands(s) == []) && (s'.pc.Settling? ==> s'.pc.todo == s.running == Hands(s))
  {
    hide EndAs, PrefillWithReuse, NoteToken, FinishSequence, Admit, DecodeLive;
  }

  lemma SettlingDooms(lm: Lm, cfg: Config, s: State, e: Event, id: Id)
    requires CoreOf(lm, cfg, s) && Shape(lm, s) && s.pc.Settling? && Doomed(s, id) && e.Work?
    ensures var s' := Next(lm, cfg, s, e);
      id in s'.seqs && (Terminal(s'.seqs[id].status) || (s'.pc.Settling? && id in s'.pc.todo))
  {
    hide CoreOf, Shape, AbortId;
    Split(s.pc.todo, id);
    WalkMeets(lm, cfg, s);
    AbortedFate(cfg, s, s.pc.todo[0], id);
  }

  lemma DoomedNext(lm: Lm, cfg: Config, s: State, e: Event, id: Id)
    requires StateInv(lm, cfg, s) && Doomed(s, id)
    ensures var s' := Next(lm, cfg, s, e); id in s'.seqs && (Terminal(s'.seqs[id].status) || Doomed(s', id))
  {
    hide StateInv, CoreOf, Lists, Shape, WorkStep, StepSubmit, StepRequestAbort, StepAdminAbort, SetEvent, Onward;
    var s' := Next(lm, cfg, s, e);
    Parts(lm, cfg, s);
    AliveInHands(cfg, s, id);
    NotRequeued(lm, cfg, s, e, id);
    NextOnward(lm, cfg, s, e);
    FlagStays(s.seqs[id], s'.seqs[id]);
    if !e.Work? {
      SamePlace(lm, cfg, s, e);
    } else if s.pc.Settling? {
      SettlingDooms(lm, cfg, s, e, id);
    } else {
      WhereTo(lm, cfg, s, e);
    }
  }

  lemma FlagStays(q: Sequence, q': Sequence)
    requires Onward(q, q')
    ensures q.abortRequested ==> q'.abortRequested
    ensures Terminal(q.status) ==> Terminal(q'.status)
  {
  }

  lemma {:induction false} DoomedRun(lm: Lm, cfg: Config, s: State, events: seq<Event>, id: Id)
    requires StateInv(lm, cfg, s) && Doomed(s, id)
    ensures var s' := Serve(lm, cfg, s, events); id in s'.seqs && (Terminal(s'.seqs[id].status) || Doomed(s', id))
  {
    hide StateInv, Next, Doomed, Onward;
    if events == [] {
      DoomedLives(s, id);
    } else {
      var k := |events| - 1;
      var before := Serve(lm, cfg, s, events[..k]);
      DoomedRun(lm, cfg, s, events[..k], id);
      ServeKeeps(lm, cfg, s, events[..k]);
      if Terminal(before.seqs[id].status) {
        NextOnward(lm, cfg, before, events[k]);
        FlagStays(before.seqs[id], Next(lm, cfg, before, events[k]).seqs[id]);
      } else {
        DoomedNext(lm, cfg, before, events[k], id);
      }
    }
  }

  lemma DoomedLives(s: State, id: Id)
    requires Doomed(s, id)
    ensures id in s.seqs
  {
  }

  // Ended by its flag: with what had been generated when it went up, aborted, or failed together with
  // the batch it had already joined.
  ghost predicate EndedByFlag(s: State, s': State, id: Id) {
    && id in s.seqs && id in s'.seqs && Terminal(s'.seqs[id].status)
    && s'.seqs[id].output == s.seqs[id].output && !s'.seqs[id].status.Finished?
    && (OutsideBatch(s, id) ==> s'.seqs[id].status.Aborted?)
  }

  lemma FrozenEnds(lm: Lm, cfg: Config, s: State, events: seq<Event>, id: Id)
    requires StateInv(lm, cfg, s) && Live(s, id) && s.seqs[id].abortRequested
    requires var s' := Serve(lm, cfg, s, events); id in s'.seqs && Terminal(s'.seqs[id].status)
    ensures EndedByFlag(s, Serve(lm, cfg, s, events), id)
  {
    hide StateInv, Serve, OutsideBatch;
    FlagFreezes(lm, cfg, s, events, id);
  }

  // The loop at rest: the next step sweeps everybody, or begins an iteration with everybody in hand.
  lemma FlagAtTop(lm: Lm, cfg: Config, s: State, e: Event, id: Id)
    requires StateInv(lm, cfg, s) && Alive(s, id) && s.seqs[id].abortRequested && AtRest(s) && e.Work?
    ensures s.pc.Top?
    ensures var s' := Next(lm, cfg, s, e);
      id in s'.seqs && (Terminal(s'.seqs[id].status) || (Doomed(s', id) && s'.pc == Dropping(s.running, [])))
  {
    hide Core, AbortLeftovers, NoDup;
    if s.stop { LeftoversEnd(lm, cfg, s); LeftoversFate(lm, cfg, s, id); }
  }

  // The exact statement for one iteration: a flag that is up ends its sequence before the loop is at
  // rest again, unless the loop that sorts out the batch has already let it through ...
  lemma FlagEndsWithIteration(lm: Lm, cfg: Config, s: State, events: seq<Event>, id: Id)
    requires Reachable(lm, cfg, s) && Alive(s, id) && s.seqs[id].abortRequested && !AtRest(s)
    requires s.pc.Settling? ==> id in s.pc.todo
    requires AtRest(Serve(lm, cfg, s, events))
    ensures EndedByFlag(s, Serve(lm, cfg, s, events), id)
  {
    hide Reachable, StateInv, Serve, EndedByFlag;
    ReachableHolds(lm, cfg, s);
    DoomedRun(lm, cfg, s, events, id);
    FrozenEnds(lm, cfg, s, events, id);
  }

  // ... and then the iteration that begins next ends it.
  lemma FlagEndsNextIteration(lm: Lm, cfg: Config, s: State, e: Event, events: seq<Event>, id: Id)
    requires Reachable(lm, cfg, s) && Alive(s, id) && s.seqs[id].abortRequested && AtRest(s) && e.Work?
    requires AtRest(Serve(lm, cfg, Next(lm, cfg, s, e), events))
    ensures EndedByFlag(s, Serve(lm, cfg, s, [e] + events), id)
  {
    hide Reachable, StateInv, Serve, Next, EndedByFlag, Doomed, Onward;
    ReachableHolds(lm, cfg, s);
    FlagAtTop(lm, cfg, s, e, id);
    NextKeeps(lm, cfg, s, e);
    ServeCons(lm, cfg, s, [e] + events);
    assert ([e] + events)[1..] == events;
    var s1 := Next(lm, cfg, s, e);
    if Terminal(s1.seqs[id].status) {
      ServeOnward(lm, cfg, s1, events);
      FlagStays(s1.seqs[id], Serve(lm, cfg, s1, events).seqs[id]);
    } else {
      DoomedRun(lm, cfg, s1, events, id);
      RestEnds(Serve(lm, cfg, s1, events), id);
    }
    FrozenEnds(lm, cfg, s, [e] + events, id);
  }

  lemma RestEnds(s: State, id: Id)
    requires AtRest(s)
    ensures !Doomed(s, id)
  {
  }

  // Worker steps that are certainly enough for a flag.
  ghost function FlagSteps(cfg: Config, s: State, id: Id): nat {
    StepsLeft(cfg, s) + if Doomed(s, id) then 0 else IterationSteps(cfg)
  }

  lemma FlagStepsFall(lm: Lm, cfg: Config, s: State, e: Event, id: Id)
    requires StateInv(lm, cfg, s) && Alive(s, id) && s.seqs[id].abortRequested
    ensures var s' := Next(lm, cfg, s, e);
      && id in s'.seqs && s'.seqs[id].abortRequested
      && (Terminal(s'.seqs[id].status) || (Alive(s', id) && FlagSteps(cfg, s', id) <= FlagSteps(cfg, s, id) &&
        (e.Work? ==> FlagSteps(cfg, s', id) < FlagSteps(cfg, s, id))))
  {
    hide StateInv, WorkStep, StepSubmit, StepRequestAbort, StepAdminAbort, SetEvent, StepsLeft, Doomed, Onward;
    var s' := Next(lm, cfg, s, e);
    NextOnward(lm, cfg, s, e);
    FlagStays(s.seqs[id], s'.seqs[id]);
    NotRequeued(lm, cfg, s, e, id);
    if Doomed(s, id) { DoomedNext(lm, cfg, s, e, id); }
    if !e.Work? {
      EnvironmentWaits(lm, cfg, s, e);
    } else if AtRest(s) {
      FlagAtTop(lm, cfg, s, e, id);
      RestEnds(s, id);
      RunningBounded(lm, cfg, s);
      if !Terminal(s'.seqs[id].status) { BeginSteps(cfg, s'); }
    } else {
      StepsFall(lm, cfg, s, e.now, e.fails, e.sampleFails);
    }
  }

  lemma BeginSteps(cfg: Config, s: State)
    requires s.pc.Dropping? && |s.pc.todo| <= cfg.maxBatch
    ensures StepsLeft(cfg, s) < IterationSteps(cfg)
  {
  }

  lemma SomeStepsLeft(cfg: Config, s: State, id: Id)
    requires Alive(s, id)
    ensures FlagSteps(cfg, s, id) > 0
  {
  }

  lemma {:induction false} FlagRun(lm: Lm, cfg: Config, s: State, events: seq<Event>, id: Id)
    requires StateInv(lm, cfg, s) && Alive(s, id) && s.seqs[id].abortRequested
    requires WorkCount(events) >= FlagSteps(cfg, s, id)
    ensures var s' := Serve(lm, cfg, s, events); id in s'.seqs && Terminal(s'.seqs[id].status)
    decreases |events|
  {
    hide StateInv, Next, FlagSteps, Onward;
    SomeStepsLeft(cfg, s, id);
    var e, s' := events[0], Next(lm, cfg, s, events[0]);
    ServeCons(lm, cfg, s, events);
    FlagStepsFall(lm, cfg, s, e, id);
    NextKeeps(lm, cfg, s, e);
    if Terminal(s'.seqs[id].status) {
      ServeOnward(lm, cfg, s', events[1..]);
      FlagStays(s'.seqs[id], Serve(lm, cfg, s', events[1..]).seqs[id]);
    } else {
      FlagRun(lm, cfg, s', events[1..], id);
    }
  }

  // Wherever the loop stands, a flag that is up on an admitted sequence ends it within the worker steps
  // that finish the current iteration and one more, whatever else happens.
  lemma FlagEnds(lm: Lm, cfg: Config, s: State, events: seq<Event>, id: Id)
    requires Reachable(lm, cfg, s) && Alive(s, id) && s.seqs[id].abortRequested
    requires WorkCount(events) >= StepsLeft(cfg, s) + IterationSteps(cfg)
    ensures EndedByFlag(s, Serve(lm, cfg, s, events), id)
  {
    hide Reachable, StateInv, Serve, EndedByFlag, StepsLeft;
    ReachableHolds(lm, cfg, s);
    FlagRun(lm, cfg, s, events, id);
    FrozenEnds(lm, cfg, s, events, id);
  }

  // The loop that sorts out the batch has let it through: whatever happens to its flag then, it is
  // there, live and as it was, when the loop is back at its top.
  ghost predicate LetThrough(s: State, id: Id, output: seq<Token>, steps: nat) {
    && Live(s, id) && id !in s.waiting && s.seqs[id].output == output
    && if steps == 0 then s.pc.Top? && id in s.running
       else s.pc.Settling? && id in s.pc.still && id !in s.pc.todo && |s.pc.todo| + 1 == steps
  }

  lemma SettleMoves(lm: Lm, cfg: Config, s: State)
    requires CoreOf(lm, cfg, s) && s.pc.Settling? && (s.pc.todo != [] ==> s.pc.todo[0] in s.seqs)
    ensures StepSettling(cfg, s).waiting == s.waiting
    ensures s.pc.todo == [] ==>
      var s' := StepSettling(cfg, s); s'.pc.Top? && s'.running == s.pc.still && s'.seqs == s.seqs
    ensures s.pc.todo != [] ==>
      var s' := StepSettling(cfg, s);
      && s'.pc.Settling? && s'.pc.todo == s.pc.todo[1..]
      && forall id :: id in s.pc.still ==> id in s'.pc.still
  {
    hide CoreOf, AbortId;
    if s.pc.todo != [] { MetRecord(lm, cfg, s, s.pc.todo[0]); }
  }

  lemma LetThroughWork(lm: Lm, cfg: Config, s: State, e: Event, id: Id, output: seq<Token>, steps: nat)
    requires CoreOf(lm, cfg, s) && Shape(lm, s) && LetThrough(s, id, output, steps) && e.Work? && steps > 0
    ensures LetThrough(Next(lm, cfg, s, e), id, output, steps - 1)
  {
    hide CoreOf, Shape, StepSettling, Fate;
    if s.pc.todo != [] {
      WalkFates(lm, cfg, s, e, id);
      WalkMeets(lm, cfg, s);
      TailIn(s.pc.todo);
    }
    SettleMoves(lm, cfg, s);
  }

  lemma LetThroughNext(lm: Lm, cfg: Config, s: State, e: Event, id: Id, output: seq<Token>, steps: nat)
    requires StateInv(lm, cfg, s) && LetThrough(s, id, output, steps) && (e.Work? ==> steps > 0)
    ensures LetThrough(Next(lm, cfg, s, e), id, output, if e.Work? then steps - 1 else steps)
  {
    hide StateInv, CoreOf, Lists, Shape;
    Parts(lm, cfg, s);
    if e.Work? {
      hide Next, LetThrough;
      LetThroughWork(lm, cfg, s, e, id, output, steps);
    } else {
      EnvironmentFate(lm, cfg, s, e, id);
      NotRequeued(lm, cfg, s, e, id);
      SamePlace(lm, cfg, s, e);
    }
  }

  lemma {:induction false} LetThroughRun(lm: Lm, cfg: Config, s: State, events: seq<Event>, id: Id, steps: nat)
    requires StateInv(lm, cfg, s) && Live(s, id) && LetThrough(s, id, s.seqs[id].output, steps)
    requires WorkCount(events) <= steps
    ensures LetThrough(Serve(lm, cfg, s, events), id, s.seqs[id].output, steps - WorkCount(events))
  {
    hide StateInv, Next, LetThrough;
    if events != [] {
      var k := |events| - 1;
      CountLast(events);
      LetThroughRun(lm, cfg, s, events[..k], id, steps);
      ServeKeeps(lm, cfg, s, events[..k]);
      LetThroughNext(lm, cfg, Serve(lm, cfg, s, events[..k]), events[k], id, s.seqs[id].output,
        steps - WorkCount(events[..k]));
    }
  }

  lemma {:induction false} CountLast(events: seq<Event>)
    requires events != []
    ensures var k := |events| - 1; WorkCount(events) == WorkCount(events[..k]) + if events[k].Work? then 1 else 0
  {
    var k := |events| - 1;
    if k > 0 {
      CountLast(events[1..]);
      assert events[1..][..k - 1] == events[..k][1..];
    }
  }

  // So for the iteration going on while the batch is sorted out the condition is exact: back at its
  // top, the loop still has a flagged sequence if and only if it had already let it through.
  lemma LetThroughExactly(lm: Lm, cfg: Config, s: State, events: seq<Event>, id: Id)
    requires Reachable(lm, cfg, s) && s.pc.Settling? && Alive(s, id) && s.seqs[id].abortRequested
    requires WorkCount(events) == |s.pc.todo| + 1
    ensures Live(Serve(lm, cfg, s, events), id) <==> id in s.pc.still
    ensures id in s.pc.still <==> id !in s.pc.todo
  {
    hide StateInv, CoreOf, Lists, Shape, Serve, EndedByFlag, Reachable;
    ReachableHolds(lm, cfg, s);
    Parts(lm, cfg, s);
    AliveInHands(cfg, s, id);
    HandsDisjoint(cfg, s, Hands(s));
    NoDupConcat(s.pc.still, s.pc.todo);
    if id in s.pc.still {
      LetThroughRun(lm, cfg, s, events, id, |s.pc.todo| + 1);
    } else {
      FlagRun(lm, cfg, s, events, id);
    }
  }

  // ---- The requests themselves ----

  // A client that goes away: an admitted sequence ends with what it has generated at that moment.
  lemma AbortRequestEnds(lm: Lm, cfg: Config, s: State, events: seq<Event>, id: Id)
    requires Reachable(lm, cfg, s) && Alive(s, id)
    requires WorkCount(events) >= StepsLeft(cfg, s) + IterationSteps(cfg)
    ensures EndedByFlag(s, Serve(lm, cfg, s, [RequestAbort(id)] + events), id)
  {
    hide Reachable, Serve, StepsLeft, OutsideBatch, StateInv;
    Flagged(lm, cfg, s, events, RequestAbort(id), id);
  }

  // An administrative abort of a running sequence is such a request ...
  lemma AdminAbortEnds(lm: Lm, cfg: Config, s: State, events: seq<Event>, id: Id)
    requires Reachable(lm, cfg, s) && Alive(s, id) && id in s.running
    requires WorkCount(events) >= StepsLeft(cfg, s) + IterationSteps(cfg)
    ensures EndedByFlag(s, Serve(lm, cfg, s, [AdminAbort(id)] + events), id)
  {
    hide Reachable, Serve, StepsLeft, OutsideBatch, StateInv;
    Flagged(lm, cfg, s, events, AdminAbort(id), id);
  }

  lemma Flagged(lm: Lm, cfg: Config, s: State, events: seq<Event>, e: Event, id: Id)
    requires Reachable(lm, cfg, s) && Alive(s, id) && !e.Work? && Flags(s, e, id)
    requires WorkCount(events) >= StepsLeft(cfg, s) + IterationSteps(cfg)
    ensures EndedByFlag(s, Serve(lm, cfg, s, [e] + events), id)
  {
    hide Serve, StepsLeft, StateInv, Next, Init;
    ReachableHolds(lm, cfg, s);
    var s1 := Next(lm, cfg, s, e);
    EnvironmentFate(lm, cfg, s, e, id);
    NotRequeued(lm, cfg, s, e, id);
    EnvironmentWaits(lm, cfg, s, e);
    SamePlace(lm, cfg, s, e);
    ServeCons(lm, cfg, s, [e] + events);
    assert ([e] + events)[1..] == events;
    ReachableNext(lm, cfg, s, e);
    FlagEnds(lm, cfg, s1, events, id);
  }

  // ... of a waiter it takes the sequence out of the queue and ends it on the spot; of anybody else it
  // changes nothing.
  lemma AdminAbortExactly(lm: Lm, cfg: Config, s: State, id: Id)
    requires Reachable(lm, cfg, s)
    ensures var s' := Next(lm, cfg, s, AdminAbort(id));
      if id in s.waiting then
        && id !in s'.waiting && id in s.seqs && id in s'.seqs
        && s'.seqs[id].status.Aborted? && s'.seqs[id].output == s.seqs[id].output && s'.seqs[id].signals == 1
        && s'.running == s.running && s'.pc == s.pc
        && (forall w :: w != id ==> (w in s'.waiting <==> w in s.waiting))
        && (forall w :: w in s.seqs && w != id ==> w in s'.seqs && s'.seqs[w] == s.seqs[w])
      else if id in s.running then
        id in s.seqs ==> s' == s.(seqs := s.seqs[id := s.seqs[id].(abortRequested := true)])
      else s' == s
  {
    hide StateInv, Core, Shape, EndAs, AbortId, NoDup;
    ReachableHolds(lm, cfg, s);
    Parts(lm, cfg, s);
    var i := IndexOf(s.waiting, id);
    if i < |s.waiting| { AdminAbortWaiter(lm, cfg, s, id); }
  }

  lemma AdminAbortWaiter(lm: Lm, cfg: Config, s: State, id: Id)
    requires StateInv(lm, cfg, s) && id in s.waiting
    ensures var s' := Next(lm, cfg, s, AdminAbort(id));
      && id !in s'.waiting && id in s.seqs && id in s'.seqs
      && s'.seqs[id].status.Aborted? && s'.seqs[id].output == s.seqs[id].output && s'.seqs[id].signals == 1
      && s'.running == s.running && s'.pc == s.pc
      && (forall w :: w != id ==> (w in s'.waiting <==> w in s.waiting))
      && (forall w :: w in s.seqs && w != id ==> w in s'.seqs && s'.seqs[w] == s.seqs[w])
  {
    hide Core, Shape, EndAs;
    var i := IndexOf(s.waiting, id);
    HandsDisjoint(cfg, s, Hands(s));
    Removed(s.waiting, i);
    WaiterIsLive(lm, cfg, s, Hands(s), id);
    EndedAs(cfg, s.m, s.seqs[id], Aborted);
    NextKeeps(lm, cfg, s, AdminAbort(id));
    EndedOnce(lm, cfg, Next(lm, cfg, s, AdminAbort(id)), id);
  }
}
