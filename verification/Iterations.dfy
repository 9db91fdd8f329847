// What one whole iteration of the loop achieves: it makes progress, gives every running sequence its
// token, prefills everybody it admits, and leaves no room in the batch that somebody could take.
module Iterations {
  import opened Common
  import opened LanguageModel
  import opened Sequences
  import opened BlockPool
  import opened PrefixCache
  import opened Scheduler
  import opened Lifecycle
  import opened Worker
  import opened WorkerCore
  import opened WorkerRecords
  import opened WorkerInvariant
  import opened WorkerRuns
  import opened WorkerHistory
  import opened AdmissionOrder
  import opened Drain
  import opened DrainRuns
  import opened CoverageRuns
  import opened Fates
  import opened Fairness
  import opened Endings

  // An iteration begins: the loop is at its top or has been woken, and nobody has asked it to stop.
  ghost predicate Begins(s: State) {
    (s.pc.Top? || s.pc == Blocked(true)) && !s.stop && (s.pc.Top? ==> s.running != [] || s.waiting != [] || s.event)
  }

  lemma BeginsWith(lm: Lm, cfg: Config, s: State, e: Event)
    requires Begins(s) && e.Work?
    ensures Next(lm, cfg, s, e) == BeginIteration(s)
  {
  }

  // ---- Progress ----

  // An iteration that has somebody to serve lowers the tokens left to the requests submitted so far.
  lemma WholeIterationProgresses(lm: Lm, cfg: Config, s: State, events: seq<Event>)
    requires Reachable(lm, cfg, s) && Begins(s) && Ready(cfg, s) && WholeIteration(lm, cfg, s, events)
    ensures TotalLeft(Serve(lm, cfg, s, events), s.submitted) < TotalLeft(s, s.submitted)
  {
    hide Reachable, Ready, Serve, Next, TotalLeft;
    var begin := Work(0, false, false);
    BeginsWith(lm, cfg, s, events[0]);
    BeginsWith(lm, cfg, s, begin);
    ServeCons(lm, cfg, s, events);
    IterationMakesProgress(lm, cfg, s, 0, events[1..]);
  }

  // ---- Everybody who runs gets a token ----

  // The decode step of this iteration may still reach w.
  ghost predicate StillToCome(s: State, w: Id) {
    match s.pc
    case Rows(live, row, _) => row < |live| && w in live[row..]
    case Failing(_) => false
    case Settling(_, _) => false
    case _ => !AtRest(s)
  }

  // Of a sequence that was running with n tokens when the iteration began.
  ghost predicate Fed(s: State, w: Id, n: nat, failed: bool, flagged: bool) {
    && w in s.seqs && n <= |s.seqs[w].output| <= n + 1 && w !in s.waiting
    && match s.seqs[w].status
       case Decoding => (StillToCome(s, w) ==> |s.seqs[w].output| == n) && (s.seqs[w].abortRequested ==> flagged)
       case Finished => |s.seqs[w].output| == n + 1
       case Aborted => flagged
       case Errored => failed
       case _ => false
  }

  // A step that feeds nobody leaves what is still to come to nobody new.
  lemma ComesToNobodyElse(lm: Lm, cfg: Config, s: State, e: Event, w: Id)
    requires !AtRest(s) && StillToCome(Next(lm, cfg, s, e), w)
    ensures StillToCome(s, w)
  {
    hide EndAs, PrefillWithReuse, NoteToken, FinishSequence, DecodeLive, Admit, NeedTokens, BlocksNeeded;
  }

  // Besides its own row nothing feeds or finishes a sequence that is decoding.
  lemma OnlyRowsFeed(lm: Lm, cfg: Config, s: State, e: Event, w: Id)
    requires StateInv(lm, cfg, s) && Live(s, w) && s.seqs[w].status.Decoding? && e.Work? && !AtRest(s)
    requires s.pc.Rows? && s.pc.row < |s.pc.live| ==> s.pc.live[s.pc.row] != w
    ensures var s' := Next(lm, cfg, s, e);
      && w in s'.seqs && s'.seqs[w].output == s.seqs[w].output && !s'.seqs[w].status.Finished?
      && Fate(s.seqs[w], s'.seqs[w], false, FailsNow(s, e, w)) && (s'.seqs[w].status.Errored? ==> s.pc.Failing?)
  {
    hide StateInv, CoreOf, Lists, Shape, AbortLeftovers, StepInPrefill, StepSampled, StepFailing, Fate, Admit, AbortId;
    hide DecodeLive, FinishSequence, NoteToken;
    Parts(lm, cfg, s);
    WorkFate(lm, cfg, s, e, w);
    if s.pc.InPrefill? {
      PrefillTarget(lm, cfg, s);
      InPrefillFate(lm, cfg, s, e, w);
    } else if s.pc.Sampled? {
      SampledSleeps(lm, s);
      SampledFate(lm, cfg, s, w);
    } else if s.pc.Failing? {
      FailingFate(lm, cfg, s, e, w);
    } else if s.pc.Rows? && s.pc.row < |s.pc.live| {
      RowFate(lm, cfg, s, w);
    } else {
      WalksFeedNobody(lm, cfg, s, e, w);
    }
    if FailsNow(s, e, w) { FailsInBatch(lm, cfg, s, e, w); }
    ErroredHasFailed(s.seqs[w], Next(lm, cfg, s, e).seqs[w], FailsNow(s, e, w));
  }

  lemma ErroredHasFailed(q: Sequence, q': Sequence, failing: bool)
    requires Fate(q, q', false, failing)
    ensures q'.status.Errored? ==> failing
  {
  }

  lemma FailsInBatch(lm: Lm, cfg: Config, s: State, e: Event, w: Id)
    requires CoreOf(lm, cfg, s) && Lists(cfg, s, Hands(s)) && Shape(lm, s)
    requires Live(s, w) && s.seqs[w].status.Decoding? && FailsNow(s, e, w)
    ensures s.pc.Failing?
  {
    hide CoreOf, Lists, Shape;
    if s.pc.InPrefill? { PrefillTarget(lm, cfg, s); }
  }

  lemma SampledSleeps(lm: Lm, s: State)
    requires Shape(lm, s) && s.pc.Sampled?
    ensures s.pc.id in s.seqs && s.seqs[s.pc.id].status.Prefilling?
  {
    hide AllDecoding, AllAdmitted;
  }

  lemma WalksFeedNobody(lm: Lm, cfg: Config, s: State, e: Event, w: Id)
    requires CoreOf(lm, cfg, s) && Lists(cfg, s, Hands(s)) && Shape(lm, s) && Live(s, w) && e.Work?
    requires s.seqs[w].status.Decoding?
    requires !AtRest(s) && !s.pc.InPrefill? && !s.pc.Sampled? && !s.pc.Failing?
    requires s.pc.Rows? ==> s.pc.row >= |s.pc.live|
    ensures var s' := Next(lm, cfg, s, e);
      w in s'.seqs && s'.seqs[w].output == s.seqs[w].output && !s'.seqs[w].status.Finished?
  {
    hide CoreOf, Lists, Shape;
    if (s.pc.Dropping? || s.pc.Prefills? || s.pc.Sweeping? || s.pc.Settling?) && s.pc.todo != [] {
      WalkFates(lm, cfg, s, e, w);
    } else if s.pc.Dropping? {
      AdmissionBides(lm, cfg, s, e, w);
    } else {
      SameRecords(lm, cfg, s, e);
    }
  }

  lemma FedNext(lm: Lm, cfg: Config, s: State, e: Event, w: Id, n: nat, failed: bool, flagged: bool)
    requires StateInv(lm, cfg, s) && Fed(s, w, n, failed, flagged) && !AtRest(s) && (s.pc.Failing? ==> failed)
    ensures Fed(Next(lm, cfg, s, e), w, n, failed || Failure(e), flagged || e == RequestAbort(w) || e == AdminAbort(w))
  {
    hide StateInv, CoreOf, Lists, Shape, WorkStep, StepSubmit, StepRequestAbort, StepAdminAbort, SetEvent, AllOnward;
    NotRequeued(lm, cfg, s, e, w);
    NextOnward(lm, cfg, s, e);
    if Terminal(s.seqs[w].status) {
      EndedStaysFed(s, Next(lm, cfg, s, e), w, n, failed, flagged);
    } else if !e.Work? {
      EnvironmentFate(lm, cfg, s, e, w);
      SamePlace(lm, cfg, s, e);
    } else if s.pc.Rows? && s.pc.row < |s.pc.live| && s.pc.live[s.pc.row] == w {
      RowFeeds(lm, cfg, s, e, w, n, failed, flagged);
    } else {
      OnlyRowsFeed(lm, cfg, s, e, w);
      if StillToCome(Next(lm, cfg, s, e), w) { ComesToNobodyElse(lm, cfg, s, e, w); }
    }
  }

  lemma EndedStaysFed(s: State, s': State, w: Id, n: nat, failed: bool, flagged: bool)
    requires Fed(s, w, n, failed, flagged) && Terminal(s.seqs[w].status) && w !in s'.waiting
    requires w in s'.seqs && Onward(s.seqs[w], s'.seqs[w])
    ensures Fed(s', w, n, failed, flagged)
  {
  }

  // The row of w: it is aborted, or has its one token and nothing more to come.
  lemma RowFeeds(lm: Lm, cfg: Config, s: State, e: Event, w: Id, n: nat, failed: bool, flagged: bool)
    requires StateInv(lm, cfg, s) && Fed(s, w, n, failed, flagged) && Live(s, w) && e.Work?
    requires s.pc.Rows? && s.pc.row < |s.pc.live| && s.pc.live[s.pc.row] == w
    requires w !in Next(lm, cfg, s, e).waiting
    ensures Fed(Next(lm, cfg, s, e), w, n, failed, flagged)
  {
    hide CoreOf, Lists, StepRows, RowTrue;
    RowFate(lm, cfg, s, w);
    RowEffect(lm, cfg, s);
    var live, row := s.pc.live, s.pc.row;
    assert live[row..][0] == w;
    assert w !in live[row + 1..];
  }

  lemma FedFirst(lm: Lm, cfg: Config, s: State, w: Id)
    requires StateInv(lm, cfg, s) && Begins(s) && w in s.running
    ensures w in s.seqs && s.seqs[w].status.Decoding?
    ensures Fed(BeginIteration(s), w, |s.seqs[w].output|, false, s.seqs[w].abortRequested)
  {
    hide Core, NoDup;
    HandsDisjoint(cfg, s, Hands(s));
  }

  lemma FedWeaker(s: State, w: Id, n: nat, failed: bool, flagged: bool, failed': bool, flagged': bool)
    requires Fed(s, w, n, failed, flagged) && (failed ==> failed') && (flagged ==> flagged')
    ensures Fed(s, w, n, failed', flagged')
  {
  }

  // Its flag was up at the start, or has gone up since.
  predicate FlaggedIn(q: Sequence, events: seq<Event>, w: Id) {
    q.abortRequested || RequestAbort(w) in events || AdminAbort(w) in events
  }

  // What holds of w, running in the state q, after these events of the iteration.
  ghost predicate FedBy(s: State, events: seq<Event>, w: Id, q: Sequence) {
    Fed(s, w, |q.output|, Failed(events), FlaggedIn(q, events, w)) && (s.pc.Failing? ==> Failed(events))
  }

  lemma FedByFirst(lm: Lm, cfg: Config, s: State, e: Event, w: Id)
    requires StateInv(lm, cfg, s) && Begins(s) && w in s.running && e.Work?
    ensures w in s.seqs && FedBy(Next(lm, cfg, s, e), [e], w, s.seqs[w])
  {
    hide StateInv, Next, Fed, Failed, Begins;
    BeginsWith(lm, cfg, s, e);
    FedFirst(lm, cfg, s, w);
    var q := s.seqs[w];
    FedWeaker(BeginIteration(s), w, |q.output|, false, q.abortRequested, Failed([e]), FlaggedIn(q, [e], w));
  }

  lemma FedByNext(lm: Lm, cfg: Config, s: State, events: seq<Event>, e: Event, w: Id, q: Sequence)
    requires StateInv(lm, cfg, s) && FedBy(s, events, w, q) && !AtRest(s)
    ensures FedBy(Next(lm, cfg, s, e), events + [e], w, q)
  {
    hide StateInv, Next, Fed, Failed;
    var failed, flagged := Failed(events), FlaggedIn(q, events, w);
    FedNext(lm, cfg, s, e, w, |q.output|, failed, flagged);
    FailingAsked(lm, cfg, s, e);
    OneMore(events, e, w);
    FedWeaker(Next(lm, cfg, s, e), w, |q.output|, failed || Failure(e), flagged || e == RequestAbort(w) ||
      e == AdminAbort(w), Failed(events + [e]), FlaggedIn(q, events + [e], w));
  }

  lemma NotYetAtRest(lm: Lm, cfg: Config, s: State, events: seq<Event>, k: nat)
    requires WholeIteration(lm, cfg, s, events) && 0 < k < |events|
    ensures !AtRest(Serve(lm, cfg, s, events[..k]))
  {
  }

  lemma {:induction false} FedAt(lm: Lm, cfg: Config, s: State, events: seq<Event>, w: Id, k: nat)
    requires StateInv(lm, cfg, s) && Begins(s) && w in s.running && WholeIteration(lm, cfg, s, events)
    requires 1 <= k <= |events| && w in s.seqs
    ensures FedBy(Serve(lm, cfg, s, events[..k]), events[..k], w, s.seqs[w])
  {
    hide StateInv, Next, FedBy, Begins, WholeIteration;
    IterationParts(lm, cfg, s, events);
    var past, e := events[..k - 1], events[k - 1];
    assert events[..k] == past + [e];
    ServeSnoc(lm, cfg, s, past, e);
    if k == 1 {
      FedByFirst(lm, cfg, s, e, w);
    } else {
      FedAt(lm, cfg, s, events, w, k - 1);
      ServeKeeps(lm, cfg, s, past);
      NotYetAtRest(lm, cfg, s, events, k - 1);
      FedByNext(lm, cfg, Serve(lm, cfg, s, past), past, e, w, s.seqs[w]);
    }
  }

  // Whatever happens during an iteration: a sequence that was running when it began has afterwards
  // ended or generated one token more, and no more than one; it finishes only with that token, is
  // aborted only when its flag was up or has gone up, and fails only with a failure.
  lemma IterationFeedsEverybody(lm: Lm, cfg: Config, s: State, events: seq<Event>, w: Id)
    requires Reachable(lm, cfg, s) && Begins(s) && WholeIteration(lm, cfg, s, events) && w in s.running
    ensures var s' := Serve(lm, cfg, s, events);
      && w in s.seqs && w in s'.seqs && s.seqs[w].output <= s'.seqs[w].output
      && var n, q := |s.seqs[w].output|, s'.seqs[w];
      && |q.output| <= n + 1
      && (!Terminal(q.status) || q.status.Finished? ==> |q.output| == n + 1)
      && (!Terminal(q.status) ==> w in s'.running && q.status.Decoding?)
      && (q.status.Aborted? ==> s.seqs[w].abortRequested || RequestAbort(w) in events || AdminAbort(w) in events)
      && (q.status.Errored? ==> Failed(events))
  {
    hide StateInv, CoreOf, Lists, Shape, Serve, Next, WholeIteration, Begins, Reachable, Due, Served, Later, Onward;
    hide Failed;
    ReachableHolds(lm, cfg, s);
    Parts(lm, cfg, s);
    FedFirst(lm, cfg, s, w);
    IterationParts(lm, cfg, s, events);
    FedAt(lm, cfg, s, events, w, |events|);
    assert events[..|events|] == events;
    var s' := Serve(lm, cfg, s, events);
    ServeOnward(lm, cfg, s, events);
    OutputGrows(s, s', w);
    ServeKeeps(lm, cfg, s, events);
    if !Terminal(s'.seqs[w].status) {
      RunningIsServed(lm, cfg, s, events, w);
      LiveAtRest(lm, cfg, s', w);
    }
  }

  lemma IterationParts(lm: Lm, cfg: Config, s: State, events: seq<Event>)
    requires WholeIteration(lm, cfg, s, events)
    ensures |events| >= 1 && events[0].Work? && AtRest(Serve(lm, cfg, s, events))
  {
  }

  lemma OutputGrows(s: State, s': State, w: Id)
    requires Later(s, s') && w in s.seqs
    ensures w in s'.seqs && s.seqs[w].output <= s'.seqs[w].output
  {
    assert Onward(s.seqs[w], s'.seqs[w]);
  }

  // Owed since the iteration began.
  lemma RunningIsServed(lm: Lm, cfg: Config, s: State, events: seq<Event>, w: Id)
    requires StateInv(lm, cfg, s) && Begins(s) && WholeIteration(lm, cfg, s, events) && w in s.running
    ensures var s' := Serve(lm, cfg, s, events);
      && w in s.seqs && w in s'.seqs
      && (Terminal(s'.seqs[w].status) || |s'.seqs[w].output| > |s.seqs[w].output|)
  {
    hide StateInv, Next, Due, Begins;
    var s1 := Next(lm, cfg, s, events[0]);
    BeginsWith(lm, cfg, s, events[0]);
    NextKeeps(lm, cfg, s, events[0]);
    RunningOwed(lm, cfg, s, w);
    ServeCons(lm, cfg, s, events);
    ServeServes(lm, cfg, s1, events[1..], w);
    RestOwesNothing(cfg, Serve(lm, cfg, s, events), w);
  }

  lemma RunningOwed(lm: Lm, cfg: Config, s: State, w: Id)
    requires StateInv(lm, cfg, s) && Begins(s) && w in s.running
    ensures w in s.seqs && Due(cfg, BeginIteration(s), w) && BeginIteration(s).seqs == s.seqs
  {
    hide Core, NoDup, AtHead;
    assert w in [] + s.running;
  }

  lemma LiveAtRest(lm: Lm, cfg: Config, s: State, w: Id)
    requires StateInv(lm, cfg, s) && AtRest(s) && Live(s, w) && w !in s.waiting
    ensures w in s.running
  {
    hide Core, NoDup;
  }

  // ---- Everybody admitted is prefilled, and no room is wasted ----

  // Whoever is admitted has ended or has its first token when the loop is at rest again.
  lemma AdmittedArePrefilled(lm: Lm, cfg: Config, s: State, events: seq<Event>, w: Id)
    requires Reachable(lm, cfg, s) && s.pc.Prefills? && w in s.pc.todo && AtRest(Serve(lm, cfg, s, events))
    ensures var s' := Serve(lm, cfg, s, events);
      w in s'.seqs && (Terminal(s'.seqs[w].status) || s'.seqs[w].output != [])
  {
    hide CoreOf, Lists, Serve, Reachable, Due;
    ReachableHolds(lm, cfg, s);
    AdmittedOwed(lm, cfg, s, w);
    ServeServes(lm, cfg, s, events, w);
    RestOwesNothing(cfg, Serve(lm, cfg, s, events), w);
  }

  lemma AdmittedOwed(lm: Lm, cfg: Config, s: State, w: Id)
    requires Shape(lm, s) && s.pc.Prefills? && w in s.pc.todo
    ensures Due(cfg, s, w)
  {
    hide AllDecoding;
  }

  // Admission fills the batch, unless nobody waits, nobody fits, or the one that fits cannot be
  // allocated.
  lemma AdmissionFillsBatch(lm: Lm, cfg: Config, s: State, e: Event)
    requires Reachable(lm, cfg, s) && s.pc.Dropping? && s.pc.todo == [] && e.Work?
    ensures var s' := Next(lm, cfg, s, e);
      && s'.pc.Prefills? && s'.running == s.pc.kept
      && (|s'.running| + |s'.pc.todo| == cfg.maxBatch || s'.waiting == [] || NobodyFits(cfg, s')
        || exists m :: AllocationFailed(cfg, s', m, e.now))
  {
    hide CoreOf, Lists, Shape, Reachable, Admit, NobodyFits, AllocationFailed, LastRound;
    ReachableHolds(lm, cfg, s);
    AdmissionKeeps(lm, cfg, s, e.now);
    var kept, room := s.(running := s.pc.kept), Room(cfg, s);
    WhyAdmissionStops(cfg, kept, room, e.now);
    AdmissionConservesWaiters(cfg, kept, room, e.now);
    var r := Admit(cfg, kept, room, e.now);
    SamePlaces(cfg, r.0, r.0.(pc := Prefills(r.1)), LastRound(cfg, kept, room, e.now).m, e.now);
  }

  // What admission looks at does not include the program counter.
  lemma SamePlaces(cfg: Config, s: State, s': State, m: Memory, now: int)
    requires s'.m == s.m && s'.waiting == s.waiting && s'.seqs == s.seqs
    ensures NobodyFits(cfg, s) ==> NobodyFits(cfg, s')
    ensures AllocationFailed(cfg, s, m, now) ==> AllocationFailed(cfg, s', m, now)
  {
    hide Fits, TryAllocate;
  }

  // ---- An idle worker sleeps ----

  // The event is set only for a waiter or the stop request.
  ghost predicate EventForWork(s: State) {
    s.event ==> s.waiting != [] || s.stop
  }

  lemma {:induction false} AdmitEvent(cfg: Config, s: State, room: nat, now: int)
    requires EventForWork(s)
    ensures EventForWork(Admit(cfg, s, room, now).0)
    decreases room
  {
    hide TryAllocate, Fits;
    var c := Candidate(cfg, s, 0);
    if room > 0 && c < |s.waiting| {
      var t := TryAllocate(cfg, s.m, Get(s, s.waiting[c]), now);
      if t.ok { AdmitEvent(cfg, Put(TakeWaiter(s, c), (t.m, t.q)), room - 1, now); }
    }
  }

  lemma EventStays(lm: Lm, cfg: Config, s: State, e: Event)
    requires e.Work? && !(s.pc.Dropping? && s.pc.todo == []) && !AtRest(s)
    ensures Next(lm, cfg, s, e).event == s.event
  {
    hide StepInPrefill, StepSampled, StepRows, StepFailing, Admit, AbortId, DecodeLive;
    if (s.pc.Dropping? || s.pc.Prefills? || s.pc.Sweeping? || s.pc.Settling?) && s.pc.todo != [] {
      AbortKeepsEvent(cfg, s, s.pc.todo[0]);
    }
    TokensKeepEvent(lm, cfg, s, e.now, e.fails, e.sampleFails);
  }

  lemma AbortKeepsEvent(cfg: Config, s: State, id: Id)
    ensures AbortId(cfg, s, id).event == s.event
  {
    hide AbortOne;
  }

  lemma TokensKeepEvent(lm: Lm, cfg: Config, s: State, now: int, fails: bool, sampleFails: bool)
    ensures s.pc.InPrefill? ==> StepInPrefill(lm, cfg, s, now, fails, sampleFails).event == s.event
    ensures s.pc.Sampled? ==> StepSampled(cfg, s).event == s.event
    ensures s.pc.Rows? ==> StepRows(cfg, s).event == s.event
    ensures s.pc.Failing? ==> StepFailing(cfg, s).event == s.event
  {
    hide AbortOne, PrefillWithReuse, FailOne, NoteToken, FinishSequence;
  }

  lemma NextEvent(lm: Lm, cfg: Config, s: State, e: Event)
    requires EventForWork(s)
    ensures EventForWork(Next(lm, cfg, s, e))
  {
    hide WorkStep, NeedTokens, BlocksNeeded, EndAs;
    if e.Work? {
      if AtRest(s) {
        EventAtRest(lm, cfg, s, e);
      } else if s.pc.Dropping? && s.pc.todo == [] {
        EventAdmits(lm, cfg, s, e);
      } else {
        EventStays(lm, cfg, s, e);
        QueueStays(lm, cfg, s, e.now, e.fails, e.sampleFails);
        StopKept(lm, cfg, s, e);
      }
    }
  }

  lemma StopKept(lm: Lm, cfg: Config, s: State, e: Event)
    requires e.Work? && !AtRest(s)
    ensures s.stop ==> Next(lm, cfg, s, e).stop
  {
    if s.stop { StopStays(lm, cfg, s, e); }
  }

  lemma EventAtRest(lm: Lm, cfg: Config, s: State, e: Event)
    requires EventForWork(s) && e.Work? && AtRest(s)
    ensures EventForWork(Next(lm, cfg, s, e))
  {
    hide AbortLeftovers;
    LeftoversStop(cfg, s);
  }

  lemma EventAdmits(lm: Lm, cfg: Config, s: State, e: Event)
    requires EventForWork(s) && e.Work? && s.pc.Dropping? && s.pc.todo == []
    ensures EventForWork(Next(lm, cfg, s, e))
  {
    hide Admit;
    var kept := s.(running := s.pc.kept);
    AdmitEvent(cfg, kept, if |kept.running| <= cfg.maxBatch then cfg.maxBatch - |kept.running| else 0, e.now);
  }

  lemma {:induction false} ServeEvent(lm: Lm, cfg: Config, u: Setup, events: seq<Event>)
    ensures EventForWork(Serve(lm, cfg, Init(u), events))
  {
    hide Next;
    if events != [] {
      var k := |events| - 1;
      ServeEvent(lm, cfg, u, events[..k]);
      NextEvent(lm, cfg, Serve(lm, cfg, Init(u), events[..k]), events[k]);
    }
  }

  // With nobody running or waiting and no stop request the loop goes to sleep, and then no worker step
  // changes anything.
  lemma IdleWorkerSleeps(lm: Lm, cfg: Config, s: State, e: Event)
    requires Reachable(lm, cfg, s) && s.pc.Top? && s.running == [] && s.waiting == [] && !s.stop && e.Work?
    ensures Next(lm, cfg, s, e) == s.(pc := Blocked(false))
    ensures Next(lm, cfg, s.(pc := Blocked(false)), e) == s.(pc := Blocked(false))
  {
    hide Serve, Init;
    var u: Setup, events: seq<Event> :| s == Serve(lm, cfg, Init(u), events);
    ServeEvent(lm, cfg, u, events);
  }

  // What wakes it is a new waiter, or the stop request.
  lemma WokenExactlyBy(lm: Lm, cfg: Config, s: State, e: Event)
    requires s.pc == Blocked(false)
    ensures var s' := Next(lm, cfg, s, e);
      && s'.pc.Blocked? && (s'.pc.woken <==> e == RequestStop || (e.Submit? && |s'.waiting| > |s.waiting|))
  {
    hide NeedTokens, BlocksNeeded, EndAs;
  }

  // ---- An undisturbed iteration ----

  // What it does to a sequence that was running: flagged, it is aborted as it was; otherwise it has
  // one token more and has finished or runs on, unless it failed.
  ghost predicate Iterated(was: Sequence, q: Sequence) {
    && was.output <= q.output
    && if was.abortRequested then q.status.Aborted? && q.output == was.output
       else if q.status.Errored? then |q.output| <= |was.output| + 1
       else |q.output| == |was.output| + 1 && (q.status.Finished? || q.status.Decoding?)
  }

  lemma UndisturbedIteration(lm: Lm, cfg: Config, s: State, events: seq<Event>, w: Id)
    requires Reachable(lm, cfg, s) && Begins(s) && s.pc.Top? && WholeIteration(lm, cfg, s, events) && OnlyWork(events)
    requires w in s.running
    ensures var s' := Serve(lm, cfg, s, events);
      w in s.seqs && w in s'.seqs && Iterated(s.seqs[w], s'.seqs[w]) && (s'.seqs[w].status.Errored? ==> Failed(events))
  {
    hide StateInv, CoreOf, Lists, Shape, Serve, Next, Begins, Reachable, Due, Served, Later, Onward, Failed;
    IterationFeedsEverybody(lm, cfg, s, events, w);
    ReachableHolds(lm, cfg, s);
    if s.seqs[w].abortRequested {
      RunningAlive(lm, cfg, s, w);
      var e, rest := events[0], events[1..];
      assert events == [e] + rest;
      ServeCons(lm, cfg, s, events);
      FlagEndsNextIteration(lm, cfg, s, e, rest, w);
    }
  }

  lemma RunningAlive(lm: Lm, cfg: Config, s: State, w: Id)
    requires StateInv(lm, cfg, s) && s.pc.Top? && w in s.running
    ensures Alive(s, w)
  {
    hide Core, NoDup;
    HandsDisjoint(cfg, s, Hands(s));
  }
}
