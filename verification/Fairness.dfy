// Stronger progress: a stop request ends everything submitted before and serves nobody after, first
// come, first served nobody is overtaken, and the stream of a finished sequence says what naive
// generation says.
module Fairness {
  import opened Common
  import opened KvCache
  import opened LanguageModel
  import opened Engines
  import opened Generation
  import opened Sequences
  import opened BlockPool
  import opened PrefixCache
  import opened PrefixLaws
  import opened Scheduler
  import opened Lifecycle
  import opened Worker
  import opened WorkerCore
  import opened WorkerInvariant
  import opened WorkerAdmits
  import opened WorkerEnvironment
  import opened WorkerRuns
  import opened WorkerHistory
  import opened EmptyBatch
  import opened AdmissionOrder
  import opened Drain
  import opened DrainRuns
  import opened CoverageRuns
  import opened Streaming

  // ---- A stop request ----

  lemma StopStays(lm: Lm, cfg: Config, s: State, e: Event)
    requires s.stop && !(e.Work? && AtRest(s))
    ensures Next(lm, cfg, s, e).stop
  {
    if e.Work? {
      StopStaysWorking(lm, cfg, s, e);
    } else {
      hide NeedTokens, BlocksNeeded, EndAs;
    }
  }

  lemma StopStaysWorking(lm: Lm, cfg: Config, s: State, e: Event)
    requires s.stop && e.Work? && !AtRest(s)
    ensures Next(lm, cfg, s, e).stop
  {
    hide EndAs, PrefillWithReuse, NoteToken, FinishSequence, DecodeLive, Admit;
    if s.pc.Dropping? && s.pc.todo == [] { AdmitStop(cfg, s.(running := s.pc.kept), Room(cfg, s), e.now); }
  }

  lemma {:induction false} AdmitStop(cfg: Config, s: State, room: nat, now: int)
    ensures Admit(cfg, s, room, now).0.stop == s.stop
    decreases room
  {
    hide TryAllocate, Fits;
    var c := Candidate(cfg, s, 0);
    if room > 0 && c < |s.waiting| {
      var t := TryAllocate(cfg, s.m, Get(s, s.waiting[c]), now);
      if t.ok { AdmitStop(cfg, Put(TakeWaiter(s, c), (t.m, t.q)), room - 1, now); }
    }
  }

  ghost predicate AllTerminal(s: State, ids: seq<Id>) {
    forall id :: id in ids ==> id in s.seqs && Terminal(s.seqs[id].status)
  }

  lemma EndedLater(s: State, s': State, ids: seq<Id>)
    requires Later(s, s') && AllTerminal(s, ids)
    ensures AllTerminal(s', ids)
  {
    forall id | id in ids ensures id in s'.seqs && Terminal(s'.seqs[id].status) {
      assert Onward(s.seqs[id], s'.seqs[id]);
    }
  }

  // After a stop request every request submitted so far ends within the worker steps that finish the
  // current iteration and one more, whatever else happens, roomy or not.
  lemma {:induction false} StopEndsEverything(lm: Lm, cfg: Config, s: State, events: seq<Event>)
    requires StateInv(lm, cfg, s) && s.stop && !s.pc.Stopped? && WorkCount(events) > StepsLeft(cfg, s)
    ensures AllTerminal(Serve(lm, cfg, s, events), s.submitted)
    decreases |events|
  {
    hide StateInv, WorkStep, StepSubmit, StepRequestAbort, StepAdminAbort, SetEvent, StepsLeft, AllTerminal, Later;
    var e := events[0];
    var s' := Next(lm, cfg, s, e);
    ServeCons(lm, cfg, s, events);
    NextKeeps(lm, cfg, s, e);
    NextOnward(lm, cfg, s, e);
    if e.Work? && AtRest(s) {
      StoppedNow(lm, cfg, s, e);
      ServeOnward(lm, cfg, s', events[1..]);
      EndedLater(s', Serve(lm, cfg, s', events[1..]), s.submitted);
    } else {
      StopStays(lm, cfg, s, e);
      StopsOnlyAtRest(lm, cfg, s, e);
      if e.Work? { StepsFall(lm, cfg, s, e.now, e.fails, e.sampleFails); } else { EnvironmentWaits(lm, cfg, s, e); }
      StopEndsEverything(lm, cfg, s', events[1..]);
      EarlierEnded(s, s', Serve(lm, cfg, s', events[1..]));
    }
  }

  lemma EarlierEnded(s: State, s': State, s'': State)
    requires Later(s, s') && AllTerminal(s'', s'.submitted)
    ensures AllTerminal(s'', s.submitted)
  {
  }

  lemma StoppedNow(lm: Lm, cfg: Config, s: State, e: Event)
    requires StateInv(lm, cfg, s) && s.stop && e.Work? && AtRest(s) && !s.pc.Stopped?
    ensures AllTerminal(Next(lm, cfg, s, e), s.submitted)
  {
    hide Core, AbortLeftovers, NoDup;
    LeftoversEnd(lm, cfg, s);
    AbortLeftoversOnward(lm, cfg, s);
  }

  // ---- After the stop ----

  // Once the worker has stopped, a waiter ends with an administrative abort and not otherwise.
  lemma LateNext(lm: Lm, cfg: Config, s: State, e: Event, id: Id)
    requires StateInv(lm, cfg, s) && s.pc.Stopped? && id in s.waiting
    ensures var s' := Next(lm, cfg, s, e);
      && s'.pc.Stopped? && id in s.seqs && id in s'.seqs
      && if e == AdminAbort(id) then s'.seqs[id].status.Aborted? && s'.seqs[id].output == s.seqs[id].output
         else id in s'.waiting && s'.seqs[id] == s.seqs[id].(abortRequested := s'.seqs[id].abortRequested)
  {
    hide CoreOf, Shape, NeedTokens, BlocksNeeded, EndAs, NoDup;
    Waiters(cfg, s, Hands(s));
    match e {
      case AdminAbort(j) =>
        var i := IndexOf(s.waiting, j);
        if i < |s.waiting| {
          WaiterIsLive(lm, cfg, s, Hands(s), j);
          EndedAs(cfg, s.m, s.seqs[j], Aborted);
          if id != j { StillThere(s.waiting, i, id); }
        }
      case _ =>
    }
  }

  lemma {:induction false} LateRun(lm: Lm, cfg: Config, s: State, id: Id, events: seq<Event>)
    requires StateInv(lm, cfg, s) && s.pc.Stopped? && id in s.waiting && id in s.seqs && s.seqs[id].status.Waiting?
    ensures var s' := Serve(lm, cfg, s, events);
      && s'.pc.Stopped? && id in s'.seqs
      && if AdminAbort(id) in events then s'.seqs[id].status.Aborted? && s'.seqs[id].output == s.seqs[id].output
         else id in s'.waiting && s'.seqs[id] == s.seqs[id].(abortRequested := s'.seqs[id].abortRequested)
  {
    hide StateInv, Next;
    if events != [] {
      var k := |events| - 1;
      var before := Serve(lm, cfg, s, events[..k]);
      LateRun(lm, cfg, s, id, events[..k]);
      ServeKeeps(lm, cfg, s, events[..k]);
      assert AdminAbort(id) in events <==> AdminAbort(id) in events[..k] || events[k] == AdminAbort(id);
      StoppedStays(lm, cfg, before, events[k]);
      if AdminAbort(id) in events[..k] {
        NextOnward(lm, cfg, before, events[k]);
      } else {
        LateNext(lm, cfg, before, events[k], id);
      }
    }
  }

  lemma StoppedStays(lm: Lm, cfg: Config, s: State, e: Event)
    requires s.pc.Stopped?
    ensures Next(lm, cfg, s, e).pc.Stopped?
  {
    hide NeedTokens, BlocksNeeded, EndAs;
  }

  // A request accepted after the worker has stopped is never served: whatever happens, it ends, and
  // its consumer hears of it, if and only if somebody aborts it administratively.
  lemma LateSubmissionWaits(lm: Lm, cfg: Config, s: State, id: Id, req: Request, events: seq<Event>)
    requires Reachable(lm, cfg, s) && s.pc.Stopped? && id !in s.seqs && id in Next(lm, cfg, s, Submit(id, req)).seqs
    ensures var s' := Serve(lm, cfg, Next(lm, cfg, s, Submit(id, req)), events);
      && id in s'.seqs && s'.seqs[id].output == []
      && if AdminAbort(id) in events then s'.seqs[id].status.Aborted? && s'.seqs[id].signals == 1
         else s'.seqs[id].status.Waiting? && s'.seqs[id].signals == 0 && s'.seqs[id].pushed == []
  {
    hide Reachable, CoreOf, Lists, Shape, StateInv, Serve, Next, NeedTokens, BlocksNeeded;
    var e := Submit(id, req);
    var s1 := Next(lm, cfg, s, e);
    var s' := Serve(lm, cfg, s1, events);
    ReachableHolds(lm, cfg, s);
    NextKeeps(lm, cfg, s, e);
    SubmittedWaits(lm, cfg, s, id, req);
    LateRun(lm, cfg, s1, id, events);
    ServeKeeps(lm, cfg, s1, events);
    Parts(lm, cfg, s');
    if AdminAbort(id) in events { EndedOnce(lm, cfg, s', id); }
  }

  lemma SubmittedWaits(lm: Lm, cfg: Config, s: State, id: Id, req: Request)
    requires id !in s.seqs && id in Next(lm, cfg, s, Submit(id, req)).seqs
    ensures var s' := Next(lm, cfg, s, Submit(id, req));
      id in s'.waiting && s'.seqs[id] == NewSequence(id, req) && (s.pc.Stopped? ==> s'.pc.Stopped?)
  {
    hide NeedTokens, BlocksNeeded;
  }

  lemma EndedOnce(lm: Lm, cfg: Config, s: State, id: Id)
    requires CoreOf(lm, cfg, s) && id in s.seqs && s.seqs[id].status.Aborted?
    ensures s.seqs[id].signals == 1
  {
    hide Core;
    CoreAt(lm, cfg, s.m, s.waiting, s.seqs, id);
  }

  // ---- Nobody is overtaken ----

  // When a request was submitted, counted in accepted requests.
  function Place(s: State, id: Id): nat {
    IndexOf(s.submitted, id)
  }

  // The requests submitted no later than this one.
  function UpTo(s: State, id: Id): seq<Id> {
    if Place(s, id) < |s.submitted| then s.submitted[..Place(s, id) + 1] else s.submitted
  }

  // Waiters stand in the order of submission, behind everybody who has been admitted and lives.
  ghost predicate InOrder(s: State) {
    && (forall i, j :: 0 <= i < j < |s.waiting| ==> Place(s, s.waiting[i]) < Place(s, s.waiting[j]))
    && (forall id, w :: Alive(s, id) && w in s.waiting ==> Place(s, id) < Place(s, w))
  }

  // The front of the queue has left it, some of them alive.
  lemma OrderShifts(s: State, s': State, k: nat)
    requires InOrder(s) && k <= |s.waiting| && s'.waiting == s.waiting[k..] && s'.submitted == s.submitted
    requires forall id :: Alive(s', id) ==> Alive(s, id) || id in s.waiting[..k]
    ensures InOrder(s')
  {
    forall id, w | Alive(s', id) && w in s'.waiting ensures Place(s', id) < Place(s', w) {
      var j :| 0 <= j < |s'.waiting| && s'.waiting[j] == w;
      assert s.waiting[k + j] == w;
      if !Alive(s, id) {
        var i :| 0 <= i < k && s.waiting[..k][i] == id;
        assert s.waiting[i] == id;
      }
    }
  }

  lemma OrderStays(s: State, s': State)
    requires InOrder(s) && s'.waiting == s.waiting && s'.submitted == s.submitted && AllOnward(s, s')
    requires s'.seqs.Keys == s.seqs.Keys
    ensures InOrder(s')
  {
    assert s.waiting[0..] == s.waiting;
    forall id | Alive(s', id) ensures Alive(s, id) { assert Onward(s.seqs[id], s'.seqs[id]); }
    OrderShifts(s, s', 0);
  }

  lemma OrderLoses(s: State, s': State, i: nat)
    requires InOrder(s) && i < |s.waiting| && s'.waiting == Rest(s.waiting, i) && s'.submitted == s.submitted
    requires forall id :: Alive(s', id) ==> Alive(s, id)
    ensures InOrder(s')
  {
    forall a, b | 0 <= a < b < |s'.waiting| ensures Place(s', s'.waiting[a]) < Place(s', s'.waiting[b]) {
      assert s'.waiting[a] == s.waiting[if a < i then a else a + 1];
      assert s'.waiting[b] == s.waiting[if b < i then b else b + 1];
    }
    forall id, w | Alive(s', id) && w in s'.waiting ensures Place(s', id) < Place(s', w) {
      assert w in s.waiting;
    }
  }

  lemma PlaceStays(ids: seq<Id>, id: Id, last: Id)
    requires id in ids
    ensures IndexOf(ids + [last], id) == IndexOf(ids, id) < |ids|
    decreases |ids|
  {
    if ids[0] != id {
      assert (ids + [last])[1..] == ids[1..] + [last];
      assert ids == [ids[0]] + ids[1..];
      PlaceStays(ids[1..], id, last);
    }
  }

  lemma PlaceLast(ids: seq<Id>, last: Id)
    requires last !in ids
    ensures IndexOf(ids + [last], last) == |ids|
    decreases |ids|
  {
    if ids != [] {
      assert (ids + [last])[1..] == ids[1..] + [last];
      PlaceLast(ids[1..], last);
    }
  }

  lemma OrderJoins(lm: Lm, cfg: Config, s: State, id: Id, req: Request)
    requires StateInv(lm, cfg, s) && InOrder(s)
    ensures InOrder(StepSubmit(cfg, s, id, req))
  {
    hide CoreOf, Shape, NeedTokens, BlocksNeeded, NoDup, IndexOf;
    var s' := StepSubmit(cfg, s, id, req);
    if s' != s {
      Waiters(cfg, s, Hands(s));
      PlaceLast(s.submitted, id);
      forall x | x in s.seqs ensures Place(s', x) == Place(s, x) < |s.submitted| { PlaceStays(s.submitted, x, id); }
      assert forall i :: 0 <= i < |s.waiting| ==> s.waiting[i] in s.waiting;
    }
  }

  lemma OrderAdmits(lm: Lm, cfg: Config, s: State, now: int)
    requires StateInv(lm, cfg, s) && InOrder(s) && !cfg.memoryFit && s.pc.Dropping? && s.pc.todo == []
    requires AllOnward(s, StepDropping(cfg, s, now))
    ensures InOrder(StepDropping(cfg, s, now))
  {
    hide StateInv, CoreOf, Lists, Shape, Admit, Onward, Place, SameConfig;
    Parts(lm, cfg, s);
    AdmissionKeeps(lm, cfg, s, now);
    var kept, s' := s.(running := s.pc.kept), StepDropping(cfg, s, now);
    FcfsKeepsOrder(cfg, kept, Room(cfg, s), now);
    var admitted := Admit(cfg, kept, Room(cfg, s), now).1;
    assert s.waiting == admitted + s'.waiting;
    forall id | Alive(s', id) ensures Alive(s, id) || id in s.waiting[..|admitted|] {
      assert Onward(s.seqs[id], s'.seqs[id]);
      LiveThen(s.seqs[id], s'.seqs[id]);
    }
    OrderShifts(s, s', |admitted|);
  }

  lemma LiveThen(q: Sequence, q': Sequence)
    requires Onward(q, q')
    ensures !Terminal(q'.status) ==> !Terminal(q.status)
  {
  }

  lemma SameKeys(lm: Lm, cfg: Config, s: State, e: Event)
    requires StateInv(lm, cfg, s) && !e.Submit?
    ensures AllOnward(s, Next(lm, cfg, s, e)) && Next(lm, cfg, s, e).seqs.Keys == s.seqs.Keys
    ensures Next(lm, cfg, s, e).submitted == s.submitted
  {
    hide CoreOf, Shape, NoDup, Next, Onward;
    var s' := Next(lm, cfg, s, e);
    NextOnward(lm, cfg, s, e);
    NextKeeps(lm, cfg, s, e);
    SubmittedKnown(cfg, s, Hands(s));
    SubmittedKnown(cfg, s', Hands(s'));
    forall id ensures id in s'.seqs <==> id in s.seqs { assert id in s.submitted <==> id in s'.submitted; }
  }

  lemma WorkKeepsOrder(lm: Lm, cfg: Config, s: State, e: Event)
    requires StateInv(lm, cfg, s) && InOrder(s) && !cfg.memoryFit && e.Work?
    ensures InOrder(Next(lm, cfg, s, e))
  {
    hide StateInv, CoreOf, Lists, Shape, InOrder, WorkStep, AllOnward;
    Parts(lm, cfg, s);
    SameKeys(lm, cfg, s, e);
    var s' := Next(lm, cfg, s, e);
    if s.pc.Dropping? && s.pc.todo == [] {
      DroppingNext(lm, cfg, s, e);
      OrderAdmits(lm, cfg, s, e.now);
    } else if s.pc.Top? || s.pc.Blocked? {
      TopWaits(lm, cfg, s, e.now, e.fails, e.sampleFails);
      LeftoversEmpty(lm, cfg, s);
      if s'.waiting == s.waiting { OrderStays(s, s'); } else { OrderEmpties(s'); }
    } else {
      QueueStays(lm, cfg, s, e.now, e.fails, e.sampleFails);
      OrderStays(s, s');
    }
  }

  lemma OrderEmpties(s: State)
    requires s.waiting == []
    ensures InOrder(s)
  {
  }

  lemma NextKeepsOrder(lm: Lm, cfg: Config, s: State, e: Event)
    requires StateInv(lm, cfg, s) && InOrder(s) && !cfg.memoryFit
    ensures InOrder(Next(lm, cfg, s, e))
  {
    hide StateInv, InOrder, WorkStep, AllOnward, StepSubmit, AbortId;
    match e {
      case Submit(id, req) => OrderJoins(lm, cfg, s, id, req);
      case Work(_, _, _) => WorkKeepsOrder(lm, cfg, s, e);
      case AdminAbort(id) =>
        SameKeys(lm, cfg, s, e);
        if IndexOf(s.waiting, id) < |s.waiting| {
          AbortOrder(lm, cfg, s, id);
        } else {
          OrderStays(s, Next(lm, cfg, s, e));
        }
      case RequestAbort(_) =>
        SameKeys(lm, cfg, s, e);
        OrderStays(s, Next(lm, cfg, s, e));
      case RequestStop =>
        SameKeys(lm, cfg, s, e);
        OrderStays(s, Next(lm, cfg, s, e));
    }
  }

  lemma AbortOrder(lm: Lm, cfg: Config, s: State, j: Id)
    requires StateInv(lm, cfg, s) && InOrder(s) && IndexOf(s.waiting, j) < |s.waiting|
    requires AllOnward(s, StepAdminAbort(cfg, s, j)) && StepAdminAbort(cfg, s, j).seqs.Keys == s.seqs.Keys
    ensures InOrder(StepAdminAbort(cfg, s, j))
  {
    hide CoreOf, Lists, Shape, InOrder, EndAs, Onward;
    var s' := StepAdminAbort(cfg, s, j);
    forall id ensures Alive(s', id) ==> Alive(s, id) {
      if id in s.waiting { AbortedWaiterGone(lm, cfg, s, j, id); }
      if id in s.seqs { LiveThen(s.seqs[id], s'.seqs[id]); }
    }
    OrderLoses(s, s', IndexOf(s.waiting, j));
  }

  lemma {:induction false} ServeInOrder(lm: Lm, cfg: Config, u: Setup, events: seq<Event>)
    requires !cfg.memoryFit
    ensures InOrder(Serve(lm, cfg, Init(u), events))
  {
    hide StateInv, Next, InOrder;
    if events == [] {
      OrderEmpties(Init(u));
    } else {
      InitHolds(lm, cfg, u);
      ServeKeeps(lm, cfg, Init(u), events[..|events| - 1]);
      ServeInOrder(lm, cfg, u, events[..|events| - 1]);
      NextKeepsOrder(lm, cfg, Serve(lm, cfg, Init(u), events[..|events| - 1]), events[|events| - 1]);
    }
  }

  // Whom the iteration owes progress among those submitted no later than w.
  lemma EarlierServed(lm: Lm, cfg: Config, s: State, w: Id) returns (x: Id)
    requires StateInv(lm, cfg, s) && InOrder(s) && !cfg.memoryFit && (s.pc.Top? || s.pc == Blocked(true))
    requires Ready(cfg, s)
    requires w in s.seqs && !Terminal(s.seqs[w].status)
    ensures x in s.seqs && Place(s, x) <= Place(s, w) && Due(cfg, BeginIteration(s), x) && Left(s.seqs[x]) > 0
  {
    hide Core, AdmitsWhenIdle, Fits, NoDup, Place, Shape;
    assert forall id :: id in s.running ==> id in [] + s.running;
    Parts(lm, cfg, s);
    if w in s.running {
      x := w;
      RunningDue(lm, cfg, s, x);
    } else {
      x := FirstServed(cfg, s);
      BeginOwes(lm, cfg, s);
      if s.running != [] {
        HandsDisjoint(cfg, s, s.running);
        RunningDue(lm, cfg, s, x);
        assert Alive(s, x);
      } else {
        HeadIsCandidate(cfg, s);
      }
    }
  }

  lemma RunningDue(lm: Lm, cfg: Config, s: State, x: Id)
    requires StateInv(lm, cfg, s) && (s.pc.Top? || s.pc.Blocked?) && x in s.running
    ensures x in s.seqs && s.seqs[x].status.Decoding? && Left(s.seqs[x]) > 0 && Due(cfg, BeginIteration(s), x)
  {
    hide Core, NoDup, AtHead;
    assert x in [] + s.running;
    LiveHasLeft(lm, cfg, s, x);
  }

  lemma InFront(ids: seq<Id>, w: Id, x: Id)
    requires w in ids && x in ids && IndexOf(ids, x) <= IndexOf(ids, w)
    ensures x in ids[..IndexOf(ids, w) + 1]
  {
    assert ids[..IndexOf(ids, w) + 1][IndexOf(ids, x)] == x;
  }

  // First come, first served, with submissions going on: every iteration that has somebody to serve
  // strictly decreases the tokens left to the requests submitted no later than any unfinished one,
  // so it waits for those and for nobody after it.
  lemma NobodyOvertakes(lm: Lm, cfg: Config, s: State, now: int, events: seq<Event>, w: Id)
    requires Reachable(lm, cfg, s) && !cfg.memoryFit && (s.pc.Top? || s.pc == Blocked(true)) && !s.stop && Ready(cfg, s)
    requires w in s.seqs && !Terminal(s.seqs[w].status)
    requires AtRest(Serve(lm, cfg, Next(lm, cfg, s, Work(now, false, false)), events))
    ensures TotalLeft(Serve(lm, cfg, Next(lm, cfg, s, Work(now, false, false)), events), UpTo(s, w)) <
      TotalLeft(s, UpTo(s, w))
  {
    hide CoreOf, Shape, Serve, BeginIteration, AdmitsWhenIdle, InOrder, Due, Left, Init, TotalLeft;
    var u: Setup, past: seq<Event> :| s == Serve(lm, cfg, Init(u), past);
    ServeInOrder(lm, cfg, u, past);
    ReachableHolds(lm, cfg, s);
    var x := EarlierServed(lm, cfg, s, w);
    var s1 := BeginIteration(s);
    assert Next(lm, cfg, s, Work(now, false, false)) == s1;
    NextKeeps(lm, cfg, s, Work(now, false, false));
    UpToFalls(lm, cfg, s, s1, events, w, x);
  }

  lemma UpToFalls(lm: Lm, cfg: Config, s: State, s1: State, events: seq<Event>, w: Id, x: Id)
    requires StateInv(lm, cfg, s) && StateInv(lm, cfg, s1) && s1 == BeginIteration(s) && w in s.seqs && x in s.seqs
    requires Place(s, x) <= Place(s, w) && Due(cfg, s1, x) && Left(s.seqs[x]) > 0 && AtRest(Serve(lm, cfg, s1, events))
    ensures TotalLeft(Serve(lm, cfg, s1, events), UpTo(s, w)) < TotalLeft(s, UpTo(s, w))
  {
    hide StateInv, CoreOf, Shape, Lists, Serve, Due, Served, Later, Left, TotalLeft;
    var s2 := Serve(lm, cfg, s1, events);
    ServeOnward(lm, cfg, s1, events);
    ServeServes(lm, cfg, s1, events, x);
    Parts(lm, cfg, s);
    SubmittedKnown(cfg, s, Hands(s));
    BeginFrame(cfg, s, s2, x);
    RestOwesNothing(cfg, s2, x);
    InFront(s.submitted, w, x);
    FallsUpTo(cfg, s, s2, x, UpTo(s, w));
  }

  lemma FallsUpTo(cfg: Config, s: State, s': State, x: Id, ids: seq<Id>)
    requires Later(s, s') && x in ids && (forall id :: id in ids ==> id in s.seqs)
    requires Served(cfg, s, s', x) && !Due(cfg, s', x) && Left(s.seqs[x]) > 0
    ensures TotalLeft(s', ids) < TotalLeft(s, ids)
  {
    hide Due;
    OnwardLeft(s.seqs[x], s'.seqs[x]);
    TotalLeftFalls(s, s', ids);
  }

  // ---- What the client reads ----

  // For a decoder that grows along it, the closed stream of a finished sequence, in any interleaving,
  // reads as the decoded output of naive generation, and carried what the sequence pushed.
  lemma StreamReadsNaive(lm: Lm, cfg: Config, s: State, id: Id, naive: Result<Generation>, decode: Decoder,
          acts: seq<Act>)
    requires Reachable(lm, cfg, s) && id in s.seqs && s.seqs[id].status.Finished?
    requires Generates(lm, s.seqs[id].req, naive)
    requires Grows(decode, s.seqs[id].output)
    requires Play(decode, OPENED, acts).done && Play(decode, OPENED, acts).output == s.seqs[id].output
    ensures var t := Play(decode, OPENED, acts);
      && naive.Ok? && t.emitted == decode(naive.value.output)
      && t.taken + t.queue + t.posted == s.seqs[id].pushed
  {
    hide Reachable, Completion, ActStep, Play, KvOf;
    FinishedIsNaive(lm, cfg, s, id, naive);
    FinishedOutput(lm, cfg, s, id);
    EndsExactlyOnce(lm, cfg, s, id);
    StreamIsComplete(decode, acts);
    FaithfulPlay(decode, acts, s.seqs[id].output);
  }

  lemma FinishedOutput(lm: Lm, cfg: Config, s: State, id: Id)
    requires Reachable(lm, cfg, s) && id in s.seqs && s.seqs[id].status.Finished?
    ensures s.seqs[id].result.Some? && s.seqs[id].result.value.output == s.seqs[id].output
  {
    hide Core, Lists, Shape, Admitted, Greedy, Completion, Reachable;
    ReachableHolds(lm, cfg, s);
    CoreAt(lm, cfg, s.m, s.waiting, s.seqs, id);
  }
}
