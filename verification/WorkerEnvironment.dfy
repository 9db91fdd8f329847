// The environment's steps, blocking, waking and shutting down keep the invariant.
module WorkerEnvironment {
  import opened Common
  import opened KvCache
  import opened LanguageModel
  import opened Engines
  import opened Generation
  import opened Sequences
  import opened BlockPool
  import opened PrefixCache
  import opened PrefixLaws
  import opened PrefixOps
  import opened Scheduler
  import opened Lifecycle
  import opened Worker
  import opened WorkerCore
  import opened WorkerRecords
  import opened WorkerInvariant
  import opened WorkerAdmits

  // ---- What the environment cannot disturb ----

  ghost predicate Flagged(q: Sequence, q': Sequence) {
    q' == q.(abortRequested := q'.abortRequested)
  }

  // Outside the queue only abort flags have changed.
  ghost predicate OutsideQueue(s: State, s': State) {
    && s'.running == s.running
    && forall id :: id in s.seqs && id !in s.waiting ==>
      id in s'.seqs && id !in s'.waiting && Flagged(s.seqs[id], s'.seqs[id])
  }

  ghost predicate WaitersWait(s: State) {
    forall id :: id in s.waiting ==> id in s.seqs && s.seqs[id].status.Waiting?
  }

  lemma SettledFrame(s: State, s': State, ids: seq<Id>)
    requires OutsideQueue(s, s') && WaitersWait(s)
    ensures AllDecoding(s, ids) ==> AllDecoding(s', ids)
    ensures AllRun(s, ids) ==> AllRun(s', ids)
    ensures AllAdmitted(s, ids) ==> AllAdmitted(s', ids)
  {
  }

  lemma RowsStay(lm: Lm, s: State, s': State, live: seq<Id>, row: nat, out: BatchOutput)
    requires OutsideQueue(s, s') && WaitersWait(s) && RowsTrue(lm, s, live, row, out)
    ensures RowsTrue(lm, s', live, row, out)
  {
    forall r | row <= r < |live|
      ensures live[r] in s'.seqs && s'.seqs[live[r]].status.Decoding?
        && RowTrue(lm, s'.seqs[live[r]], out.logits[r], out.caches[r])
    {
      assert Flagged(s.seqs[live[r]], s'.seqs[live[r]]);
    }
  }

  lemma ShapeStays(lm: Lm, s: State, s': State)
    requires OutsideQueue(s, s') && WaitersWait(s) && Shape(lm, s)
    requires s'.pc == s.pc && !s.pc.Blocked?
    ensures Shape(lm, s')
  {
    hide AllDecoding, AllRun, AllAdmitted, RowsTrue, Among;
    match s.pc
    case Top => SettledFrame(s, s', s.running);
    case Dropping(todo, kept) => SettledFrame(s, s', kept + todo);
    case Prefills(todo) => SettledFrame(s, s', s.running); SettledFrame(s, s', todo);
    case InPrefill(id, todo) => SettledFrame(s, s', s.running); SettledFrame(s, s', [id] + todo);
    case Sampled(id, todo) =>
      SettledFrame(s, s', s.running);
      SettledFrame(s, s', todo);
      assert Flagged(s.seqs[id], s'.seqs[id]);
    case Sweeping(todo) => SettledFrame(s, s', s.running); SettledFrame(s, s', todo);
    case Collecting(todo, live) => SettledFrame(s, s', s.running); SettledFrame(s, s', live);
    case Rows(live, row, out) => SettledFrame(s, s', s.running); RowsStay(lm, s, s', live, row, out);
    case Failing(todo) => SettledFrame(s, s', s.running); SettledFrame(s, s', todo);
    case Settling(todo, still) => SettledFrame(s, s', still); SettledFrame(s, s', todo);
    case Stopped =>
  }

  // ---- Aborting ----

  lemma FlagKeepsRecord(lm: Lm, cfg: Config, m: Memory, queued: bool, q: Sequence)
    requires SeqOk(lm, cfg, m, queued, q)
    ensures SeqOk(lm, cfg, m, queued, q.(abortRequested := true))
  {
    hide KvOf, LogitsOf, Greedy, Completion;
  }

  lemma FlagCore(lm: Lm, cfg: Config, m: Memory, waiting: seq<Id>, seqs: map<Id, Sequence>, id: Id)
    requires Core(lm, cfg, m, waiting, seqs) && id in seqs
    ensures Core(lm, cfg, m, waiting, seqs[id := seqs[id].(abortRequested := true)])
  {
    hide Inv, AllMean, SeqOk, Core, RefsMove;
    CoreAt(lm, cfg, m, waiting, seqs, id);
    FlagKeepsRecord(lm, cfg, m, id in waiting, seqs[id]);
    Still(lm, m, id);
    FlagRefs(m.cache, seqs[id]);
    CoreUpdate(lm, cfg, m, m, waiting, waiting, seqs, seqs[id].(abortRequested := true));
  }

  lemma FlagRefs(c: Prefixes, q: Sequence)
    ensures RefsMove(c, c, HeldKey(q.(abortRequested := true)), HeldKey(q))
  {
  }

  lemma RequestAbortKeeps(lm: Lm, cfg: Config, s: State, id: Id)
    requires StateInv(lm, cfg, s)
    ensures StateInv(lm, cfg, StepRequestAbort(s, id))
  {
    hide Core, Lists, Shape;
    if id in s.seqs {
      var s1 := StepRequestAbort(s, id);
      FlagCore(lm, cfg, s.m, s.waiting, s.seqs, id);
      assert Hands(s1) == Hands(s);
      Waiters(cfg, s, Hands(s));
      ListsKeep(cfg, s, s1, Hands(s));
      FlaggedShape(lm, s, s1);
    }
  }

  lemma FlaggedShape(lm: Lm, s: State, s1: State)
    requires Shape(lm, s) && WaitersWait(s) && OutsideQueue(s, s1)
    requires s1 == s.(seqs := s1.seqs)
    ensures Shape(lm, s1)
  {
    hide AllDecoding, AllRun, AllAdmitted, RowsTrue, Among, OutsideQueue;
    if !s.pc.Blocked? { ShapeStays(lm, s, s1); }
  }

  lemma Waiters(cfg: Config, s: State, hands: seq<Id>)
    requires Lists(cfg, s, hands)
    ensures WaitersWait(s) && (s.waiting != [] ==> s.event)
  {
  }

  // Shrinking the queue by a sequence that has ended.
  lemma ListsRemove(cfg: Config, s: State, s': State, i: nat, hands: seq<Id>)
    requires Lists(cfg, s, hands) && i < |s.waiting|
    requires s'.waiting == Rest(s.waiting, i) && s'.event == (Rest(s.waiting, i) != [] && s.event)
    requires s'.submitted == s.submitted && SameBut(s, s', s.waiting[i]) && Terminal(s'.seqs[s.waiting[i]].status)
    ensures Lists(cfg, s', hands)
  {
    var rest := Rest(s.waiting, i);
    HandsDisjoint(cfg, s, hands);
    Removed(s.waiting, i);
    NoDupConcat(rest, hands);
    assert s.event;
    EndRecords(cfg, s, s', s.waiting[i], rest, hands);
  }

  lemma EndRecords(cfg: Config, s: State, s': State, id: Id, rest: seq<Id>, hands: seq<Id>)
    requires Lists(cfg, s, hands) && SameBut(s, s', id) && Terminal(s'.seqs[id].status) && id in s.waiting
    requires forall x :: x in rest <==> x in s.waiting && x != id
    ensures forall x :: x in rest ==> x in s'.seqs && s'.seqs[x].status.Waiting?
    ensures forall x :: x in s'.seqs && !Terminal(s'.seqs[x].status) ==> x in rest || x in hands
  {
    hide NoDup;
  }

  lemma AbortWaiterKeeps(lm: Lm, cfg: Config, s: State, i: nat, hands: seq<Id>)
    requires CoreOf(lm, cfg, s) && Lists(cfg, s, hands) && i < |s.waiting|
    ensures var id := s.waiting[i];
      var s1 := AbortId(cfg, TakeWaiter(s, i), id);
      && CoreOf(lm, cfg, s1) && Lists(cfg, s1, hands) && SameBut(s, s1, id) && s1.seqs[id].status.Aborted?
      && s1 == s.(m := s1.m, waiting := s1.waiting, event := s1.event, seqs := s1.seqs)
      && s1.waiting == Rest(s.waiting, i)
      && (forall x :: x in s1.waiting <==> x in s.waiting && x != id)
  {
    hide Core, Lists, NoDup, EndAs;
    var id := s.waiting[i];
    HandsDisjoint(cfg, s, hands);
    Removed(s.waiting, i);
    Waiters(cfg, s, hands);
    AbortCore(lm, cfg, s.m, s.waiting, Rest(s.waiting, i), s.seqs, id, Aborted);
    ListsRemove(cfg, s, AbortId(cfg, TakeWaiter(s, i), id), i, hands);
  }

  // A waiter holds nothing, so ending one leaves the memory as it was.
  lemma WaiterHoldsNothing(lm: Lm, cfg: Config, s: State, id: Id)
    requires CoreOf(lm, cfg, s) && id in s.seqs && id in s.waiting
    ensures EndAs(cfg, s.m, s.seqs[id], Aborted).0 == s.m
  {
    hide Core, Progress, Ended, Untouched;
    CoreAt(lm, cfg, s.m, s.waiting, s.seqs, id);
    assert s.m.pool.free + [] == s.m.pool.free;
    assert s.m.pool.alloc - {id} == s.m.pool.alloc;
  }

  lemma AdminAbortKeeps(lm: Lm, cfg: Config, s: State, id: Id)
    requires StateInv(lm, cfg, s)
    ensures StateInv(lm, cfg, StepAdminAbort(cfg, s, id))
  {
    hide Core, Lists, Shape, AbortId, NoDup, StepRequestAbort;
    var i := IndexOf(s.waiting, id);
    if i < |s.waiting| {
      var s1 := AbortId(cfg, TakeWaiter(s, i), id);
      AbortWaiterKeeps(lm, cfg, s, i, Hands(s));
      assert Hands(s1) == Hands(s);
      Waiters(cfg, s, Hands(s));
      assert OutsideQueue(s, s1);
      if s.pc.Blocked? { BlockedWithWaiters(lm, s, s1); } else { ShapeStays(lm, s, s1); }
    } else if id in s.running {
      RequestAbortKeeps(lm, cfg, s, id);
    }
  }

  // A blocked worker that has waiters has been woken already.
  lemma BlockedWithWaiters(lm: Lm, s: State, s1: State)
    requires Shape(lm, s) && s.pc.Blocked? && s.waiting != [] && s1.pc == s.pc && s1.running == s.running
    ensures Shape(lm, s1)
  {
  }

  // ---- Submitting and stopping ----

  lemma SubmitCore(lm: Lm, cfg: Config, m: Memory, waiting: seq<Id>, seqs: map<Id, Sequence>, id: Id, req: Request)
    requires Core(lm, cfg, m, waiting, seqs) && id !in seqs && req.maxTokens >= 1
    ensures Core(lm, cfg, m, waiting + [id], seqs[id := NewSequence(id, req)])
  {
    hide Inv, AllMean, SeqOk, RefsOf;
    var q := NewSequence(id, req);
    var seqs', waiting' := seqs[id := q], waiting + [id];
    forall j ensures j in m.pool.alloc <==> Owning(waiting', seqs', j) {
      assert j in m.pool.alloc <==> Owning(waiting, seqs, j);
    }
    forall key ensures RefsOf(m.cache, key) == |Holders(seqs', key)| {
      assert Holders(seqs', key) == Holders(seqs, key);
      assert RefsOf(m.cache, key) == |Holders(seqs, key)|;
    }
    forall j | j in seqs' ensures seqs'[j].id == j && SeqOk(lm, cfg, m, j in waiting', seqs'[j]) {
      if j == id { NewIsOk(lm, cfg, m, id, req); } else { assert j in waiting' <==> j in waiting; }
    }
  }

  lemma NewIsOk(lm: Lm, cfg: Config, m: Memory, id: Id, req: Request)
    requires req.maxTokens >= 1
    ensures SeqOk(lm, cfg, m, true, NewSequence(id, req))
  {
  }

  lemma SubmitLists(cfg: Config, s: State, id: Id, req: Request, hands: seq<Id>)
    requires Lists(cfg, s, hands) && id !in s.seqs && |s.waiting| < cfg.maxWaiting
    requires forall x :: x in hands ==> x in s.seqs
    ensures Lists(cfg, Enqueue(s.(seqs := s.seqs[id := NewSequence(id, req)], submitted := s.submitted + [id]), id),
      hands)
  {
    HandsDisjoint(cfg, s, hands);
    NoDupConcat(s.waiting, [id]);
    NoDupConcat(s.waiting + [id], hands);
    NoDupConcat(s.submitted, [id]);
  }

  lemma HandsKnown(lm: Lm, s: State)
    requires Shape(lm, s)
    ensures forall x :: x in Hands(s) ==> x in s.seqs
  {
  }

  lemma SubmitKeeps(lm: Lm, cfg: Config, s: State, id: Id, req: Request)
    requires StateInv(lm, cfg, s)
    ensures StateInv(lm, cfg, StepSubmit(cfg, s, id, req))
  {
    hide Core, Lists, Shape, NeedTokens, BlocksNeeded;
    var s1 := StepSubmit(cfg, s, id, req);
    if s1 != s {
      SubmitCore(lm, cfg, s.m, s.waiting, s.seqs, id, req);
      HandsKnown(lm, s);
      SubmitLists(cfg, s, id, req, Hands(s));
      assert Hands(s1) == Hands(s);
      Waiters(cfg, s, Hands(s));
      assert OutsideQueue(s, s1);
      if s.pc.Blocked? { WokenShape(lm, s, s1); } else { ShapeStays(lm, s, s1); }
    }
  }

  lemma WokenShape(lm: Lm, s: State, s1: State)
    requires Shape(lm, s) && s.pc.Blocked? && s1.pc == Blocked(true) && s1.running == s.running
    ensures Shape(lm, s1)
  {
  }

  lemma RequestStopKeeps(lm: Lm, cfg: Config, s: State)
    requires StateInv(lm, cfg, s)
    ensures StateInv(lm, cfg, SetEvent(s.(stop := true)))
  {
    hide Core, Shape;
    var s1 := SetEvent(s.(stop := true));
    assert Hands(s1) == Hands(s);
    if s.pc.Blocked? { WokenShape(lm, s, s1); } else { ShapeStays(lm, s, s1); }
  }

  // ---- Shutting down ----

  lemma {:induction false} AbortWaitersKeeps(lm: Lm, cfg: Config, s: State, hands: seq<Id>)
    requires CoreOf(lm, cfg, s) && Lists(cfg, s, hands) && AllDecoding(s, hands)
    ensures var s1 := AbortWaiters(cfg, s);
      && CoreOf(lm, cfg, s1) && Lists(cfg, s1, hands) && AllDecoding(s1, hands) && s1.waiting == []
      && s1 == s.(m := s1.m, waiting := s1.waiting, event := s1.event, seqs := s1.seqs)
    decreases |s.waiting|
  {
    hide CoreOf, Lists, NoDup, AbortId;
    if s.waiting != [] {
      AbortWaiterKeeps(lm, cfg, s, 0, hands);
      Waiters(cfg, s, hands);
      assert Rest(s.waiting, 0) == s.waiting[1..];
      AbortWaitersKeeps(lm, cfg, AbortId(cfg, TakeWaiter(s, 0), s.waiting[0]), hands);
    }
  }

  lemma DecodingUnsignalled(lm: Lm, cfg: Config, s: State, id: Id)
    requires CoreOf(lm, cfg, s) && id in s.seqs && s.seqs[id].status.Decoding?
    ensures s.seqs[id].signals == 0
  {
    hide Core;
    CoreAt(lm, cfg, s.m, s.waiting, s.seqs, id);
  }

  lemma {:induction false} AbortRunningKeeps(lm: Lm, cfg: Config, s: State, ids: seq<Id>)
    requires CoreOf(lm, cfg, s) && Lists(cfg, s, ids) && AllDecoding(s, ids)
    ensures var s1 := AbortRunning(cfg, s, ids);
      && CoreOf(lm, cfg, s1) && Lists(cfg, s1, [])
      && s1 == s.(m := s1.m, seqs := s1.seqs)
    decreases |ids|
  {
    hide CoreOf, Lists, NoDup, AbortId;
    if ids != [] {
      assert [] + ids == ids && [] + ids[1..] == ids[1..];
      TailIn(ids);
      DecodingUnsignalled(lm, cfg, s, ids[0]);
      AbortInWalk(lm, cfg, s, [], ids);
      var s1 := AbortId(cfg, s, ids[0]);
      Frame(s, s1, ids[0], ids, ids[1..]);
      AbortRunningKeeps(lm, cfg, s1, ids[1..]);
    }
  }

  lemma AbortLeftoversKeeps(lm: Lm, cfg: Config, s: State)
    requires CoreOf(lm, cfg, s) && Lists(cfg, s, s.running) && AllDecoding(s, s.running)
    ensures StateInv(lm, cfg, AbortLeftovers(cfg, s))
    ensures AbortLeftovers(cfg, s).waiting == [] && AbortLeftovers(cfg, s).pc.Stopped?
  {
    hide Core, Lists, AbortWaiters, AbortRunning;
    AbortWaitersKeeps(lm, cfg, s, s.running);
    var s1 := AbortWaiters(cfg, s);
    AbortRunningKeeps(lm, cfg, s1, s1.running);
    var s2 := AbortRunning(cfg, s1, s1.running);
    ListsOf(cfg, s2, AbortLeftovers(cfg, s), []);
  }

  // ---- Between iterations ----

  lemma BeginKeeps(lm: Lm, cfg: Config, s: State)
    requires CoreOf(lm, cfg, s) && Lists(cfg, s, s.running) && AllDecoding(s, s.running)
    ensures StateInv(lm, cfg, BeginIteration(s))
  {
    hide CoreOf, Lists, StateInv;
    assert [] + s.running == s.running;
    AtDropping(lm, cfg, s, s.running, []);
  }

  lemma TopKeeps(lm: Lm, cfg: Config, s: State)
    requires StateInv(lm, cfg, s) && s.pc.Top?
    ensures StateInv(lm, cfg, StepTop(cfg, s))
  {
    hide Core, Lists, AbortLeftovers, BeginIteration;
    if s.stop {
      AbortLeftoversKeeps(lm, cfg, s);
    } else if s.running == [] && s.waiting == [] && !s.event {
      ListsOf(cfg, s, s.(pc := Blocked(false)), s.running);
    } else {
      BeginKeeps(lm, cfg, s);
    }
  }

  lemma BlockedKeeps(lm: Lm, cfg: Config, s: State)
    requires StateInv(lm, cfg, s) && s.pc.Blocked?
    ensures StateInv(lm, cfg, StepBlocked(cfg, s))
  {
    hide Core, Lists, AbortLeftovers, BeginIteration;
    assert AllDecoding(s, s.running);
    if s.pc.woken {
      if s.stop { AbortLeftoversKeeps(lm, cfg, s); } else { BeginKeeps(lm, cfg, s); }
    }
  }
}
