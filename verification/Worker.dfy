// The continuous-batching worker as a state machine. One Work event runs the worker between two
// points where something else may happen: an await, or a read of an abort flag. Submissions,
// abort requests and the stop request are events of their own and may fall anywhere in between.
module Worker {
  import opened Common
  import opened KvCache
  import opened LanguageModel
  import opened Engines
  import opened Generation
  import opened Sequences
  import opened BlockPool
  import opened PrefixCache
  import opened Scheduler
  import opened Lifecycle

  // Where the loop stands. `todo` is what is left of the list a loop is walking.
  datatype Pc =
    | Top
    | Blocked(woken: bool)
    | Dropping(todo: seq<Id>, kept: seq<Id>)
    | Prefills(todo: seq<Id>)
    | InPrefill(id: Id, todo: seq<Id>)
    | Sampled(id: Id, todo: seq<Id>)
    | Sweeping(todo: seq<Id>)
    | Collecting(todo: seq<Id>, live: seq<Id>)
    | Rows(live: seq<Id>, row: nat, out: BatchOutput)
    | Failing(todo: seq<Id>)
    | Settling(todo: seq<Id>, still: seq<Id>)
    | Stopped

  // `submitted` remembers every accepted id, in order.
  datatype State = State(
    m: Memory,
    waiting: seq<Id>,
    event: bool,
    running: seq<Id>,
    seqs: map<Id, Sequence>,
    submitted: seq<Id>,
    pc: Pc,
    stop: bool)

  // `now` is the clock, `fails` and `sampleFails` say whether the model or the sampler raises.
  datatype Event =
    | Submit(id: Id, req: Request)
    | RequestAbort(id: Id)
    | AdminAbort(id: Id)
    | RequestStop
    | Work(now: int, fails: bool, sampleFails: bool)

  function Get(s: State, id: Id): Sequence {
    if id in s.seqs then s.seqs[id] else NewSequence(id, Request([], 1, {}))
  }

  function Put(s: State, mq: (Memory, Sequence)): State {
    s.(m := mq.0, seqs := s.seqs[mq.1.id := mq.1])
  }

  function AbortId(cfg: Config, s: State, id: Id): State {
    Put(s, AbortOne(cfg, s.m, Get(s, id)))
  }

  // ---- The queue ----

  // asyncio wakes a blocked waiter when the event is set, even if it is cleared again at once.
  function SetEvent(s: State): State {
    s.(event := true, pc := if s.pc.Blocked? then Blocked(true) else s.pc)
  }

  function Enqueue(s: State, id: Id): State {
    SetEvent(s.(waiting := s.waiting + [id]))
  }

  // pop_one and remove: take the i-th waiter out and clear the event when none is left.
  function TakeWaiter(s: State, i: nat): State
    requires i < |s.waiting|
  {
    var rest := s.waiting[..i] + s.waiting[i + 1..];
    s.(waiting := rest, event := rest != [] && s.event)
  }

  function PushFront(s: State, id: Id): State {
    s.(waiting := [id] + s.waiting, event := true)
  }

  function IndexOf(ids: seq<Id>, id: Id): (i: nat)
    ensures i <= |ids|
    ensures i < |ids| ==> ids[i] == id
    ensures i == |ids| <==> id !in ids
  {
    if ids == [] then 0 else if ids[0] == id then 0 else 1 + IndexOf(ids[1..], id)
  }

  // ---- Admission ----

  // The waiter a round looks at: the head, or the first that fits.
  function Candidate(cfg: Config, s: State, i: nat): (c: nat)
    requires i <= |s.waiting|
    ensures i <= c <= |s.waiting|
    ensures c < |s.waiting| ==> Fits(cfg, s.m, Get(s, s.waiting[c]))
    ensures i < c < |s.waiting| ==> cfg.memoryFit
    ensures cfg.memoryFit ==> forall j :: i <= j < c ==> !Fits(cfg, s.m, Get(s, s.waiting[j]))
    ensures !cfg.memoryFit && i < |s.waiting| && c == |s.waiting| ==> !Fits(cfg, s.m, Get(s, s.waiting[i]))
    decreases |s.waiting| - i
  {
    if i == |s.waiting| || Fits(cfg, s.m, Get(s, s.waiting[i])) then i
    else if cfg.memoryFit then Candidate(cfg, s, i + 1)
    else |s.waiting|
  }

  // Admit up to `room` waiters; a failed allocation puts its waiter in front and stops.
  function Admit(cfg: Config, s: State, room: nat, now: int): (State, seq<Id>)
    decreases room
  {
    if room == 0 then (s, [])
    else
      var c := Candidate(cfg, s, 0);
      if c == |s.waiting| then (s, [])
      else
        var id := s.waiting[c];
        var t := TryAllocate(cfg, s.m, Get(s, id), now);
        var taken := TakeWaiter(s, c);
        if !t.ok then (PushFront(taken.(m := t.m), id), [])
        else
          var (s', admitted) := Admit(cfg, Put(taken, (t.m, t.q)), room - 1, now);
          (s', [id] + admitted)
  }

  // ---- One step of the loop ----

  function BeginIteration(s: State): State {
    s.(pc := Dropping(s.running, []))
  }

  function AbortWaiters(cfg: Config, s: State): State
    decreases |s.waiting|
  {
    if s.waiting == [] then s
    else AbortWaiters(cfg, AbortId(cfg, TakeWaiter(s, 0), s.waiting[0]))
  }

  // The running sequences whose finished event is not set yet.
  function AbortRunning(cfg: Config, s: State, ids: seq<Id>): State
    decreases |ids|
  {
    if ids == [] then s
    else AbortRunning(cfg, if Get(s, ids[0]).signals == 0 then AbortId(cfg, s, ids[0]) else s, ids[1..])
  }

  function AbortLeftovers(cfg: Config, s: State): State {
    var s1 := AbortWaiters(cfg, s);
    AbortRunning(cfg, s1, s1.running).(running := [], pc := Stopped)
  }

  function StepTop(cfg: Config, s: State): State {
    if s.stop then AbortLeftovers(cfg, s)
    else if s.running == [] && s.waiting == [] && !s.event then s.(pc := Blocked(false))
    else BeginIteration(s)
  }

  function StepBlocked(cfg: Config, s: State): State
    requires s.pc.Blocked?
  {
    if !s.pc.woken then s
    else if s.stop then AbortLeftovers(cfg, s)
    else BeginIteration(s)
  }

  function StepDropping(cfg: Config, s: State, now: int): State
    requires s.pc.Dropping?
  {
    if s.pc.todo == [] then
      var kept := s.(running := s.pc.kept);
      var room := if |kept.running| <= cfg.maxBatch then cfg.maxBatch - |kept.running| else 0;
      var (s', admitted) := Admit(cfg, kept, room, now);
      s'.(pc := Prefills(admitted))
    else
      var id := s.pc.todo[0];
      if WantsAbort(Get(s, id)) then AbortId(cfg, s, id).(pc := Dropping(s.pc.todo[1..], s.pc.kept))
      else s.(pc := Dropping(s.pc.todo[1..], s.pc.kept + [id]))
  }

  function StepPrefills(cfg: Config, s: State): State
    requires s.pc.Prefills?
  {
    if s.pc.todo == [] then
      s.(pc := if s.running == [] then Top else Sweeping(s.running))
    else
      var id := s.pc.todo[0];
      if WantsAbort(Get(s, id)) then AbortId(cfg, s, id).(pc := Prefills(s.pc.todo[1..]))
      else s.(pc := InPrefill(id, s.pc.todo[1..]))
  }

  function StepInPrefill(lm: Lm, cfg: Config, s: State, now: int, fails: bool, sampleFails: bool): State
    requires s.pc.InPrefill?
  {
    var id := s.pc.id;
    var q := Get(s, id);
    if WantsAbort(q) then AbortId(cfg, s, id).(pc := Prefills(s.pc.todo))
    else
      var p := PrefillWithReuse(lm, cfg, s.m, q.(status := Prefilling), now, fails);
      if p.out.Err? || sampleFails then Put(s, FailOne(cfg, p.m, p.q)).(pc := Prefills(s.pc.todo))
      else
        var noted := NoteToken(p.q, Argmax(p.out.value.logits)).(kv := Some(p.out.value.cache));
        Put(s, (p.m, noted)).(pc := Sampled(id, s.pc.todo))
  }

  function StepSampled(cfg: Config, s: State): State
    requires s.pc.Sampled?
  {
    var id := s.pc.id;
    var q := Get(s, id);
    if WantsAbort(q) then AbortId(cfg, s, id).(pc := Prefills(s.pc.todo))
    else if q.reason.Some? then Put(s, FinishSequence(cfg, s.m, q)).(pc := Prefills(s.pc.todo))
    else Put(s, (s.m, q.(status := Decoding))).(running := s.running + [id], pc := Prefills(s.pc.todo))
  }

  function StepSweeping(cfg: Config, s: State): State
    requires s.pc.Sweeping?
  {
    if s.pc.todo == [] then s.(pc := Collecting(s.running, []))
    else
      var id := s.pc.todo[0];
      (if WantsAbort(Get(s, id)) then AbortId(cfg, s, id) else s).(pc := Sweeping(s.pc.todo[1..]))
  }

  predicate HasDecodeState(q: Sequence) {
    q.kv.Some? && q.lastToken.Some?
  }

  function LiveTokens(s: State, live: seq<Id>): seq<Token> {
    seq(|live|, r requires 0 <= r < |live| =>
      if Get(s, live[r]).lastToken.Some? then Get(s, live[r]).lastToken.value else 0)
  }

  function LiveCaches(s: State, live: seq<Id>): seq<Cache> {
    seq(|live|, r requires 0 <= r < |live| => if Get(s, live[r]).kv.Some? then Get(s, live[r]).kv.value else [])
  }

  // The decode batch of the collected sequences; a cache the model cannot take makes it raise.
  function DecodeLive(lm: Lm, s: State, live: seq<Id>): Result<BatchOutput> {
    if !(forall id :: id in live ==> HasDecodeState(Get(s, id))) || !AllShaped(lm, LiveCaches(s, live)) then Err
    else DecodeBatch(lm, LiveTokens(s, live), LiveCaches(s, live))
  }

  function StepCollecting(lm: Lm, cfg: Config, s: State, fails: bool): State
    requires s.pc.Collecting?
  {
    var live := s.pc.live;
    if s.pc.todo == [] then
      if live == [] then s.(pc := Settling(s.running, []))
      else
        var out := if fails then Err else DecodeLive(lm, s, live);
        if out.Err? then s.(pc := Failing(live)) else s.(pc := Rows(live, 0, out.value))
    else
      var q := Get(s, s.pc.todo[0]);
      var joins := q.status.Decoding? && q.lastToken.Some? && !WantsAbort(q);
      s.(pc := Collecting(s.pc.todo[1..], if joins then live + [s.pc.todo[0]] else live))
  }

  function StepRows(cfg: Config, s: State): State
    requires s.pc.Rows?
  {
    var live, row, out := s.pc.live, s.pc.row, s.pc.out;
    if row >= |live| || row >= |out.logits| || row >= |out.caches| then s.(pc := Settling(s.running, []))
    else
      var id := live[row];
      var q := Get(s, id);
      var s' :=
        if WantsAbort(q) then AbortId(cfg, s, id)
        else
          var noted := NoteToken(q, Argmax(out.logits[row])).(kv := Some(out.caches[row]));
          Put(s, if noted.reason.Some? then FinishSequence(cfg, s.m, noted) else (s.m, noted));
      s'.(pc := Rows(live, row + 1, out))
  }

  function StepFailing(cfg: Config, s: State): State
    requires s.pc.Failing?
  {
    if s.pc.todo == [] then s.(pc := Settling(s.running, []))
    else Put(s, FailOne(cfg, s.m, Get(s, s.pc.todo[0]))).(pc := Failing(s.pc.todo[1..]))
  }

  function StepSettling(cfg: Config, s: State): State
    requires s.pc.Settling?
  {
    if s.pc.todo == [] then s.(running := s.pc.still, pc := Top)
    else
      var id := s.pc.todo[0];
      var rest := s.pc.todo[1..];
      if Terminal(Get(s, id).status) then s.(pc := Settling(rest, s.pc.still))
      else if WantsAbort(Get(s, id)) then AbortId(cfg, s, id).(pc := Settling(rest, s.pc.still))
      else s.(pc := Settling(rest, s.pc.still + [id]))
  }

  function WorkStep(lm: Lm, cfg: Config, s: State, now: int, fails: bool, sampleFails: bool): State {
    match s.pc
    case Top => StepTop(cfg, s)
    case Blocked(_) => StepBlocked(cfg, s)
    case Dropping(_, _) => StepDropping(cfg, s, now)
    case Prefills(_) => StepPrefills(cfg, s)
    case InPrefill(_, _) => StepInPrefill(lm, cfg, s, now, fails, sampleFails)
    case Sampled(_, _) => StepSampled(cfg, s)
    case Sweeping(_) => StepSweeping(cfg, s)
    case Collecting(_, _) => StepCollecting(lm, cfg, s, fails)
    case Rows(_, _, _) => StepRows(cfg, s)
    case Failing(_) => StepFailing(cfg, s)
    case Settling(_, _) => StepSettling(cfg, s)
    case Stopped => s
  }

  // ---- The environment ----

  // Scheduler.submit: too large and queue full are refusals that leave no trace. The request
  // schema lets no max_tokens below 1 through, and ids are never reused.
  function StepSubmit(cfg: Config, s: State, id: Id, req: Request): State {
    var q := NewSequence(id, req);
    if id in s.seqs || req.maxTokens < 1 then s
    else if BlocksNeeded(s.m.pool.blockSize, NeedTokens(cfg, s.m, q)) > s.m.pool.numBlocks then s
    else if |s.waiting| >= cfg.maxWaiting then s
    else Enqueue(s.(seqs := s.seqs[id := q], submitted := s.submitted + [id]), id)
  }

  function StepRequestAbort(s: State, id: Id): State {
    if id in s.seqs then s.(seqs := s.seqs[id := s.seqs[id].(abortRequested := true)]) else s
  }

  // POST /admin/abort: a waiter is removed and ended on the spot, a running one is flagged.
  function StepAdminAbort(cfg: Config, s: State, id: Id): State {
    var i := IndexOf(s.waiting, id);
    if i < |s.waiting| then AbortId(cfg, TakeWaiter(s, i), id)
    else if id in s.running then StepRequestAbort(s, id)
    else s
  }

  function Next(lm: Lm, cfg: Config, s: State, e: Event): State {
    match e
    case Submit(id, req) => StepSubmit(cfg, s, id, req)
    case RequestAbort(id) => StepRequestAbort(s, id)
    case AdminAbort(id) => StepAdminAbort(cfg, s, id)
    case RequestStop => SetEvent(s.(stop := true))
    case Work(now, fails, sampleFails) => WorkStep(lm, cfg, s, now, fails, sampleFails)
  }

  // The sizes the process is started with.
  datatype Setup = Setup(numBlocks: Pos, blockSize: Pos, maxEntries: Pos, minTokens: Pos, prefixBlock: Pos)

  function Init(u: Setup): State {
    var cache := Prefixes(u.maxEntries, u.minTokens, u.prefixBlock, [], map[]);
    State(Memory(NewPool(u.numBlocks, u.blockSize), cache), [], false, [], map[], [], Top, false)
  }

  // Every run: any finite sequence of events from the initial state.
  function Serve(lm: Lm, cfg: Config, s: State, events: seq<Event>): State {
    if events == [] then s
    else Next(lm, cfg, Serve(lm, cfg, s, events[..|events| - 1]), events[|events| - 1])
  }

  // ---- Kinds of runs ----

  predicate OnlyWork(events: seq<Event>) {
    forall i :: 0 <= i < |events| ==> events[i].Work?
  }

  predicate NoSubmissions(events: seq<Event>) {
    forall i :: 0 <= i < |events| ==> !events[i].Submit?
  }

  // No iteration is going on.
  predicate AtRest(s: State) {
    s.pc.Top? || s.pc.Blocked? || s.pc.Stopped?
  }

  lemma ServeSnoc(lm: Lm, cfg: Config, s: State, events: seq<Event>, e: Event)
    ensures Serve(lm, cfg, s, events + [e]) == Next(lm, cfg, Serve(lm, cfg, s, events), e)
  {
    hide Next;
    assert (events + [e])[..|events|] == events;
  }

  lemma {:induction false} ServeConcat(lm: Lm, cfg: Config, s: State, a: seq<Event>, b: seq<Event>)
    ensures Serve(lm, cfg, s, a + b) == Serve(lm, cfg, Serve(lm, cfg, s, a), b)
  {
    hide Next;
    if b == [] {
      assert a + b == a;
    } else {
      ServeConcat(lm, cfg, s, a, b[..|b| - 1]);
      assert (a + b)[..|a + b| - 1] == a + b[..|b| - 1];
    }
  }

  lemma {:induction false} ServeCons(lm: Lm, cfg: Config, s: State, events: seq<Event>)
    requires events != []
    ensures Serve(lm, cfg, s, events) == Serve(lm, cfg, Next(lm, cfg, s, events[0]), events[1..])
  {
    hide Next;
    var k := |events| - 1;
    if k > 0 {
      ServeCons(lm, cfg, s, events[..k]);
      assert events[..k][1..] == events[1..][..k - 1];
      assert events[1..][k - 1] == events[k];
    }
  }

  // ---- Iterations ----

  // A worker step from rest, and whatever happens from there until the loop is at rest for the first
  // time again.
  ghost predicate WholeIteration(lm: Lm, cfg: Config, s: State, events: seq<Event>) {
    && events != [] && events[0].Work? && AtRest(s) && AtRest(Serve(lm, cfg, s, events))
    && forall i :: 0 < i < |events| ==> !AtRest(Serve(lm, cfg, s, events[..i]))
  }

  ghost predicate Busy(lm: Lm, cfg: Config, s: State, events: seq<Event>) {
    if events == [] then true
    else
      var k := |events| - 1;
      Busy(lm, cfg, s, events[..k]) && !AtRest(Serve(lm, cfg, s, events[..k])) && events[k].Work?
  }

  // Worker steps alone lead from s to s', and the loop is not at rest before the last of them.
  ghost predicate Leads(lm: Lm, cfg: Config, s: State, events: seq<Event>, s': State) {
    Busy(lm, cfg, s, events) && Serve(lm, cfg, s, events) == s'
  }

  lemma LeadsNowhere(lm: Lm, cfg: Config, s: State)
    ensures Leads(lm, cfg, s, [], s)
  {
  }

  lemma LeadsFurther(lm: Lm, cfg: Config, s: State, events: seq<Event>, s': State, e: Event)
    requires Leads(lm, cfg, s, events, s') && e.Work? && !AtRest(s')
    ensures Leads(lm, cfg, s, events + [e], Next(lm, cfg, s', e))
  {
    hide Next;
    assert (events + [e])[..|events|] == events;
  }

  lemma {:induction false} LeadsThrough(lm: Lm, cfg: Config, a: State, first: seq<Event>, b: State, second: seq<Event>,
          c: State)
    requires Leads(lm, cfg, a, first, b) && Leads(lm, cfg, b, second, c)
    ensures Leads(lm, cfg, a, first + second, c)
  {
    hide Next;
    if second == [] {
      assert first + second == first;
    } else {
      var k := |second| - 1;
      LeadsThrough(lm, cfg, a, first, b, second[..k], Serve(lm, cfg, b, second[..k]));
      assert (first + second)[..|first| + k] == first + second[..k];
    }
  }

  lemma {:induction false} BusyAt(lm: Lm, cfg: Config, s: State, events: seq<Event>, i: nat)
    requires Busy(lm, cfg, s, events) && i < |events|
    ensures !AtRest(Serve(lm, cfg, s, events[..i])) && events[i].Work?
  {
    hide Next;
    var k := |events| - 1;
    if i < k {
      BusyAt(lm, cfg, s, events[..k], i);
      assert events[..k][..i] == events[..i];
    }
  }

  lemma IterationIsWhole(lm: Lm, cfg: Config, s: State, e: Event, events: seq<Event>, s': State)
    requires AtRest(s) && e.Work? && Leads(lm, cfg, Next(lm, cfg, s, e), events, s') && AtRest(s')
    ensures WholeIteration(lm, cfg, s, [e] + events) && OnlyWork([e] + events)
    ensures Serve(lm, cfg, s, [e] + events) == s'
  {
    hide Next;
    var all := [e] + events;
    assert all[1..] == events;
    ServeCons(lm, cfg, s, all);
    forall i | 0 <= i < |all| ensures all[i].Work? && (i > 0 ==> !AtRest(Serve(lm, cfg, s, all[..i]))) {
      if i > 0 {
        BusyAt(lm, cfg, Next(lm, cfg, s, e), events, i - 1);
        ServeCons(lm, cfg, s, all[..i]);
        assert all[..i][1..] == events[..i - 1];
      }
    }
  }
}
