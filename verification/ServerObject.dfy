// The objects from the outside: how the server builds them, and what its handlers do to them. Every
// handler takes the step of the state machine, so whatever is done to the objects is a run.
module ServerObject {
  import opened LanguageModel
  import opened Sequences
  import opened SequenceRecord
  import opened PoolObject
  import opened PrefixObject
  import opened Scheduler
  import opened SchedulerObject
  import opened Worker
  import opened WorkerRuns
  import opened ContinuousWorker
  import Drain
  import DrainRuns
  import Iterations

  // Where the worker's program counter goes when the queue's event is set.
  function Woken(pc: Pc): Pc {
    if pc.Blocked? then Blocked(true) else pc
  }

  // attach_worker: the objects of a new process are in the machine's initial state.
  method AttachWorker(cfg: Config, u: Setup) returns (w: ContinuousWorkerObject)
    ensures fresh(w) && fresh(w.sched) && fresh(w.sched.queue) && fresh(w.sched.pool) && fresh(w.sched.cache)
    ensures w.sched.cfg == cfg && w.sched.queue.maxWaiting == cfg.maxWaiting
    ensures w.Knows([]) && w.sched.queue.Wakeful() && w.sched.Covers([])
    ensures w.At([], [], Top) == Init(u)
  {
    var pool := new BlockPoolObject(u.numBlocks, u.blockSize);
    var cache := new PrefixCacheObject(pool, u.maxEntries, u.minTokens, u.prefixBlock);
    var queue := new RequestQueueObject(cfg.maxWaiting);
    var sched := new SchedulerObject(cfg, queue, cache);
    w := new ContinuousWorkerObject(sched);
    assert Values([]) == map[];
  }

  // A new record: its id is known to nobody yet.
  ghost predicate New(q: Record, all: seq<Record>)
    reads q, all
  {
    q.View() == NewSequence(q.id, q.req) && q.req.maxTokens >= 1 && forall r :: r in all ==> r != q && r.id != q.id
  }

  // Scheduler.submit, as the routes call it at any moment.
  method Submit(w: ContinuousWorkerObject, q: Record, ghost all: seq<Record>, ghost submitted: seq<Id>, ghost pc: Pc)
    returns (r: Submitted)
    requires w.Knows(all) && w.sched.queue.Wakeful() && w.sched.Covers(all) && New(q, all)
    requires w.sched.queue.maxWaiting == w.sched.cfg.maxWaiting
    modifies w.sched.queue, q`status
    ensures w.sched.queue.Wakeful()
    ensures r.Accepted? ==> w.Knows(all + [q]) && w.sched.Covers(all + [q])
    ensures r.Accepted? ==>
      w.At(all + [q], submitted + [q.id], Woken(pc)) ==
        StepSubmit(w.sched.cfg, old(w.At(all, submitted, pc)), q.id, q.req)
    ensures !r.Accepted? ==> w.Knows(all) && w.sched.Covers(all)
    ensures !r.Accepted? ==>
      w.At(all, submitted, pc) == StepSubmit(w.sched.cfg, old(w.At(all, submitted, pc)), q.id, q.req)
  {
    ghost var before := Values(all);
    r := w.sched.Submit(q);
    if r.Accepted? {
      JoinedValues(all, q, before);
      IdsAppend(old(w.sched.queue.waiting), q);
    } else {
      assert Values(all) == before;
    }
  }

  lemma JoinedValues(all: seq<Record>, q: Record, before: map<Id, Sequence>)
    requires DistinctIds(all) && before == Values(all) && forall r :: r in all ==> r != q && r.id != q.id
    ensures DistinctIds(all + [q]) && Values(all + [q]) == before[q.id := q.View()]
  {
  }

  // Sequence.request_abort, from any thread.
  method RequestAbort(w: ContinuousWorkerObject, q: Record, ghost all: seq<Record>, ghost submitted: seq<Id>,
          ghost pc: Pc)
    requires w.Knows(all) && q in all
    modifies q`abortRequested
    ensures w.Knows(all) && q.abortRequested
    ensures w.At(all, submitted, pc) == StepRequestAbort(old(w.At(all, submitted, pc)), q.id)
  {
    ghost var before := Values(all);
    q.RequestAbort();
    OnlyOneChanged(all, q, before);
  }

  // ContinuousWorker.request_stop.
  method RequestStop(w: ContinuousWorkerObject, ghost all: seq<Record>, ghost submitted: seq<Id>, ghost pc: Pc)
    requires w.Knows(all)
    modifies w`stop, w.sched.queue`event
    ensures w.Knows(all) && w.stop
    ensures w.At(all, submitted, Woken(pc)) == SetEvent(old(w.At(all, submitted, pc)).(stop := true))
  {
    ghost var before := Values(all);
    w.stop := true;
    w.sched.queue.Wake();
    assert Values(all) == before;
  }

  // An undisturbed iteration leads from reachable states to reachable ones, makes progress when there
  // is somebody to serve, and gives every running record its token.
  method Iterate(lm: Lm, w: ContinuousWorkerObject, now: int,
          fails: nat -> bool, sampleFails: nat -> bool, decodeFails: bool,
                 ghost all: seq<Record>, ghost submitted: seq<Id>)
    requires w.Knows(all) && w.sched.queue.Wakeful() && w.sched.Covers(all)
    requires !w.stop && (w.running != [] || w.sched.queue.waiting != [] || w.sched.queue.event)
    requires Reachable(lm, w.sched.cfg, w.At(all, submitted, Top))
    modifies w`running, w.sched.queue, w.sched.pool, w.sched.cache, all
    ensures w.Knows(all) && w.sched.queue.Wakeful() && w.sched.Covers(all)
    ensures Reachable(lm, w.sched.cfg, w.At(all, submitted, Top))
    ensures var s, s' := old(w.At(all, submitted, Top)), w.At(all, submitted, Top);
      DrainRuns.Ready(w.sched.cfg, s) ==> Drain.TotalLeft(s', submitted) < Drain.TotalLeft(s, submitted)
    ensures forall q :: q in old(w.running) ==> Iterations.Iterated(old(q.View()), q.View())
  {
    hide Reachable, DrainRuns.Ready, Drain.TotalLeft, WholeIteration, Serve, Iterations.Iterated;
    ghost var start, was := w.At(all, submitted, Top), w.running;
    ghost var steps := w.RunIteration(lm, now, fails, sampleFails, decodeFails, all, submitted);
    ReachableServe(lm, w.sched.cfg, start, steps);
    forall q | q in was ensures Iterations.Iterated(old(q.View()), q.View()) {
      Iterations.UndisturbedIteration(lm, w.sched.cfg, start, steps, q.id);
    }
  }
}
