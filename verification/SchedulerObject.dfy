// The waiting queue and the scheduler as objects. The admission loops pop, allocate and put back
// in place, and together do exactly what the function Admit says of the values they hold.
module SchedulerObject {
  import opened Common
  import opened KvCache
  import opened LanguageModel
  import opened Generation
  import opened Sequences
  import opened SequenceRecord
  import opened BlockPool
  import opened PoolObject
  import opened PrefixCache
  import opened PrefixObject
  import S = Scheduler
  import opened Scheduler
  import W = Worker
  import opened Worker
  import opened WorkerAdmits

  // i is the first place of q.
  ghost predicate RemovedAt(all: seq<Record>, q: Record, i: nat) {
    i < |all| && all[i] == q && forall j :: 0 <= j < i ==> all[j] != q
  }

  lemma FirstPlace(all: seq<Record>, q: Record, i: nat, c: nat)
    requires RemovedAt(all, q, i) && RemovedAt(all, q, c)
    ensures i == c
  {
  }

  class RequestQueueObject {
    const maxWaiting: nat
    var waiting: seq<Record>
    var event: bool

    // A waiter that blocks on the event cannot miss queued work.
    predicate Wakeful()
      reads this
    {
      waiting != [] ==> event
    }

    constructor (maxWaiting: nat)
      ensures this.maxWaiting == maxWaiting && waiting == [] && !event && Wakeful()
    {
      this.maxWaiting, waiting, event := maxWaiting, [], false;
    }

    method TryEnqueue(q: Record) returns (ok: bool)
      requires Wakeful()
      modifies this, q`status
      ensures Wakeful() && ok == (|old(waiting)| < maxWaiting)
      ensures ok ==> waiting == old(waiting) + [q] && event && q.View() == old(q.View()).(status := Waiting)
      ensures !ok ==> waiting == old(waiting) && event == old(event) && q.View() == old(q.View())
    {
      ok := |waiting| < maxWaiting;
      if ok {
        q.status := Waiting;
        waiting, event := waiting + [q], true;
      }
    }

    method PopOne() returns (head: Option<Record>)
      requires Wakeful()
      modifies this
      ensures Wakeful()
      ensures head.None? <==> old(waiting) == []
      ensures head.None? ==> waiting == old(waiting) && event == old(event)
      ensures head.Some? ==> old(waiting) == [head.value] + waiting && event == (waiting != [] && old(event))
    {
      if waiting == [] { return None; }
      head, waiting := Some(waiting[0]), waiting[1..];
      if waiting == [] { event := false; }
    }

    method PushFront(q: Record)
      modifies this
      ensures Wakeful() && waiting == [q] + old(waiting) && event
    {
      waiting, event := [q] + waiting, true;
    }

    // Rebuild the deque without the first occurrence.
    method Remove(q: Record) returns (found: bool)
      requires Wakeful()
      modifies this
      ensures Wakeful() && found == (q in old(waiting))
      ensures !found ==> waiting == old(waiting)
      ensures found ==>
        exists i: nat :: RemovedAt(old(waiting), q, i) && waiting == old(waiting)[..i] + old(waiting)[i + 1..]
      ensures event == (waiting != [] && old(event))
    {
      var kept: seq<Record> := [];
      found := false;
      ghost var at := 0;
      for i := 0 to |waiting|
        invariant waiting == old(waiting) && event == old(event)
        invariant !found ==> kept == waiting[..i] && q !in waiting[..i]
        invariant found ==>
          0 <= at < i && waiting[at] == q && q !in waiting[..at] && kept == waiting[..at] + waiting[at + 1..i]
      {
        if !found && waiting[i] == q {
          found := true;
          at := i;
        } else {
          kept := kept + [waiting[i]];
        }
      }
      waiting := kept;
      if waiting == [] { event := false; }
    }

    method Wake()
      modifies this`event
      ensures event && Wakeful()
    {
      event := true;
    }
  }

  datatype Submitted = Accepted | RequestTooLarge | QueueFull

  // ---- The values the objects hold ----

  ghost predicate DistinctIds(all: seq<Record>) {
    forall a, b :: a in all && b in all && a.id == b.id ==> a == b
  }

  ghost function Values(all: seq<Record>): map<Id, Sequence>
    requires DistinctIds(all)
    reads all
  {
    map q: Record | q in all :: q.id := q.View()
  }

  function Ids(all: seq<Record>): (ids: seq<Id>)
    ensures |ids| == |all| && forall i :: 0 <= i < |all| ==> ids[i] == all[i].id
  {
    seq(|all|, i requires 0 <= i < |all| => all[i].id)
  }

  lemma OnlyOneChanged(all: seq<Record>, q: Record, before: map<Id, Sequence>)
    requires DistinctIds(all) && q in all
    requires before.Keys == set r | r in all :: r.id
    requires forall r :: r in all && r != q ==> r.View() == before[r.id]
    ensures Values(all) == before[q.id := q.View()]
    ensures q.View() == before[q.id] ==> Values(all) == before
  {
  }

  // How far a run of the admission loop has come: what is admitted, what it sees, what room is left.
  ghost predicate Continues(cfg: Config, start: State, total: nat, here: State, admitted: seq<Id>, room: nat,
          now: int) {
    var rest := W.Admit(cfg, here, room, now);
    W.Admit(cfg, start, total, now) == (rest.0, admitted + rest.1)
  }

  lemma ContinuesFromStart(cfg: Config, start: State, room: nat, now: int)
    ensures Continues(cfg, start, room, start, [], room, now)
  {
    hide W.Admit;
    assert [] + W.Admit(cfg, start, room, now).1 == W.Admit(cfg, start, room, now).1;
  }

  // The loop ends when there is no room left or no candidate.
  lemma AdmitStops(cfg: Config, start: State, total: nat, s: State, admitted: seq<Id>, room: nat, now: int)
    requires room == 0 || Candidate(cfg, s, 0) == |s.waiting|
    requires Continues(cfg, start, total, s, admitted, room, now)
    ensures W.Admit(cfg, start, total, now) == (s, admitted)
  {
    assert admitted + [] == admitted;
  }

  lemma IdsAppend(all: seq<Record>, q: Record)
    ensures Ids(all + [q]) == Ids(all) + [q.id]
  {
  }

  lemma IdsPrepend(q: Record, all: seq<Record>)
    ensures Ids([q] + all) == [q.id] + Ids(all)
  {
  }

  lemma CandidateFrom(cfg: Config, s: State, c: nat)
    requires cfg.memoryFit && c <= |s.waiting|
    ensures Candidate(cfg, s, c) ==
      if c == |s.waiting| || S.Fits(cfg, s.m, Get(s, s.waiting[c])) then c else Candidate(cfg, s, c + 1)
  {
  }

  // The first record that fits is nowhere before itself.
  lemma FirstOfItsKind(cfg: Config, m: Memory, all: seq<Record>, c: nat)
    requires c < |all| && S.Fits(cfg, m, all[c].View())
    requires forall j :: 0 <= j < c ==> !S.Fits(cfg, m, all[j].View())
    ensures all[c] !in all[..c]
  {
    hide S.Fits;
  }

  // Admitted and waiting together are everybody.
  ghost predicate Split(admitted: seq<Record>, waiting: seq<Record>, all: seq<Record>) {
    multiset(admitted) + multiset(waiting) == multiset(all)
  }

  lemma SplitStart(all: seq<Record>)
    ensures Split([], all, all)
  {
  }

  lemma SplitMembers(admitted: seq<Record>, waiting: seq<Record>, all: seq<Record>)
    requires Split(admitted, waiting, all)
    ensures forall r :: r in waiting ==> r in all
  {
    forall r | r in waiting ensures r in all {
      assert r in multiset(waiting);
      assert r in multiset(all);
    }
  }

  lemma SplitTake(admitted: seq<Record>, waiting: seq<Record>, all: seq<Record>, c: nat)
    requires Split(admitted, waiting, all) && c < |waiting|
    ensures waiting[c] in all && Split(admitted + [waiting[c]], waiting[..c] + waiting[c + 1..], all)
  {
    assert waiting == waiting[..c] + [waiting[c]] + waiting[c + 1..];
    SplitMembers(admitted, waiting, all);
  }

  lemma SplitBack(admitted: seq<Record>, q: Record, waiting: seq<Record>, all: seq<Record>)
    requires Split(admitted + [q], waiting, all)
    ensures Split(admitted, [q] + waiting, all)
  {
  }

  lemma Reassociate<T>(a: seq<T>, x: T, b: seq<T>)
    ensures a + ([x] + b) == a + [x] + b
  {
  }

  class SchedulerObject {
    const cfg: Config
    const queue: RequestQueueObject
    const pool: BlockPoolObject
    const cache: PrefixCacheObject

    constructor (cfg: Config, queue: RequestQueueObject, cache: PrefixCacheObject)
      ensures this.cfg == cfg && this.queue == queue && this.cache == cache && pool == cache.pool
    {
      this.cfg, this.queue, this.cache, pool := cfg, queue, cache, cache.pool;
    }

    method NeedTokens(q: Record) returns (need: int)
      requires pool == cache.pool
      ensures need == S.NeedTokens(cfg, cache.View(), q.View())
    {
      need := ReservationTokens(q.View());
      if cfg.prefixOn {
        var hit := cache.Peek(q.req.prompt);
        if hit.Some? {
          need := if need <= |hit.value.tokenIds| then 0 else need - |hit.value.tokenIds|;
        }
      }
    }

    method Fits(q: Record) returns (fits: bool)
      requires pool == cache.pool
      ensures fits == S.Fits(cfg, cache.View(), q.View())
    {
      var need := NeedTokens(q);
      fits := |pool.free| >= BlocksNeeded(pool.blockSize, need);
    }

    // Refuse what the whole pool could not hold, then what the queue has no place for.
    method Submit(q: Record) returns (r: Submitted)
      requires pool == cache.pool && queue.Wakeful()
      modifies queue, q`status
      ensures queue.Wakeful()
      ensures r.RequestTooLarge? <==>
        BlocksNeeded(pool.blockSize, S.NeedTokens(cfg, cache.View(), old(q.View()))) > pool.numBlocks
      ensures r.Accepted? <==> !r.RequestTooLarge? && |old(queue.waiting)| < queue.maxWaiting
      ensures r.Accepted? ==>
        queue.waiting == old(queue.waiting) + [q] && queue.event && q.View() == old(q.View()).(status := Waiting)
      ensures !r.Accepted? ==>
        queue.waiting == old(queue.waiting) && queue.event == old(queue.event) && q.View() == old(q.View())
    {
      var need := NeedTokens(q);
      if BlocksNeeded(pool.blockSize, need) > pool.numBlocks { return RequestTooLarge; }
      var ok := queue.TryEnqueue(q);
      return if ok then Accepted else QueueFull;
    }

    method TryAllocate(q: Record, now: int) returns (ok: bool)
      requires pool == cache.pool
      modifies pool, cache, q`blockIds, q`ownedBlockIds, q`prefixKey, q`prefixTokens, q`prefixKv, q`prefixLogits
      ensures Attempt(ok, cache.View(), q.View()) == S.TryAllocate(cfg, old(cache.View()), old(q.View()), now)
    {
      hide S.Bound, PrefixCache.Lookup, ReleasePrefix, Reserve;
      var hit: Option<Hit> := None;
      if cfg.prefixOn {
        hit := cache.Lookup(q.req.prompt, now);
      }
      var need := ReservationTokens(q.View());
      if hit.Some? {
        need := if need <= |hit.value.tokenIds| then 0 else need - |hit.value.tokenIds|;
      }
      var ids := pool.Allocate(q, need);
      if ids.None? {
        if hit.Some? { cache.Release(Some(hit.value.tokenIds)); }
        return false;
      }
      Bind(q, hit);
      return true;
    }

    method Bind(q: Record, hit: Option<Hit>)
      modifies q`blockIds, q`ownedBlockIds, q`prefixKey, q`prefixTokens, q`prefixKv, q`prefixLogits
      ensures q.View() == S.Bound(old(q.View()), hit)
    {
      q.ownedBlockIds := q.blockIds;
      if hit.Some? {
        ApplyHit(q, hit.value);
        q.blockIds := hit.value.blockIds + q.blockIds;
      }
    }

    method ApplyHit(q: Record, hit: Hit)
      modifies q`prefixKey, q`prefixTokens, q`prefixKv, q`prefixLogits
      ensures q.View() == S.ApplyHit(old(q.View()), hit)
    {
      q.prefixKey, q.prefixTokens := Some(hit.tokenIds), |hit.tokenIds|;
      q.prefixKv, q.prefixLogits := Some(hit.kv), hit.logits;
    }

    // ---- Admission ----

    // Every waiter is among the records.
    ghost predicate Covers(all: seq<Record>)
      reads this, queue
    {
      forall r :: r in queue.waiting ==> r in all
    }

    // What the queue and the memory hold, as a state of which admission sees only this much.
    ghost function Abstract(all: seq<Record>): State
      requires DistinctIds(all)
      reads queue, pool, cache, cache.pool, all
    {
      State(cache.View(), Ids(queue.waiting), queue.event, [], Values(all), [], Top, false)
    }

    // Allocate for a record that has just left the queue.
    method AllocateTaken(q: Record, ghost all: seq<Record>, now: int) returns (ok: bool)
      requires pool == cache.pool && DistinctIds(all) && q in all
      modifies pool, cache, q`blockIds, q`ownedBlockIds, q`prefixKey, q`prefixTokens, q`prefixKv, q`prefixLogits
      ensures var t := S.TryAllocate(cfg, old(cache.View()), old(q.View()), now);
        && ok == t.ok && t.q.id == q.id
        && (ok ==> Abstract(all) == Put(old(Abstract(all)), (t.m, t.q)))
        && (!ok ==> Abstract(all) == old(Abstract(all)).(m := t.m))
    {
      ok := TryAllocate(q, now);
      OnlyOneChanged(all, q, old(Values(all)));
    }

    method PutBack(q: Record, ghost all: seq<Record>)
      requires pool == cache.pool && DistinctIds(all) && q in all
      modifies queue
      ensures queue.waiting == [q] + old(queue.waiting) && queue.event
      ensures Abstract(all) == W.PushFront(old(Abstract(all)), q.id)
    {
      queue.PushFront(q);
      IdsPrepend(q, old(queue.waiting));
    }

    // The record in place c has been taken out of the queue and is the loop's candidate.
    method AdmitRound(q: Record, c: nat, ghost start: State, ghost total: nat, ghost before: State,
            ghost all: seq<Record>,
                      ghost admitted: seq<Record>, room: nat, now: int) returns (ok: bool)
      requires pool == cache.pool && DistinctIds(all) && q in all && room > 0
      requires c < |before.waiting| && before.waiting[c] == q.id && Candidate(cfg, before, 0) == c
      requires Abstract(all) == TakeWaiter(before, c)
      requires Continues(cfg, start, total, before, Ids(admitted), room, now)
      modifies queue, pool, cache, q`blockIds, q`ownedBlockIds, q`prefixKey, q`prefixTokens, q`prefixKv, q`prefixLogits
      ensures ok ==> queue.waiting == old(queue.waiting) && queue.event == old(queue.event)
      ensures ok ==> Continues(cfg, start, total, Abstract(all), Ids(admitted + [q]), room - 1, now)
      ensures !ok ==> queue.waiting == [q] + old(queue.waiting)
      ensures !ok ==> (Abstract(all), Ids(admitted)) == W.Admit(cfg, start, total, now)
      ensures !ok ==> queue.event
    {
      hide W.Admit, S.TryAllocate, Candidate;
      RoundUnfolds(cfg, before, c, room, now);
      ghost var t := S.TryAllocate(cfg, before.m, Get(before, q.id), now);
      assert Get(before, q.id) == q.View() && before.m == cache.View();
      ghost var soFar := Ids(admitted);
      ok := AllocateTaken(q, all, now);
      if ok {
        ghost var after := Taken(cfg, before, c, now);
        assert Abstract(all) == after;
        ghost var rest := W.Admit(cfg, after, room - 1, now);
        Reassociate(soFar, q.id, rest.1);
        IdsAppend(admitted, q);
      } else {
        PutBack(q, all);
        assert soFar + [] == soFar;
      }
    }

    method PopHead(ghost all: seq<Record>) returns (q: Record)
      requires pool == cache.pool && DistinctIds(all) && queue.Wakeful() && queue.waiting != []
      modifies queue
      ensures old(queue.waiting) == [q] + queue.waiting && queue.Wakeful()
      ensures Abstract(all) == TakeWaiter(old(Abstract(all)), 0)
    {
      var head := queue.PopOne();
      q := head.value;
      assert Ids(queue.waiting) == Ids(old(queue.waiting))[1..];
    }

    // fcfs: the head is admitted or everybody waits.
    method AdmitFcfs(room: nat, now: int, ghost all: seq<Record>) returns (admitted: seq<Record>)
      requires pool == cache.pool && queue.Wakeful() && DistinctIds(all) && Covers(all) && !cfg.memoryFit
      modifies queue, pool, cache, all
      ensures queue.Wakeful() && admitted + queue.waiting == old(queue.waiting) && |admitted| <= room
      ensures (Abstract(all), Ids(admitted)) == W.Admit(cfg, old(Abstract(all)), room, now)
    {
      hide W.Admit, Candidate, S.TryAllocate, S.Fits, Continues, Abstract, TakeWaiter, Ids;
      ghost var waiters, start := queue.waiting, Abstract(all);
      ghost var here := start;
      var left: nat := room;
      admitted := [];
      ContinuesFromStart(cfg, start, room, now);
      while left > 0 && queue.waiting != []
        invariant left <= room && |admitted| == room - left && queue.Wakeful()
        invariant admitted + queue.waiting == waiters
        invariant here == Abstract(all) && Continues(cfg, start, room, here, Ids(admitted), left, now)
      {
        var head := queue.waiting[0];
        AbstractHead(all);
        var fits := Fits(head);
        if !fits { break; }
        var q := PopHead(all);
        Reassociate(admitted, q, queue.waiting);
        assert q == head && head in waiters;
        var ok := AdmitRound(q, 0, start, room, here, all, admitted, left, now);
        if !ok { return; }
        admitted, left, here := admitted + [q], left - 1, Abstract(all);
      }
      AbstractHead(all);
      AdmitStops(cfg, start, room, here, Ids(admitted), left, now);
    }

    // The value the loop sees at the head of the queue is that of the record there.
    lemma AbstractHead(all: seq<Record>)
      requires pool == cache.pool && DistinctIds(all) && !cfg.memoryFit && forall r :: r in queue.waiting ==> r in all
      ensures queue.waiting == [] ==> Candidate(cfg, Abstract(all), 0) == |Abstract(all).waiting|
      ensures queue.waiting != [] ==>
        && Abstract(all).waiting != [] && Abstract(all).waiting[0] == queue.waiting[0].id
        && Candidate(cfg, Abstract(all), 0) ==
           if S.Fits(cfg, cache.View(), queue.waiting[0].View()) then 0 else |Abstract(all).waiting|
    {
      var s := Abstract(all);
      if queue.waiting != [] {
        HeadIsCandidate(cfg, s);
        assert queue.waiting[0] in all && Get(s, queue.waiting[0].id) == queue.waiting[0].View();
      }
    }

    // The first waiter that fits, or the length of the queue.
    method FirstFitting(ghost all: seq<Record>) returns (c: nat)
      requires pool == cache.pool && DistinctIds(all) && cfg.memoryFit && forall r :: r in queue.waiting ==> r in all
      ensures c == Candidate(cfg, Abstract(all), 0) && c <= |queue.waiting|
      ensures c < |queue.waiting| ==> queue.waiting[c] !in queue.waiting[..c]
    {
      hide Candidate, S.Fits, Abstract;
      ghost var s := Abstract(all);
      c := 0;
      AbstractWaiting(all);
      while c < |queue.waiting|
        invariant c <= |queue.waiting| && Candidate(cfg, s, 0) == Candidate(cfg, s, c)
        invariant forall j :: 0 <= j < c ==> !S.Fits(cfg, cache.View(), queue.waiting[j].View())
      {
        AbstractAt(all, c);
        CandidateFrom(cfg, s, c);
        var fits := Fits(queue.waiting[c]);
        if fits {
          FirstOfItsKind(cfg, cache.View(), queue.waiting, c);
          return;
        }
        c := c + 1;
      }
      CandidateFrom(cfg, s, c);
    }

    lemma AbstractAt(all: seq<Record>, c: nat)
      requires DistinctIds(all) && c < |queue.waiting| && queue.waiting[c] in all
      ensures c < |Abstract(all).waiting| && Abstract(all).m == cache.View()
      ensures Get(Abstract(all), Abstract(all).waiting[c]) == queue.waiting[c].View()
    {
    }

    method TakeOut(c: nat, ghost all: seq<Record>) returns (q: Record)
      requires pool == cache.pool && DistinctIds(all) && queue.Wakeful()
      requires c < |queue.waiting| && queue.waiting[c] !in queue.waiting[..c]
      modifies queue
      ensures q == old(queue.waiting[c]) && queue.waiting == old(queue.waiting)[..c] + old(queue.waiting)[c + 1..]
      ensures queue.Wakeful() && Abstract(all) == TakeWaiter(old(Abstract(all)), c)
    {
      q := queue.waiting[c];
      ghost var was := queue.waiting;
      var found := queue.Remove(q);
      ghost var i: nat :| RemovedAt(was, q, i) && queue.waiting == was[..i] + was[i + 1..];
      FirstPlace(was, q, i, c);
      assert Ids(queue.waiting) == Ids(was)[..c] + Ids(was)[c + 1..];
    }

    // memory_fit: every round takes the first waiter that fits.
    method AdmitMemoryFit(room: nat, now: int, ghost all: seq<Record>) returns (admitted: seq<Record>)
      requires pool == cache.pool && queue.Wakeful() && DistinctIds(all) && Covers(all) && cfg.memoryFit
      modifies queue, pool, cache, all
      ensures queue.Wakeful() && Split(admitted, queue.waiting, old(queue.waiting)) && |admitted| <= room
      ensures (Abstract(all), Ids(admitted)) == W.Admit(cfg, old(Abstract(all)), room, now)
    {
      hide W.Admit, Candidate, S.TryAllocate, S.Fits, Continues, Abstract, Split;
      ghost var waiters, start := queue.waiting, Abstract(all);
      ghost var here := start;
      var left: nat := room;
      admitted := [];
      ContinuesFromStart(cfg, start, room, now);
      SplitStart(waiters);
      while left > 0
        invariant left <= room && |admitted| == room - left && queue.Wakeful()
        invariant Split(admitted, queue.waiting, waiters)
        invariant here == Abstract(all) && Continues(cfg, start, room, here, Ids(admitted), left, now)
      {
        SplitMembers(admitted, queue.waiting, waiters);
        var c := FirstFitting(all);
        AbstractWaiting(all);
        if c == |queue.waiting| { break; }
        SplitTake(admitted, queue.waiting, waiters, c);
        var q := TakeOut(c, all);
        var ok := AdmitRound(q, c, start, room, here, all, admitted, left, now);
        if !ok {
          SplitBack(admitted, q, queue.waiting[1..], waiters);
          assert queue.waiting == [q] + queue.waiting[1..];
          return;
        }
        admitted, left, here := admitted + [q], left - 1, Abstract(all);
      }
      AdmitStops(cfg, start, room, here, Ids(admitted), left, now);
    }

    lemma AbstractWaiting(all: seq<Record>)
      requires DistinctIds(all)
      ensures Abstract(all).waiting == Ids(queue.waiting)
    {
    }

    method Admit(runningCount: nat, now: int, ghost all: seq<Record>) returns (admitted: seq<Record>)
      requires pool == cache.pool && queue.Wakeful() && DistinctIds(all) && Covers(all)
      modifies queue, pool, cache, all
      ensures queue.Wakeful()
      ensures runningCount + |admitted| <= if runningCount <= cfg.maxBatch then cfg.maxBatch else runningCount
      ensures Split(admitted, queue.waiting, old(queue.waiting))
      ensures !cfg.memoryFit ==> admitted + queue.waiting == old(queue.waiting)
      ensures var room: nat := if runningCount <= cfg.maxBatch then cfg.maxBatch - runningCount else 0;
        (Abstract(all), Ids(admitted)) == W.Admit(cfg, old(Abstract(all)), room, now)
    {
      var room: nat := if runningCount <= cfg.maxBatch then cfg.maxBatch - runningCount else 0;
      if room == 0 { return []; }
      if cfg.memoryFit {
        admitted := AdmitMemoryFit(room, now, all);
      } else {
        admitted := AdmitFcfs(room, now, all);
        assert multiset(admitted + queue.waiting) == multiset(admitted) + multiset(queue.waiting);
      }
    }
  }
}
