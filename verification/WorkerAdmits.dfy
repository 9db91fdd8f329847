// Admission keeps the invariant and the order of the queue.
module WorkerAdmits {
  import opened Common
  import opened KvCache
  import opened LanguageModel
  import opened Sequences
  import opened BlockPool
  import opened PrefixCache
  import opened PrefixLaws
  import opened PrefixOps
  import opened Scheduler
  import opened Lifecycle
  import opened Worker
  import opened WorkerCore
  import opened WorkerRecords
  import opened WorkerInvariant

  // ---- One round ----

  function Rest(ids: seq<Id>, c: nat): seq<Id>
    requires c < |ids|
  {
    ids[..c] + ids[c + 1..]
  }

  lemma HeadIsCandidate(cfg: Config, s: State)
    requires !cfg.memoryFit && s.waiting != []
    ensures Candidate(cfg, s, 0) == if Fits(cfg, s.m, Get(s, s.waiting[0])) then 0 else |s.waiting|
  {
  }

  function Attempted(cfg: Config, s: State, c: nat, now: int): Attempt
    requires c < |s.waiting|
  {
    TryAllocate(cfg, s.m, Get(s, s.waiting[c]), now)
  }

  // The state a successful round leaves.
  function Taken(cfg: Config, s: State, c: nat, now: int): State
    requires c < |s.waiting|
  {
    var t := Attempted(cfg, s, c, now);
    Put(TakeWaiter(s, c), (t.m, t.q))
  }

  // The state a failed allocation leaves.
  function PutBack(cfg: Config, s: State, c: nat, now: int): State
    requires c < |s.waiting|
  {
    PushFront(TakeWaiter(s, c).(m := Attempted(cfg, s, c, now).m), s.waiting[c])
  }

  // One round of Admit.
  lemma RoundUnfolds(cfg: Config, s: State, c: nat, room: nat, now: int)
    requires room > 0 && c < |s.waiting| && Candidate(cfg, s, 0) == c
    ensures Attempted(cfg, s, c, now).ok ==>
      var r := Admit(cfg, Taken(cfg, s, c, now), room - 1, now);
      Admit(cfg, s, room, now) == (r.0, [s.waiting[c]] + r.1)
    ensures !Attempted(cfg, s, c, now).ok ==> Admit(cfg, s, room, now) == (PutBack(cfg, s, c, now), [])
  {
    hide TryAllocate;
  }

  lemma RoundQueue(cfg: Config, s: State, c: nat, now: int)
    requires c < |s.waiting|
    ensures Taken(cfg, s, c, now).waiting == Rest(s.waiting, c)
    ensures PutBack(cfg, s, c, now).waiting == [s.waiting[c]] + Rest(s.waiting, c)
    ensures PutBack(cfg, s, c, now).m == Attempted(cfg, s, c, now).m && PutBack(cfg, s, c, now).seqs == s.seqs
    ensures s.waiting == s.waiting[..c] + [s.waiting[c]] + s.waiting[c + 1..]
  {
    hide TryAllocate;
  }

  // No room, or no candidate.
  lemma AdmitNone(cfg: Config, s: State, room: nat, now: int)
    requires room == 0 || Candidate(cfg, s, 0) == |s.waiting|
    ensures Admit(cfg, s, room, now) == (s, [])
  {
  }

  // A waiter has left the queue for the worker's hands.
  lemma ListsAdmit(cfg: Config, s: State, s': State, c: nat, held: seq<Id>)
    requires Lists(cfg, s, held) && c < |s.waiting| && |held| < cfg.maxBatch
    requires s'.waiting == Rest(s.waiting, c) && s'.event == (Rest(s.waiting, c) != [] && s.event)
    requires s'.submitted == s.submitted && SameBut(s, s', s.waiting[c]) && s'.seqs[s.waiting[c]].status.Waiting?
    ensures Lists(cfg, s', held + [s.waiting[c]])
  {
    var id, rest := s.waiting[c], Rest(s.waiting, c);
    HandsDisjoint(cfg, s, held);
    Removed(s.waiting, c);
    NoDupConcat(held, [id]);
    NoDupConcat(rest, held + [id]);
    assert s.event;
    assert forall x :: x in held + [id] <==> x in held || x == id;
    AdmitRecords(cfg, s, s', id, rest, held);
  }

  lemma AdmitRecords(cfg: Config, s: State, s': State, id: Id, rest: seq<Id>, held: seq<Id>)
    requires Lists(cfg, s, held) && SameBut(s, s', id) && id in s.waiting
    requires forall x :: x in rest <==> x in s.waiting && x != id
    ensures forall x :: x in rest ==> x in s'.seqs && s'.seqs[x].status.Waiting?
    ensures forall x :: x in s'.seqs && !Terminal(s'.seqs[x].status) ==> x in rest || x in held || x == id
  {
    hide NoDup;
  }

  ghost predicate SameBut(s: State, s': State, id: Id) {
    && s'.seqs.Keys == s.seqs.Keys && id in s.seqs
    && forall j :: j in s.seqs && j != id ==> s'.seqs[j] == s.seqs[j]
  }

  // A waiter whose allocation failed is back in the queue, in front.
  lemma ListsPutBack(cfg: Config, s: State, s': State, c: nat, held: seq<Id>)
    requires Lists(cfg, s, held) && c < |s.waiting|
    requires s'.waiting == [s.waiting[c]] + Rest(s.waiting, c) && s'.event
    requires s'.submitted == s.submitted && s'.seqs == s.seqs
    ensures Lists(cfg, s', held)
  {
    var id, rest := s.waiting[c], Rest(s.waiting, c);
    HandsDisjoint(cfg, s, held);
    Removed(s.waiting, c);
    NoDupConcat([id], rest);
    NoDupConcat(s'.waiting, held);
    assert forall x :: x in s'.waiting <==> x == id || x in rest;
  }

  // ---- All rounds ----

  ghost predicate AdmitOk(lm: Lm, cfg: Config, s: State, held: seq<Id>, s': State, admitted: seq<Id>) {
    && CoreOf(lm, cfg, s') && Lists(cfg, s', held + admitted) && AllAdmitted(s', admitted)
    && s' == s.(m := s'.m, waiting := s'.waiting, event := s'.event, seqs := s'.seqs)
    && s'.seqs.Keys == s.seqs.Keys
    && (forall id :: id in s.seqs && id !in s.waiting ==> id !in s'.waiting && s'.seqs[id] == s.seqs[id])
  }

  lemma TakenRound(lm: Lm, cfg: Config, s: State, c: nat, held: seq<Id>, now: int)
    requires CoreOf(lm, cfg, s) && Lists(cfg, s, held) && c < |s.waiting| && |held| < cfg.maxBatch
    requires s.waiting[c] in s.seqs && TryAllocate(cfg, s.m, s.seqs[s.waiting[c]], now).ok
    ensures var id := s.waiting[c];
      var t := TryAllocate(cfg, s.m, s.seqs[id], now);
      var s1 := Put(TakeWaiter(s, c), (t.m, t.q));
      && t.q.id == id && CoreOf(lm, cfg, s1) && Lists(cfg, s1, held + [id]) && SameBut(s, s1, id)
      && s1.seqs[id].status.Waiting? && (forall x :: x in s1.waiting <==> x in s.waiting && x != id)
  {
    hide Core, Lists, TryAllocate, NoDup;
    var id := s.waiting[c];
    HandsDisjoint(cfg, s, held);
    Removed(s.waiting, c);
    AllocateCore(lm, cfg, s.m, s.waiting, Rest(s.waiting, c), s.seqs, id, now);
    var t := TryAllocate(cfg, s.m, s.seqs[id], now);
    ListsAdmit(cfg, s, Put(TakeWaiter(s, c), (t.m, t.q)), c, held);
  }

  lemma FailedRound(lm: Lm, cfg: Config, s: State, c: nat, held: seq<Id>, now: int)
    requires CoreOf(lm, cfg, s) && Lists(cfg, s, held) && c < |s.waiting|
    requires s.waiting[c] in s.seqs && !TryAllocate(cfg, s.m, s.seqs[s.waiting[c]], now).ok
    ensures var s1 := PushFront(TakeWaiter(s, c).(m := TryAllocate(cfg, s.m, s.seqs[s.waiting[c]], now).m),
      s.waiting[c]);
      AdmitOk(lm, cfg, s, held, s1, [])
  {
    hide Core, Lists, TryAllocate, NoDup;
    var id := s.waiting[c];
    HandsDisjoint(cfg, s, held);
    Removed(s.waiting, c);
    AllocateCore(lm, cfg, s.m, s.waiting, [id] + Rest(s.waiting, c), s.seqs, id, now);
    var t := TryAllocate(cfg, s.m, s.seqs[id], now);
    ListsPutBack(cfg, s, PushFront(TakeWaiter(s, c).(m := t.m), id), c, held);
    assert held + [] == held;
  }

  // One waiter taken, then the rest of the rounds.
  lemma AdmitCompose(lm: Lm, cfg: Config, s: State, s1: State, s2: State, held: seq<Id>, id: Id, rest: seq<Id>)
    requires AdmitOk(lm, cfg, s1, held + [id], s2, rest) && SameBut(s, s1, id) && s1.seqs[id].status.Waiting?
    requires id in s.waiting && forall x :: x in s1.waiting <==> x in s.waiting && x != id
    requires s1 == s.(m := s1.m, waiting := s1.waiting, event := s1.event, seqs := s1.seqs)
    ensures AdmitOk(lm, cfg, s, held, s2, [id] + rest)
  {
    hide CoreOf, Lists, NoDup;
    assert held + [id] + rest == held + ([id] + rest);
    assert forall x :: x in [id] + rest <==> x == id || x in rest;
  }

  lemma AdmitNobody(lm: Lm, cfg: Config, s: State, held: seq<Id>)
    requires CoreOf(lm, cfg, s) && Lists(cfg, s, held)
    ensures AdmitOk(lm, cfg, s, held, s, [])
  {
    hide CoreOf, NoDup;
    assert held + [] == held;
  }

  lemma {:induction false} AdmitKeeps(lm: Lm, cfg: Config, s: State, held: seq<Id>, room: nat, now: int)
    requires CoreOf(lm, cfg, s) && Lists(cfg, s, held) && |held| + room <= cfg.maxBatch
    ensures AdmitOk(lm, cfg, s, held, Admit(cfg, s, room, now).0, Admit(cfg, s, room, now).1)
    ensures |Admit(cfg, s, room, now).1| <= room
    decreases room
  {
    hide CoreOf, Lists, TryAllocate, NoDup, Fits, AdmitOk;
    if room == 0 || Candidate(cfg, s, 0) == |s.waiting| {
      AdmitNobody(lm, cfg, s, held);
    } else {
      var c := Candidate(cfg, s, 0);
      var id := s.waiting[c];
      WaitingAreListed(cfg, s, held);
      var t := TryAllocate(cfg, s.m, s.seqs[id], now);
      if t.ok {
        TakenRound(lm, cfg, s, c, held, now);
        var s1 := Put(TakeWaiter(s, c), (t.m, t.q));
        var (s2, rest) := Admit(cfg, s1, room - 1, now);
        AdmitKeeps(lm, cfg, s1, held + [id], room - 1, now);
        AdmitCompose(lm, cfg, s, s1, s2, held, id, rest);
      } else {
        FailedRound(lm, cfg, s, c, held, now);
      }
    }
  }

  // The flagged are dropped and the room they leave is filled.
  lemma DroppingDoneKeeps(lm: Lm, cfg: Config, s: State, now: int)
    requires StateInv(lm, cfg, s) && s.pc.Dropping? && s.pc.todo == []
    ensures StateInv(lm, cfg, StepDropping(cfg, s, now))
  {
    hide Core, Lists, NoDup, Admit, AllAdmitted;
    var held := s.pc.kept;
    assert s.pc.kept + s.pc.todo == held;
    var kept := s.(running := held);
    ListsOf(cfg, s, kept, held);
    HandsBounded(cfg, kept, held);
    AdmitKeeps(lm, cfg, kept, held, cfg.maxBatch - |held|, now);
    var (s', admitted) := Admit(cfg, kept, cfg.maxBatch - |held|, now);
    StillDecoding(cfg, kept, s', held);
    AtPrefills(lm, cfg, s', held, admitted);
  }

  lemma HandsBounded(cfg: Config, s: State, hands: seq<Id>)
    requires Lists(cfg, s, hands)
    ensures |hands| <= cfg.maxBatch && |s.waiting| <= cfg.maxWaiting
  {
  }

  lemma StillDecoding(cfg: Config, s: State, s': State, held: seq<Id>)
    requires Lists(cfg, s, held) && AllDecoding(s, held)
    requires forall id :: id in s.seqs && id !in s.waiting ==>
      id !in s'.waiting && id in s'.seqs && s'.seqs[id] == s.seqs[id]
    ensures AllDecoding(s', held)
  {
  }
}
