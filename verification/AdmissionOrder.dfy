// Who is admitted, in what order, and why admission stops, from any state at all.
module AdmissionOrder {
  import opened Common
  import opened Sequences
  import opened BlockPool
  import opened PrefixCache
  import opened Scheduler
  import opened Worker
  import opened WorkerAdmits

  // First come, first served: admitted and remaining, in that order, are the old queue, even when
  // an allocation fails midway.
  lemma {:induction false} FcfsKeepsOrder(cfg: Config, s: State, room: nat, now: int)
    requires !cfg.memoryFit
    ensures Admit(cfg, s, room, now).1 + Admit(cfg, s, room, now).0.waiting == s.waiting
    decreases room
  {
    hide Admit, Candidate, Attempted, Taken, PutBack;
    if room == 0 || Candidate(cfg, s, 0) == |s.waiting| {
      AdmitNone(cfg, s, room, now);
    } else {
      HeadIsCandidate(cfg, s);
      RoundUnfolds(cfg, s, 0, room, now);
      RoundQueue(cfg, s, 0, now);
      if Attempted(cfg, s, 0, now).ok {
        FcfsKeepsOrder(cfg, Taken(cfg, s, 0, now), room - 1, now);
        var r := Admit(cfg, Taken(cfg, s, 0, now), room - 1, now);
        assert [s.waiting[0]] + r.1 + r.0.waiting == [s.waiting[0]] + (r.1 + r.0.waiting);
      }
      assert s.waiting == [s.waiting[0]] + Rest(s.waiting, 0);
    }
  }

  // Admitted and still waiting together are the old queue, each as often.
  ghost predicate SameWaiters(admitted: seq<Id>, waiting: seq<Id>, queue: seq<Id>) {
    multiset(admitted) + multiset(waiting) == multiset(queue)
  }

  lemma SameRest(ids: seq<Id>, c: nat)
    requires c < |ids|
    ensures multiset(ids) == multiset{ids[c]} + multiset(Rest(ids, c))
    ensures SameWaiters([], ids, ids) && SameWaiters([], [ids[c]] + Rest(ids, c), ids)
  {
    assert ids == ids[..c] + [ids[c]] + ids[c + 1..];
  }

  lemma SameMore(ids: seq<Id>, c: nat, admitted: seq<Id>, waiting: seq<Id>)
    requires c < |ids| && SameWaiters(admitted, waiting, Rest(ids, c))
    ensures SameWaiters([ids[c]] + admitted, waiting, ids)
  {
    SameRest(ids, c);
    assert multiset([ids[c]] + admitted) == multiset{ids[c]} + multiset(admitted);
  }

  lemma CandidateInside(cfg: Config, s: State)
    ensures Candidate(cfg, s, 0) <= |s.waiting|
  {
    hide Fits;
  }

  // Either policy only moves waiters: none is lost, none appears, none is doubled.
  lemma {:induction false} AdmissionConservesWaiters(cfg: Config, s: State, room: nat, now: int)
    ensures SameWaiters(Admit(cfg, s, room, now).1, Admit(cfg, s, room, now).0.waiting, s.waiting)
    ensures |Admit(cfg, s, room, now).1| <= room
    decreases room
  {
    hide Admit, Attempted, Taken, PutBack, SameWaiters, Candidate, Fits;
    var c := Candidate(cfg, s, 0);
    CandidateInside(cfg, s);
    if c < |s.waiting| { SameRest(s.waiting, c); }
    if room == 0 || c == |s.waiting| {
      AdmitNone(cfg, s, room, now);
      SameAlready(s.waiting);
    } else {
      RoundUnfolds(cfg, s, c, room, now);
      RoundQueue(cfg, s, c, now);
      if Attempted(cfg, s, c, now).ok {
        AdmissionConservesWaiters(cfg, Taken(cfg, s, c, now), room - 1, now);
        var r := Admit(cfg, Taken(cfg, s, c, now), room - 1, now);
        SameMore(s.waiting, c, r.1, r.0.waiting);
      }
    }
  }

  lemma SameAlready(ids: seq<Id>)
    ensures SameWaiters([], ids, ids)
  {
  }

  // Every round takes the first waiter that fits the memory as the earlier rounds left it; first
  // come, first served that is the head or nobody.
  ghost predicate FirstFits(cfg: Config, s: State, admitted: seq<Id>, now: int)
    decreases |admitted|
  {
    admitted != [] ==>
      exists c: nat :: c < |s.waiting| && s.waiting[c] == admitted[0] && FirstFit(cfg, s, c)
        && Attempted(cfg, s, c, now).ok && FirstFits(cfg, Taken(cfg, s, c, now), admitted[1..], now)
  }

  ghost predicate FirstFit(cfg: Config, s: State, c: nat)
    requires c < |s.waiting|
  {
    && (cfg.memoryFit || c == 0) && Fits(cfg, s.m, Get(s, s.waiting[c]))
    && forall j :: 0 <= j < c ==> !Fits(cfg, s.m, Get(s, s.waiting[j]))
  }

  lemma FirstFitIsCandidate(cfg: Config, s: State, c: nat)
    requires c < |s.waiting| && FirstFit(cfg, s, c)
    ensures Candidate(cfg, s, 0) == c
  {
    hide Fits;
    assert !cfg.memoryFit ==> c == 0;
  }

  lemma {:induction false} EveryRoundTakesFirstFit(cfg: Config, s: State, room: nat, now: int)
    ensures FirstFits(cfg, s, Admit(cfg, s, room, now).1, now)
    decreases room
  {
    hide Admit, Attempted, Taken, PutBack;
    var c := Candidate(cfg, s, 0);
    if room == 0 || c == |s.waiting| {
      AdmitNone(cfg, s, room, now);
    } else {
      RoundUnfolds(cfg, s, c, room, now);
      assert FirstFit(cfg, s, c);
      if Attempted(cfg, s, c, now).ok {
        EveryRoundTakesFirstFit(cfg, Taken(cfg, s, c, now), room - 1, now);
        var rest := Admit(cfg, Taken(cfg, s, c, now), room - 1, now).1;
        assert ([s.waiting[c]] + rest)[1..] == rest;
      }
    }
  }

  ghost predicate NobodyFits(cfg: Config, s: State) {
    forall i :: 0 <= i < |s.waiting| && (cfg.memoryFit || i == 0) ==> !Fits(cfg, s.m, Get(s, s.waiting[i]))
  }

  // The waiter now in front fitted when it was chosen, but its allocation failed: taking the
  // prefix reference used blocks the fit test had not counted.
  ghost predicate AllocationFailed(cfg: Config, s: State, before: Memory, now: int) {
    && s.waiting != [] && Fits(cfg, before, Get(s, s.waiting[0]))
    && var t := TryAllocate(cfg, before, Get(s, s.waiting[0]), now); !t.ok && s.m == t.m
  }

  lemma FailedRoundIs(cfg: Config, s: State, c: nat, now: int)
    requires c < |s.waiting| && FirstFit(cfg, s, c) && !Attempted(cfg, s, c, now).ok
    ensures AllocationFailed(cfg, PutBack(cfg, s, c, now), s.m, now)
  {
    hide TryAllocate, Fits;
  }

  lemma NobodyIsCandidate(cfg: Config, s: State)
    requires Candidate(cfg, s, 0) == |s.waiting|
    ensures s.waiting == [] || NobodyFits(cfg, s)
  {
    hide Fits;
  }

  // The state the last round met: the failing one if an allocation fails, else where admission ends.
  function LastRound(cfg: Config, s: State, room: nat, now: int): State
    decreases room
  {
    if room == 0 || Candidate(cfg, s, 0) == |s.waiting| then s
    else
      var c := Candidate(cfg, s, 0);
      if Attempted(cfg, s, c, now).ok then LastRound(cfg, Taken(cfg, s, c, now), room - 1, now) else s
  }

  // Admission leaves room unused only for these reasons.
  lemma {:induction false} WhyAdmissionStops(cfg: Config, s: State, room: nat, now: int)
    ensures var (s', admitted) := Admit(cfg, s, room, now);
      |admitted| < room ==>
        s'.waiting == [] || NobodyFits(cfg, s') || AllocationFailed(cfg, s', LastRound(cfg, s, room, now).m, now)
    decreases room
  {
    hide Admit, Attempted, Taken, PutBack, AllocationFailed, NobodyFits;
    var c := Candidate(cfg, s, 0);
    if room == 0 || c == |s.waiting| {
      AdmitNone(cfg, s, room, now);
      if room > 0 { NobodyIsCandidate(cfg, s); }
    } else {
      RoundUnfolds(cfg, s, c, room, now);
      if Attempted(cfg, s, c, now).ok {
        WhyAdmissionStops(cfg, Taken(cfg, s, c, now), room - 1, now);
      } else {
        FailedRoundIs(cfg, s, c, now);
      }
    }
  }
}
