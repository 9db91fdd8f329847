// What one step does to one live sequence: what may end it, and how; and when it generates a token.
// Everything here speaks of the abort flag, the stop request and the failures themselves.
module Fates {
  import opened Common
  import opened KvCache
  import opened LanguageModel
  import opened Engines
  import opened Sequences
  import opened BlockPool
  import opened PrefixCache
  import opened PrefixLaws
  import opened PrefixOps
  import opened Scheduler
  import opened Lifecycle
  import opened Worker
  import opened WorkerCore
  import opened WorkerRecords
  import opened WorkerInvariant
  import opened WorkerAdmits
  import opened WorkerEnvironment
  import opened WorkerRuns
  import opened WorkerHistory
  import opened CoverageRuns

  ghost predicate Live(s: State, id: Id) {
    id in s.seqs && !Terminal(s.seqs[id].status)
  }

  // The step is the failing prefill of this sequence, or fails its row of the batch.
  ghost predicate FailsNow(s: State, e: Event, id: Id) {
    && e.Work? && id in s.seqs
    && ((s.pc.InPrefill? && s.pc.id == id && !s.seqs[id].abortRequested
          && (e.fails || e.sampleFails || s.seqs[id].req.prompt == []))
      || (s.pc.Failing? && s.pc.todo != [] && s.pc.todo[0] == id))
  }

  // From one state of a live record to the next: aborted only by its flag or the stop, failed only by
  // a failure, and only an unflagged one finishes or generates, one token at a time.
  ghost predicate Fate(q: Sequence, q': Sequence, stopping: bool, failing: bool) {
    && q'.req == q.req
    && (q'.status.Aborted? ==> q.abortRequested || stopping)
    && (q'.status.Errored? <==> failing)
    && q'.abortRequested == q.abortRequested && (q.abortRequested ==> !q'.status.Finished?)
    && (q.status.Decoding? ==> q'.status.Decoding? || Terminal(q'.status))
    && (q'.output == q.output || (!q.abortRequested && |q'.output| == |q.output| + 1))
    && (q'.status.Aborted? || q'.status.Errored? ==> q'.output == q.output)
  }

  // Nothing of this happens.
  ghost predicate Bides(q: Sequence, q': Sequence) {
    q'.req == q.req && q'.status == q.status && q'.output == q.output && q'.abortRequested == q.abortRequested
  }

  lemma BidingFate(q: Sequence, q': Sequence, stopping: bool)
    requires !Terminal(q.status) && Bides(q, q')
    ensures Fate(q, q', stopping, false)
  {
  }

  // ---- Ending one ----

  lemma AbortedFate(cfg: Config, s: State, t: Id, id: Id)
    requires t in s.seqs && s.seqs[t].id == t && id in s.seqs
    ensures var s' := AbortId(cfg, s, t);
      && id in s'.seqs && (id != t ==> s'.seqs[id] == s.seqs[id])
      && (id == t ==> s'.seqs[id].status.Aborted? && Bides(s.seqs[id].(status := Aborted), s'.seqs[id]))
  {
    hide ReleasePrefix;
  }

  lemma WalkMeets(lm: Lm, cfg: Config, s: State)
    requires CoreOf(lm, cfg, s) && Shape(lm, s)
    requires (s.pc.Dropping? || s.pc.Prefills? || s.pc.Sweeping? || s.pc.Settling?) && s.pc.todo != []
    ensures var t := s.pc.todo[0]; t in s.seqs && s.seqs[t].id == t && Get(s, t) == s.seqs[t]
  {
    hide CoreOf;
    assert s.pc.Dropping? ==> s.pc.todo[0] in s.pc.kept + s.pc.todo;
    IdOf(lm, cfg, s, s.pc.todo[0]);
  }

  // A walk ends the flagged sequence it meets and touches nobody else.
  lemma WalkFates(lm: Lm, cfg: Config, s: State, e: Event, id: Id)
    requires CoreOf(lm, cfg, s) && Shape(lm, s) && Live(s, id) && e.Work?
    requires (s.pc.Dropping? || s.pc.Prefills? || s.pc.Sweeping? || s.pc.Settling?) && s.pc.todo != []
    ensures var s' := Next(lm, cfg, s, e);
      && id in s'.seqs && Fate(s.seqs[id], s'.seqs[id], false, false)
      && (s.seqs[id].abortRequested && s.pc.todo[0] == id ==> s'.seqs[id].status.Aborted?)
      && (!s.seqs[id].abortRequested || s.pc.todo[0] != id ==> s'.seqs[id] == s.seqs[id])
  {
    hide CoreOf, Shape, AbortId, Admit, StepTop, StepBlocked, StepInPrefill, StepSampled, StepRows, StepCollecting;
    hide StepFailing;
    WalkMeets(lm, cfg, s);
    AbortedFate(cfg, s, s.pc.todo[0], id);
  }

  // ---- Admission ----

  lemma AttemptBides(cfg: Config, m: Memory, q: Sequence, now: int)
    ensures Bides(q, TryAllocate(cfg, m, q, now).q) && TryAllocate(cfg, m, q, now).q.id == q.id
  {
    hide Lookup, ReleasePrefix, Reserve;
  }

  lemma TakenBides(cfg: Config, s: State, c: nat, now: int, id: Id)
    requires c < |s.waiting| && id in s.seqs && s.waiting[c] in s.seqs && s.seqs[s.waiting[c]].id == s.waiting[c]
    ensures var s' := Taken(cfg, s, c, now); id in s'.seqs && Bides(s.seqs[id], s'.seqs[id])
  {
    hide TryAllocate;
    AttemptBides(cfg, s.m, s.seqs[s.waiting[c]], now);
  }

  lemma {:induction false} AdmitBides(cfg: Config, s: State, room: nat, now: int, id: Id)
    requires Known(s, s.waiting) && id in s.seqs
    ensures var s' := Admit(cfg, s, room, now).0; id in s'.seqs && Bides(s.seqs[id], s'.seqs[id])
    decreases room
  {
    hide TryAllocate, Fits, Known, Taken, PutBack, Admit;
    var c := Candidate(cfg, s, 0);
    if room == 0 || c == |s.waiting| {
      AdmitNone(cfg, s, room, now);
    } else {
      KnownWaiter(s, c);
      RoundUnfolds(cfg, s, c, room, now);
      RoundQueue(cfg, s, c, now);
      if Attempted(cfg, s, c, now).ok {
        TakenBides(cfg, s, c, now, id);
        TakenKnown(cfg, s, c, now);
        AdmitBides(cfg, Taken(cfg, s, c, now), room - 1, now, id);
      }
    }
  }

  lemma KnownWaiter(s: State, c: nat)
    requires Known(s, s.waiting) && c < |s.waiting|
    ensures s.waiting[c] in s.seqs && s.seqs[s.waiting[c]].id == s.waiting[c]
  {
  }

  lemma TakenKnown(cfg: Config, s: State, c: nat, now: int)
    requires Known(s, s.waiting) && c < |s.waiting|
    ensures Known(Taken(cfg, s, c, now), Taken(cfg, s, c, now).waiting)
  {
    hide TryAllocate, Known;
    KnownWaiter(s, c);
    TakenOnward(cfg, s, c, now);
  }

  lemma AdmissionBides(lm: Lm, cfg: Config, s: State, e: Event, id: Id)
    requires CoreOf(lm, cfg, s) && Lists(cfg, s, Hands(s)) && Live(s, id) && e.Work?
    requires s.pc.Dropping? && s.pc.todo == []
    ensures var s' := Next(lm, cfg, s, e); id in s'.seqs && Bides(s.seqs[id], s'.seqs[id])
  {
    hide CoreOf, Lists, Admit, Bides;
    forall w | w in s.waiting ensures w in s.seqs && s.seqs[w].id == w && !Terminal(s.seqs[w].status) {
      WaiterIsLive(lm, cfg, s, Hands(s), w);
    }
    var kept := s.(running := s.pc.kept);
    var room := if |kept.running| <= cfg.maxBatch then cfg.maxBatch - |kept.running| else 0;
    AdmitBides(cfg, kept, room, e.now, id);
  }

  // ---- Prefill ----

  // Only the record of `t` has changed.
  lemma OtherBides(s: State, s': State, t: Id, id: Id)
    requires SameBut(s, s', t) && id in s.seqs && id != t
    ensures id in s'.seqs && s'.seqs[id] == s.seqs[id] && Bides(s.seqs[id], s'.seqs[id])
  {
  }

  lemma NotedFate(q: Sequence, token: Token, kv: Cache)
    requires !q.abortRequested && !Terminal(q.status)
    ensures Fate(q, NoteToken(q, token).(kv := Some(kv)), false, false)
    ensures NoteToken(q, token).output == q.output + [token] && NoteToken(q, token).id == q.id
  {
  }

  lemma FinishedFate(cfg: Config, m: Memory, q: Sequence, r: Sequence)
    requires Fate(q, r, false, false) && !q.abortRequested && !Terminal(r.status)
    ensures var q' := FinishSequence(cfg, m, r).1;
      Fate(q, q', false, false) && q'.status.Finished? && q'.output == r.output && q'.id == r.id
  {
    hide ReleasePrefix;
  }

  lemma ErroredFate(cfg: Config, m: Memory, q: Sequence, r: Sequence)
    requires r.req == q.req && r.output == q.output && r.abortRequested == q.abortRequested
    ensures Fate(q, FailOne(cfg, m, r).1, false, true) && FailOne(cfg, m, r).1.id == r.id
  {
    hide ReleasePrefix;
  }

  lemma InPrefillFate(lm: Lm, cfg: Config, s: State, e: Event, id: Id)
    requires CoreOf(lm, cfg, s) && Lists(cfg, s, Hands(s)) && Shape(lm, s) && s.pc.InPrefill?
    requires Live(s, id) && e.Work?
    ensures var s' := StepInPrefill(lm, cfg, s, e.now, e.fails, e.sampleFails);
      && id in s'.seqs && Fate(s.seqs[id], s'.seqs[id], false, FailsNow(s, e, id))
      && (s.seqs[id].abortRequested && s.pc.id == id ==> s'.seqs[id].status.Aborted?)
      && (s.pc.id != id ==> s'.seqs[id] == s.seqs[id])
  {
    hide CoreOf, Lists, Shape, AbortId, PrefillWithReuse, FailOne, NoteToken, Fate, Bides, Inv, AllMean, Admitted;
    PrefillTarget(lm, cfg, s);
    var t := s.pc.id;
    var q, s' := s.seqs[t], StepInPrefill(lm, cfg, s, e.now, e.fails, e.sampleFails);
    if WantsAbort(q) {
      AbortedFate(cfg, s, t, id);
      if id == t { AbortedIsFate(s.seqs[id], s'.seqs[id]); } else { SameIsFate(s.seqs[id]); }
    } else {
      PrefillEnds(lm, cfg, s, e);
      if id != t {
        OtherBides(s, s', t, id);
        BidingFate(s.seqs[id], s'.seqs[id], false);
      }
    }
  }

  lemma SameIsFate(q: Sequence)
    requires !Terminal(q.status)
    ensures Fate(q, q, false, false)
  {
  }

  lemma AbortedIsFate(q: Sequence, q': Sequence)
    requires q'.status.Aborted? && Bides(q.(status := Aborted), q')
    ensures Fate(q, q', !q.abortRequested, false)
  {
  }

  // The sequence in prefill, with its flag down: it fails, or has its first token.
  lemma PrefillEnds(lm: Lm, cfg: Config, s: State, e: Event)
    requires CoreOf(lm, cfg, s) && Lists(cfg, s, Hands(s)) && Shape(lm, s) && s.pc.InPrefill? && e.Work?
    requires s.pc.id in s.seqs && !WantsAbort(s.seqs[s.pc.id])
    ensures var s', t := StepInPrefill(lm, cfg, s, e.now, e.fails, e.sampleFails), s.pc.id;
      && SameBut(s, s', t) && Fate(s.seqs[t], s'.seqs[t], false, FailsNow(s, e, t))
      && (FailsNow(s, e, t) || s'.seqs[t].output != s.seqs[t].output)
  {
    hide CoreOf, Lists, Shape, AbortId, PrefillWithReuse, FailOne, NoteToken, Fate, Inv, AllMean, Admitted;
    PrefillTarget(lm, cfg, s);
    var q := s.seqs[s.pc.id].(status := Prefilling);
    var p := PrefillWithReuse(lm, cfg, s.m, q, e.now, e.fails);
    PrefilledRecord(lm, cfg, s, e);
    if p.out.Err? || e.sampleFails {
      ErroredFate(cfg, p.m, s.seqs[s.pc.id], p.q);
    } else {
      var noted := NoteToken(p.q, Argmax(p.out.value.logits)).(kv := Some(p.out.value.cache));
      NotedFate(p.q, Argmax(p.out.value.logits), p.out.value.cache);
      FateFrom(s.seqs[s.pc.id], p.q, noted);
      assert |noted.output| == |p.q.output| + 1;
    }
  }

  lemma FateFrom(q: Sequence, r: Sequence, q': Sequence)
    requires r.req == q.req && r.output == q.output && r.abortRequested == q.abortRequested && !q.status.Decoding?
    requires Fate(r, q', false, false)
    ensures Fate(q, q', false, false)
  {
  }

  lemma PrefilledRecord(lm: Lm, cfg: Config, s: State, e: Event)
    requires CoreOf(lm, cfg, s) && Lists(cfg, s, Hands(s)) && Shape(lm, s) && s.pc.InPrefill? && e.Work?
    requires s.pc.id in s.seqs && !WantsAbort(s.seqs[s.pc.id])
    ensures var q := s.seqs[s.pc.id];
      var p := PrefillWithReuse(lm, cfg, s.m, q.(status := Prefilling), e.now, e.fails);
      && p.q.id == s.pc.id && p.q.req == q.req && p.q.output == q.output && p.q.status.Prefilling?
      && p.q.abortRequested == q.abortRequested && (p.out.Err? <==> e.fails || q.req.prompt == [])
  {
    hide Core, Lists, Shape, PrefillWithReuse, Inv, AllMean, Admitted, RefsOf;
    PrefillTarget(lm, cfg, s);
    var q := s.seqs[s.pc.id];
    PrefillCore(lm, cfg, s.m, s.waiting, s.seqs, s.pc.id, e.now, e.fails);
    TargetBudget(lm, cfg, s.m, q);
    PrefillKeeps(lm, cfg, s.m, q.(status := Prefilling), e.now, e.fails);
  }

  lemma TargetBudget(lm: Lm, cfg: Config, m: Memory, q: Sequence)
    requires Admitted(lm, cfg, m, q)
    ensures Budgeted(m, q.(status := Prefilling)) && PrefixOk(lm, cfg, q.(status := Prefilling))
  {
  }

  lemma SampledFate(lm: Lm, cfg: Config, s: State, id: Id)
    requires CoreOf(lm, cfg, s) && Shape(lm, s) && s.pc.Sampled? && Live(s, id)
    ensures var s' := StepSampled(cfg, s);
      && id in s'.seqs && Fate(s.seqs[id], s'.seqs[id], false, false)
      && (s.seqs[id].abortRequested && s.pc.id == id ==> s'.seqs[id].status.Aborted?)
      && (s.pc.id != id ==> s'.seqs[id] == s.seqs[id]) && s'.seqs[id].output == s.seqs[id].output
  {
    hide Core, AbortId, FinishSequence, NoteToken;
    var t := s.pc.id;
    IdOf(lm, cfg, s, t);
    AbortedFate(cfg, s, t, id);
    if !s.seqs[t].abortRequested { FinishedFate(cfg, s.m, s.seqs[t], s.seqs[t]); }
  }

  // ---- Decode ----

  // The row loop ends the row's sequence if it is flagged, and otherwise gives it one token.
  lemma RowFate(lm: Lm, cfg: Config, s: State, id: Id)
    requires CoreOf(lm, cfg, s) && Shape(lm, s) && s.pc.Rows? && s.pc.row < |s.pc.live| && Live(s, id)
    ensures var s', t := StepRows(cfg, s), s.pc.live[s.pc.row];
      && id in s'.seqs && Fate(s.seqs[id], s'.seqs[id], false, false)
      && (t != id ==> s'.seqs[id] == s.seqs[id])
      && (t == id && s.seqs[id].abortRequested ==> s'.seqs[id].status.Aborted?)
      && (t == id && !s.seqs[id].abortRequested ==> |s'.seqs[id].output| == |s.seqs[id].output| + 1)
  {
    hide Core, AbortId, FinishSequence, NoteToken, AllRun, Among, RowTrue;
    var t, row, out := s.pc.live[s.pc.row], s.pc.row, s.pc.out;
    IdOf(lm, cfg, s, t);
    AbortedFate(cfg, s, t, id);
    var q := s.seqs[t];
    if !q.abortRequested {
      var noted := NoteToken(q, Argmax(out.logits[row])).(kv := Some(out.caches[row]));
      NotedFate(q, Argmax(out.logits[row]), out.caches[row]);
      NotedStatus(q, Argmax(out.logits[row]));
      FinishedFate(cfg, s.m, q, noted);
    }
  }

  lemma FailingFate(lm: Lm, cfg: Config, s: State, e: Event, id: Id)
    requires CoreOf(lm, cfg, s) && Shape(lm, s) && s.pc.Failing? && Live(s, id) && e.Work?
    ensures var s' := StepFailing(cfg, s);
      && id in s'.seqs && Fate(s.seqs[id], s'.seqs[id], false, FailsNow(s, e, id))
      && s'.seqs[id].output == s.seqs[id].output && !s'.seqs[id].status.Finished?
  {
    hide Core, FailOne, AllRun, Among;
    if s.pc.todo != [] {
      var t := s.pc.todo[0];
      IdOf(lm, cfg, s, t);
      ErroredFate(cfg, s.m, s.seqs[t], s.seqs[t]);
    }
  }

  // ---- The final sweep ----

  // Nothing happens to a record, or it is aborted where it stands.
  ghost predicate Swept(s: State, s': State, id: Id) {
    id in s'.seqs && id in s.seqs &&
    (s'.seqs[id] == s.seqs[id] || (s'.seqs[id].status.Aborted? && Bides(s.seqs[id].(status := Aborted), s'.seqs[id])))
  }

  lemma SweptThen(a: State, b: State, c: State, id: Id)
    requires Swept(a, b, id) && Swept(b, c, id)
    ensures Swept(a, c, id)
  {
  }

  lemma {:induction false} AbortWaitersSweep(lm: Lm, cfg: Config, s: State, hands: seq<Id>, id: Id)
    requires CoreOf(lm, cfg, s) && Lists(cfg, s, hands) && id in s.seqs
    ensures Swept(s, AbortWaiters(cfg, s), id)
    decreases |s.waiting|
  {
    hide CoreOf, Lists, AbortId, NoDup, Swept;
    if s.waiting == [] {
      SweptNot(s, s, id);
    } else {
      var t := s.waiting[0];
      var s1 := AbortId(cfg, TakeWaiter(s, 0), t);
      AbortWaiterKeeps(lm, cfg, s, 0, hands);
      WaiterIsLive(lm, cfg, s, hands, t);
      SweptOne(cfg, TakeWaiter(s, 0), t, id);
      SweptNot(s, TakeWaiter(s, 0), id);
      SweptThen(s, TakeWaiter(s, 0), s1, id);
      SweptKnown(s, s1, id);
      AbortWaitersSweep(lm, cfg, s1, hands, id);
      SweptThen(s, s1, AbortWaiters(cfg, s1), id);
    }
  }

  lemma SweptNot(s: State, s': State, id: Id)
    requires id in s.seqs && s'.seqs == s.seqs
    ensures Swept(s, s', id)
  {
  }

  lemma SweptKnown(s: State, s': State, id: Id)
    requires Swept(s, s', id)
    ensures id in s'.seqs
  {
  }

  lemma SweptOne(cfg: Config, s: State, t: Id, id: Id)
    requires t in s.seqs && s.seqs[t].id == t && id in s.seqs
    ensures Swept(s, AbortId(cfg, s, t), id)
  {
    hide AbortId;
    AbortedFate(cfg, s, t, id);
  }

  lemma {:induction false} AbortRunningSweep(lm: Lm, cfg: Config, s: State, ids: seq<Id>, id: Id)
    requires CoreOf(lm, cfg, s) && Lists(cfg, s, ids) && AllDecoding(s, ids) && id in s.seqs
    ensures Swept(s, AbortRunning(cfg, s, ids), id)
    decreases |ids|
  {
    hide CoreOf, Lists, AbortId, NoDup, Swept;
    if ids == [] {
      SweptNot(s, s, id);
    } else {
      assert [] + ids == ids && [] + ids[1..] == ids[1..];
      TailIn(ids);
      DecodingUnsignalled(lm, cfg, s, ids[0]);
      AbortInWalk(lm, cfg, s, [], ids);
      var s1 := AbortId(cfg, s, ids[0]);
      Frame(s, s1, ids[0], ids, ids[1..]);
      IdOf(lm, cfg, s, ids[0]);
      SweptOne(cfg, s, ids[0], id);
      SweptKnown(s, s1, id);
      AbortRunningSweep(lm, cfg, s1, ids[1..], id);
      SweptThen(s, s1, AbortRunning(cfg, s1, ids[1..]), id);
    }
  }

  lemma LeftoversFate(lm: Lm, cfg: Config, s: State, id: Id)
    requires CoreOf(lm, cfg, s) && Lists(cfg, s, s.running) && AllDecoding(s, s.running) && Live(s, id)
    ensures var s' := AbortLeftovers(cfg, s);
      id in s'.seqs && Fate(s.seqs[id], s'.seqs[id], true, false) && s'.seqs[id].output == s.seqs[id].output
  {
    hide CoreOf, Lists, AbortWaiters, AbortRunning;
    var s1 := AbortWaiters(cfg, s);
    AbortWaitersKeeps(lm, cfg, s, s.running);
    AbortWaitersSweep(lm, cfg, s, s.running, id);
    AbortRunningSweep(lm, cfg, s1, s1.running, id);
    SweptThen(s, s1, AbortRunning(cfg, s1, s1.running), id);
  }

  // ---- Any step ----

  lemma QuietFate(s: State, s': State, id: Id, stopping: bool)
    requires Live(s, id) && s'.seqs == s.seqs
    ensures id in s'.seqs && Fate(s.seqs[id], s'.seqs[id], stopping, false)
  {
  }

  lemma RestFate(lm: Lm, cfg: Config, s: State, e: Event, id: Id)
    requires StateInv(lm, cfg, s) && Live(s, id) && e.Work? && AtRest(s)
    ensures var s' := Next(lm, cfg, s, e);
      id in s'.seqs && Fate(s.seqs[id], s'.seqs[id], s.stop, false) && s'.seqs[id].output == s.seqs[id].output
  {
    hide Core, Lists, AbortLeftovers, Fate;
    if s.stop && (s.pc.Top? || s.pc == Blocked(true)) {
      LeftoversFate(lm, cfg, s, id);
    } else {
      QuietFate(s, Next(lm, cfg, s, e), id, s.stop);
    }
  }

  lemma WorkFate(lm: Lm, cfg: Config, s: State, e: Event, id: Id)
    requires StateInv(lm, cfg, s) && Live(s, id) && e.Work?
    ensures var s' := Next(lm, cfg, s, e);
      id in s'.seqs && Fate(s.seqs[id], s'.seqs[id], s.stop && AtRest(s), FailsNow(s, e, id))
  {
    hide StateInv, CoreOf, Lists, Shape, AbortLeftovers, StepInPrefill, StepSampled, StepFailing, Fate, Admit, AbortId;
    hide DecodeLive, FinishSequence, NoteToken;
    Parts(lm, cfg, s);
    if AtRest(s) {
      RestFate(lm, cfg, s, e, id);
    } else if s.pc.InPrefill? {
      InPrefillFate(lm, cfg, s, e, id);
    } else if s.pc.Sampled? {
      SampledFate(lm, cfg, s, id);
    } else if s.pc.Failing? {
      FailingFate(lm, cfg, s, e, id);
    } else if s.pc.Rows? && s.pc.row < |s.pc.live| {
      RowFate(lm, cfg, s, id);
    } else {
      OtherFate(lm, cfg, s, e, id);
    }
  }

  lemma OtherFate(lm: Lm, cfg: Config, s: State, e: Event, id: Id)
    requires CoreOf(lm, cfg, s) && Lists(cfg, s, Hands(s)) && Shape(lm, s) && Live(s, id) && e.Work?
    requires !AtRest(s) && !s.pc.InPrefill? && !s.pc.Sampled? && !s.pc.Failing?
    requires s.pc.Rows? ==> s.pc.row >= |s.pc.live|
    ensures var s' := Next(lm, cfg, s, e); id in s'.seqs && Fate(s.seqs[id], s'.seqs[id], false, false)
  {
    hide CoreOf, Lists, Shape, Fate, Bides;
    if (s.pc.Dropping? || s.pc.Prefills? || s.pc.Sweeping? || s.pc.Settling?) && s.pc.todo != [] {
      WalkFates(lm, cfg, s, e, id);
    } else if s.pc.Dropping? {
      AdmissionBides(lm, cfg, s, e, id);
      BidingFate(s.seqs[id], Next(lm, cfg, s, e).seqs[id], false);
    } else {
      SameRecords(lm, cfg, s, e);
      QuietFate(s, Next(lm, cfg, s, e), id, false);
    }
  }

  // Between the phases of an iteration, and while the batch is collected, no record changes.
  lemma SameRecords(lm: Lm, cfg: Config, s: State, e: Event)
    requires e.Work?
    requires match s.pc
      case Prefills(todo) => todo == []
      case Sweeping(todo) => todo == []
      case Settling(todo, _) => todo == []
      case Rows(live, row, _) => row >= |live|
      case Collecting(_, _) => true
      case _ => false
    ensures Next(lm, cfg, s, e).seqs == s.seqs
  {
    hide DecodeLive, NoteToken, FinishSequence, AbortId;
  }

  // The flag of a sequence goes up by an abort request for it, or by an administrative abort while
  // it runs.
  ghost predicate Flags(s: State, e: Event, id: Id) {
    e == RequestAbort(id) || (e == AdminAbort(id) && id in s.running && id !in s.waiting)
  }

  lemma EnvironmentFate(lm: Lm, cfg: Config, s: State, e: Event, id: Id)
    requires StateInv(lm, cfg, s) && Live(s, id) && !e.Work?
    ensures var s' := Next(lm, cfg, s, e); var q := s.seqs[id];
      && id in s'.seqs && s'.seqs[id].output == q.output
      && (s'.seqs[id].abortRequested <==> q.abortRequested || Flags(s, e, id))
      && (Terminal(s'.seqs[id].status) <==> e == AdminAbort(id) && id in s.waiting)
      && (Terminal(s'.seqs[id].status) ==> s'.seqs[id].status.Aborted?)
      && (!Terminal(s'.seqs[id].status) ==> s'.seqs[id] == q.(abortRequested := s'.seqs[id].abortRequested))
  {
    hide StateInv, NeedTokens, BlocksNeeded, StepAdminAbort;
    if e.AdminAbort? { AdminAbortFate(lm, cfg, s, e.id, id); }
  }

  lemma AdminAbortFate(lm: Lm, cfg: Config, s: State, t: Id, id: Id)
    requires StateInv(lm, cfg, s) && Live(s, id)
    ensures var s' := StepAdminAbort(cfg, s, t); var q := s.seqs[id];
      && id in s'.seqs
      && (id == t && id in s.waiting ==>
        s'.seqs[id].status.Aborted? && Bides(q.(status := Aborted), s'.seqs[id]))
      && (id != t || id !in s.waiting ==>
        s'.seqs[id] == q.(abortRequested := q.abortRequested || Flags(s, AdminAbort(t), id)))
  {
    hide Core, Shape, AbortId, NoDup;
    var i := IndexOf(s.waiting, t);
    if i < |s.waiting| {
      WaiterIsLive(lm, cfg, s, Hands(s), t);
      AbortedFate(cfg, TakeWaiter(s, i), t, id);
    }
  }
}
