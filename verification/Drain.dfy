// Progress: every loop iteration with work strictly decreases the tokens still to be generated, so
// without new submissions the loop empties, after a number of worker steps known beforehand.
module Drain {
  import opened Common
  import opened KvCache
  import opened LanguageModel
  import opened Engines
  import opened Generation
  import opened Sequences
  import opened BlockPool
  import opened PrefixCache
  import opened PrefixLaws
  import opened PrefixOps
  import opened Scheduler
  import opened Lifecycle
  import opened Worker
  import opened WorkerCore
  import opened WorkerRecords
  import opened WorkerInvariant
  import opened WorkerAdmits
  import opened WorkerEnvironment
  import opened WorkerSteps
  import opened WorkerRuns
  import opened WorkerHistory
  import opened EmptyBatch
  import opened AdmissionOrder

  // ---- The measure ----

  // Tokens a sequence may still generate.
  ghost function Left(q: Sequence): nat {
    if Terminal(q.status) || |q.output| >= q.req.maxTokens then 0 else q.req.maxTokens - |q.output|
  }

  ghost function TotalLeft(s: State, ids: seq<Id>): nat {
    if ids == [] then 0
    else
      var id := ids[|ids| - 1];
      TotalLeft(s, ids[..|ids| - 1]) + if id in s.seqs then Left(s.seqs[id]) else 0
  }

  lemma OnwardLeft(q: Sequence, q': Sequence)
    requires Onward(q, q')
    ensures Left(q') <= Left(q)
    ensures Left(q) > 0 && (Terminal(q'.status) || |q'.output| > |q.output|) ==> Left(q') < Left(q)
  {
  }

  lemma {:induction false} TotalLeftFalls(s: State, s': State, ids: seq<Id>)
    requires Later(s, s') && forall id :: id in ids ==> id in s.seqs
    ensures TotalLeft(s', ids) <= TotalLeft(s, ids)
    ensures (exists id :: id in ids && Left(s'.seqs[id]) < Left(s.seqs[id])) ==> TotalLeft(s', ids) < TotalLeft(s, ids)
  {
    if ids != [] {
      var last := ids[|ids| - 1];
      assert forall id :: id in ids ==> id in ids[..|ids| - 1] || id == last;
      TotalLeftFalls(s, s', ids[..|ids| - 1]);
      OnwardLeft(s.seqs[last], s'.seqs[last]);
    }
  }

  lemma {:induction false} TotalLeftPositive(s: State, ids: seq<Id>)
    ensures TotalLeft(s, ids) > 0 <==> exists id :: id in ids && id in s.seqs && Left(s.seqs[id]) > 0
  {
    if ids != [] {
      TotalLeftPositive(s, ids[..|ids| - 1]);
      assert forall id :: id in ids <==> id in ids[..|ids| - 1] || id == ids[|ids| - 1];
    }
  }

  // ---- One sequence the current iteration owes progress ----

  ghost predicate Ending(s: State, w: Id) {
    w in s.running && w in s.seqs && WantsAbort(s.seqs[w])
  }

  // With nobody running, the first waiter that fits is next, if its allocation will succeed.
  ghost predicate NextAt(cfg: Config, s: State, w: Id, c: nat) {
    && c < |s.waiting| && s.waiting[c] == w && FirstFit(cfg, s, c)
    && w in s.seqs && AdmitsWhenIdle(cfg, s.m, s.seqs[w])
  }

  ghost predicate AtHead(cfg: Config, s: State, w: Id, hands: seq<Id>) {
    hands == [] && exists c: nat :: NextAt(cfg, s, w, c)
  }

  // Before the iteration is over, w will generate a token or end.
  ghost predicate Due(cfg: Config, s: State, w: Id) {
    && w in s.seqs && !Terminal(s.seqs[w].status)
    && match s.pc
       case Dropping(todo, kept) => w in kept + todo || AtHead(cfg, s, w, kept + todo)
       case Prefills(todo) => w in s.running || w in todo
       case InPrefill(id, todo) => w in s.running || w == id || w in todo
       case Sampled(id, todo) => w in s.running || w in todo
       case Sweeping(todo) => w in s.running
       case Collecting(todo, live) => w in live || w in todo || Ending(s, w)
       case Rows(live, row, out) => (row <= |live| && w in live[row..]) || Ending(s, w)
       case Failing(todo) => w in todo || Ending(s, w)
       case Settling(todo, still) => w in todo && WantsAbort(s.seqs[w])
       case _ => false
  }

  // What w was owed has happened, or is still owed.
  ghost predicate Served(cfg: Config, s: State, s': State, w: Id) {
    && w in s.seqs && w in s'.seqs
    && (Due(cfg, s', w) || Terminal(s'.seqs[w].status) || |s'.seqs[w].output| > |s.seqs[w].output|)
  }

  // ---- Each step serves ----

  // What a walk's step does to the sequence it meets: end it if it is flagged, or leave it.
  lemma MetRecord(lm: Lm, cfg: Config, s: State, id: Id)
    requires CoreOf(lm, cfg, s) && id in s.seqs
    ensures s.seqs[id].id == id && Get(s, id) == s.seqs[id]
    ensures var s' := AbortId(cfg, s, id);
      && SameExcept(s, s', id) && s' == s.(m := s'.m, seqs := s'.seqs) && Terminal(s'.seqs[id].status)
  {
    hide CoreOf, EndAs;
    IdOf(lm, cfg, s, id);
    EndedAs(cfg, s.m, s.seqs[id], Aborted);
  }

  lemma DroppingServes(lm: Lm, cfg: Config, s: State, w: Id, now: int)
    requires CoreOf(lm, cfg, s) && Shape(lm, s) && Due(cfg, s, w) && s.pc.Dropping? && s.pc.todo != []
    ensures Served(cfg, s, StepDropping(cfg, s, now), w)
  {
    hide CoreOf, AbortId, NextAt;
    var id := s.pc.todo[0];
    Split(s.pc.todo, w);
    assert id in s.pc.kept + s.pc.todo;
    MetRecord(lm, cfg, s, id);
  }

  lemma PrefillsServes(lm: Lm, cfg: Config, s: State, w: Id)
    requires CoreOf(lm, cfg, s) && Shape(lm, s) && Due(cfg, s, w) && s.pc.Prefills? && s.pc.todo != []
    ensures Served(cfg, s, StepPrefills(cfg, s), w)
  {
    hide CoreOf, AbortId, AllDecoding;
    Split(s.pc.todo, w);
    MetRecord(lm, cfg, s, s.pc.todo[0]);
  }

  lemma SweepingServes(lm: Lm, cfg: Config, s: State, w: Id)
    requires CoreOf(lm, cfg, s) && Shape(lm, s) && Due(cfg, s, w) && s.pc.Sweeping?
    ensures Served(cfg, s, StepSweeping(cfg, s), w)
  {
    hide CoreOf, AbortId, AllRun, Among;
    if s.pc.todo != [] { MetRecord(lm, cfg, s, s.pc.todo[0]); }
  }

  lemma SettlingServes(lm: Lm, cfg: Config, s: State, w: Id)
    requires CoreOf(lm, cfg, s) && Shape(lm, s) && Due(cfg, s, w) && s.pc.Settling? && s.pc.todo != []
    ensures Served(cfg, s, StepSettling(cfg, s), w)
  {
    hide CoreOf, AbortId, AllDecoding;
    Split(s.pc.todo, w);
    MetRecord(lm, cfg, s, s.pc.todo[0]);
  }

  lemma Split(ids: seq<Id>, w: Id)
    requires ids != []
    ensures w in ids <==> w == ids[0] || w in ids[1..]
  {
    assert ids == [ids[0]] + ids[1..];
  }

  lemma PrefillsDoneServes(lm: Lm, cfg: Config, s: State, w: Id)
    requires s.pc.Prefills? && s.pc.todo == [] && Due(cfg, s, w)
    ensures Served(cfg, s, StepPrefills(cfg, s), w)
  {
  }

  // An empty batch admits the waiter that is next.
  lemma DroppingDoneServes(lm: Lm, cfg: Config, s: State, w: Id, now: int)
    requires CoreOf(lm, cfg, s) && Lists(cfg, s, Hands(s)) && Shape(lm, s) && Due(cfg, s, w)
    requires s.pc.Dropping? && s.pc.todo == []
    ensures Served(cfg, s, StepDropping(cfg, s, now), w)
  {
    if w in s.pc.kept + s.pc.todo {
      KeptServes(lm, cfg, s, w, now);
    } else {
      NextServed(lm, cfg, s, w, now);
    }
  }

  lemma KeptServes(lm: Lm, cfg: Config, s: State, w: Id, now: int)
    requires CoreOf(lm, cfg, s) && Lists(cfg, s, Hands(s)) && Shape(lm, s)
    requires s.pc.Dropping? && s.pc.todo == [] && w in s.pc.kept + s.pc.todo
    ensures Served(cfg, s, StepDropping(cfg, s, now), w)
  {
    hide Core, Lists, NoDup, Admit;
    var held := s.pc.kept;
    assert s.pc.kept + s.pc.todo == held;
    var kept := s.(running := held);
    ListsOf(cfg, s, kept, held);
    HandsBounded(cfg, kept, held);
    HandsDisjoint(cfg, s, held);
    AdmitKeeps(lm, cfg, kept, held, cfg.maxBatch - |held|, now);
  }

  lemma NextServed(lm: Lm, cfg: Config, s: State, w: Id, now: int)
    requires CoreOf(lm, cfg, s) && Lists(cfg, s, Hands(s)) && s.pc.Dropping? && s.pc.todo == []
    requires AtHead(cfg, s, w, s.pc.kept + s.pc.todo)
    ensures Served(cfg, s, StepDropping(cfg, s, now), w)
  {
    hide Core, Lists, NoDup, Admit, NextAt;
    var kept := s.(running := []);
    assert s.pc.kept == [] && Hands(s) == [];
    ListsOf(cfg, s, kept, []);
    var c: nat :| NextAt(cfg, s, w, c);
    NextIsWaiting(cfg, s, w, c);
    SameQueue(cfg, s, kept, w, c);
    NextAdmitted(lm, cfg, kept, w, c, now);
    AdmitFrame(lm, cfg, kept, cfg.maxBatch, now);
  }

  lemma SameQueue(cfg: Config, s: State, s': State, w: Id, c: nat)
    requires NextAt(cfg, s, w, c) && s'.m == s.m && s'.waiting == s.waiting && s'.seqs == s.seqs
    ensures NextAt(cfg, s', w, c)
  {
    hide Fits, AdmitsWhenIdle;
  }

  lemma NextAdmitted(lm: Lm, cfg: Config, s: State, w: Id, c: nat, now: int)
    requires CoreOf(lm, cfg, s) && Lists(cfg, s, []) && NextAt(cfg, s, w, c)
    ensures var admitted := Admit(cfg, s, cfg.maxBatch, now).1; admitted != [] && admitted[0] == w
  {
    hide Core, TryAllocate, Fits, AdmitsWhenIdle, Admit, Taken, PutBack;
    QuietMemory(lm, cfg, s);
    FirstFitIsCandidate(cfg, s, c);
    IdleAdmission(cfg, s.m, s.seqs[w], now);
    RoundUnfolds(cfg, s, c, cfg.maxBatch, now);
  }

  lemma AdmitFrame(lm: Lm, cfg: Config, s: State, room: nat, now: int)
    requires CoreOf(lm, cfg, s) && Lists(cfg, s, []) && room <= cfg.maxBatch
    ensures AllAdmitted(Admit(cfg, s, room, now).0, Admit(cfg, s, room, now).1)
  {
    hide Core, Lists, Admit;
    AdmitKeeps(lm, cfg, s, [], room, now);
  }

  // ---- Prefill ----

  // The sequence being prefilled ends or has its first token.
  ghost predicate PrefillHandled(s: State, s': State, id: Id) {
    && id in s.seqs && SameExcept(s, s', id) && s'.running == s.running && s.pc.InPrefill?
    && (s'.pc == Prefills(s.pc.todo) || s'.pc == Sampled(id, s.pc.todo))
    && (Terminal(s'.seqs[id].status) || |s'.seqs[id].output| > |s.seqs[id].output|)
  }

  lemma FlaggedPrefill(lm: Lm, cfg: Config, s: State, now: int, fails: bool, sampleFails: bool)
    requires CoreOf(lm, cfg, s) && s.pc.InPrefill? && s.pc.id in s.seqs && WantsAbort(s.seqs[s.pc.id])
    ensures PrefillHandled(s, StepInPrefill(lm, cfg, s, now, fails, sampleFails), s.pc.id)
  {
    hide CoreOf, PrefillWithReuse, EndAs, NoteToken, AbortId;
    MetRecord(lm, cfg, s, s.pc.id);
  }

  lemma PrefillEffect(lm: Lm, cfg: Config, s: State, now: int, fails: bool, sampleFails: bool)
    requires CoreOf(lm, cfg, s) && s.pc.InPrefill? && s.pc.id in s.seqs && !WantsAbort(s.seqs[s.pc.id])
    requires s.pc.id !in s.waiting && s.seqs[s.pc.id].status.Waiting?
    ensures PrefillHandled(s, StepInPrefill(lm, cfg, s, now, fails, sampleFails), s.pc.id)
  {
    hide Core, PrefillWithReuse, EndAs, NoteToken, Admitted;
    var id := s.pc.id;
    var p := PrefillWithReuse(lm, cfg, s.m, s.seqs[id].(status := Prefilling), now, fails);
    PrefillCore(lm, cfg, s.m, s.waiting, s.seqs, id, now, fails);
    EndedAs(cfg, p.m, p.q, Errored);
    if p.out.Ok? { Noted(p.q, Argmax(p.out.value.logits)); }
  }

  lemma InPrefillServes(lm: Lm, cfg: Config, s: State, w: Id, now: int, fails: bool, sampleFails: bool)
    requires CoreOf(lm, cfg, s) && Shape(lm, s) && s.pc.InPrefill? && Due(cfg, s, w)
    ensures Served(cfg, s, StepInPrefill(lm, cfg, s, now, fails, sampleFails), w)
  {
    hide CoreOf, StepInPrefill, AtHead, Terminal, AllDecoding;
    TailIn([s.pc.id] + s.pc.todo);
    if WantsAbort(s.seqs[s.pc.id]) {
      FlaggedPrefill(lm, cfg, s, now, fails, sampleFails);
    } else {
      PrefillEffect(lm, cfg, s, now, fails, sampleFails);
    }
  }

  lemma Noted(q: Sequence, token: Token)
    ensures var q' := NoteToken(q, token); q'.id == q.id && q'.status == q.status && |q'.output| == |q.output| + 1
  {
  }

  lemma SampledServes(lm: Lm, cfg: Config, s: State, w: Id)
    requires CoreOf(lm, cfg, s) && Lists(cfg, s, Hands(s)) && Shape(lm, s) && s.pc.Sampled? && Due(cfg, s, w)
    ensures Served(cfg, s, StepSampled(cfg, s), w)
  {
    hide Core, Lists, EndAs;
    var id := s.pc.id;
    IdOf(lm, cfg, s, id);
    SampledOwns(lm, cfg, s);
    var q := s.seqs[id];
    EndedAs(cfg, s.m, q, Aborted);
    FinishedAs(cfg, s.m, q);
  }

  // ---- Decode ----

  lemma CollectingServes(lm: Lm, cfg: Config, s: State, w: Id, fails: bool)
    requires CoreOf(lm, cfg, s) && Shape(lm, s) && s.pc.Collecting? && Due(cfg, s, w)
    ensures Served(cfg, s, StepCollecting(lm, cfg, s, fails), w)
  {
    hide Core, DecodeLive, RowsTrue, AtHead, NoDup;
    if s.pc.todo != [] {
      CollectingNext(lm, cfg, s, w, fails);
    } else {
      assert s.pc.live[0..] == s.pc.live;
    }
  }

  lemma CollectingNext(lm: Lm, cfg: Config, s: State, w: Id, fails: bool)
    requires CoreOf(lm, cfg, s) && Shape(lm, s) && s.pc.Collecting? && s.pc.todo != [] && Due(cfg, s, w)
    ensures Served(cfg, s, StepCollecting(lm, cfg, s, fails), w)
  {
    hide CoreOf, DecodeLive, RowsTrue, AtHead, NoDup;
    var live, todo := s.pc.live, s.pc.todo;
    Split(todo, w);
    assert forall x :: x in todo ==> x in live + todo;
    if w == todo[0] { LiveDecodes(lm, cfg, s, w); }
  }

  // A row's sequence ends or has one token more.
  lemma RowEffect(lm: Lm, cfg: Config, s: State)
    requires CoreOf(lm, cfg, s) && Shape(lm, s) && s.pc.Rows? && s.pc.row < |s.pc.live|
    ensures var s', id := StepRows(cfg, s), s.pc.live[s.pc.row];
      && id in s.seqs && SameExcept(s, s', id) && s'.pc == Rows(s.pc.live, s.pc.row + 1, s.pc.out)
      && s'.running == s.running
      && (Terminal(s'.seqs[id].status) || |s'.seqs[id].output| > |s.seqs[id].output|)
  {
    hide Core, AbortId, NoteToken, FinishSequence, RowTrue, AllRun, Among;
    var row, out := s.pc.row, s.pc.out;
    var q := s.seqs[s.pc.live[row]];
    MetRecord(lm, cfg, s, s.pc.live[row]);
    Noted(q, Argmax(out.logits[row]));
    FinishedAs(cfg, s.m, NoteToken(q, Argmax(out.logits[row])).(kv := Some(out.caches[row])));
  }

  lemma RowsServes(lm: Lm, cfg: Config, s: State, w: Id)
    requires CoreOf(lm, cfg, s) && Shape(lm, s) && s.pc.Rows? && Due(cfg, s, w)
    ensures Served(cfg, s, StepRows(cfg, s), w)
  {
    hide CoreOf, StepRows, AllRun, Among, RowTrue, AtHead, Terminal;
    if s.pc.row < |s.pc.live| {
      RowEffect(lm, cfg, s);
      RowServes(cfg, s, StepRows(cfg, s), w);
    } else {
      RowsDoneServes(cfg, s, w);
    }
  }

  lemma RowServes(cfg: Config, s: State, s': State, w: Id)
    requires s.pc.Rows? && s.pc.row < |s.pc.live| && Due(cfg, s, w)
    requires var id := s.pc.live[s.pc.row];
      && SameExcept(s, s', id) && s'.pc == Rows(s.pc.live, s.pc.row + 1, s.pc.out) && s'.running == s.running
      && id in s.seqs
      && (Terminal(s'.seqs[id].status) || |s'.seqs[id].output| > |s.seqs[id].output|)
    ensures Served(cfg, s, s', w)
  {
    hide AtHead, Terminal;
    var live, row := s.pc.live, s.pc.row;
    assert live[row..] == [live[row]] + live[row + 1..];
  }

  lemma RowsDoneServes(cfg: Config, s: State, w: Id)
    requires s.pc.Rows? && s.pc.row >= |s.pc.live| && Due(cfg, s, w)
    ensures Served(cfg, s, StepRows(cfg, s), w)
  {
    hide AtHead, Terminal;
  }

  lemma FailingServes(lm: Lm, cfg: Config, s: State, w: Id)
    requires CoreOf(lm, cfg, s) && Shape(lm, s) && s.pc.Failing? && Due(cfg, s, w)
    ensures Served(cfg, s, StepFailing(cfg, s), w)
  {
    hide Core, EndAs, AllRun, Among;
    if s.pc.todo != [] {
      var id := s.pc.todo[0];
      Split(s.pc.todo, w);
      IdOf(lm, cfg, s, id);
      EndedAs(cfg, s.m, s.seqs[id], Errored);
    }
  }

  lemma WorkServes(lm: Lm, cfg: Config, s: State, w: Id, now: int, fails: bool, sampleFails: bool)
    requires StateInv(lm, cfg, s) && Due(cfg, s, w)
    ensures Served(cfg, s, WorkStep(lm, cfg, s, now, fails, sampleFails), w)
  {
    hide StateInv, CoreOf, Lists, Shape, StepDropping, StepPrefills, StepInPrefill, StepSampled, Served;
    hide StepSweeping, StepCollecting, StepRows, StepFailing, StepSettling, NextAt;
    Parts(lm, cfg, s);
    match s.pc
    case Dropping(todo, _) =>
      if todo == [] {
        DroppingDoneServes(lm, cfg, s, w, now);
      } else {
        DroppingServes(lm, cfg, s, w, now);
      }
    case Prefills(todo) => if todo == [] { PrefillsDoneServes(lm, cfg, s, w); } else { PrefillsServes(lm, cfg, s, w); }
    case InPrefill(_, _) => InPrefillServes(lm, cfg, s, w, now, fails, sampleFails);
    case Sampled(_, _) => SampledServes(lm, cfg, s, w);
    case Sweeping(_) => SweepingServes(lm, cfg, s, w);
    case Collecting(_, _) => CollectingServes(lm, cfg, s, w, fails);
    case Rows(_, _, _) => RowsServes(lm, cfg, s, w);
    case Failing(_) => FailingServes(lm, cfg, s, w);
    case Settling(_, _) => SettlingServes(lm, cfg, s, w);
  }

  // ---- The environment does not take it away ----

  // Who is next stays next while the queue only changes behind it or loses others before it.
  lemma NextStays(cfg: Config, s: State, s': State, w: Id, c: nat, c': nat)
    requires NextAt(cfg, s, w, c) && s'.m == s.m && w in s'.seqs && s'.seqs[w].req == s.seqs[w].req
    requires c' < |s'.waiting| && s'.waiting[c'] == w && (cfg.memoryFit || c' == 0)
    requires forall j :: 0 <= j < c' ==> s'.waiting[j] in s.waiting[..c]
    requires forall i :: 0 <= i < c ==> Get(s', s.waiting[i]).req == Get(s, s.waiting[i]).req
    ensures NextAt(cfg, s', w, c')
  {
    hide Fits, AdmitsWhenIdle;
    FitsByRequest(cfg, s.m, s.seqs[w], s'.seqs[w]);
    forall j | 0 <= j < c' ensures !Fits(cfg, s'.m, Get(s', s'.waiting[j])) {
      var i :| 0 <= i < c && s.waiting[..c][i] == s'.waiting[j];
      FitsByRequest(cfg, s.m, Get(s, s.waiting[i]), Get(s', s.waiting[i]));
    }
  }

  lemma SubmitServes(lm: Lm, cfg: Config, s: State, id: Id, req: Request, w: Id)
    requires StateInv(lm, cfg, s) && Due(cfg, s, w)
    ensures Served(cfg, s, StepSubmit(cfg, s, id, req), w)
  {
    hide Core, Shape, NeedTokens, BlocksNeeded, NextAt, NoDup;
    var s' := StepSubmit(cfg, s, id, req);
    if s' != s && s.pc.Dropping? && AtHead(cfg, s, w, s.pc.kept + s.pc.todo) {
      var c: nat :| NextAt(cfg, s, w, c);
      NextIsWaiting(cfg, s, w, c);
      Waiters(cfg, s, Hands(s));
      assert forall j :: 0 <= j < c ==> s'.waiting[j] == s.waiting[..c][j];
      NextStays(cfg, s, s', w, c, c);
    }
  }

  lemma NextIsWaiting(cfg: Config, s: State, w: Id, c: nat)
    requires NextAt(cfg, s, w, c)
    ensures c < |s.waiting| && s.waiting[c] == w && (cfg.memoryFit || c == 0) && w in s.seqs
  {
  }

  lemma FlagServes(cfg: Config, s: State, id: Id, w: Id)
    requires Due(cfg, s, w)
    ensures Served(cfg, s, StepRequestAbort(s, id), w)
  {
    hide AtHead;
    if s.pc.Dropping? && AtHead(cfg, s, w, s.pc.kept + s.pc.todo) {
      FlagKeepsHead(cfg, s, id, w, s.pc.kept + s.pc.todo);
    }
  }

  lemma FlagKeepsHead(cfg: Config, s: State, id: Id, w: Id, hands: seq<Id>)
    requires AtHead(cfg, s, w, hands)
    ensures AtHead(cfg, StepRequestAbort(s, id), w, hands)
  {
    hide NextAt;
    var c: nat :| NextAt(cfg, s, w, c);
    NextIsWaiting(cfg, s, w, c);
    assert forall j :: 0 <= j < c ==> s.waiting[j] == s.waiting[..c][j];
    NextStays(cfg, s, StepRequestAbort(s, id), w, c, c);
  }

  lemma AdminAbortServes(lm: Lm, cfg: Config, s: State, id: Id, w: Id)
    requires StateInv(lm, cfg, s) && Due(cfg, s, w)
    ensures Served(cfg, s, StepAdminAbort(cfg, s, id), w)
  {
    hide Core, EndAs, Shape, NoDup, StepRequestAbort, NextAt;
    var i := IndexOf(s.waiting, id);
    if i < |s.waiting| {
      var s' := StepAdminAbort(cfg, s, id);
      WaiterIsLive(lm, cfg, s, Hands(s), id);
      EndedAs(cfg, s.m, s.seqs[id], Aborted);
      WaiterHoldsNothing(lm, cfg, s, id);
      if w != id && s.pc.Dropping? && AtHead(cfg, s, w, s.pc.kept + s.pc.todo) {
        var c: nat :| NextAt(cfg, s, w, c);
        NextIsWaiting(cfg, s, w, c);
        Waiters(cfg, s, Hands(s));
        NextSurvives(cfg, s, s', w, c, i);
      }
    } else {
      FlagServes(cfg, s, id, w);
    }
  }

  lemma NextSurvives(cfg: Config, s: State, s': State, w: Id, c: nat, i: nat)
    requires NextAt(cfg, s, w, c) && i < |s.waiting| && i != c && s'.m == s.m && s'.waiting == Rest(s.waiting, i)
    requires forall j :: 0 <= j < |s.waiting| ==> Get(s', s.waiting[j]).req == Get(s, s.waiting[j]).req
    requires w in s'.seqs && s'.seqs[w].req == s.seqs[w].req
    ensures NextAt(cfg, s', w, if i < c then c - 1 else c)
  {
    hide Fits, AdmitsWhenIdle;
    var c' := if i < c then c - 1 else c;
    forall j | 0 <= j < c' ensures s'.waiting[j] in s.waiting[..c] {
      assert s.waiting[..c][if j < i then j else j + 1] == s'.waiting[j];
    }
    NextStays(cfg, s, s', w, c, c');
  }

  lemma NextServes(lm: Lm, cfg: Config, s: State, e: Event, w: Id)
    requires StateInv(lm, cfg, s) && Due(cfg, s, w)
    ensures Served(cfg, s, Next(lm, cfg, s, e), w)
  {
    hide StateInv, WorkStep, StepSubmit, StepRequestAbort, StepAdminAbort, Served, NextAt;
    match e
    case Submit(id, req) => SubmitServes(lm, cfg, s, id, req, w);
    case RequestAbort(id) => FlagServes(cfg, s, id, w);
    case AdminAbort(id) => AdminAbortServes(lm, cfg, s, id, w);
    case RequestStop => StopServes(cfg, s, w);
    case Work(now, fails, sampleFails) => WorkServes(lm, cfg, s, w, now, fails, sampleFails);
  }

  lemma StopServes(cfg: Config, s: State, w: Id)
    requires Due(cfg, s, w)
    ensures Served(cfg, s, SetEvent(s.(stop := true)), w)
  {
    hide NextAt;
    if s.pc.Dropping? && AtHead(cfg, s, w, s.pc.kept + s.pc.todo) {
      var c: nat :| NextAt(cfg, s, w, c);
      SameQueue(cfg, s, SetEvent(s.(stop := true)), w, c);
    }
  }
}
