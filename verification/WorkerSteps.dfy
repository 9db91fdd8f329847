// Every step of the worker and of its environment keeps the invariant.
module WorkerSteps {
  import opened Common
  import opened KvCache
  import opened LanguageModel
  import opened Engines
  import opened Generation
  import opened Sequences
  import opened BlockPool
  import opened PrefixCache
  import opened PrefixLaws
  import opened PrefixOps
  import opened Scheduler
  import opened Lifecycle
  import opened Worker
  import opened WorkerCore
  import opened WorkerRecords
  import opened WorkerInvariant

  // ---- Dropping, settling: walks that end the flagged ones ----

  lemma DroppingWalkKeeps(lm: Lm, cfg: Config, s: State, now: int)
    requires StateInv(lm, cfg, s) && s.pc.Dropping? && s.pc.todo != []
    ensures StateInv(lm, cfg, StepDropping(cfg, s, now))
  {
    hide Core, EndAs, Lists, NoDup, AbortId;
    var todo, kept := s.pc.todo, s.pc.kept;
    HandsDisjoint(cfg, s, kept + todo);
    Walk(kept, todo);
    if WantsAbort(s.seqs[todo[0]]) {
      var s1 := AbortId(cfg, s, todo[0]);
      AbortInWalk(lm, cfg, s, kept, todo);
      Frame(s, s1, todo[0], kept + todo, kept + todo[1..]);
      AtDropping(lm, cfg, s1, todo[1..], kept);
    } else {
      AtDropping(lm, cfg, s, todo[1..], kept + [todo[0]]);
    }
  }

  lemma SettlingWalkKeeps(lm: Lm, cfg: Config, s: State)
    requires CoreOf(lm, cfg, s) && Lists(cfg, s, Hands(s)) && Shape(lm, s)
    requires s.pc.Settling? && s.pc.todo != []
    ensures StateInv(lm, cfg, StepSettling(cfg, s))
  {
    hide CoreOf, EndAs, Lists, NoDup, AbortId, StateInv;
    var todo, still := s.pc.todo, s.pc.still;
    TailIn(todo);
    HandsDisjoint(cfg, s, still + todo);
    Walk(still, todo);
    if Terminal(s.seqs[todo[0]].status) {
      ListsDrop(cfg, s, still + todo, |still|);
      AtSettling(lm, cfg, s, todo[1..], still);
    } else if WantsAbort(s.seqs[todo[0]]) {
      var s1 := AbortId(cfg, s, todo[0]);
      AbortInWalk(lm, cfg, s, still, todo);
      Frame(s, s1, todo[0], todo, todo[1..]);
      Frame(s, s1, todo[0], still, still);
      AtSettling(lm, cfg, s1, todo[1..], still);
    } else {
      AtSettling(lm, cfg, s, todo[1..], still + [todo[0]]);
    }
  }

  lemma SettlingDoneKeeps(lm: Lm, cfg: Config, s: State)
    requires StateInv(lm, cfg, s) && s.pc.Settling? && s.pc.todo == []
    ensures StateInv(lm, cfg, StepSettling(cfg, s))
  {
    hide Core, Lists, NoDup;
    assert s.pc.still + s.pc.todo == s.pc.still;
    AtTop(lm, cfg, s, s.pc.still);
  }

  // ---- Prefill of the admitted ----

  lemma PrefillsWalkKeeps(lm: Lm, cfg: Config, s: State)
    requires CoreOf(lm, cfg, s) && Lists(cfg, s, Hands(s)) && Shape(lm, s)
    requires s.pc.Prefills? && s.pc.todo != []
    ensures StateInv(lm, cfg, StepPrefills(cfg, s))
  {
    hide CoreOf, EndAs, Lists, NoDup, AbortId, StateInv;
    var todo, running := s.pc.todo, s.running;
    TailIn(todo);
    if WantsAbort(s.seqs[todo[0]]) {
      var s1 := AbortId(cfg, s, todo[0]);
      AbortInWalk(lm, cfg, s, running, todo);
      Frame(s, s1, todo[0], todo, todo[1..]);
      Frame(s, s1, todo[0], running, running);
      AtPrefills(lm, cfg, s1, running, todo[1..]);
    } else {
      AtInPrefill(lm, cfg, s, todo[0], todo[1..]);
    }
  }

  lemma AtInPrefill(lm: Lm, cfg: Config, s: State, id: Id, todo: seq<Id>)
    requires CoreOf(lm, cfg, s) && Lists(cfg, s, s.running + ([id] + todo))
    requires AllDecoding(s, s.running) && AllAdmitted(s, [id] + todo)
    ensures StateInv(lm, cfg, s.(pc := InPrefill(id, todo)))
  {
    hide Core, NoDup;
  }

  lemma PrefillsDoneKeeps(lm: Lm, cfg: Config, s: State)
    requires StateInv(lm, cfg, s) && s.pc.Prefills? && s.pc.todo == []
    ensures StateInv(lm, cfg, StepPrefills(cfg, s))
  {
    hide Core, Lists, NoDup;
    assert s.running + s.pc.todo == s.running;
    if s.running == [] {
      AtTop(lm, cfg, s, s.running);
    } else {
      HandsDisjoint(cfg, s, s.running);
      AtSweeping(lm, cfg, s, s.running);
    }
  }

  // The sequence being prefilled ends here: whatever end it is, it leaves the hands.
  lemma LeavesPrefill(lm: Lm, cfg: Config, s: State, s1: State, id: Id, todo: seq<Id>)
    requires Lists(cfg, s, s.running + ([id] + todo)) && SameExcept(s, s1, id)
    requires s1.event == s.event && s1.submitted == s.submitted && s1.running == s.running && id !in s.waiting
    requires id in s.seqs && Terminal(s1.seqs[id].status) && CoreOf(lm, cfg, s1)
    requires !Terminal(s.seqs[id].status) && AllDecoding(s, s.running) && AllAdmitted(s, [id] + todo)
    ensures StateInv(lm, cfg, s1.(pc := Prefills(todo)))
  {
    hide Lists, NoDup, CoreOf, StateInv;
    var hands := s.running + ([id] + todo);
    HandsDisjoint(cfg, s, hands);
    Walk(s.running, [id] + todo);
    assert ([id] + todo)[1..] == todo;
    EndsKeepLists(cfg, s, s1, id, hands);
    ListsDrop(cfg, s1, hands, |s.running|);
    Frame(s, s1, id, s.running, s.running);
    Frame(s, s1, id, [id] + todo, todo);
    AtPrefills(lm, cfg, s1, s.running, todo);
  }

  lemma EndsKeepLists(cfg: Config, s: State, s': State, id: Id, hands: seq<Id>)
    requires Lists(cfg, s, hands) && SameExcept(s, s', id) && s'.event == s.event && s'.submitted == s.submitted
    requires id in s.seqs && !Terminal(s.seqs[id].status) && id !in s.waiting
    ensures Lists(cfg, s', hands)
  {
    hide NoDup;
    ListsKeep(cfg, s, s', hands);
  }

  lemma InPrefillKeeps(lm: Lm, cfg: Config, s: State, now: int, fails: bool, sampleFails: bool)
    requires CoreOf(lm, cfg, s) && Lists(cfg, s, Hands(s)) && Shape(lm, s) && s.pc.InPrefill?
    ensures StateInv(lm, cfg, StepInPrefill(lm, cfg, s, now, fails, sampleFails))
  {
    hide EndAs, Lists, PrefillWithReuse, NoDup, NoteToken, AbortId, CoreOf, StateInv;
    var id, todo := s.pc.id, s.pc.todo;
    TailIn([id] + todo);
    if WantsAbort(s.seqs[id]) {
      AbortKeeps(lm, cfg, s, id, s.running + ([id] + todo));
      LeavesPrefill(lm, cfg, s, AbortId(cfg, s, id), id, todo);
    } else {
      PrefillOneKeeps(lm, cfg, s, now, fails, sampleFails);
    }
  }

  lemma PrefillOneKeeps(lm: Lm, cfg: Config, s: State, now: int, fails: bool, sampleFails: bool)
    requires CoreOf(lm, cfg, s) && Lists(cfg, s, Hands(s)) && Shape(lm, s) && s.pc.InPrefill?
    requires s.pc.id in s.seqs && !WantsAbort(s.seqs[s.pc.id])
    ensures StateInv(lm, cfg, StepInPrefill(lm, cfg, s, now, fails, sampleFails))
  {
    hide Core, EndAs, Lists, PrefillWithReuse, NoDup, NoteToken, StateInv;
    var id, todo := s.pc.id, s.pc.todo;
    TailIn([id] + todo);
    CoreAt(lm, cfg, s.m, s.waiting, s.seqs, id);
    var p := PrefillWithReuse(lm, cfg, s.m, s.seqs[id].(status := Prefilling), now, fails);
    if p.out.Err? || sampleFails {
      PrefillFailsCore(lm, cfg, s.m, s.waiting, s.seqs, id, now, fails);
      LeavesPrefill(lm, cfg, s, Put(s, FailOne(cfg, p.m, p.q)), id, todo);
    } else {
      SampledCore(lm, cfg, s.m, s.waiting, s.seqs, id, now, fails);
      var noted := NoteToken(p.q, Argmax(p.out.value.logits)).(kv := Some(p.out.value.cache));
      AtSampled(lm, cfg, s, Put(s, (p.m, noted)), id, todo);
    }
  }

  lemma AtSampled(lm: Lm, cfg: Config, s: State, s1: State, id: Id, todo: seq<Id>)
    requires Lists(cfg, s, s.running + ([id] + todo)) && SameExcept(s, s1, id)
    requires s1.event == s.event && s1.submitted == s.submitted && s1.running == s.running
    requires id in s.seqs && !Terminal(s.seqs[id].status) && s1.seqs[id].status.Prefilling? && CoreOf(lm, cfg, s1)
    requires AllDecoding(s, s.running) && AllAdmitted(s, [id] + todo)
    ensures StateInv(lm, cfg, s1.(pc := Sampled(id, todo)))
  {
    hide CoreOf, Lists, NoDup, StateInv;
    var hands := s.running + ([id] + todo);
    TailIn([id] + todo);
    HandsDisjoint(cfg, s, hands);
    Walk(s.running, [id] + todo);
    assert ([id] + todo)[1..] == todo;
    EndsKeepLists(cfg, s, s1, id, hands);
    Frame(s, s1, id, s.running, s.running);
    Frame(s, s1, id, [id] + todo, todo);
    ArriveSampled(lm, cfg, s1, id, todo);
  }

  lemma ArriveSampled(lm: Lm, cfg: Config, s: State, id: Id, todo: seq<Id>)
    requires CoreOf(lm, cfg, s) && Lists(cfg, s, s.running + ([id] + todo)) && AllDecoding(s, s.running)
    requires id in s.seqs && s.seqs[id].status.Prefilling? && AllAdmitted(s, todo)
    ensures StateInv(lm, cfg, s.(pc := Sampled(id, todo)))
  {
    hide Core, NoDup;
  }

  lemma SampledKeeps(lm: Lm, cfg: Config, s: State)
    requires CoreOf(lm, cfg, s) && Lists(cfg, s, Hands(s)) && Shape(lm, s) && s.pc.Sampled?
    ensures StateInv(lm, cfg, StepSampled(cfg, s))
  {
    hide EndAs, Lists, NoDup, FinishSequence, AbortId, StateInv, CoreOf;
    var id, todo := s.pc.id, s.pc.todo;
    var hands := s.running + ([id] + todo);
    SampledOwns(lm, cfg, s);
    if WantsAbort(s.seqs[id]) {
      AbortKeeps(lm, cfg, s, id, hands);
      LeavesSampled(lm, cfg, s, AbortId(cfg, s, id));
    } else {
      AfterFirstToken(lm, cfg, s);
    }
  }

  lemma SampledOwns(lm: Lm, cfg: Config, s: State)
    requires Lists(cfg, s, Hands(s)) && Shape(lm, s) && s.pc.Sampled?
    ensures s.pc.id !in s.waiting && s.pc.id !in s.running && s.pc.id !in s.pc.todo && NoDup(Hands(s))
  {
    hide NoDup, Lists;
    HandsDisjoint(cfg, s, Hands(s));
    Walk(s.running, [s.pc.id] + s.pc.todo);
    assert ([s.pc.id] + s.pc.todo)[1..] == s.pc.todo;
    TailIn([s.pc.id] + s.pc.todo);
  }

  lemma LeavesSampled(lm: Lm, cfg: Config, s: State, s1: State)
    requires Lists(cfg, s, Hands(s)) && Shape(lm, s) && s.pc.Sampled? && SameExcept(s, s1, s.pc.id)
    requires s1.event == s.event && s1.submitted == s.submitted && s1.running == s.running && s.pc.id !in s.waiting
    requires Terminal(s1.seqs[s.pc.id].status) && CoreOf(lm, cfg, s1)
    ensures StateInv(lm, cfg, s1.(pc := Prefills(s.pc.todo)))
  {
    hide Lists, NoDup, CoreOf, StateInv;
    var id, todo := s.pc.id, s.pc.todo;
    var hands := s.running + ([id] + todo);
    SampledOwns(lm, cfg, s);
    Walk(s.running, [id] + todo);
    assert ([id] + todo)[1..] == todo;
    EndsKeepLists(cfg, s, s1, id, hands);
    ListsDrop(cfg, s1, hands, |s.running|);
    Frame(s, s1, id, s.running, s.running);
    Frame(s, s1, id, todo, todo);
    AtPrefills(lm, cfg, s1, s.running, todo);
  }

  lemma AfterFirstToken(lm: Lm, cfg: Config, s: State)
    requires CoreOf(lm, cfg, s) && Lists(cfg, s, Hands(s)) && Shape(lm, s) && s.pc.Sampled?
    requires !WantsAbort(s.seqs[s.pc.id])
    ensures StateInv(lm, cfg, StepSampled(cfg, s))
  {
    if s.seqs[s.pc.id].reason.Some? {
      FinishedByFirst(lm, cfg, s);
    } else {
      NotFinishedByFirst(lm, cfg, s);
    }
  }

  lemma FinishedByFirst(lm: Lm, cfg: Config, s: State)
    requires CoreOf(lm, cfg, s) && Lists(cfg, s, Hands(s)) && Shape(lm, s) && s.pc.Sampled?
    requires !WantsAbort(s.seqs[s.pc.id]) && s.seqs[s.pc.id].reason.Some?
    ensures StateInv(lm, cfg, StepSampled(cfg, s))
  {
    hide Core, Lists, NoDup, FinishSequence, StateInv, AllDecoding, AllAdmitted, Progress, Admitted;
    var id := s.pc.id;
    SampledOwns(lm, cfg, s);
    CoreAt(lm, cfg, s.m, s.waiting, s.seqs, id);
    FinishCore(lm, cfg, s.m, s.waiting, s.seqs, s.seqs[id]);
    LeavesSampled(lm, cfg, s, Put(s, FinishSequence(cfg, s.m, s.seqs[id])));
  }

  lemma NotFinishedByFirst(lm: Lm, cfg: Config, s: State)
    requires CoreOf(lm, cfg, s) && Lists(cfg, s, Hands(s)) && Shape(lm, s) && s.pc.Sampled?
    requires !WantsAbort(s.seqs[s.pc.id]) && s.seqs[s.pc.id].reason.None?
    ensures StateInv(lm, cfg, StepSampled(cfg, s))
  {
    hide Core, Lists, NoDup, StateInv, AllDecoding, AllAdmitted, SeqOk;
    var id := s.pc.id;
    SampledOwns(lm, cfg, s);
    CoreAt(lm, cfg, s.m, s.waiting, s.seqs, id);
    JoinCore(lm, cfg, s.m, s.waiting, s.seqs, id);
    JoinsRunning(lm, cfg, s, Put(s, (s.m, s.seqs[id].(status := Decoding))));
  }

  lemma JoinsRunning(lm: Lm, cfg: Config, s: State, s1: State)
    requires Lists(cfg, s, Hands(s)) && Shape(lm, s) && s.pc.Sampled? && SameExcept(s, s1, s.pc.id)
    requires s1.event == s.event && s1.submitted == s.submitted
    requires s1.seqs[s.pc.id].status.Decoding? && CoreOf(lm, cfg, s1)
    ensures StateInv(lm, cfg, s1.(running := s.running + [s.pc.id], pc := Prefills(s.pc.todo)))
  {
    hide Lists, NoDup, CoreOf, StateInv;
    var id, todo := s.pc.id, s.pc.todo;
    SampledOwns(lm, cfg, s);
    EndsKeepLists(cfg, s, s1, id, Hands(s));
    assert (s.running + [id]) + todo == Hands(s);
    Frame(s, s1, id, s.running, s.running);
    Frame(s, s1, id, todo, todo);
    AtPrefills(lm, cfg, s1, s.running + [id], todo);
  }

  // ---- One decode step ----

  lemma SweepingKeeps(lm: Lm, cfg: Config, s: State)
    requires CoreOf(lm, cfg, s) && Lists(cfg, s, s.running) && Shape(lm, s) && s.pc.Sweeping?
    ensures StateInv(lm, cfg, StepSweeping(cfg, s))
  {
    hide CoreOf, Lists, NoDup, AbortId, StateInv, Among;
    var todo := s.pc.todo;
    HandsDisjoint(cfg, s, s.running);
    if todo == [] {
      AllAmong(s.running);
      AtCollecting(lm, cfg, s, s.running, []);
    } else {
      AmongTail(todo, s.running);
      if WantsAbort(s.seqs[todo[0]]) {
        var s1 := AbortId(cfg, s, todo[0]);
        AbortKeeps(lm, cfg, s, todo[0], s.running);
        Frame(s, s1, todo[0], todo, todo[1..]);
        FrameRun(s, s1, todo[0], s.running);
        AtSweeping(lm, cfg, s1, todo[1..]);
      } else {
        AtSweeping(lm, cfg, s, todo[1..]);
      }
    }
  }

  lemma AllAmong(ids: seq<Id>)
    requires NoDup(ids)
    ensures Among([] + ids, ids)
  {
    assert [] + ids == ids;
  }

  lemma CollectingWalkKeeps(lm: Lm, cfg: Config, s: State, fails: bool)
    requires CoreOf(lm, cfg, s) && Lists(cfg, s, s.running) && Shape(lm, s) && s.pc.Collecting? && s.pc.todo != []
    ensures StateInv(lm, cfg, StepCollecting(lm, cfg, s, fails))
  {
    hide CoreOf, Lists, NoDup, StateInv;
    var todo, live := s.pc.todo, s.pc.live;
    Walk(live, todo);
    TailIn(todo);
    var q := s.seqs[todo[0]];
    if q.status.Decoding? && q.lastToken.Some? && !WantsAbort(q) {
      AtCollecting(lm, cfg, s, todo[1..], live + [todo[0]]);
    } else {
      AtCollecting(lm, cfg, s, todo[1..], live);
    }
  }

  lemma LiveShaped(lm: Lm, cfg: Config, s: State, live: seq<Id>)
    requires CoreOf(lm, cfg, s) && AllDecoding(s, live)
    ensures AllShaped(lm, LiveCaches(s, live)) && |LiveTokens(s, live)| == |LiveCaches(s, live)| == |live|
    ensures DecodeLive(lm, s, live) == DecodeBatch(lm, LiveTokens(s, live), LiveCaches(s, live))
  {
    hide Core, DecodeBatch;
    forall id | id in live ensures HasDecodeState(Get(s, id)) { LiveDecodes(lm, cfg, s, id); }
    forall r | 0 <= r < |live| ensures Shaped(lm, LiveCaches(s, live)[r], SeqLen(LiveCaches(s, live)[r])) {
      LiveDecodes(lm, cfg, s, live[r]);
    }
  }

  lemma LiveRow(lm: Lm, cfg: Config, s: State, live: seq<Id>, r: nat)
    requires CoreOf(lm, cfg, s) && AllDecoding(s, live) && r < |live|
    ensures var b := DecodeLive(lm, s, live);
      && b.Ok? && |b.value.logits| == |b.value.caches| == |live|
      && RowTrue(lm, s.seqs[live[r]], b.value.logits[r], b.value.caches[r])
  {
    hide Core, DecodeBatch, DecodeLive, Decode;
    LiveShaped(lm, cfg, s, live);
    LiveDecodes(lm, cfg, s, live[r]);
    BatchedDecodeIsSoloDecode(lm, LiveTokens(s, live), LiveCaches(s, live), r);
  }

  // What the batch holds for every row is what decoding that sequence alone would give.
  lemma DecodeLiveTrue(lm: Lm, cfg: Config, s: State, live: seq<Id>)
    requires CoreOf(lm, cfg, s) && AllDecoding(s, live) && live != []
    ensures DecodeLive(lm, s, live).Ok? && RowsTrue(lm, s, live, 0, DecodeLive(lm, s, live).value)
  {
    hide Core, DecodeLive, RowTrue;
    LiveRow(lm, cfg, s, live, 0);
    var b := DecodeLive(lm, s, live).value;
    forall r | 0 <= r < |live| ensures RowTrue(lm, s.seqs[live[r]], b.logits[r], b.caches[r]) {
      LiveRow(lm, cfg, s, live, r);
    }
  }

  ghost predicate DecodesFrom(lm: Lm, s: State, id: Id) {
    && id in s.seqs && s.seqs[id].status.Decoding? && s.seqs[id].kv.Some? && s.seqs[id].lastToken.Some?
    && Shaped(lm, s.seqs[id].kv.value, SeqLen(s.seqs[id].kv.value))
  }

  lemma LiveDecodes(lm: Lm, cfg: Config, s: State, id: Id)
    requires CoreOf(lm, cfg, s) && id in s.seqs && s.seqs[id].status.Decoding?
    ensures DecodesFrom(lm, s, id)
  {
    hide Core, Greedy, Admitted;
    CoreAt(lm, cfg, s.m, s.waiting, s.seqs, id);
  }

  lemma CollectingDoneKeeps(lm: Lm, cfg: Config, s: State, fails: bool)
    requires CoreOf(lm, cfg, s) && Lists(cfg, s, s.running) && Shape(lm, s) && s.pc.Collecting? && s.pc.todo == []
    ensures StateInv(lm, cfg, StepCollecting(lm, cfg, s, fails))
  {
    hide CoreOf, Lists, NoDup, StateInv, DecodeLive, RowsTrue;
    var live := s.pc.live;
    assert live + s.pc.todo == live;
    if live == [] {
      assert [] + s.running == s.running;
      AtSettling(lm, cfg, s, s.running, []);
    } else {
      DecodeLiveTrue(lm, cfg, s, live);
      if fails {
        AtFailing(lm, cfg, s, live);
      } else {
        AtRows(lm, cfg, s, live, 0, DecodeLive(lm, s, live).value);
      }
    }
  }

  // What the rest of the batch waits for does not depend on the row just handled.
  lemma RowsFrame(lm: Lm, s: State, s1: State, live: seq<Id>, row: nat, out: BatchOutput)
    requires NoDup(live) && RowsTrue(lm, s, live, row, out) && row < |live| && SameExcept(s, s1, live[row])
    ensures RowsTrue(lm, s1, live, row + 1, out)
  {
    hide RowTrue;
  }

  lemma RowsDoneKeeps(lm: Lm, cfg: Config, s: State)
    requires CoreOf(lm, cfg, s) && Lists(cfg, s, s.running) && AllRun(s, s.running)
    ensures StateInv(lm, cfg, s.(pc := Settling(s.running, [])))
  {
    hide CoreOf, Lists, NoDup, StateInv;
    assert [] + s.running == s.running;
    AtSettling(lm, cfg, s, s.running, []);
  }

  lemma RowsKeeps(lm: Lm, cfg: Config, s: State)
    requires CoreOf(lm, cfg, s) && Lists(cfg, s, s.running) && Shape(lm, s) && s.pc.Rows?
    ensures StateInv(lm, cfg, StepRows(cfg, s))
  {
    hide CoreOf, Lists, NoDup, StateInv, AbortId, RowTrue, FinishSequence, NoteToken;
    var live, row, out := s.pc.live, s.pc.row, s.pc.out;
    if row == |live| {
      RowsDoneKeeps(lm, cfg, s);
    } else {
      var id := live[row];
      HandsDisjoint(cfg, s, s.running);
      var q := s.seqs[id];
      if WantsAbort(q) {
        AbortKeeps(lm, cfg, s, id, s.running);
        RowHandled(lm, cfg, s, AbortId(cfg, s, id));
      } else {
        var noted := NoteToken(q, Argmax(out.logits[row])).(kv := Some(out.caches[row]));
        var s1 := Put(s, if noted.reason.Some? then FinishSequence(cfg, s.m, noted) else (s.m, noted));
        RowNoted(lm, cfg, s);
        RowHandled(lm, cfg, s, s1);
      }
    }
  }

  // The next row's token is noted, and its sequence may be finished by it.
  lemma RowNoted(lm: Lm, cfg: Config, s: State)
    requires CoreOf(lm, cfg, s) && Lists(cfg, s, s.running) && Shape(lm, s) && s.pc.Rows? && s.pc.row < |s.pc.live|
    ensures var id := s.pc.live[s.pc.row];
      var noted := NoteToken(s.seqs[id], Argmax(s.pc.out.logits[s.pc.row])).(kv := Some(s.pc.out.caches[s.pc.row]));
      var s1 := Put(s, if noted.reason.Some? then FinishSequence(cfg, s.m, noted) else (s.m, noted));
      && CoreOf(lm, cfg, s1) && Lists(cfg, s1, s.running) && SameExcept(s, s1, id)
      && (s1.seqs[id].status.Finished? || s1.seqs[id].status.Decoding?)
  {
    hide Core, Lists, NoDup, RowTrue, FinishSequence, NoteToken;
    var id, row := s.pc.live[s.pc.row], s.pc.row;
    RowCore(lm, cfg, s.m, s.waiting, s.seqs, id, s.pc.out.logits[row], s.pc.out.caches[row]);
    HandsDisjoint(cfg, s, s.running);
    var noted := NoteToken(s.seqs[id], Argmax(s.pc.out.logits[row])).(kv := Some(s.pc.out.caches[row]));
    var after := Put(s, if noted.reason.Some? then FinishSequence(cfg, s.m, noted) else (s.m, noted));
    EndsKeepLists(cfg, s, after, id, s.running);
  }

  lemma RowHandled(lm: Lm, cfg: Config, s: State, s1: State)
    requires Shape(lm, s) && s.pc.Rows? && s.pc.row < |s.pc.live| && SameExcept(s, s1, s.pc.live[s.pc.row])
    requires CoreOf(lm, cfg, s1) && Lists(cfg, s1, s.running) && s1.running == s.running
    requires var q := s1.seqs[s.pc.live[s.pc.row]]; Terminal(q.status) || q.status.Decoding?
    ensures StateInv(lm, cfg, s1.(pc := Rows(s.pc.live, s.pc.row + 1, s.pc.out)))
  {
    hide CoreOf, Lists, NoDup, StateInv, RowTrue;
    FrameRun(s, s1, s.pc.live[s.pc.row], s.running);
    RowsFrame(lm, s, s1, s.pc.live, s.pc.row, s.pc.out);
    AtRows(lm, cfg, s1, s.pc.live, s.pc.row + 1, s.pc.out);
  }

  lemma FailingKeeps(lm: Lm, cfg: Config, s: State)
    requires CoreOf(lm, cfg, s) && Lists(cfg, s, s.running) && Shape(lm, s) && s.pc.Failing?
    ensures StateInv(lm, cfg, StepFailing(cfg, s))
  {
    hide Core, Lists, NoDup, StateInv, EndAs, Among;
    var todo := s.pc.todo;
    if todo == [] {
      RowsDoneKeeps(lm, cfg, s);
    } else {
      var id := todo[0];
      AmongTail(todo, s.running);
      HandsDisjoint(cfg, s, s.running);
      CoreAt(lm, cfg, s.m, s.waiting, s.seqs, id);
      AbortCore(lm, cfg, s.m, s.waiting, s.waiting, s.seqs, id, Errored);
      var s1 := Put(s, FailOne(cfg, s.m, s.seqs[id]));
      EndsKeepLists(cfg, s, s1, id, s.running);
      Frame(s, s1, id, todo, todo[1..]);
      FrameRun(s, s1, id, s.running);
      AtFailing(lm, cfg, s1, todo[1..]);
    }
  }
}
