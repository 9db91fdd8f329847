// The inductive invariant of the worker: every live sequence is in exactly one of the waiting
// queue and the worker's hands, and the program counter says what state those are in.
module WorkerInvariant {
  import opened Common
  import opened KvCache
  import opened LanguageModel
  import opened Engines
  import opened Generation
  import opened Sequences
  import opened BlockPool
  import opened PrefixCache
  import opened PrefixLaws
  import opened PrefixOps
  import opened Scheduler
  import opened Lifecycle
  import opened Worker
  import opened WorkerCore
  import opened WorkerRecords

  // The sequences the current iteration may still have to deal with.
  function Hands(s: State): seq<Id> {
    match s.pc
    case Dropping(todo, kept) => kept + todo
    case Prefills(todo) => s.running + todo
    case InPrefill(id, todo) => s.running + ([id] + todo)
    case Sampled(id, todo) => s.running + ([id] + todo)
    case Settling(todo, still) => still + todo
    case Stopped => []
    case _ => s.running
  }

  ghost predicate AllDecoding(s: State, ids: seq<Id>) {
    forall id :: id in ids ==> id in s.seqs && s.seqs[id].status.Decoding?
  }

  ghost predicate AllAdmitted(s: State, ids: seq<Id>) {
    forall id :: id in ids ==> id in s.seqs && s.seqs[id].status.Waiting? && id !in s.waiting
  }

  ghost predicate AllRun(s: State, ids: seq<Id>) {
    forall id :: id in ids ==> id in s.seqs && (s.seqs[id].status.Decoding? || Terminal(s.seqs[id].status))
  }

  ghost predicate Among(ids: seq<Id>, all: seq<Id>) {
    NoDup(ids) && forall id :: id in ids ==> id in all
  }

  ghost predicate RowsTrue(lm: Lm, s: State, live: seq<Id>, row: nat, out: BatchOutput) {
    && row <= |live| == |out.logits| == |out.caches|
    && forall r :: row <= r < |live| ==>
      live[r] in s.seqs && s.seqs[live[r]].status.Decoding? &&
        RowTrue(lm, s.seqs[live[r]], out.logits[r], out.caches[r])
  }

  ghost predicate Shape(lm: Lm, s: State) {
    match s.pc
    case Top => AllDecoding(s, s.running)
    case Blocked(woken) => s.running == [] && (!woken ==> s.waiting == [] && !s.stop && !s.event)
    case Dropping(todo, kept) => AllDecoding(s, kept + todo)
    case Prefills(todo) => AllDecoding(s, s.running) && AllAdmitted(s, todo)
    case InPrefill(id, todo) => AllDecoding(s, s.running) && AllAdmitted(s, [id] + todo)
    case Sampled(id, todo) =>
      AllDecoding(s, s.running) && id in s.seqs && s.seqs[id].status.Prefilling? && AllAdmitted(s, todo)
    case Sweeping(todo) => AllRun(s, s.running) && AllDecoding(s, todo) && Among(todo, s.running)
    case Collecting(todo, live) => AllRun(s, s.running) && AllDecoding(s, live) && Among(live + todo, s.running)
    case Rows(live, row, out) => AllRun(s, s.running) && Among(live, s.running) && RowsTrue(lm, s, live, row, out)
    case Failing(todo) => AllRun(s, s.running) && AllDecoding(s, todo) && Among(todo, s.running)
    case Settling(todo, still) => AllDecoding(s, still) && AllRun(s, todo)
    case Stopped => s.running == []
  }

  ghost predicate Lists(cfg: Config, s: State, hands: seq<Id>) {
    && NoDup(s.waiting + hands)
    && (forall id :: id in s.waiting ==> id in s.seqs && s.seqs[id].status.Waiting?)
    && (forall id :: id in s.seqs && !Terminal(s.seqs[id].status) ==> id in s.waiting || id in hands)
    && |hands| <= cfg.maxBatch && |s.waiting| <= cfg.maxWaiting
    && (s.waiting != [] ==> s.event)
    && NoDup(s.submitted) && (forall id :: id in s.submitted <==> id in s.seqs)
  }

  ghost predicate CoreOf(lm: Lm, cfg: Config, s: State) {
    Core(lm, cfg, s.m, s.waiting, s.seqs)
  }

  ghost predicate StateInv(lm: Lm, cfg: Config, s: State) {
    CoreOf(lm, cfg, s) && Lists(cfg, s, Hands(s)) && Shape(lm, s)
  }

  // ---- List bookkeeping ----

  lemma Removed(ids: seq<Id>, i: nat)
    requires NoDup(ids) && i < |ids|
    ensures NoDup(ids[..i] + ids[i + 1..])
    ensures forall x :: x in ids[..i] + ids[i + 1..] <==> x in ids && x != ids[i]
  {
    var rest := ids[..i] + ids[i + 1..];
    assert forall j :: 0 <= j < |rest| ==> rest[j] == ids[if j < i then j else j + 1];
    forall x | x in ids && x != ids[i] ensures x in rest {
      var k :| 0 <= k < |ids| && ids[k] == x;
      assert rest[if k < i then k else k - 1] == x;
    }
  }

  // Same queue, same ids, and nobody came back to life.
  ghost predicate OnlyEnds(s: State, s': State) {
    && s'.waiting == s.waiting && s'.event == s.event && s'.submitted == s.submitted
    && s'.seqs.Keys == s.seqs.Keys
    && (forall id :: id in s.seqs && Terminal(s.seqs[id].status) ==> Terminal(s'.seqs[id].status))
    && (forall id :: id in s.waiting ==> id in s.seqs && s'.seqs[id].status == s.seqs[id].status)
  }

  lemma ListsKeep(cfg: Config, s: State, s': State, hands: seq<Id>)
    requires Lists(cfg, s, hands) && OnlyEnds(s, s')
    ensures Lists(cfg, s', hands)
  {
  }

  // A terminal sequence may leave the worker's hands.
  lemma ListsDrop(cfg: Config, s: State, hands: seq<Id>, i: nat)
    requires Lists(cfg, s, hands) && i < |hands|
    requires hands[i] in s.seqs && Terminal(s.seqs[hands[i]].status)
    ensures Lists(cfg, s, hands[..i] + hands[i + 1..])
  {
    var all := s.waiting + hands;
    Removed(all, |s.waiting| + i);
    assert all[..|s.waiting| + i] + all[|s.waiting| + i + 1..] == s.waiting + (hands[..i] + hands[i + 1..]);
    NoDupConcat(s.waiting, hands);
    NoDupConcat(s.waiting, hands[..i] + hands[i + 1..]);
    Removed(hands, i);
  }

  lemma HandsDisjoint(cfg: Config, s: State, hands: seq<Id>)
    requires Lists(cfg, s, hands)
    ensures NoDup(s.waiting) && NoDup(hands) && forall id :: id in hands ==> id !in s.waiting
  {
    NoDupConcat(s.waiting, hands);
  }

  // ---- Walks ----

  // A walk with `kept` behind it and `todo` ahead: dropping or keeping the next one.
  lemma Walk(kept: seq<Id>, todo: seq<Id>)
    requires NoDup(kept + todo) && todo != []
    ensures kept + [todo[0]] + todo[1..] == kept + todo
    ensures (kept + todo)[..|kept|] + (kept + todo)[|kept| + 1..] == kept + todo[1..]
    ensures todo[0] in kept + todo && (kept + todo)[|kept|] == todo[0]
    ensures NoDup(kept + todo[1..]) && todo[0] !in kept && todo[0] !in todo[1..]
  {
    var all := kept + todo;
    assert all[|kept|] == todo[0];
    assert all[..|kept|] + all[|kept| + 1..] == kept + todo[1..];
    Removed(all, |kept|);
    assert forall x :: x in kept || x in todo[1..] ==> x in kept + todo[1..];
  }

  // Records other than `id` are the same in both states.
  ghost predicate SameExcept(s: State, s': State, id: Id) {
    && s'.waiting == s.waiting && s'.seqs.Keys == s.seqs.Keys
    && forall j :: j in s.seqs && j != id ==> s'.seqs[j] == s.seqs[j]
  }

  // ---- Ending one sequence at state level ----

  lemma AbortKeeps(lm: Lm, cfg: Config, s: State, id: Id, hands: seq<Id>)
    requires CoreOf(lm, cfg, s) && Lists(cfg, s, hands)
    requires id in s.seqs && !Terminal(s.seqs[id].status) && id !in s.waiting
    ensures var s' := AbortId(cfg, s, id);
      && CoreOf(lm, cfg, s') && Lists(cfg, s', hands) && SameExcept(s, s', id)
      && s' == s.(m := s'.m, seqs := s'.seqs) && s'.seqs[id].status.Aborted?
  {
    hide Core, EndAs, Lists;
    CoreAt(lm, cfg, s.m, s.waiting, s.seqs, id);
    AbortCore(lm, cfg, s.m, s.waiting, s.waiting, s.seqs, id, Aborted);
    WaitingAreListed(cfg, s, hands);
    ListsKeep(cfg, s, AbortId(cfg, s, id), hands);
  }

  lemma WaitingAreListed(cfg: Config, s: State, hands: seq<Id>)
    requires Lists(cfg, s, hands)
    ensures forall id :: id in s.waiting ==> id in s.seqs
  {
  }

  // The next one of a walk is aborted and leaves the hands.
  lemma AbortInWalk(lm: Lm, cfg: Config, s: State, kept: seq<Id>, todo: seq<Id>)
    requires CoreOf(lm, cfg, s) && Lists(cfg, s, kept + todo) && todo != []
    requires todo[0] in s.seqs && !Terminal(s.seqs[todo[0]].status)
    ensures var s' := AbortId(cfg, s, todo[0]);
      && CoreOf(lm, cfg, s') && Lists(cfg, s', kept + todo[1..]) && SameExcept(s, s', todo[0])
      && s' == s.(m := s'.m, seqs := s'.seqs) && s'.seqs[todo[0]].status.Aborted?
    ensures todo[0] !in kept && todo[0] !in todo[1..]
  {
    hide Core, EndAs, Lists, NoDup, CoreOf, AbortId;
    HandsDisjoint(cfg, s, kept + todo);
    Walk(kept, todo);
    AbortKeeps(lm, cfg, s, todo[0], kept + todo);
    ListsDrop(cfg, AbortId(cfg, s, todo[0]), kept + todo, |kept|);
  }

  // Lists does not look at the program counter or the running list.
  lemma ListsOf(cfg: Config, s: State, s': State, hands: seq<Id>)
    requires Lists(cfg, s, hands)
    requires s'.waiting == s.waiting && s'.event == s.event && s'.submitted == s.submitted && s'.seqs == s.seqs
    ensures Lists(cfg, s', hands)
  {
  }

  // ---- Frames ----

  lemma TailIn(ids: seq<Id>)
    requires ids != []
    ensures forall x :: x in ids[1..] ==> x in ids
    ensures ids[0] in ids && [ids[0]] + ids[1..] == ids
  {
  }

  // Whatever was decoding, running or admitted still is, unless it is the record that changed.
  lemma Frame(s: State, s': State, id: Id, ids: seq<Id>, fewer: seq<Id>)
    requires SameExcept(s, s', id) && forall x :: x in fewer ==> x in ids && x != id
    ensures AllDecoding(s, ids) ==> AllDecoding(s', fewer)
    ensures AllRun(s, ids) ==> AllRun(s', fewer)
    ensures AllAdmitted(s, ids) ==> AllAdmitted(s', fewer)
  {
  }

  // A record that ends stays within what a decode step allows the batch to contain.
  lemma FrameRun(s: State, s': State, id: Id, ids: seq<Id>)
    requires SameExcept(s, s', id) && AllRun(s, ids)
    requires id in s.seqs && (Terminal(s'.seqs[id].status) || s'.seqs[id].status.Decoding?)
    ensures AllRun(s', ids)
  {
  }

  // ---- Arriving at a program point ----

  lemma AtTop(lm: Lm, cfg: Config, s: State, running: seq<Id>)
    requires CoreOf(lm, cfg, s) && Lists(cfg, s, running) && AllDecoding(s, running)
    ensures StateInv(lm, cfg, s.(running := running, pc := Top))
  {
    hide Core;
  }

  lemma AtDropping(lm: Lm, cfg: Config, s: State, todo: seq<Id>, kept: seq<Id>)
    requires CoreOf(lm, cfg, s) && Lists(cfg, s, kept + todo) && AllDecoding(s, kept + todo)
    ensures StateInv(lm, cfg, s.(pc := Dropping(todo, kept)))
  {
    hide Core, NoDup;
  }

  lemma AtPrefills(lm: Lm, cfg: Config, s: State, running: seq<Id>, todo: seq<Id>)
    requires CoreOf(lm, cfg, s) && Lists(cfg, s, running + todo)
    requires AllDecoding(s, running) && AllAdmitted(s, todo)
    ensures StateInv(lm, cfg, s.(running := running, pc := Prefills(todo)))
  {
    hide Core, NoDup;
  }

  lemma AtSettling(lm: Lm, cfg: Config, s: State, todo: seq<Id>, still: seq<Id>)
    requires CoreOf(lm, cfg, s) && Lists(cfg, s, still + todo) && AllDecoding(s, still) && AllRun(s, todo)
    ensures StateInv(lm, cfg, s.(pc := Settling(todo, still)))
  {
    hide Core, NoDup;
  }

  lemma AtSweeping(lm: Lm, cfg: Config, s: State, todo: seq<Id>)
    requires CoreOf(lm, cfg, s) && Lists(cfg, s, s.running) && AllRun(s, s.running) && AllDecoding(s, todo)
    requires Among(todo, s.running)
    ensures StateInv(lm, cfg, s.(pc := Sweeping(todo)))
  {
    hide Core;
  }

  lemma AtCollecting(lm: Lm, cfg: Config, s: State, todo: seq<Id>, live: seq<Id>)
    requires CoreOf(lm, cfg, s) && Lists(cfg, s, s.running) && AllRun(s, s.running) && AllDecoding(s, live)
    requires Among(live + todo, s.running)
    ensures StateInv(lm, cfg, s.(pc := Collecting(todo, live)))
  {
    hide Core, Among, NoDup;
  }

  lemma AtRows(lm: Lm, cfg: Config, s: State, live: seq<Id>, row: nat, out: BatchOutput)
    requires CoreOf(lm, cfg, s) && Lists(cfg, s, s.running) && AllRun(s, s.running)
    requires Among(live, s.running) && RowsTrue(lm, s, live, row, out)
    ensures StateInv(lm, cfg, s.(pc := Rows(live, row, out)))
  {
    hide Core, Among, NoDup, RowTrue;
  }

  lemma AtFailing(lm: Lm, cfg: Config, s: State, todo: seq<Id>)
    requires CoreOf(lm, cfg, s) && Lists(cfg, s, s.running) && AllRun(s, s.running) && AllDecoding(s, todo)
    requires Among(todo, s.running)
    ensures StateInv(lm, cfg, s.(pc := Failing(todo)))
  {
    hide Core, Among, NoDup;
  }

  lemma AmongTail(ids: seq<Id>, all: seq<Id>)
    requires Among(ids, all) && ids != []
    ensures Among(ids[1..], all) && ids[0] in all && ids[0] !in ids[1..] && ids[0] in ids
    ensures forall x :: x in ids[1..] ==> x in ids
  {
    forall x | x in ids[1..] ensures x in ids && x != ids[0] {
      var i :| 0 <= i < |ids| - 1 && ids[1..][i] == x;
      assert ids[i + 1] == x;
    }
  }
}
