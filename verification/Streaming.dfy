// The stream consumer racing the worker: tokens reach the queue late, the finished flag may be seen
// before them, and still the concatenated deltas are the decoded final output.
module Streaming {
  import opened LanguageModel
  import opened Sequences

  type Decoder = seq<Token> -> string

  // decode_delta reads the ids twice: all of them, and, when their text does not continue the one
  // before, the last one once more, by then perhaps of a longer list. It gives the full text and
  // what it adds.
  function DecodeDelta(decode: Decoder, ids: seq<Token>, later: seq<Token>, prev: string): (string, string) {
    var text := decode(ids);
    if prev <= text then (text, text[|prev|..])
    else (prev + LastPiece(decode, later), LastPiece(decode, later))
  }

  function LastPiece(decode: Decoder, ids: seq<Token>): string {
    if ids == [] then "" else decode(ids[|ids| - 1..])
  }

  // `posted` items are on their way to the event loop; `ending` is set once None is posted; `midway`
  // means that the consumer has done the first read of two.
  datatype Stream = Stream(
    output: seq<Token>,
    posted: seq<Item>,
    queue: seq<Item>,
    ending: bool,
    finished: bool,
    prev: string,
    midway: bool,
    emitted: string,
    taken: seq<Item>,
    done: bool)

  const OPENED := Stream([], [], [], false, false, "", false, "", [], false)

  // The worker notes a token, posts the final None, and sets the finished flag; the event loop
  // delivers; the consumer polls its queue, or reads the last token.
  datatype Act = Note(token: Token) | PostNone | SetFinished | Deliver | Poll

  function FirstRead(decode: Decoder, s: Stream): Stream {
    var text := decode(s.output);
    if s.prev <= text then s.(prev := text, emitted := s.emitted + text[|s.prev|..]) else s.(midway := true)
  }

  function SecondRead(decode: Decoder, s: Stream): Stream {
    var piece := LastPiece(decode, s.output);
    s.(prev := s.prev + piece, emitted := s.emitted + piece, midway := false)
  }

  // The last decode, after the end: nothing is generated between its two reads.
  function Emit(decode: Decoder, s: Stream): Stream {
    var (prev, delta) := DecodeDelta(decode, s.output, s.output, s.prev);
    s.(prev := prev, emitted := s.emitted + delta)
  }

  // One turn of the consumer; an empty queue without the flag is a timeout.
  function PollStep(decode: Decoder, s: Stream): Stream {
    if s.done then s
    else if s.midway then SecondRead(decode, s)
    else if s.queue == [] then
      if s.finished then Emit(decode, s).(done := true) else s
    else
      var rest := s.(queue := s.queue[1..], taken := s.taken + [s.queue[0]]);
      if s.queue[0].NoneItem? then Emit(decode, rest).(done := true) else FirstRead(decode, rest)
  }

  function ActStep(decode: Decoder, s: Stream, act: Act): Stream {
    match act
    case Note(token) =>
      if s.ending then s else s.(output := s.output + [token], posted := s.posted + [Push(token)])
    case PostNone =>
      if s.ending then s else s.(posted := s.posted + [NoneItem], ending := true)
    case SetFinished =>
      if s.ending then s.(finished := true) else s
    case Deliver =>
      if s.posted == [] then s else s.(queue := s.queue + [s.posted[0]], posted := s.posted[1..])
    case Poll => PollStep(decode, s)
  }

  function Play(decode: Decoder, s: Stream, acts: seq<Act>): Stream {
    if acts == [] then s
    else ActStep(decode, Play(decode, s, acts[..|acts| - 1]), acts[|acts| - 1])
  }

  // ---- What holds for any decoder ----

  // Every pushed item is taken, queued or posted, in order and once; the finished flag and a taken
  // None both mean that nothing more will be generated.
  ghost predicate Flow(s: Stream) {
    && s.taken + s.queue + s.posted == Tokens(s.output) + (if s.ending then [NoneItem] else [])
    && (s.finished ==> s.ending) && (s.done ==> s.ending && !s.midway)
    && s.emitted == s.prev
  }

  lemma NoneMeansEnding(s: Stream)
    requires Flow(s) && s.queue != [] && s.queue[0].NoneItem?
    ensures s.ending
  {
    assert (s.taken + s.queue + s.posted)[|s.taken|] == NoneItem;
  }

  lemma FlowStep(decode: Decoder, s: Stream, act: Act)
    requires Flow(s)
    ensures Flow(ActStep(decode, s, act))
  {
    hide DecodeDelta, Emit, FirstRead, SecondRead;
    var s' := ActStep(decode, s, act);
    match act {
      case Note(token) =>
        assert Tokens(s.output + [token]) == Tokens(s.output) + [Push(token)];
        assert !s.ending ==> s'.taken + s'.queue + s'.posted == s.taken + s.queue + s.posted + [Push(token)];
      case PostNone => assert !s.ending ==>
        s'.taken + s'.queue + s'.posted == s.taken + s.queue + s.posted + [NoneItem];
      case SetFinished =>
      case Deliver => assert s'.taken + s'.queue + s'.posted == s.taken + s.queue + s.posted;
      case Poll =>
        PollFrame(decode, s);
        if s.queue != [] && s.queue[0].NoneItem? { NoneMeansEnding(s); }
        assert s'.taken + s'.queue + s'.posted == s.taken + s.queue + s.posted;
    }
  }

  lemma PollFrame(decode: Decoder, s: Stream)
    requires s.emitted == s.prev && (s.done ==> !s.midway)
    ensures var s' := PollStep(decode, s);
      && s'.emitted == s'.prev && (s'.done ==> !s'.midway) && s'.output == s.output && s'.posted == s.posted
      && s'.ending == s.ending && s'.finished == s.finished
      && s'.taken + s'.queue == s.taken + s.queue
      && (s'.done ==> s.done || s.finished || (s.queue != [] && s.queue[0].NoneItem?))
  {
  }

  // ---- A decoder whose text only grows ----

  // Along one output, more tokens only add text.
  ghost predicate Grows(decode: Decoder, out: seq<Token>) {
    forall a, b :: a <= b <= out ==> decode(a) <= decode(b)
  }

  ghost predicate Faithful(decode: Decoder, s: Stream) {
    && Flow(s) && s.prev <= decode(s.output) && !s.midway
    && (s.done ==> s.emitted == decode(s.output))
  }

  lemma FaithfulStep(decode: Decoder, s: Stream, act: Act, out: seq<Token>)
    requires Faithful(decode, s) && Grows(decode, out) && ActStep(decode, s, act).output <= out
    ensures Faithful(decode, ActStep(decode, s, act))
  {
    hide Flow;
    FlowStep(decode, s, act);
    FlowFacts(s);
    if act.Note? { assert s.output <= s.output + [act.token]; }
  }

  lemma FlowFacts(s: Stream)
    requires Flow(s)
    ensures s.emitted == s.prev && (s.done ==> s.ending)
  {
  }

  lemma OutputGrows(decode: Decoder, s: Stream, act: Act)
    ensures s.output <= ActStep(decode, s, act).output
  {
  }

  lemma {:induction false} FaithfulPlay(decode: Decoder, acts: seq<Act>, out: seq<Token>)
    requires Play(decode, OPENED, acts).output <= out && Grows(decode, out)
    ensures Faithful(decode, Play(decode, OPENED, acts))
  {
    hide ActStep;
    if acts != [] {
      var before := Play(decode, OPENED, acts[..|acts| - 1]);
      OutputGrows(decode, before, acts[|acts| - 1]);
      FaithfulPlay(decode, acts[..|acts| - 1], out);
      FaithfulStep(decode, before, acts[|acts| - 1], out);
    } else {
      EmptyPlay(decode);
    }
  }

  lemma EmptyPlay(decode: Decoder)
    ensures Faithful(decode, OPENED)
  {
    assert Tokens([]) == [];
  }

  // In every interleaving, what was emitted so far is a prefix of the decoded output, and a closed
  // stream has emitted exactly the decode of the final output.
  lemma StreamIsComplete(decode: Decoder, acts: seq<Act>)
    requires Grows(decode, Play(decode, OPENED, acts).output)
    ensures var s := Play(decode, OPENED, acts);
      && s.emitted <= decode(s.output)
      && (s.done ==> s.ending && s.emitted == decode(s.output))
  {
    FaithfulPlay(decode, acts, Play(decode, OPENED, acts).output);
  }

  // After the stream is closed nothing changes what it emitted or should have emitted.
  lemma {:induction false} ClosedIsFinal(decode: Decoder, s: Stream, acts: seq<Act>)
    requires s.done && s.ending
    ensures var s' := Play(decode, s, acts); s'.done && s'.ending && s'.emitted == s.emitted && s'.output == s.output
  {
    if acts != [] { ClosedIsFinal(decode, s, acts[..|acts| - 1]); }
  }

  // What the consumer still has to do before it comes to the end of its queue.
  function TurnsLeft(s: Stream): nat {
    2 * |s.queue| + if s.midway then 1 else 0
  }

  // Once the flag is set the consumer closes the stream after at most two turns for each item waiting
  // and one more, even if no further item is ever delivered.
  lemma {:induction false} PollsClose(decode: Decoder, s: Stream, acts: seq<Act>)
    requires s.finished && |acts| > TurnsLeft(s) && forall i :: 0 <= i < |acts| ==> acts[i].Poll?
    ensures Play(decode, s, acts).done
    decreases |acts|
  {
    var before := acts[..|acts| - 1];
    PollsShrink(decode, s, before);
  }

  lemma {:induction false} PollsShrink(decode: Decoder, s: Stream, acts: seq<Act>)
    requires s.finished && forall i :: 0 <= i < |acts| ==> acts[i].Poll?
    ensures var s' := Play(decode, s, acts); s'.finished && (s'.done || TurnsLeft(s') + |acts| <= TurnsLeft(s))
  {
    hide DecodeDelta;
    if acts != [] { PollsShrink(decode, s, acts[..|acts| - 1]); }
  }

  // ---- A decoder whose text changes ----

  function Notes(out: seq<Token>): seq<Act> {
    seq(|out|, i requires 0 <= i < |out| => Note(out[i]))
  }

  lemma {:induction false} PlayConcat(decode: Decoder, s: Stream, a: seq<Act>, b: seq<Act>)
    ensures Play(decode, s, a + b) == Play(decode, Play(decode, s, a), b)
  {
    hide ActStep;
    if b == [] {
      assert a + b == a;
    } else {
      PlayConcat(decode, s, a, b[..|b| - 1]);
      assert (a + b)[..|a + b| - 1] == a + b[..|b| - 1];
    }
  }

  lemma {:induction false} PlayNotes(decode: Decoder, s: Stream, out: seq<Token>)
    requires !s.ending
    ensures Play(decode, s, Notes(out)) == s.(output := s.output + out, posted := s.posted + Tokens(out))
  {
    if out != [] {
      var k := |out| - 1;
      PlayNotes(decode, s, out[..k]);
      assert Notes(out)[..k] == Notes(out[..k]);
      assert Tokens(out) == Tokens(out[..k]) + [Push(out[k])];
      assert s.output + out == s.output + out[..k] + [out[k]];
    } else {
      assert s.output + out == s.output && s.posted + Tokens(out) == s.posted;
    }
  }

  lemma {:induction false} EmittedGrows(decode: Decoder, s: Stream, acts: seq<Act>)
    requires s.emitted == s.prev
    ensures s.emitted <= Play(decode, s, acts).emitted && Play(decode, s, acts).emitted == Play(decode, s, acts).prev
  {
    if acts != [] { EmittedGrows(decode, s, acts[..|acts| - 1]); }
  }

  // The consumer polls just when the first k tokens have been noted, then not until the end.
  function PollAt(out: seq<Token>, k: nat): seq<Act>
    requires k <= |out|
  {
    Notes(out[..k]) + [Deliver, Poll] + Notes(out[k..]) + [PostNone, SetFinished, Poll]
  }

  lemma PlaySnoc(decode: Decoder, s: Stream, acts: seq<Act>, act: Act)
    ensures Play(decode, s, acts + [act]) == ActStep(decode, Play(decode, s, acts), act)
  {
    hide ActStep;
    assert (acts + [act])[..|acts|] == acts;
  }

  lemma DeliverOne(decode: Decoder, s: Stream)
    requires s.queue == [] && s.posted != []
    ensures ActStep(decode, s, Deliver) == s.(queue := [s.posted[0]], posted := s.posted[1..])
  {
    assert [] + [s.posted[0]] == [s.posted[0]];
  }

  lemma PollOne(decode: Decoder, s: Stream)
    requires !s.done && !s.midway && |s.queue| == 1 && s.queue[0].Push?
    ensures ActStep(decode, s, Poll) == FirstRead(decode, s.(queue := [], taken := s.taken + [s.queue[0]]))
  {
    hide FirstRead;
    assert s.queue[1..] == [];
  }

  // Delivering one token and polling it at once.
  lemma DeliverPoll(decode: Decoder, s: Stream)
    requires !s.done && !s.midway && s.queue == [] && s.posted != [] && s.posted[0].Push?
    ensures Play(decode, s, [Deliver, Poll]) ==
      FirstRead(decode, s.(posted := s.posted[1..], taken := s.taken + [s.posted[0]]))
  {
    hide FirstRead, ActStep, Play;
    assert [Deliver, Poll] == [] + [Deliver] + [Poll];
    PlayNothing(decode, s);
    PlaySnoc(decode, s, [], Deliver);
    PlaySnoc(decode, s, [] + [Deliver], Poll);
    DeliverOne(decode, s);
    var a := s.(queue := [s.posted[0]], posted := s.posted[1..]);
    PollOne(decode, a);
    assert a.(queue := [], taken := a.taken + [a.queue[0]]) ==
      s.(posted := s.posted[1..], taken := s.taken + [s.posted[0]]);
  }

  lemma PlayNothing(decode: Decoder, s: Stream)
    ensures Play(decode, s, []) == s
  {
  }

  lemma Closing(decode: Decoder, s: Stream)
    requires !s.done && !s.midway && !s.ending && s.queue == []
    ensures Play(decode, s, [PostNone, SetFinished, Poll]).done
    ensures Play(decode, s, [PostNone, SetFinished, Poll]).output == s.output
  {
    assert [PostNone, SetFinished, Poll] == [] + [PostNone] + [SetFinished] + [Poll];
    PlaySnoc(decode, s, [], PostNone);
    PlaySnoc(decode, s, [] + [PostNone], SetFinished);
    PlaySnoc(decode, s, [] + [PostNone] + [SetFinished], Poll);
  }

  lemma PollAtPlays(decode: Decoder, out: seq<Token>, k: nat)
    requires 1 <= k <= |out|
    ensures var s := Play(decode, OPENED, PollAt(out, k));
      s.done && s.output == out && decode(out[..k]) <= s.emitted
  {
    hide ActStep;
    var a := Play(decode, OPENED, Notes(out[..k]));
    PlayNotes(decode, OPENED, out[..k]);
    assert [] + out[..k] == out[..k];
    var b := Play(decode, a, [Deliver, Poll]);
    DeliverPoll(decode, a);
    assert b.emitted == "" + decode(out[..k]) == decode(out[..k]);
    var c := Play(decode, b, Notes(out[k..]));
    PlayNotes(decode, b, out[k..]);
    assert out[..k] + out[k..] == out;
    Closing(decode, c);
    EmittedGrows(decode, c, [PostNone, SetFinished, Poll]);
    PlayConcat(decode, OPENED, Notes(out[..k]), [Deliver, Poll]);
    PlayConcat(decode, OPENED, Notes(out[..k]) + [Deliver, Poll], Notes(out[k..]));
    PlayConcat(decode, OPENED, Notes(out[..k]) + [Deliver, Poll] + Notes(out[k..]), [PostNone, SetFinished, Poll]);
  }

  ghost predicate AlwaysComplete(decode: Decoder, out: seq<Token>) {
    forall acts: seq<Act> ::
      Play(decode, OPENED, acts).done && Play(decode, OPENED, acts).output == out
      ==> Play(decode, OPENED, acts).emitted == decode(out)
  }

  // ---- The exact condition, for any decoder ----

  // No text a consumer can build up by reading contradicts the whole: `got` tokens have been taken,
  // the last read saw `seen` of them, and the text so far is `prev`. A token can be taken only once
  // it has been generated, and every later read sees at least as much.
  ghost predicate ReadsFit(decode: Decoder, out: seq<Token>, prev: string, got: nat, seen: nat)
    decreases |out| - got
  {
    && prev <= decode(out)
    && (got < |out| ==>
      forall k: nat, later: nat :: seen <= k <= later <= |out| && got < k ==>
        ReadsFit(decode, out, DecodeDelta(decode, out[..k], out[..later], prev).0, got + 1, later))
  }

  lemma {:induction false} SeenMore(decode: Decoder, out: seq<Token>, prev: string, got: nat, seen: nat, more: nat)
    requires ReadsFit(decode, out, prev, got, seen) && seen <= more
    ensures ReadsFit(decode, out, prev, got, more)
  {
  }

  // Between the two reads of one token, whatever the second will see.
  ghost predicate MidwayFits(decode: Decoder, out: seq<Token>, prev: string, got: nat, seen: nat) {
    forall later: nat :: seen <= later <= |out| ==>
      ReadsFit(decode, out, prev + LastPiece(decode, out[..later]), got, later)
  }

  ghost predicate SoFarFits(decode: Decoder, s: Stream, out: seq<Token>) {
    if s.midway then MidwayFits(decode, out, s.prev, |s.taken|, |s.output|)
    else ReadsFit(decode, out, s.prev, |s.taken|, |s.output|)
  }

  ghost predicate Reading(decode: Decoder, s: Stream, out: seq<Token>) {
    && Flow(s) && s.output <= out
    && (!s.done ==> |s.taken| <= |s.output| && SoFarFits(decode, s, out) && NoneUntaken(s))
    && (s.done ==> s.output == out ==> s.emitted == decode(out))
  }

  // An open stream has not taken the final None yet.
  ghost predicate NoneUntaken(s: Stream) {
    forall i :: 0 <= i < |s.taken| ==> s.taken[i].Push?
  }

  // The next item is a token exactly while tokens are left to read.
  lemma NextItem(s: Stream)
    requires Flow(s) && s.queue != [] && |s.taken| <= |s.output|
    ensures s.queue[0].Push? <==> |s.taken| < |s.output|
  {
    assert (s.taken + s.queue + s.posted)[|s.taken|] == s.queue[0];
  }

  lemma EmitFits(decode: Decoder, s: Stream, out: seq<Token>)
    requires s.prev <= decode(out) && s.output == out && s.emitted == s.prev
    ensures Emit(decode, s).emitted == decode(out)
  {
  }

  lemma ReadingPoll(decode: Decoder, s: Stream, out: seq<Token>)
    requires Reading(decode, s, out) && !s.done
    ensures Reading(decode, PollStep(decode, s), out)
  {
    hide DecodeDelta, Emit, PollStep, FirstRead, SecondRead, SoFarFits;
    FlowStep(decode, s, Poll);
    if s.midway {
      ReadingAgain(decode, s, out);
    } else if s.queue == [] || s.queue[0].NoneItem? {
      ReadingLast(decode, s, out);
    } else {
      ReadingToken(decode, s, out);
    }
  }

  lemma ReadingAgain(decode: Decoder, s: Stream, out: seq<Token>)
    requires Reading(decode, s, out) && !s.done && s.midway && Flow(PollStep(decode, s))
    ensures Reading(decode, PollStep(decode, s), out)
  {
    hide ReadsFit, Flow, LastPiece;
    assert s.output == out[..|s.output|];
  }

  lemma ReadingLast(decode: Decoder, s: Stream, out: seq<Token>)
    requires Reading(decode, s, out) && !s.done && !s.midway && (s.queue == [] || s.queue[0].NoneItem?)
    requires Flow(PollStep(decode, s))
    ensures Reading(decode, PollStep(decode, s), out)
  {
    hide DecodeDelta, Emit, Flow;
    var rest := if s.queue == [] then s else s.(queue := s.queue[1..], taken := s.taken + [s.queue[0]]);
    FlowFacts(s);
    if s.output == out { EmitFits(decode, rest, out); }
    EmitKeeps(decode, rest);
  }

  lemma EmitKeeps(decode: Decoder, s: Stream)
    ensures Emit(decode, s) == s.(prev := Emit(decode, s).prev, emitted := Emit(decode, s).emitted)
  {
  }

  lemma ReadingToken(decode: Decoder, s: Stream, out: seq<Token>)
    requires Reading(decode, s, out) && !s.done && !s.midway && s.queue != [] && s.queue[0].Push?
    requires Flow(PollStep(decode, s))
    ensures Reading(decode, PollStep(decode, s), out)
  {
    hide LastPiece, FirstRead;
    var rest := s.(queue := s.queue[1..], taken := s.taken + [s.queue[0]]);
    NextItem(s);
    FirstReadFits(decode, rest, out, |s.taken|, |s.output|);
  }

  lemma FirstReadFits(decode: Decoder, s: Stream, out: seq<Token>, got: nat, seen: nat)
    requires ReadsFit(decode, out, s.prev, got, seen) && seen == |s.output| <= |out| && got < seen && s.output <= out
    requires !s.midway && |s.taken| == got + 1
    ensures SoFarFits(decode, FirstRead(decode, s), out)
    ensures var s' := FirstRead(decode, s); s' == s.(prev := s'.prev, emitted := s'.emitted, midway := s'.midway)
  {
    hide LastPiece;
    assert s.output == out[..seen];
    forall later: nat | seen <= later <= |out|
      ensures ReadsFit(decode, out, DecodeDelta(decode, out[..seen], out[..later], s.prev).0, got + 1, later)
    {
    }
  }

  lemma ReadingStep(decode: Decoder, s: Stream, act: Act, out: seq<Token>)
    requires Reading(decode, s, out) && ActStep(decode, s, act).output <= out
    ensures Reading(decode, ActStep(decode, s, act), out)
  {
    hide DecodeDelta, PollStep, Flow, ReadsFit;
    FlowStep(decode, s, act);
    FlowFacts(s);
    if act.Poll? {
      if !s.done { ReadingPoll(decode, s, out); } else { DoneStays(decode, s); }
    } else if act.Note? && !s.done && !s.midway {
      SeenMore(decode, out, s.prev, |s.taken|, |s.output|, |ActStep(decode, s, act).output|);
    }
  }

  lemma DoneStays(decode: Decoder, s: Stream)
    requires s.done
    ensures PollStep(decode, s) == s
  {
  }

  lemma {:induction false} ReadingPlay(decode: Decoder, acts: seq<Act>, out: seq<Token>)
    requires ReadsFit(decode, out, "", 0, 0) && Play(decode, OPENED, acts).output <= out
    ensures Reading(decode, Play(decode, OPENED, acts), out)
  {
    hide ActStep;
    if acts != [] {
      var before := Play(decode, OPENED, acts[..|acts| - 1]);
      OutputGrows(decode, before, acts[|acts| - 1]);
      ReadingPlay(decode, acts[..|acts| - 1], out);
      ReadingStep(decode, before, acts[|acts| - 1], out);
    } else {
      assert Tokens([]) == [];
    }
  }

  // Every way to go on from here to the end is complete.
  ghost predicate CompleteFrom(decode: Decoder, s: Stream, out: seq<Token>) {
    forall acts: seq<Act> ::
      Play(decode, s, acts).done && Play(decode, s, acts).output == out ==> Play(decode, s, acts).emitted == decode(out)
  }

  // An open stream that has read `got` tokens and has the rest of what was noted still posted.
  ghost predicate ReadSoFar(s: Stream, out: seq<Token>, got: nat, seen: nat) {
    && got <= seen <= |out| && s.output == out[..seen] && s.posted == Tokens(out[got..seen])
    && s.queue == [] && !s.ending && !s.finished && !s.done && !s.midway && s.emitted == s.prev
  }

  lemma CloseNow(decode: Decoder, s: Stream, out: seq<Token>, got: nat, seen: nat)
    requires ReadSoFar(s, out, got, seen) && CompleteFrom(decode, s, out)
    ensures s.prev <= decode(out)
  {
    hide ActStep, Play;
    var notes, close := Notes(out[seen..]), [PostNone, SetFinished, Poll];
    PlayNotes(decode, s, out[seen..]);
    assert out[..seen] + out[seen..] == out;
    var a := Play(decode, s, notes);
    Closing(decode, a);
    PlayConcat(decode, s, notes, close);
    EmittedGrows(decode, s, notes + close);
  }

  lemma CompleteThen(decode: Decoder, s: Stream, out: seq<Token>, acts: seq<Act>)
    requires CompleteFrom(decode, s, out)
    ensures CompleteFrom(decode, Play(decode, s, acts), out)
  {
    hide ActStep, Play;
    var s' := Play(decode, s, acts);
    forall more: seq<Act> | Play(decode, s', more).done && Play(decode, s', more).output == out
      ensures Play(decode, s', more).emitted == decode(out)
    {
      PlayConcat(decode, s, acts, more);
    }
  }

  // The next token is taken when k are generated; the first read is done.
  lemma TakeNow(decode: Decoder, s: Stream, out: seq<Token>, got: nat, seen: nat, k: nat) returns (s': Stream)
    requires ReadSoFar(s, out, got, seen) && CompleteFrom(decode, s, out) && seen <= k <= |out| && got < k
    ensures CompleteFrom(decode, s', out) && ReadSoFar(s'.(midway := false), out, got + 1, k)
    ensures s'.midway == !(s.prev <= decode(out[..k]))
    ensures s'.prev == if s'.midway then s.prev else decode(out[..k])
  {
    hide ActStep, Play, CompleteFrom;
    var acts := Notes(out[seen..k]) + [Deliver, Poll];
    PlayNotes(decode, s, out[seen..k]);
    var a := Play(decode, s, Notes(out[seen..k]));
    assert out[..seen] + out[seen..k] == out[..k];
    assert out[got..seen] + out[seen..k] == out[got..k];
    assert a.posted == Tokens(out[got..k]);
    assert a.posted[1..] == Tokens(out[got + 1..k]);
    DeliverPoll(decode, a);
    PlayConcat(decode, s, Notes(out[seen..k]), [Deliver, Poll]);
    s' := Play(decode, s, acts);
    EmittedGrows(decode, s, acts);
    CompleteThen(decode, s, out, acts);
  }

  // The second read, when `later` are generated.
  lemma ReadAgain(decode: Decoder, s: Stream, out: seq<Token>, got: nat, k: nat, later: nat) returns (s': Stream)
    requires ReadSoFar(s.(midway := false), out, got, k) && s.midway && CompleteFrom(decode, s, out)
    requires k <= later <= |out|
    ensures CompleteFrom(decode, s', out) && ReadSoFar(s', out, got, later)
    ensures s'.prev == s.prev + LastPiece(decode, out[..later])
  {
    hide ActStep, Play, CompleteFrom, LastPiece;
    var notes := Notes(out[k..later]);
    PlayNotes(decode, s, out[k..later]);
    var a := Play(decode, s, notes);
    assert out[..k] + out[k..later] == out[..later];
    assert out[got..k] + out[k..later] == out[got..later];
    assert a.posted == Tokens(out[got..later]);
    PlaySnoc(decode, s, notes, Poll);
    PollMidway(decode, a);
    s' := Play(decode, s, notes + [Poll]);
    CompleteThen(decode, s, out, notes + [Poll]);
  }

  lemma PollMidway(decode: Decoder, s: Stream)
    requires s.midway && !s.done
    ensures ActStep(decode, s, Poll) == SecondRead(decode, s)
  {
  }

  lemma ReadNow(decode: Decoder, s: Stream, out: seq<Token>, got: nat, seen: nat, k: nat, later: nat)
    returns (s': Stream, sees: nat)
    requires ReadSoFar(s, out, got, seen) && CompleteFrom(decode, s, out) && seen <= k <= later <= |out| && got < k
    ensures sees <= later && ReadSoFar(s', out, got + 1, sees) && CompleteFrom(decode, s', out)
    ensures s'.prev == DecodeDelta(decode, out[..k], out[..later], s.prev).0
  {
    hide CompleteFrom, LastPiece;
    var a := TakeNow(decode, s, out, got, seen, k);
    if a.midway {
      sees := later;
      s' := ReadAgain(decode, a, out, got + 1, k, later);
    } else {
      s', sees := a, k;
      assert a.(midway := false) == a;
    }
  }

  lemma {:induction false} CompleteReadsFit(decode: Decoder, s: Stream, out: seq<Token>, got: nat, seen: nat)
    requires ReadSoFar(s, out, got, seen) && CompleteFrom(decode, s, out)
    ensures ReadsFit(decode, out, s.prev, got, seen)
    decreases |out| - got
  {
    hide ReadSoFar, CompleteFrom, DecodeDelta;
    CloseNow(decode, s, out, got, seen);
    if got < |out| {
      forall k: nat, later: nat | seen <= k <= later <= |out| && got < k
        ensures ReadsFit(decode, out, DecodeDelta(decode, out[..k], out[..later], s.prev).0, got + 1, later)
      {
        var s', sees := ReadNow(decode, s, out, got, seen, k, later);
        CompleteReadsFit(decode, s', out, got + 1, sees);
        SeenMore(decode, out, s'.prev, got + 1, sees, later);
      }
    }
  }

  // For every decoder and output: streaming is complete in every interleaving of worker, event loop
  // and consumer exactly when no sequence of reads builds up a text the whole does not start with.
  lemma AlwaysCompleteExactlyWhen(decode: Decoder, out: seq<Token>)
    ensures AlwaysComplete(decode, out) <==> ReadsFit(decode, out, "", 0, 0)
  {
    hide ActStep, Play, ReadsFit;
    if AlwaysComplete(decode, out) {
      assert Tokens(out[0..0]) == [];
      CompleteReadsFit(decode, OPENED, out, 0, 0);
    }
    if ReadsFit(decode, out, "", 0, 0) {
      forall acts: seq<Act> | Play(decode, OPENED, acts).done && Play(decode, OPENED, acts).output == out
        ensures Play(decode, OPENED, acts).emitted == decode(out)
      {
        ReadingPlay(decode, acts, out);
      }
    }
  }

  // Whatever the decoder, a stream that is complete in every interleaving never reads a text that
  // the whole does not start with.
  lemma CompleteNeedsPrefixes(decode: Decoder, out: seq<Token>, k: nat)
    requires AlwaysComplete(decode, out) && 1 <= k <= |out|
    ensures decode(out[..k]) <= decode(out)
  {
    hide ActStep, Play;
    PollAtPlays(decode, out, k);
  }

  // For decoders whose text never gets shorter, streaming is complete in every interleaving exactly
  // for the outputs every first part of which decodes to a first part of the whole text.
  lemma CompleteExactlyWhen(decode: Decoder, out: seq<Token>)
    requires decode([]) == "" && forall a, b :: a <= b <= out ==> |decode(a)| <= |decode(b)|
    ensures AlwaysComplete(decode, out) <==> forall k: nat :: k <= |out| ==> decode(out[..k]) <= decode(out)
  {
    hide ActStep, Play;
    if AlwaysComplete(decode, out) {
      forall k: nat | k <= |out| ensures decode(out[..k]) <= decode(out) {
        if k > 0 { CompleteNeedsPrefixes(decode, out, k); }
      }
    }
    if forall k: nat :: k <= |out| ==> decode(out[..k]) <= decode(out) {
      GrowsAlong(decode, out);
      forall acts: seq<Act> | Play(decode, OPENED, acts).done && Play(decode, OPENED, acts).output == out
        ensures Play(decode, OPENED, acts).emitted == decode(out)
      {
        StreamIsComplete(decode, acts);
      }
    }
  }

  lemma GrowsAlong(decode: Decoder, out: seq<Token>)
    requires forall a, b :: a <= b <= out ==> |decode(a)| <= |decode(b)|
    requires forall k: nat :: k <= |out| ==> decode(out[..k]) <= decode(out)
    ensures Grows(decode, out)
  {
    forall a, b | a <= b <= out ensures decode(a) <= decode(b) {
      assert a == out[..|a|] && b == out[..|b|];
      assert decode(a) == decode(out)[..|decode(a)|] && decode(b) == decode(out)[..|decode(b)|];
    }
  }

  // A byte-level decoder that shows a placeholder until the second half of a character arrives.
  function Halves(ids: seq<Token>): string {
    if |ids| == 1 then "?" else if |ids| == 2 then "e" else ""
  }

  lemma PlaceholderExample()
    ensures !AlwaysComplete(Halves, [1, 2])
  {
    hide ActStep, Play;
    PollAtPlays(Halves, [1, 2], 1);
    assert [1, 2][..1] == [1];
    assert "?"[0] != "e"[0];
  }

  // A decoder that first withdraws the end of its text and then writes on.
  function Withdraws(ids: seq<Token>): string {
    if ids == [1] then "ab" else if ids == [1, 2] then "a" else if ids == [1, 2, 3] then "abX"
    else if ids == [3] then "Z" else ""
  }

  lemma Unfit(decode: Decoder, out: seq<Token>, prev: string, got: nat, seen: nat, k: nat, later: nat)
    requires seen <= k <= later <= |out| && got < k
    requires !ReadsFit(decode, out, DecodeDelta(decode, out[..k], out[..later], prev).0, got + 1, later)
    ensures !ReadsFit(decode, out, prev, got, seen)
  {
    hide DecodeDelta;
  }

  lemma WithdrawsReads()
    ensures DecodeDelta(Withdraws, [1], [1], "").0 == "ab"
    ensures DecodeDelta(Withdraws, [1, 2], [1, 2, 3], "ab").0 == "abZ"
    ensures DecodeDelta(Withdraws, [1, 2], [1, 2], "ab").0 == "ab"
    ensures Withdraws([1, 2, 3]) == "abX" && !("abZ" <= "abX") && "ab" <= "abX"
  {
    assert [1, 2, 3][2..] == [3] && [1, 2][1..] == [2];
    assert "abZ"[2] != "abX"[2];
    assert "ab" + "" == "ab" && "ab" + "Z" == "abZ";
    assert Withdraws([2]) == "";
  }

  // When the third token arrives between the two reads for the second, it is sent on its own.
  lemma TokenBetweenReads()
    ensures DecodeDelta(Withdraws, [1, 2], [1, 2], "ab").0 <= Withdraws([1, 2, 3])
    ensures DecodeDelta(Withdraws, [1, 2], [1, 2, 3], "ab").0 == "abZ" && !("abZ" <= Withdraws([1, 2, 3]))
    ensures !AlwaysComplete(Withdraws, [1, 2, 3])
  {
    hide AlwaysComplete, DecodeDelta, Withdraws, ReadsFit;
    var out := [1, 2, 3];
    assert out[..1] == [1] && out[..2] == [1, 2] && out[..3] == out;
    WithdrawsReads();
    NotSoFar(Withdraws, out, "abZ", 2, 3);
    Unfit(Withdraws, out, "ab", 1, 1, 2, 3);
    Unfit(Withdraws, out, "", 0, 0, 1, 1);
    AlwaysCompleteExactlyWhen(Withdraws, out);
  }

  lemma NotSoFar(decode: Decoder, out: seq<Token>, prev: string, got: nat, seen: nat)
    requires !(prev <= decode(out))
    ensures !ReadsFit(decode, out, prev, got, seen)
  {
  }
}
