// The stream consumer as it runs: an outer loop that decodes and yields, an inner loop that polls
// the token queue. What the worker and the event loop do meanwhile is a schedule of its own.
module StreamObject {
  import opened Common
  import opened LanguageModel
  import opened Sequences
  import opened Streaming

  // What the consumer knows: the text so far, whether it is between the two reads of a decode, and
  // what it has yielded.
  datatype Reader = Reader(prev: string, midway: bool, emitted: string)

  // The parts of a sequence that the worker and its stream consumer share. `posted` items are
  // callbacks the event loop has not run yet.
  class Channel {
    var output: seq<Token>
    var posted: seq<Item>
    var queue: seq<Item>
    var ending: bool
    var finished: bool
    ghost var taken: seq<Item>

    ghost function View(r: Reader): Stream
      reads this
    {
      Stream(output, posted, queue, ending, finished, r.prev, r.midway, r.emitted, taken, false)
    }

    constructor ()
      ensures View(NOTHING_READ) == OPENED
    {
      output, posted, queue, ending, finished, taken := [], [], [], false, false, [];
    }

    // One thing the worker or the event loop does.
    method Apply(act: Act, ghost decode: Decoder, ghost r: Reader)
      requires !act.Poll?
      modifies this
      ensures View(r) == ActStep(decode, old(View(r)), act)
    {
      match act
      case Note(token) => if !ending { output, posted := output + [token], posted + [Push(token)]; }
      case PostNone => if !ending { posted, ending := posted + [NoneItem], true; }
      case SetFinished => if ending { finished := true; }
      case Deliver => if posted != [] { queue, posted := queue + [posted[0]], posted[1..]; }
    }

    method ApplyAll(acts: seq<Act>, ghost decode: Decoder, ghost r: Reader)
      requires Undisturbed(acts)
      modifies this
      ensures View(r) == Play(decode, old(View(r)), acts)
    {
      for i := 0 to |acts|
        invariant View(r) == Play(decode, old(View(r)), acts[..i])
      {
        assert acts[..i + 1][..i] == acts[..i];
        Apply(acts[i], decode, r);
      }
      assert acts[..|acts|] == acts;
    }
  }

  const NOTHING_READ := Reader("", false, "")

  predicate Undisturbed(acts: seq<Act>) {
    forall i :: 0 <= i < |acts| ==> !acts[i].Poll?
  }

  predicate Between(schedule: seq<seq<Act>>) {
    forall i :: 0 <= i < |schedule| ==> Undisturbed(schedule[i])
  }

  // The interleaving a consumer goes through that polls once after each entry of the schedule.
  function Interleaved(schedule: seq<seq<Act>>): seq<Act> {
    if schedule == [] then []
    else Interleaved(schedule[..|schedule| - 1]) + schedule[|schedule| - 1] + [Poll]
  }

  lemma InterleavedNext(schedule: seq<seq<Act>>, i: nat, j: nat)
    requires i <= j < |schedule|
    ensures Interleaved(schedule[i..j + 1]) == Interleaved(schedule[i..j]) + schedule[j] + [Poll]
  {
    assert schedule[i..j + 1][..j - i] == schedule[i..j];
  }

  lemma {:induction false} InterleavedSplit(schedule: seq<seq<Act>>, i: nat, j: nat)
    requires i <= j <= |schedule|
    ensures Interleaved(schedule[..j]) == Interleaved(schedule[..i]) + Interleaved(schedule[i..j])
    decreases j
  {
    if i == j {
      assert schedule[i..j] == [] && Interleaved(schedule[..i]) + [] == Interleaved(schedule[..i]);
    } else {
      InterleavedSplit(schedule, i, j - 1);
      assert schedule[..j][..j - 1] == schedule[..j - 1];
      InterleavedNext(schedule, i, j - 1);
      assert schedule[i..j - 1 + 1] == schedule[i..j];
    }
  }

  datatype Polled = Suspended | NoMore | Got(token: Token)

  // What the caller of a poll that brought something still has to do.
  ghost function Decoded(decode: Decoder, s: Stream, polled: Polled): Stream {
    match polled
    case Suspended => s
    case NoMore => Emit(decode, s).(done := true)
    case Got(_) => FirstRead(decode, s)
  }

  // _next_token: poll until an item comes, or until the flag is up and nothing is queued.
  method NextToken(ch: Channel, schedule: seq<seq<Act>>, at: nat, ghost decode: Decoder, ghost r: Reader)
    returns (polled: Polled, next: nat)
    requires Between(schedule) && at <= |schedule| && !r.midway
    modifies ch
    ensures at <= next <= |schedule| && (polled.Suspended? ==> next == |schedule|) && (!polled.Suspended? ==> at < next)
    ensures Play(decode, old(ch.View(r)), Interleaved(schedule[at..next])) == Decoded(decode, ch.View(r), polled)
  {
    hide Play, Interleaved, FirstRead, Emit;
    PollNever(decode, ch.View(r), schedule, at);
    next, polled := at, Suspended;
    ghost var start := ch.View(r);
    while next < |schedule| && polled.Suspended?
      invariant at <= next <= |schedule| && (!polled.Suspended? ==> at < next)
      invariant Play(decode, start, Interleaved(schedule[at..next])) == Decoded(decode, ch.View(r), polled)
      decreases |schedule| - next
    {
      InterleavedNext(schedule, at, next);
      PlayConcat(decode, start, Interleaved(schedule[at..next]), schedule[next] + [Poll]);
      Regroup(Interleaved(schedule[at..next]), schedule[next]);
      polled := Turn(ch, schedule[next], decode, r);
      next := next + 1;
    }
  }

  lemma PollNever(decode: Decoder, s: Stream, schedule: seq<seq<Act>>, at: nat)
    requires at <= |schedule|
    ensures Play(decode, s, Interleaved(schedule[at..at])) == s
  {
    assert schedule[at..at] == [];
  }

  lemma Regroup(a: seq<Act>, b: seq<Act>)
    ensures a + (b + [Poll]) == a + b + [Poll]
  {
  }

  // One wait on the queue, after what happened before it ends: an item, the end, or a timeout.
  method Turn(ch: Channel, acts: seq<Act>, ghost decode: Decoder, ghost r: Reader) returns (polled: Polled)
    requires Undisturbed(acts) && !r.midway
    modifies ch
    ensures Play(decode, old(ch.View(r)), acts + [Poll]) == Decoded(decode, ch.View(r), polled)
  {
    PlaySnoc(decode, ch.View(r), acts, Poll);
    ch.ApplyAll(acts, decode, r);
    if ch.finished && ch.queue == [] { return NoMore; }
    if ch.queue == [] { return Suspended; }
    var item := ch.queue[0];
    ch.queue, ch.taken := ch.queue[1..], ch.taken + [item];
    return if item.Push? then Got(item.token) else NoMore;
  }

  function Concat(parts: seq<string>): string {
    if parts == [] then "" else Concat(parts[..|parts| - 1]) + parts[|parts| - 1]
  }

  method Yield(deltas: seq<string>, delta: string) returns (more: seq<string>)
    requires forall i :: 0 <= i < |deltas| ==> deltas[i] != ""
    ensures Concat(more) == Concat(deltas) + delta && forall i :: 0 <= i < |more| ==> more[i] != ""
  {
    more := deltas;
    if delta != "" {
      more := deltas + [delta];
      assert more[..|deltas|] == deltas;
    }
  }

  lemma OneSlot(schedule: seq<seq<Act>>, at: nat)
    requires at < |schedule|
    ensures Interleaved(schedule[at..at + 1]) == schedule[at] + [Poll]
  {
    InterleavedNext(schedule, at, at);
    assert schedule[at..at] == [] && [] + schedule[at] == schedule[at];
  }

  // decode_delta for an item just taken: the first read has been done with the poll; if its text does
  // not continue the one before, the last token is read once more, after whatever happens in between.
  method ReadDelta(decode: Decoder, ch: Channel, schedule: seq<seq<Act>>, at: nat, prev: string, ghost emitted: string)
    returns (text: string, delta: string, midway: bool, next: nat)
    requires Between(schedule) && at <= |schedule|
    modifies ch
    ensures at <= next <= |schedule| && (midway ==> next == |schedule| && delta == "")
    ensures Play(decode, FirstRead(decode, old(ch.View(Reader(prev, false, emitted)))), Interleaved(schedule[at..next]))
      == ch.View(Reader(text, midway, emitted + delta))
  {
    next, midway := at, false;
    assert Interleaved(schedule[at..at]) == [];
    text := decode(ch.output);
    if prev <= text { return text, text[|prev|..], false, at; }
    if at == |schedule| {
      assert emitted + "" == emitted;
      return prev, "", true, at;
    }
    ghost var r := Reader(prev, true, emitted);
    OneSlot(schedule, at);
    PlaySnoc(decode, ch.View(r), schedule[at], Poll);
    ch.ApplyAll(schedule[at], decode, r);
    PollMidway(decode, ch.View(r));
    delta := LastPiece(decode, ch.output);
    text, next := prev + delta, at + 1;
  }

  // iter_text_deltas: for every item decode everything so far and yield what is new, and once more
  // after the last. For a decoder that grows along the output, the deltas are at every moment a
  // prefix of its text and, when the loop has ended, all of it.
  method IterTextDeltas(decode: Decoder, ch: Channel, schedule: seq<seq<Act>>)
    returns (deltas: seq<string>, closed: bool, turns: nat)
    requires ch.View(NOTHING_READ) == OPENED && Between(schedule)
    modifies ch
    ensures turns <= |schedule| && (!closed ==> turns == |schedule|)
    ensures forall i :: 0 <= i < |deltas| ==> deltas[i] != ""
    ensures var s := Play(decode, OPENED, Interleaved(schedule[..turns]));
      Concat(deltas) == s.emitted && closed == s.done && ch.output == s.output
    ensures Grows(decode, ch.output) ==> Concat(deltas) <= decode(ch.output)
    ensures Grows(decode, ch.output) && closed ==> ch.ending && Concat(deltas) == decode(ch.output)
  {
    var prev, delta, midway, polled := "", "", false, Suspended;
    deltas, closed, turns := [], false, 0;
    while !midway
      invariant turns <= |schedule| && (midway ==> turns == |schedule| && polled.Got?)
      invariant forall i :: 0 <= i < |deltas| ==> deltas[i] != ""
      invariant Play(decode, OPENED, Interleaved(schedule[..turns])) == ch.View(Reader(prev, midway, Concat(deltas)))
      decreases |schedule| - turns, !midway
    {
      ghost var from := turns;
      polled, turns := NextToken(ch, schedule, turns, decode, Reader(prev, false, Concat(deltas)));
      Onwards(decode, schedule, from, turns);
      if !polled.Got? { break; }
      from := turns;
      prev, delta, midway, turns := ReadDelta(decode, ch, schedule, turns, prev, Concat(deltas));
      Onwards(decode, schedule, from, turns);
      deltas := Yield(deltas, delta);
    }
    if polled.NoMore? {
      delta := DecodeDelta(decode, ch.output, ch.output, prev).1;
      deltas := Yield(deltas, delta);
      closed := true;
    }
    if Grows(decode, ch.output) { StreamIsComplete(decode, Interleaved(schedule[..turns])); }
  }

  lemma Onwards(decode: Decoder, schedule: seq<seq<Act>>, from: nat, to: nat)
    requires from <= to <= |schedule|
    ensures Play(decode, OPENED, Interleaved(schedule[..to])) ==
      Play(decode, Play(decode, OPENED, Interleaved(schedule[..from])), Interleaved(schedule[from..to]))
  {
    InterleavedSplit(schedule, from, to);
    PlayConcat(decode, OPENED, Interleaved(schedule[..from]), Interleaved(schedule[from..to]));
  }
}
