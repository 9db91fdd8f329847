// Eviction as a queue: while the clock goes on, the unreferenced entries stand in the order in which
// they will be given up, a new entry joins at the end, and a full cache drops the first. Going
// through the candidate lengths of a prompt, from level k down to 1, then works on the queue alone.
module EvictionQueue {

  // One level of an insertion: held by a reference, queued already, or new.
  function Put(queue: seq<int>, held: int, room: nat, level: int): seq<int> {
    if level == held || level in queue then queue
    else (if |queue| < room || queue == [] then queue else queue[1..]) + [level]
  }

  function PutDown(queue: seq<int>, held: int, room: nat, level: nat): seq<int>
    decreases level
  {
    if level == 0 then queue else PutDown(Put(queue, held, room, level), held, room, level - 1)
  }

  function Down(k: nat): (levels: seq<int>)
    ensures |levels| == k && forall a :: 0 <= a < k ==> levels[a] == k - a
  {
    seq(k, a => k - a)
  }

  function Spaced(top: int, count: nat): (levels: seq<int>)
    ensures |levels| == count && forall a :: 0 <= a < count ==> levels[a] == top - 2 * a
  {
    seq(count, a => top - 2 * a)
  }

  lemma PutPresent(queue: seq<int>, held: int, room: nat, level: nat)
    requires level > 0 && (level == held || level in queue)
    ensures PutDown(queue, held, room, level) == PutDown(queue, held, room, level - 1)
  {
  }

  lemma PutAbsent(queue: seq<int>, held: int, room: nat, level: nat)
    requires level > 0 && level != held && level !in queue && |queue| >= room && queue != []
    ensures PutDown(queue, held, room, level) == PutDown(queue[1..] + [level], held, room, level - 1)
  {
  }

  // With room for all, an insertion from nothing queues them from the top down.
  lemma {:induction false} PutsAll(room: nat, top: nat, level: nat)
    requires level <= top <= room
    ensures PutDown(Down(top)[..top - level], 0, room, level) == Down(top)
    decreases level
  {
    var queue := Down(top)[..top - level];
    if level == 0 {
      assert queue == Down(top);
    } else {
      assert level !in queue;
      assert Put(queue, 0, room, level) == Down(top)[..top - (level - 1)];
      PutsAll(room, top, level - 1);
    }
  }

  // ---- One round ----

  // Before it: the levels up to `low` first, then every second one below `top`, with `top` held.
  function Rested(low: nat, top: int, count: nat): seq<int> {
    Down(low) + Spaced(top - 1, count)
  }

  lemma RestedAt(low: nat, top: int, count: nat, a: nat)
    requires a < low + count
    ensures |Rested(low, top, count)| == low + count
    ensures Rested(low, top, count)[a] == if a < low then low - a else top - 1 - 2 * (a - low)
  {
  }

  // The spaced levels are found, each before its turn to go, and the ones between come in.
  lemma {:induction false} RoundAbove(low: nat, top: nat, j: nat, i: nat)
    requires i <= j && low >= 1 && top == low + 2 * j + 2
    ensures var was, room := Rested(low, top, j + 1), low + j + 1;
      PutDown(was[1 + i..] + [top + 1] + Spaced(top - 2, i), top, room, top - 1 - 2 * i) ==
      PutDown(was[1 + j..] + [top + 1] + Spaced(top - 2, j), top, room, low)
    decreases j - i
  {
    hide PutDown, Rested;
    StillQueued(low, top, j, i);
    if i < j {
      OneBetween(low, top, j, i);
      RoundAbove(low, top, j, i + 1);
    }
  }

  lemma StillQueued(low: nat, top: nat, j: nat, i: nat)
    requires i <= j && low >= 1 && top == low + 2 * j + 2
    ensures var was, room, level: nat := Rested(low, top, j + 1), low + j + 1, top - 1 - 2 * i;
      var queue := was[1 + i..] + [top + 1] + Spaced(top - 2, i);
      PutDown(queue, top, room, level) == PutDown(queue, top, room, level - 1)
  {
    hide PutDown;
    var was, level: nat := Rested(low, top, j + 1), top - 1 - 2 * i;
    var queue := was[1 + i..] + [top + 1] + Spaced(top - 2, i);
    RestedAt(low, top, j + 1, low + i);
    assert queue[low - 1] == was[low + i] == level;
    PutPresent(queue, top, low + j + 1, level);
  }

  lemma OneBetween(low: nat, top: nat, j: nat, i: nat)
    requires i < j && low >= 1 && top == low + 2 * j + 2
    ensures var was, room, level: nat := Rested(low, top, j + 1), low + j + 1, top - 2 - 2 * i;
      PutDown(was[1 + i..] + [top + 1] + Spaced(top - 2, i), top, room, level) ==
      PutDown(was[2 + i..] + [top + 1] + Spaced(top - 2, i + 1), top, room, level - 1)
  {
    hide PutDown, Rested;
    RestedAt(low, top, j + 1, low);
    var was, level: nat := Rested(low, top, j + 1), top - 2 - 2 * i;
    var queue := was[1 + i..] + [top + 1] + Spaced(top - 2, i);
    NotQueued(low, top, j, i);
    PutAbsent(queue, top, low + j + 1, level);
    assert Spaced(top - 2, i) + [level as int] == Spaced(top - 2, i + 1);
    assert queue[1..] == was[2 + i..] + [top + 1] + Spaced(top - 2, i);
    assert queue[1..] + [level as int] == was[2 + i..] + [top + 1] + Spaced(top - 2, i + 1);
  }

  lemma NotQueued(low: nat, top: nat, j: nat, i: nat)
    requires i < j && low >= 1 && top == low + 2 * j + 2
    ensures top - 2 - 2 * i !in Rested(low, top, j + 1)[1 + i..] + [top + 1] + Spaced(top - 2, i)
  {
    var was := Rested(low, top, j + 1);
    forall a | 1 + i <= a < |was| ensures was[a] != top - 2 - 2 * i { RestedAt(low, top, j + 1, a); }
  }

  // The low levels are gone by their turn, and come in again.
  lemma {:induction false} RoundBelow(low: nat, top: nat, j: nat, level: nat)
    requires level <= low && top == low + 2 * j + 2
    ensures var was, room := Rested(low, top, j + 1), low + j + 1;
      var queue := was[1 + j + (low - level)..] + [top + 1] + Spaced(top - 2, j) + Down(low)[..low - level];
      PutDown(queue, top, room, level) ==
      [top + 1] + Spaced(top - 2, j) + Down(low)
    decreases level
  {
    hide PutDown;
    var was, room := Rested(low, top, j + 1), low + j + 1;
    var queue := was[1 + j + (low - level)..] + [top + 1] + Spaced(top - 2, j) + Down(low)[..low - level];
    if level == 0 {
      RoundEnds(low, top, j);
    } else {
      LowNotQueued(low, top, j, level);
      PutAbsent(queue, top, room, level);
      assert queue[1..] + [level as int] ==
        was[1 + j + (low - (level - 1))..] + [top + 1] + Spaced(top - 2, j) + Down(low)[..low - (level - 1)];
      RoundBelow(low, top, j, level - 1);
    }
  }

  lemma RoundEnds(low: nat, top: nat, j: nat)
    ensures var was, room := Rested(low, top, j + 1), low + j + 1;
      PutDown(was[1 + j + low..] + [top + 1] + Spaced(top - 2, j) + Down(low)[..low], top, room, 0) ==
      [top + 1] + Spaced(top - 2, j) + Down(low)
  {
    assert Rested(low, top, j + 1)[1 + j + low..] == [];
    assert Down(low)[..low] == Down(low);
    assert [] + [top + 1] + Spaced(top - 2, j) == [top + 1] + Spaced(top - 2, j);
  }

  lemma LowNotQueued(low: nat, top: nat, j: nat, level: nat)
    requires 1 <= level <= low && top == low + 2 * j + 2
    ensures var was := Rested(low, top, j + 1);
      level !in was[1 + j + (low - level)..] + [top + 1] + Spaced(top - 2, j) + Down(low)[..low - level]
  {
    var was := Rested(low, top, j + 1);
    forall a | 1 + j + (low - level) <= a < |was| ensures was[a] != level { RestedAt(low, top, j + 1, a); }
  }

  // The level above the held one comes in and stays: what was queued makes room for it and for the
  // levels that were missing.
  lemma Round(low: nat, top: nat, j: nat)
    requires low >= 1 && top == low + 2 * j + 2
    ensures PutDown(Rested(low, top, j + 1), top, low + j + 1, top + 1) == [top + 1] + Spaced(top - 2, j) + Down(low)
  {
    hide PutDown;
    var was, room := Rested(low, top, j + 1), low + j + 1;
    forall a | 0 <= a < |was| ensures was[a] != top + 1 { RestedAt(low, top, j + 1, a); }
    PutAbsent(was, top, room, top + 1);
    var queue := was[1..] + [top + 1];
    PutPresent(queue, top, room, top);
    assert Spaced(top - 2, 0) == [] && queue == was[1 + 0..] + [top + 1] + Spaced(top - 2, 0);
    RoundAbove(low, top, j, 0);
    assert Down(low)[..low - low] == [];
    assert was[1 + j..] + [top + 1] + Spaced(top - 2, j) ==
      was[1 + j + (low - low)..] + [top + 1] + Spaced(top - 2, j) + Down(low)[..low - low];
    RoundBelow(low, top, j, low);
  }
}
