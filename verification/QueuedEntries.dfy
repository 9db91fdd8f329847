// The entries of the prefix cache as the eviction queue says: which keys are there, which of them is
// held, and in what order the others would be given up.
module QueuedEntries {
  import opened Common
  import opened KvCache
  import opened LanguageModel
  import opened Sequences
  import opened BlockPool
  import opened PrefixCache
  import opened PrefixLaws
  import opened PrefixOps
  import opened StoredKeys
  import opened EvictionQueue

  // ---- The candidate prefixes of one prompt, the shortest first ----

  ghost function LengthsUpTo(keys: seq<Key>, level: nat): seq<nat>
    requires level <= |keys|
  {
    seq(level, a requires 0 <= a < level => |keys[level - 1 - a]|)
  }

  ghost predicate Nested(keys: seq<Key>) {
    forall i, j :: 0 <= i < j < |keys| ==> |keys[i]| < |keys[j]| && keys[i] <= keys[j]
  }

  // An insertion of one of them goes through all of them from there down.
  ghost predicate Ladder(c: Prefixes, keys: seq<Key>) {
    Nested(keys) && forall k :: 0 <= k < |keys| ==> CandidateLengths(c, |keys[k]|) == LengthsUpTo(keys, k + 1)
  }

  ghost function LadderOf(c: Prefixes, prompt: Key): (keys: seq<Key>)
    ensures |keys| == |CandidateLengths(c, |prompt|)|
  {
    var lengths := CandidateLengths(c, |prompt|);
    seq(|lengths|, k requires 0 <= k < |lengths| => Front(prompt, lengths[|lengths| - 1 - k]))
  }

  function Front(prompt: Key, n: nat): Key {
    if n <= |prompt| then prompt[..n] else prompt
  }

  lemma {:induction false} MultiplesFall(c: Prefixes, j: nat)
    ensures forall a, b :: 0 <= a < b < |Multiples(c, j)| ==> Multiples(c, j)[a] > Multiples(c, j)[b]
    ensures forall a :: 0 <= a < |Multiples(c, j)| ==> Multiples(c, j)[a] <= j * c.blockSize
  {
    if j > 0 && j * c.blockSize >= c.minTokens {
      MultiplesFall(c, j - 1);
      Less(j, c.blockSize);
    }
  }

  lemma CandidatesFall(c: Prefixes, n: nat)
    ensures var lengths := CandidateLengths(c, n);
      forall a, b :: 0 <= a < b < |lengths| ==> lengths[a] > lengths[b]
    ensures forall a :: 0 <= a < |CandidateLengths(c, n)| ==> CandidateLengths(c, n)[a] <= n
  {
    CandidateLengthsAre(c, n);
    if n >= c.minTokens {
      CandidatesAre(c, n);
      BlocksBelowIs(c.blockSize, n);
      MultiplesFall(c, BlocksBelow(c.blockSize, n));
    }
  }

  lemma LadderIsLadder(c: Prefixes, prompt: Key)
    ensures var keys := LadderOf(c, prompt);
      && Ladder(c, keys) && (keys != [] ==> keys[|keys| - 1] == prompt)
      && forall k :: 0 <= k < |keys| ==> keys[k] != [] && keys[k] <= prompt && |keys[k]| >= c.minTokens
  {
    hide CandidateLengths;
    var lengths, keys := CandidateLengths(c, |prompt|), LadderOf(c, prompt);
    var n := |lengths|;
    CandidatesFall(c, |prompt|);
    CandidateLengthsAre(c, |prompt|);
    forall k | 0 <= k < |keys|
      ensures |keys[k]| == lengths[n - 1 - k] && keys[k] <= prompt && keys[k] != [] && |keys[k]| >= c.minTokens
    {
      var length := lengths[n - 1 - k];
      assert length in lengths && length <= |prompt|;
      assert keys[k] == Front(prompt, length);
    }
    forall k | 0 <= k < |keys| ensures CandidateLengths(c, |keys[k]|) == LengthsUpTo(keys, k + 1) {
      CandidatesFrom(c, |prompt|, n - 1 - k);
    }
  }

  // ---- Lines ----

  ghost predicate Before(entries: seq<Entry>, i: nat, j: nat) {
    && i < |entries| && j < |entries|
    && (entries[i].lastUsed < entries[j].lastUsed || (entries[i].lastUsed == entries[j].lastUsed && i < j))
  }

  ghost function PlaceOf(entries: seq<Entry>, keys: seq<Key>, level: int): nat {
    if 1 <= level <= |keys| then Find(entries, keys[level - 1]) else |entries|
  }

  // `held` is the level of the one referenced entry, 0 if there is none.
  ghost predicate Lines(entries: seq<Entry>, keys: seq<Key>, queue: seq<int>, held: int) {
    && Distinct(entries) && |entries| == |queue| + (if held == 0 then 0 else 1)
    && (forall a :: 0 <= a < |queue| ==>
      PlaceOf(entries, keys, queue[a]) < |entries| && entries[PlaceOf(entries, keys, queue[a])].refs == 0)
    && (held != 0 ==> PlaceOf(entries, keys, held) < |entries| && entries[PlaceOf(entries, keys, held)].refs > 0)
    && (forall i :: 0 <= i < |entries| ==> Lined(entries, keys, queue, held, i))
    && (forall a, b :: 0 <= a < b < |queue| ==>
      Before(entries, PlaceOf(entries, keys, queue[a]), PlaceOf(entries, keys, queue[b])))
  }

  ghost predicate Lined(entries: seq<Entry>, keys: seq<Key>, queue: seq<int>, held: int, i: nat) {
    PlaceOf(entries, keys, held) == i || exists a :: 0 <= a < |queue| && PlaceOf(entries, keys, queue[a]) == i
  }

  ghost predicate UsedBy(entries: seq<Entry>, now: int) {
    forall i :: 0 <= i < |entries| ==> entries[i].lastUsed <= now
  }

  lemma FirstIsLeastUsed(entries: seq<Entry>, keys: seq<Key>, queue: seq<int>, held: int)
    requires Lines(entries, keys, queue, held) && queue != []
    ensures LeastUsed(entries) == PlaceOf(entries, keys, queue[0]) < |entries|
  {
    hide PlaceOf, Find, Distinct;
    var v := LeastUsed(entries);
    LeastUsedIsFirst(entries);
    assert entries[PlaceOf(entries, keys, queue[0])].refs == 0;
    assert v < |entries| && entries[v].refs == 0;
    assert Lined(entries, keys, queue, held, v);
    assert held == 0 ==> PlaceOf(entries, keys, held) == |entries| by { NoLevel(entries, keys); }
    var a :| 0 <= a < |queue| && PlaceOf(entries, keys, queue[a]) == v;
    assert a > 0 ==> Before(entries, PlaceOf(entries, keys, queue[0]), v);
  }

  lemma NoLevel(entries: seq<Entry>, keys: seq<Key>)
    ensures PlaceOf(entries, keys, 0) == |entries|
  {
  }

  lemma LinedLevels(entries: seq<Entry>, keys: seq<Key>, queue: seq<int>, held: int, level: int)
    requires Lines(entries, keys, queue, held) && Nested(keys) && 1 <= level <= |keys|
    ensures PlaceOf(entries, keys, level) < |entries| <==> level == held || level in queue
  {
    hide Distinct;
    var i := PlaceOf(entries, keys, level);
    if i < |entries| {
      assert Lined(entries, keys, queue, held, i);
      assert entries[i].tokenIds == keys[level - 1];
    }
  }

  // ---- One level of an insertion ----

  lemma FindAppended(entries: seq<Entry>, e: Entry, key: Key)
    ensures Find(entries, key) < |entries| ==> Find(entries + [e], key) == Find(entries, key)
    ensures Find(entries, key) == |entries| && e.tokenIds == key ==> Find(entries + [e], key) == |entries|
  {
    var i, j := Find(entries, key), Find(entries + [e], key);
    if i < |entries| { assert (entries + [e])[i] == entries[i]; }
    assert j < |entries| ==> (entries + [e])[j] == entries[j];
    assert (entries + [e])[|entries|] == e;
  }

  lemma FindWithout(entries: seq<Entry>, v: nat, key: Key)
    requires Distinct(entries) && v < |entries| && Find(entries, key) < |entries| && Find(entries, key) != v
    ensures Find(Without(entries, v), key) ==
      if Find(entries, key) < v then Find(entries, key) else Find(entries, key) - 1
  {
    var i, rest := Find(entries, key), Without(entries, v);
    var j := if i < v then i else i - 1;
    assert rest[j] == entries[i];
    forall b | 0 <= b < j ensures rest[b].tokenIds != key { assert rest[b] == entries[if b < v then b else b + 1]; }
  }

  lemma DistinctAppended(entries: seq<Entry>, e: Entry)
    requires Distinct(entries) && Find(entries, e.tokenIds) == |entries|
    ensures Distinct(entries + [e])
  {
  }

  // A new entry joins at the end.
  lemma LinesAppended(entries: seq<Entry>, keys: seq<Key>, queue: seq<int>, held: int, level: int, e: Entry, now: int)
    requires Lines(entries, keys, queue, held) && UsedBy(entries, now) && 1 <= level <= |keys| && level != held
    requires e.tokenIds == keys[level - 1] && e.refs == 0 && e.lastUsed == now
    requires PlaceOf(entries, keys, level) == |entries|
    ensures Lines(entries + [e], keys, queue + [level], held) && UsedBy(entries + [e], now)
  {
    hide Find;
    var more, longer := entries + [e], queue + [level];
    DistinctAppended(entries, e);
    forall k | 1 <= k <= |keys|
      ensures PlaceOf(entries, keys, k) < |entries| ==> PlaceOf(more, keys, k) == PlaceOf(entries, keys, k)
    {
      FindAppended(entries, e, keys[k - 1]);
    }
    FindAppended(entries, e, keys[level - 1]);
    assert longer[|queue|] == level && forall a :: 0 <= a < |queue| ==> longer[a] == queue[a];
    forall i | 0 <= i < |more| ensures Lined(more, keys, longer, held, i) {
      if i < |entries| {
        assert Lined(entries, keys, queue, held, i);
        if PlaceOf(entries, keys, held) != i {
          var a :| 0 <= a < |queue| && PlaceOf(entries, keys, queue[a]) == i;
          assert longer[a] == queue[a];
        }
      } else {
        assert PlaceOf(more, keys, longer[|queue|]) == i;
      }
    }
  }

  function Shifted(i: nat, v: nat): nat {
    if i <= v then i else i - 1
  }

  lemma AtWithout(entries: seq<Entry>, keys: seq<Key>, v: nat, level: int)
    requires Distinct(entries) && v < |entries| && PlaceOf(entries, keys, level) < |entries|
    requires PlaceOf(entries, keys, level) != v
    ensures PlaceOf(Without(entries, v), keys, level) == Shifted(PlaceOf(entries, keys, level), v) < |entries| - 1
    ensures Without(entries, v)[Shifted(PlaceOf(entries, keys, level), v)] == entries[PlaceOf(entries, keys, level)]
  {
    FindWithout(entries, v, keys[level - 1]);
  }

  lemma DistinctWithout(entries: seq<Entry>, v: nat)
    requires Distinct(entries) && v < |entries|
    ensures Distinct(Without(entries, v))
  {
    var rest := Without(entries, v);
    forall i, j | 0 <= i < j < |rest| ensures rest[i].tokenIds != rest[j].tokenIds {
      assert rest[i] == entries[if i < v then i else i + 1] && rest[j] == entries[if j < v then j else j + 1];
    }
  }

  // The first is given up.
  lemma LinesDropped(entries: seq<Entry>, keys: seq<Key>, queue: seq<int>, held: int, v: nat)
    requires Lines(entries, keys, queue, held) && queue != [] && v == PlaceOf(entries, keys, queue[0])
    ensures Lines(Without(entries, v), keys, queue[1..], held)
  {
    hide Find, PlaceOf, Distinct;
    var rest, shorter := Without(entries, v), queue[1..];
    DistinctWithout(entries, v);
    forall a | 0 <= a < |shorter|
      ensures PlaceOf(entries, keys, shorter[a]) != v
      ensures PlaceOf(rest, keys, shorter[a]) == Shifted(PlaceOf(entries, keys, shorter[a]), v) < |rest|
      ensures rest[PlaceOf(rest, keys, shorter[a])] == entries[PlaceOf(entries, keys, shorter[a])]
    {
      assert shorter[a] == queue[a + 1];
      assert Before(entries, v, PlaceOf(entries, keys, queue[a + 1]));
      AtWithout(entries, keys, v, shorter[a]);
    }
    if held != 0 { AtWithout(entries, keys, v, held); }
    forall a, b | 0 <= a < b < |shorter|
      ensures Before(rest, PlaceOf(rest, keys, shorter[a]), PlaceOf(rest, keys, shorter[b]))
    {
      assert Before(entries, PlaceOf(entries, keys, queue[a + 1]), PlaceOf(entries, keys, queue[b + 1]));
    }
    forall i | 0 <= i < |rest| ensures Lined(rest, keys, shorter, held, i) {
      LinedWithout(entries, keys, queue, held, v, i);
    }
  }

  lemma LinedWithout(entries: seq<Entry>, keys: seq<Key>, queue: seq<int>, held: int, v: nat, i: nat)
    requires Lines(entries, keys, queue, held) && queue != [] && v == PlaceOf(entries, keys, queue[0])
    requires i < |entries| - 1
    ensures Lined(Without(entries, v), keys, queue[1..], held, i)
  {
    hide Find, PlaceOf, Distinct, Before;
    var rest := Without(entries, v);
    var k := if i < v then i else i + 1;
    assert Lined(entries, keys, queue, held, k);
    if PlaceOf(entries, keys, held) == k {
      AtWithout(entries, keys, v, held);
    } else {
      var a :| 0 <= a < |queue| && PlaceOf(entries, keys, queue[a]) == k;
      assert queue[1..][a - 1] == queue[a];
      AtWithout(entries, keys, v, queue[a]);
    }
  }

  // ---- A whole insertion ----

  // Places in the queue once the held entry has taken its own.
  function Room(maxEntries: Pos, held: int): nat {
    if held == 0 then maxEntries else maxEntries - 1
  }

  ghost predicate InLine(c: Prefixes, keys: seq<Key>, queue: seq<int>, held: int, now: int) {
    && Lines(c.entries, keys, queue, held) && UsedBy(c.entries, now) && |c.entries| <= c.maxEntries
    && Room(c.maxEntries, held) >= 1
  }

  lemma UsedByWithout(entries: seq<Entry>, v: nat, now: int)
    requires UsedBy(entries, now) && v < |entries|
    ensures UsedBy(Without(entries, v), now)
  {
    var rest := Without(entries, v);
    forall i | 0 <= i < |rest| ensures rest[i].lastUsed <= now {
      assert rest[i] == entries[if i < v then i else i + 1];
    }
  }

  lemma AtGone(entries: seq<Entry>, keys: seq<Key>, v: nat, level: int)
    requires 1 <= level <= |keys| && v < |entries| && PlaceOf(entries, keys, level) == |entries|
    ensures PlaceOf(Without(entries, v), keys, level) == |entries| - 1
  {
    FoundFewer(entries, v, keys[level - 1]);
  }

  // One length of an insertion is one level put.
  lemma InsertOneInLine(m: Memory, keys: seq<Key>, queue: seq<int>, held: int, kv: Cache, logits: Option<Logits>,
          top: nat, level: nat, now: int)
    requires InLine(m.cache, keys, queue, held, now) && Nested(keys) && 1 <= level <= top <= |keys|
    requires |keys[top - 1]| <= SeqLen(kv)
    ensures var c' := InsertOne(m, keys[top - 1], kv, logits, |keys[level - 1]|, now).cache;
      && InLine(c', keys, Put(queue, held, Room(m.cache.maxEntries, held), level), held, now)
      && c'.maxEntries == m.cache.maxEntries
  {
    hide Lines, UsedBy, LeastUsed, Find, Take, InsertOne, PlaceOf;
    var ids, n := keys[top - 1], |keys[level - 1]|;
    var entries, e := m.cache.entries, NewEntry(ids, kv, logits, n, now);
    var v := LeastUsed(entries);
    assert ids[..n] == keys[level - 1];
    HasAt(m.cache, keys, level);
    LinedLevels(entries, keys, queue, held, level);
    LineLength(entries, keys, queue, held);
    InsertOneIs(m, ids, kv, logits, n, now);
    if PlaceOf(entries, keys, level) >= |entries| {
      AtMost(entries, keys, level);
      if |entries| < m.cache.maxEntries {
        LinesAppended(entries, keys, queue, held, level, e, now);
      } else {
        FirstIsLeastUsed(entries, keys, queue, held);
        LinesDropped(entries, keys, queue, held, v);
        UsedByWithout(entries, v, now);
        AtGone(entries, keys, v, level);
        LinesAppended(Without(entries, v), keys, queue[1..], held, level, e, now);
      }
    }
  }

  lemma HasAt(c: Prefixes, keys: seq<Key>, level: int)
    requires 1 <= level <= |keys|
    ensures Has(c, keys[level - 1]) <==> PlaceOf(c.entries, keys, level) < |c.entries|
  {
  }

  lemma AtMost(entries: seq<Entry>, keys: seq<Key>, level: int)
    ensures PlaceOf(entries, keys, level) <= |entries|
  {
  }

  lemma LineLength(entries: seq<Entry>, keys: seq<Key>, queue: seq<int>, held: int)
    requires Lines(entries, keys, queue, held)
    ensures |entries| == |queue| + (if held == 0 then 0 else 1)
  {
  }

  lemma {:induction false} InsertDownInLine(m: Memory, keys: seq<Key>, queue: seq<int>, held: int, kv: Cache,
          logits: Option<Logits>, top: nat, level: nat, now: int)
    requires InLine(m.cache, keys, queue, held, now) && Nested(keys) && level <= top <= |keys| && top >= 1
    requires |keys[top - 1]| <= SeqLen(kv)
    ensures var c' := InsertAll(m, keys[top - 1], kv, logits, LengthsUpTo(keys, level), now).cache;
      && InLine(c', keys, PutDown(queue, held, Room(m.cache.maxEntries, held), level), held, now)
      && c'.maxEntries == m.cache.maxEntries
    decreases level
  {
    hide InLine, InsertOne, InsertAll, Put;
    var lengths := LengthsUpTo(keys, level);
    if level == 0 {
      InsertNothing(m, keys[top - 1], kv, logits, now);
      assert lengths == [];
    } else {
      var room := Room(m.cache.maxEntries, held);
      var m1 := InsertOne(m, keys[top - 1], kv, logits, |keys[level - 1]|, now);
      InsertOneInLine(m, keys, queue, held, kv, logits, top, level, now);
      InsertFirst(m, keys[top - 1], kv, logits, lengths, now);
      assert lengths[1..] == LengthsUpTo(keys, level - 1);
      InsertDownInLine(m1, keys, Put(queue, held, room, level), held, kv, logits, top, level - 1, now);
    }
  }

  lemma InsertNothing(m: Memory, ids: Key, kv: Cache, logits: Option<Logits>, now: int)
    ensures InsertAll(m, ids, kv, logits, [], now) == m
  {
  }

  // An insertion of one of the prefixes is a walk down the levels.
  lemma InsertInLine(m: Memory, keys: seq<Key>, queue: seq<int>, held: int, kv: Cache, logits: Option<Logits>,
          top: nat, now: int)
    requires InLine(m.cache, keys, queue, held, now) && Ladder(m.cache, keys) && 1 <= top <= |keys|
    requires SeqLen(kv) == |keys[top - 1]| >= m.cache.minTokens
    ensures var c' := Insert(m, keys[top - 1], kv, logits, now).cache;
      && InLine(c', keys, PutDown(queue, held, Room(m.cache.maxEntries, held), top), held, now)
      && c'.maxEntries == m.cache.maxEntries
  {
    hide InLine, InsertAll, CandidateLengths;
    InsertDownInLine(m, keys, queue, held, kv, logits, top, top, now);
  }

  // ---- A reference taken and given back ----

  lemma AtUpdated(entries: seq<Entry>, i: nat, e: Entry, keys: seq<Key>, level: int)
    requires i < |entries| && e.tokenIds == entries[i].tokenIds
    ensures PlaceOf(entries[i := e], keys, level) == PlaceOf(entries, keys, level)
  {
    var after := entries[i := e];
    assert forall j :: 0 <= j < |entries| ==> after[j].tokenIds == entries[j].tokenIds;
    if 1 <= level <= |keys| {
      var j, k := Find(entries, keys[level - 1]), Find(after, keys[level - 1]);
      assert j < |entries| ==> after[j].tokenIds == keys[level - 1];
      assert k < |entries| ==> entries[k].tokenIds == keys[level - 1];
    }
  }

  lemma DistinctUpdated(entries: seq<Entry>, i: nat, e: Entry)
    requires Distinct(entries) && i < |entries| && e.tokenIds == entries[i].tokenIds
    ensures Distinct(entries[i := e])
  {
  }

  function WithoutAt(queue: seq<int>, a: nat): seq<int>
    requires a < |queue|
  {
    queue[..a] + queue[a + 1..]
  }

  // A lookup takes one entry out of the queue.
  lemma LinesHold(entries: seq<Entry>, keys: seq<Key>, queue: seq<int>, a: nat, i: nat, e: Entry)
    requires Lines(entries, keys, queue, 0) && a < |queue| && queue[a] != 0 && i == PlaceOf(entries, keys, queue[a])
    requires i < |entries| && e.tokenIds == entries[i].tokenIds && e.refs > 0
    ensures Lines(entries[i := e], keys, WithoutAt(queue, a), queue[a])
  {
    hide Find, PlaceOf, Distinct;
    var after, rest := entries[i := e], WithoutAt(queue, a);
    DistinctUpdated(entries, i, e);
    forall k ensures PlaceOf(after, keys, k) == PlaceOf(entries, keys, k) { AtUpdated(entries, i, e, keys, k); }
    forall b | 0 <= b < |queue| && b != a ensures PlaceOf(entries, keys, queue[b]) != i {
      assert b < a ==> Before(entries, PlaceOf(entries, keys, queue[b]), i);
      assert b > a ==> Before(entries, i, PlaceOf(entries, keys, queue[b]));
    }
    assert forall b :: 0 <= b < |rest| ==> rest[b] == queue[if b < a then b else b + 1];
    forall k | 0 <= k < |after| ensures Lined(after, keys, rest, queue[a], k) {
      assert Lined(entries, keys, queue, 0, k);
      NoLevel(entries, keys);
      var b :| 0 <= b < |queue| && PlaceOf(entries, keys, queue[b]) == k;
      if b != a { assert rest[if b < a then b else b - 1] == queue[b]; }
    }
    forall b, c | 0 <= b < c < |rest|
      ensures Before(after, PlaceOf(after, keys, rest[b]), PlaceOf(after, keys, rest[c]))
    {
      var b', c' := if b < a then b else b + 1, if c < a then c else c + 1;
      assert Before(entries, PlaceOf(entries, keys, queue[b']), PlaceOf(entries, keys, queue[c']));
    }
  }

  // A release puts it back where its last use says.
  lemma LinesRelease(entries: seq<Entry>, keys: seq<Key>, front: seq<int>, back: seq<int>, held: int, i: nat, e: Entry)
    requires Lines(entries, keys, front + back, held) && held != 0 && i == PlaceOf(entries, keys, held) && i < |entries|
    requires e.tokenIds == entries[i].tokenIds && e.refs == 0 && e.lastUsed == entries[i].lastUsed
    requires forall a :: 0 <= a < |front| ==> Before(entries, PlaceOf(entries, keys, front[a]), i)
    requires forall a :: 0 <= a < |back| ==> Before(entries, i, PlaceOf(entries, keys, back[a]))
    ensures Lines(entries[i := e], keys, front + [held] + back, 0)
  {
    hide Find, PlaceOf, Distinct;
    var after, was, queue := entries[i := e], front + back, front + [held] + back;
    var f := |front|;
    DistinctUpdated(entries, i, e);
    forall k ensures PlaceOf(after, keys, k) == PlaceOf(entries, keys, k) { AtUpdated(entries, i, e, keys, k); }
    assert queue[f] == held && forall a :: 0 <= a < |queue| && a != f ==> queue[a] == was[if a < f then a else a - 1];
    forall a | 0 <= a < |was| ensures PlaceOf(entries, keys, was[a]) != i {
      assert entries[PlaceOf(entries, keys, was[a])].refs == 0;
    }
    forall k | 0 <= k < |after| ensures Lined(after, keys, queue, 0, k) {
      assert Lined(entries, keys, was, held, k);
      if k == i {
        assert PlaceOf(after, keys, queue[f]) == k;
      } else {
        var b :| 0 <= b < |was| && PlaceOf(entries, keys, was[b]) == k;
        assert queue[if b < f then b else b + 1] == was[b];
      }
    }
    forall b, c | 0 <= b < c < |queue|
      ensures Before(after, PlaceOf(after, keys, queue[b]), PlaceOf(after, keys, queue[c]))
    {
      ReleasedOrder(entries, keys, front, back, held, i, b, c);
    }
  }

  lemma ReleasedOrder(entries: seq<Entry>, keys: seq<Key>, front: seq<int>, back: seq<int>, held: int, i: nat,
          b: nat, c: nat)
    requires Lines(entries, keys, front + back, held) && i == PlaceOf(entries, keys, held) && b < c <= |front| + |back|
    requires forall a :: 0 <= a < |front| ==> Before(entries, PlaceOf(entries, keys, front[a]), i)
    requires forall a :: 0 <= a < |back| ==> Before(entries, i, PlaceOf(entries, keys, back[a]))
    ensures var queue := front + [held] + back;
      Before(entries, PlaceOf(entries, keys, queue[b]), PlaceOf(entries, keys, queue[c]))
  {
    hide Find, PlaceOf, Distinct, Lined, Before;
    var was, queue, f := front + back, front + [held] + back, |front|;
    if b == f {
      assert queue[c] == back[c - f - 1];
    } else if c == f {
      assert queue[b] == front[b];
    } else {
      var b', c' := if b < f then b else b - 1, if c < f then c else c - 1;
      assert queue[b] == was[b'] && queue[c] == was[c'];
    }
  }
}
