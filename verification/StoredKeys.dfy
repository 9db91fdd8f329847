// Which lengths of a prompt can be found stored? An insertion goes through the candidate lengths
// from the longest to the shortest, and each new entry may push out the ones before it; so a key
// with too many candidate lengths below it does not outlive its own insertion.
module StoredKeys {
  import opened Common
  import opened KvCache
  import opened LanguageModel
  import opened Engines
  import opened Sequences
  import opened BlockPool
  import opened PrefixCache
  import opened PrefixLaws
  import opened PrefixOps
  import opened Scheduler
  import opened Lifecycle

  // A key outlives its insertion only with so many candidate lengths, itself included.
  function StoreLimit(maxEntries: Pos): nat {
    if maxEntries <= 2 then maxEntries else 2 * maxEntries - 2
  }

  predicate Storable(c: Prefixes, n: nat) {
    |CandidateLengths(c, n)| <= StoreLimit(c.maxEntries)
  }

  ghost predicate KeysStorable(c: Prefixes) {
    forall i :: 0 <= i < |c.entries| ==> Storable(c, |c.entries[i].tokenIds|)
  }

  // ---- Candidate lengths, from any of them on ----

  // The multiples of the block size from j blocks down to min_tokens.
  function Multiples(c: Prefixes, j: nat): seq<nat> {
    if j == 0 || j * c.blockSize < c.minTokens then [] else [j * c.blockSize] + Multiples(c, j - 1)
  }

  lemma {:induction false} DownIsMultiples(c: Prefixes, j: nat, lengths: seq<nat>)
    requires forall k :: k in lengths ==> k > j * c.blockSize
    ensures AlignedDown(c, j, lengths) == lengths + Multiples(c, j)
  {
    if j == 0 || j * c.blockSize < c.minTokens {
      assert lengths + [] == lengths;
    } else {
      Less(j, c.blockSize);
      DownIsMultiples(c, j - 1, lengths + [j * c.blockSize]);
      assert lengths + [j * c.blockSize] + Multiples(c, j - 1) == lengths + Multiples(c, j);
    }
  }

  lemma Less(j: nat, b: Pos)
    requires j > 0
    ensures (j - 1) * b + b == j * b
  {
  }

  // Whole blocks that are shorter than n tokens.
  function BlocksBelow(b: Pos, n: Pos): nat {
    if n % b == 0 then n / b - 1 else n / b
  }

  // The length itself, then every whole number of blocks below it.
  lemma CandidatesAre(c: Prefixes, n: nat)
    requires n >= c.minTokens
    ensures CandidateLengths(c, n) == [n] + Multiples(c, BlocksBelow(c.blockSize, n))
  {
    var b, j := c.blockSize, n / c.blockSize;
    assert n == j * b + n % b;
    if n % b == 0 {
      WholeDown(c, j, n);
    } else {
      DownIsMultiples(c, j, [n]);
    }
  }

  // A whole number of blocks is not listed twice.
  lemma WholeDown(c: Prefixes, j: nat, n: nat)
    requires n == j * c.blockSize && n >= c.minTokens && j > 0
    ensures AlignedDown(c, j, [n]) == [n] + Multiples(c, j - 1)
  {
    Less(j, c.blockSize);
    DownIsMultiples(c, j - 1, [n]);
  }

  lemma WholeCandidates(c: Prefixes, j: nat)
    requires j > 0 && j * c.blockSize >= c.minTokens
    ensures CandidateLengths(c, j * c.blockSize) == Multiples(c, j)
  {
    CandidatesAre(c, j * c.blockSize);
    Whole(j, c.blockSize);
  }

  lemma NoMultipleInside(d: int, b: Pos)
    ensures d >= 1 ==> d * b >= b
    ensures d <= -1 ==> d * b <= 0 - b
  {
    if d >= 1 { assert (d - 1) * b >= 0; }
    if d <= -1 { assert (-1 - d) * b >= 0; }
  }

  lemma Whole(j: nat, b: Pos)
    ensures (j * b) % b == 0 && (j * b) / b == j
  {
    var d := (j * b) / b - j;
    assert d * b == (j * b) / b * b - j * b == -((j * b) % b);
    NoMultipleInside(d, b);
  }

  lemma {:induction false} MultiplesFrom(c: Prefixes, j: nat, i: nat)
    requires i < |Multiples(c, j)|
    ensures i < j && Multiples(c, j)[i] == (j - i) * c.blockSize >= c.minTokens
    ensures Multiples(c, j)[i..] == Multiples(c, j - i)
  {
    if i > 0 {
      MultiplesFrom(c, j - 1, i - 1);
      assert Multiples(c, j)[i..] == Multiples(c, j - 1)[i - 1..];
    }
  }

  // The candidates of the i-th candidate are the ones from there on.
  lemma CandidatesFrom(c: Prefixes, n: nat, i: nat)
    requires i < |CandidateLengths(c, n)|
    ensures CandidateLengths(c, CandidateLengths(c, n)[i]) == CandidateLengths(c, n)[i..]
  {
    CandidateLengthsAre(c, n);
    CandidatesAre(c, n);
    if i > 0 {
      var j := BlocksBelow(c.blockSize, n);
      MultiplesFrom(c, j, i - 1);
      WholeCandidates(c, j - (i - 1));
      assert CandidateLengths(c, n)[i..] == Multiples(c, j)[i - 1..];
    }
  }

  lemma BlocksBelowIs(b: Pos, n: Pos)
    ensures BlocksBelow(b, n) * b < n <= (BlocksBelow(b, n) + 1) * b
  {
    assert n == n / b * b + n % b;
    if n % b == 0 { Less(n / b, b); } else { Less(n / b + 1, b); }
  }

  // ---- One length of an insertion ----

  function NewEntry(ids: Key, kv: Cache, logits: Option<Logits>, n: nat, now: int): Entry
    requires n <= SeqLen(kv) && n <= |ids|
  {
    Entry(ids[..n], Take(kv, n), if n == |ids| then logits else None, [], 0, now)
  }

  lemma {:induction false} LeastUsedIsFirst(entries: seq<Entry>)
    ensures var v := LeastUsed(entries);
      v < |entries| ==> forall j :: 0 <= j < v && entries[j].refs == 0 ==> entries[v].lastUsed < entries[j].lastUsed
  {
    if entries != [] {
      var k := |entries| - 1;
      LeastUsedIsFirst(entries[..k]);
      assert forall j :: 0 <= j < k ==> entries[..k][j] == entries[j];
    }
  }

  // A full cache gives up one entry, if any is unreferenced.
  lemma EvictEntries(m: Memory)
    requires |m.cache.entries| <= m.cache.maxEntries
    ensures Evict(m).cache.maxEntries == m.cache.maxEntries
    ensures var v := LeastUsed(m.cache.entries);
      if |m.cache.entries| < m.cache.maxEntries || v == |m.cache.entries| then Evict(m) == m
      else Evict(m).cache.entries == Without(m.cache.entries, v)
  {
    hide Unpin, LeastUsed;
    var v := LeastUsed(m.cache.entries);
    if |m.cache.entries| == m.cache.maxEntries && v < |m.cache.entries| {
      var u := UnpinBlocks(m, m.cache.entries[v].blockIds);
      var u' := u.(cache := u.cache.(entries := Without(m.cache.entries, v)));
      assert Evict(u') == u';
    }
  }

  lemma InsertOneIs(m: Memory, ids: Key, kv: Cache, logits: Option<Logits>, n: nat, now: int)
    requires |m.cache.entries| <= m.cache.maxEntries && n <= SeqLen(kv) && n <= |ids|
    ensures var m' := InsertOne(m, ids, kv, logits, n, now);
      var entries, v := m.cache.entries, LeastUsed(m.cache.entries);
      && m'.cache.maxEntries == m.cache.maxEntries && |m'.cache.entries| <= m.cache.maxEntries
      && if Has(m.cache, ids[..n]) then m' == m
         else if |entries| < m.cache.maxEntries then m'.cache.entries == entries + [NewEntry(ids, kv, logits, n, now)]
         else if v < |entries| then m'.cache.entries == Without(entries, v) + [NewEntry(ids, kv, logits, n, now)]
         else m' == m
  {
    hide Evict, Take, LeastUsed;
    EvictEntries(m);
  }

  lemma {:induction false} InsertAllConcat(m: Memory, ids: Key, kv: Cache, logits: Option<Logits>, a: seq<nat>,
          b: seq<nat>, now: int)
    ensures InsertAll(m, ids, kv, logits, a + b, now) ==
      InsertAll(InsertAll(m, ids, kv, logits, a, now), ids, kv, logits, b, now)
  {
    hide InsertOne;
    if b == [] {
      assert a + b == a;
    } else {
      var k := |b| - 1;
      InsertAllConcat(m, ids, kv, logits, a, b[..k], now);
      assert (a + b)[..|a + b| - 1] == a + b[..k];
    }
  }

  lemma InsertFirst(m: Memory, ids: Key, kv: Cache, logits: Option<Logits>, lengths: seq<nat>, now: int)
    requires lengths != []
    ensures InsertAll(m, ids, kv, logits, lengths, now) ==
      InsertAll(InsertOne(m, ids, kv, logits, lengths[0], now), ids, kv, logits, lengths[1..], now)
  {
    hide InsertOne;
    var one := [lengths[0]];
    assert one[..0] == [] && one + lengths[1..] == lengths;
    InsertAllConcat(m, ids, kv, logits, one, lengths[1..], now);
    assert InsertAll(m, ids, kv, logits, one, now) ==
      InsertOne(InsertAll(m, ids, kv, logits, [], now), ids, kv, logits, lengths[0], now);
  }

  // ---- Outliving the rest of the insertion ----

  ghost predicate Inside(ids: Key, lengths: seq<nat>) {
    forall r :: r in lengths ==> r <= |ids|
  }

  lemma Shorter(ids: Key, lengths: seq<nat>)
    requires Inside(ids, lengths) && lengths != []
    ensures Inside(ids, lengths[1..]) && lengths[0] in lengths && lengths[0] <= |ids|
    ensures forall r :: r in lengths[1..] ==> r in lengths
    ensures NoDup(lengths) ==> NoDup(lengths[1..]) && lengths[0] !in lengths[1..]
  {
    forall r | r in lengths[1..] ensures r in lengths {
      var i :| 0 <= i < |lengths[1..]| && lengths[1..][i] == r;
      assert lengths[i + 1] == r;
    }
  }

  // How many of the prefixes are keys of the entries.
  ghost function Present(ids: Key, lengths: seq<nat>, entries: seq<Entry>): nat
    requires Inside(ids, lengths)
  {
    if lengths == [] then 0
    else
      Shorter(ids, lengths);
      (if Find(entries, ids[..lengths[0]]) < |entries| then 1 else 0) + Present(ids, lengths[1..], entries)
  }

  ghost predicate SomeReferenced(entries: seq<Entry>, p: nat) {
    exists i :: 0 <= i < p && i < |entries| && entries[i].refs > 0
  }

  // From position p on, entries that the insertion going on has put there.
  ghost predicate JustStored(entries: seq<Entry>, p: nat, now: int) {
    forall j :: p <= j < |entries| ==> entries[j].refs == 0 && entries[j].lastUsed == now
  }

  // From position p on, none of the prefixes of these lengths.
  ghost predicate NoneOf(ids: Key, lengths: seq<nat>, entries: seq<Entry>, p: nat)
    requires Inside(ids, lengths)
  {
    forall r, j :: r in lengths && p <= j < |entries| ==> entries[j].tokenIds != ids[..r]
  }

  lemma {:induction false} PresentFewer(ids: Key, lengths: seq<nat>, entries: seq<Entry>, v: nat)
    requires Inside(ids, lengths) && v < |entries|
    ensures Present(ids, lengths, Without(entries, v)) <= Present(ids, lengths, entries)
  {
    if lengths != [] {
      Shorter(ids, lengths);
      PresentFewer(ids, lengths[1..], entries, v);
      var key := ids[..lengths[0]];
      FoundFewer(entries, v, key);
    }
  }

  lemma FoundFewer(entries: seq<Entry>, v: nat, key: Key)
    requires v < |entries|
    ensures Find(Without(entries, v), key) < |Without(entries, v)| ==> Find(entries, key) < |entries|
  {
    var rest := Without(entries, v);
    var i := Find(rest, key);
    if i < |rest| { assert entries[if i < v then i else i + 1] == rest[i]; }
  }

  lemma FoundOther(entries: seq<Entry>, v: nat, key: Key)
    requires v < |entries| && entries[v].tokenIds != key && Find(entries, key) < |entries|
    ensures Find(Without(entries, v), key) < |Without(entries, v)|
  {
    var i := Find(entries, key);
    assert Without(entries, v)[if i < v then i else i - 1] == entries[i];
  }

  lemma {:induction false} PresentWithout(ids: Key, lengths: seq<nat>, entries: seq<Entry>, v: nat)
    requires Inside(ids, lengths) && v < |entries| && forall r :: r in lengths ==> ids[..r] != entries[v].tokenIds
    ensures Present(ids, lengths, entries) <= Present(ids, lengths, Without(entries, v))
  {
    if lengths != [] {
      Shorter(ids, lengths);
      PresentWithout(ids, lengths[1..], entries, v);
      if Find(entries, ids[..lengths[0]]) < |entries| { FoundOther(entries, v, ids[..lengths[0]]); }
    }
  }

  // Different lengths are different keys, so no more of them are present than there are entries.
  lemma {:induction false} PresentBounded(ids: Key, lengths: seq<nat>, entries: seq<Entry>)
    requires Inside(ids, lengths) && NoDup(lengths)
    ensures Present(ids, lengths, entries) <= |entries|
    decreases |lengths|
  {
    if lengths != [] {
      Shorter(ids, lengths);
      var i := Find(entries, ids[..lengths[0]]);
      if i < |entries| {
        forall r | r in lengths[1..] ensures ids[..r] != entries[i].tokenIds { assert |ids[..r]| == r; }
        PresentWithout(ids, lengths[1..], entries, i);
        PresentBounded(ids, lengths[1..], Without(entries, i));
      } else {
        PresentBounded(ids, lengths[1..], entries);
      }
    }
  }

  lemma {:induction false} NonePresent(ids: Key, lengths: seq<nat>, entries: seq<Entry>)
    requires Inside(ids, lengths) && NoneOf(ids, lengths, entries, 0)
    ensures Present(ids, lengths, entries) == 0
  {
    if lengths != [] {
      Shorter(ids, lengths);
      NonePresent(ids, lengths[1..], entries);
    }
  }

  // Room for entries after the one at position p, if one that is referenced before it stays.
  ghost function RoomAfter(entries: seq<Entry>, p: nat, maxEntries: Pos): int {
    maxEntries - (|entries| - p) - if SomeReferenced(entries, p) then 1 else 0
  }

  // An insertion brings in no key but prefixes of these lengths.
  lemma BroughtIn(m: Memory, ids: Key, kv: Cache, logits: Option<Logits>, lengths: seq<nat>, now: int, key: Key)
    ensures Has(InsertAll(m, ids, kv, logits, lengths, now).cache, key) ==>
      Has(m.cache, key) || (key <= ids && |key| in lengths)
  {
    hide InsertAll;
    var entries := InsertAll(m, ids, kv, logits, lengths, now).cache.entries;
    InsertAddsOnlyPrefixes(m, ids, kv, logits, lengths, now);
    var i := Find(entries, key);
    if i < |entries| && entries[i] in m.cache.entries {
      var j :| 0 <= j < |m.cache.entries| && m.cache.entries[j] == entries[i];
    }
  }

  // Among entries of this insertion the earlier one is given up first.
  lemma EarlierGoesFirst(entries: seq<Entry>, p: nat, now: int)
    requires p < |entries| && JustStored(entries, p, now)
    ensures LeastUsed(entries) <= p
  {
    LeastUsedIsFirst(entries);
  }

  // ---- One more has come in ----

  ghost predicate Came(entries: seq<Entry>, p: nat, entries': seq<Entry>, p': nat, key: Key, now: int) {
    && p < |entries| && p' < |entries'| && entries'[p'] == entries[p]
    && |entries'| - p' == |entries| - p + 1
    && (forall j :: p <= j < |entries| ==> entries'[j - p + p'] == entries[j])
    && entries'[|entries'| - 1].tokenIds == key && entries'[|entries'| - 1].refs == 0
    && entries'[|entries'| - 1].lastUsed == now
  }

  lemma CameAppended(entries: seq<Entry>, p: nat, e: Entry, key: Key, now: int)
    requires p < |entries| && e.tokenIds == key && e.refs == 0 && e.lastUsed == now
    ensures Came(entries, p, entries + [e], p, key, now)
    ensures (entries + [e])[..p] == entries[..p]
    ensures SomeReferenced(entries + [e], p) == SomeReferenced(entries, p)
  {
  }

  lemma CameInPlace(entries: seq<Entry>, v: nat, p: nat, e: Entry, key: Key, now: int)
    requires v < p < |entries| && e.tokenIds == key && e.refs == 0 && e.lastUsed == now
    requires entries[v].refs == 0
    ensures Came(entries, p, Without(entries, v) + [e], p - 1, key, now)
    ensures (Without(entries, v) + [e])[..p - 1] == Without(entries[..p], v)
    ensures SomeReferenced(entries, p) ==> SomeReferenced(Without(entries, v) + [e], p - 1)
  {
    var rest := Without(entries, v);
    if SomeReferenced(entries, p) {
      var i :| 0 <= i < p && entries[i].refs > 0;
      assert (rest + [e])[if i < v then i else i - 1] == entries[i];
    }
  }

  lemma CameKeeps(ids: Key, rest: seq<nat>, entries: seq<Entry>, p: nat, entries': seq<Entry>, p': nat, now: int)
    requires Inside(ids, rest) && NoDup(rest) && rest != [] && JustStored(entries, p, now)
    requires NoneOf(ids, rest, entries, p)
    requires rest[0] <= |ids| && Came(entries, p, entries', p', ids[..rest[0]], now)
    ensures Inside(ids, rest[1..]) && JustStored(entries', p', now) && NoneOf(ids, rest[1..], entries', p')
  {
    Shorter(ids, rest);
    forall j | p' <= j < |entries'| - 1 ensures entries'[j] == entries[j - p' + p] { }
    forall r, j | r in rest[1..] && p' <= j < |entries'| ensures entries'[j].tokenIds != ids[..r] {
      assert |ids[..r]| == r;
    }
  }

  lemma DistinctStays(entries: seq<Entry>, v: nat, e: Entry)
    requires Distinct(entries) && v < |entries| && Find(entries, e.tokenIds) == |entries|
    ensures Distinct(Without(entries, v) + [e])
  {
    var rest := Without(entries, v);
    forall i, j | 0 <= i < j < |rest + [e]| ensures (rest + [e])[i].tokenIds != (rest + [e])[j].tokenIds {
      assert rest[i] == entries[if i < v then i else i + 1];
      if j < |rest| { assert rest[j] == entries[if j < v then j else j + 1]; }
    }
  }

  lemma FoundBefore(ids: Key, rest: seq<nat>, entries: seq<Entry>, p: nat)
    requires Inside(ids, rest) && rest != [] && NoneOf(ids, rest, entries, p) && p <= |entries|
    requires rest[0] <= |ids| && Find(entries, ids[..rest[0]]) < |entries|
    ensures Find(entries[..p], ids[..rest[0]]) < p
  {
    var i := Find(entries, ids[..rest[0]]);
    assert rest[0] in rest;
    assert i < p && entries[..p][i] == entries[i];
  }

  // In the middle of an insertion: position p holds an entry it has stored, `rest` is still to come.
  ghost predicate Standing(m: Memory, ids: Key, rest: seq<nat>, now: int, p: nat) {
    && p < |m.cache.entries| <= m.cache.maxEntries && Distinct(m.cache.entries)
    && Inside(ids, rest) && NoDup(rest)
    && JustStored(m.cache.entries, p, now) && NoneOf(ids, rest, m.cache.entries, p)
  }

  // Prefixes to come that the entries before it have already, and room behind it.
  ghost function Bearable(m: Memory, ids: Key, rest: seq<nat>, p: nat): int
    requires p <= |m.cache.entries| && Inside(ids, rest)
  {
    Present(ids, rest, m.cache.entries[..p]) + RoomAfter(m.cache.entries, p, m.cache.maxEntries)
  }

  lemma StandingEnds(m: Memory, ids: Key, now: int, p: nat)
    requires Standing(m, ids, [], now, p)
    ensures Bearable(m, ids, [], p) >= 0
  {
  }

  lemma StandsPresent(m: Memory, ids: Key, rest: seq<nat>, now: int, p: nat)
    requires Standing(m, ids, rest, now, p) && rest != [] && rest[0] <= |ids| && Has(m.cache, ids[..rest[0]])
    ensures Standing(m, ids, rest[1..], now, p) && Bearable(m, ids, rest, p) == 1 + Bearable(m, ids, rest[1..], p)
  {
    hide Distinct, JustStored, SomeReferenced;
    Shorter(ids, rest);
    FoundBefore(ids, rest, m.cache.entries, p);
  }

  lemma StandsAppended(m: Memory, m1: Memory, ids: Key, rest: seq<nat>, now: int, p: nat, e: Entry)
    requires Standing(m, ids, rest, now, p) && rest != [] && rest[0] <= |ids| && !Has(m.cache, ids[..rest[0]])
    requires |m.cache.entries| < m.cache.maxEntries == m1.cache.maxEntries && m1.cache.entries == m.cache.entries + [e]
    requires e.tokenIds == ids[..rest[0]] && e.refs == 0 && e.lastUsed == now
    ensures Standing(m1, ids, rest[1..], now, p) && Bearable(m, ids, rest, p) >= 1 + Bearable(m1, ids, rest[1..], p)
  {
    hide JustStored, SomeReferenced, NoneOf, Came;
    Shorter(ids, rest);
    CameAppended(m.cache.entries, p, e, e.tokenIds, now);
    CameKeeps(ids, rest, m.cache.entries, p, m1.cache.entries, p, now);
  }

  lemma StandsReplaced(m: Memory, m1: Memory, ids: Key, rest: seq<nat>, now: int, p: nat, v: nat, e: Entry)
    requires Standing(m, ids, rest, now, p) && rest != [] && rest[0] <= |ids| && !Has(m.cache, ids[..rest[0]])
    requires v < p && m.cache.entries[v].refs == 0
    requires m1.cache.maxEntries == m.cache.maxEntries && m1.cache.entries == Without(m.cache.entries, v) + [e]
    requires e.tokenIds == ids[..rest[0]] && e.refs == 0 && e.lastUsed == now
    ensures Standing(m1, ids, rest[1..], now, p - 1)
    ensures Bearable(m, ids, rest, p) >= 1 + Bearable(m1, ids, rest[1..], p - 1)
  {
    hide JustStored, SomeReferenced, NoneOf, Came, Distinct, Present, Find;
    Shorter(ids, rest);
    FindsNone(m.cache, ids[..rest[0]]);
    DistinctStays(m.cache.entries, v, e);
    CameInPlace(m.cache.entries, v, p, e, e.tokenIds, now);
    CameKeeps(ids, rest, m.cache.entries, p, m1.cache.entries, p - 1, now);
    PresentFewer(ids, rest[1..], m.cache.entries[..p], v);
    PresentTail(ids, rest, m.cache.entries[..p]);
  }

  lemma FindsNone(c: Prefixes, key: Key)
    requires !Has(c, key)
    ensures Find(c.entries, key) == |c.entries|
  {
  }

  lemma PresentTail(ids: Key, lengths: seq<nat>, entries: seq<Entry>)
    requires Inside(ids, lengths) && lengths != []
    ensures Inside(ids, lengths[1..]) && Present(ids, lengths, entries) >= Present(ids, lengths[1..], entries)
  {
    Shorter(ids, lengths);
  }

  // Once given up, it does not come back.
  lemma GivenUp(m: Memory, m1: Memory, ids: Key, kv: Cache, logits: Option<Logits>, rest: seq<nat>, now: int,
          p: nat, e: Entry)
    requires Standing(m, ids, rest, now, p) && rest != [] && rest[0] <= |ids| && e.tokenIds == ids[..rest[0]]
    requires m1.cache.entries == Without(m.cache.entries, p) + [e]
    ensures !Has(InsertAll(m1, ids, kv, logits, rest[1..], now).cache, m.cache.entries[p].tokenIds)
  {
    hide InsertAll;
    var entries := m.cache.entries;
    var key := entries[p].tokenIds;
    Shorter(ids, rest);
    BroughtIn(m1, ids, kv, logits, rest[1..], now, key);
    assert key <= ids ==> ids[..|key|] == key;
    forall j | 0 <= j < |entries| - 1 ensures m1.cache.entries[j].tokenIds != key {
      assert m1.cache.entries[j] == entries[if j < p then j else j + 1];
    }
  }

  // An entry that this insertion has stored at position p is there at the end only if what comes
  // after it is present already or finds room behind it.
  lemma {:induction false} Outlasts(m: Memory, ids: Key, kv: Cache, logits: Option<Logits>, rest: seq<nat>,
          now: int, p: nat)
    requires Standing(m, ids, rest, now, p) && |ids| <= SeqLen(kv)
    requires Has(InsertAll(m, ids, kv, logits, rest, now).cache, m.cache.entries[p].tokenIds)
    ensures |rest| <= Bearable(m, ids, rest, p)
    decreases |rest|
  {
    hide InsertAll, InsertOne, Has, Standing, Bearable, LeastUsed;
    if rest == [] {
      StandingEnds(m, ids, now, p);
    } else {
      StandingSizes(m, ids, rest, now, p);
      var m1 := InsertOne(m, ids, kv, logits, rest[0], now);
      InsertFirst(m, ids, kv, logits, rest, now);
      InsertOneIs(m, ids, kv, logits, rest[0], now);
      var v := LeastUsed(m.cache.entries);
      var e := NewEntry(ids, kv, logits, rest[0], now);
      if Has(m.cache, ids[..rest[0]]) {
        StandsPresent(m, ids, rest, now, p);
        Outlasts(m, ids, kv, logits, rest[1..], now, p);
      } else if |m.cache.entries| < m.cache.maxEntries {
        StandsAppended(m, m1, ids, rest, now, p, e);
        Outlasts(m1, ids, kv, logits, rest[1..], now, p);
      } else {
        if v == p { GivenUp(m, m1, ids, kv, logits, rest, now, p, e); }
        if v < p {
          StandsReplaced(m, m1, ids, rest, now, p, v, e);
          Outlasts(m1, ids, kv, logits, rest[1..], now, p - 1);
        }
      }
    }
  }

  lemma StandingSizes(m: Memory, ids: Key, rest: seq<nat>, now: int, p: nat)
    requires Standing(m, ids, rest, now, p) && rest != []
    ensures p < |m.cache.entries| <= m.cache.maxEntries && rest[0] <= |ids| && LeastUsed(m.cache.entries) <= p
  {
    Shorter(ids, rest);
    EarlierGoesFirst(m.cache.entries, p, now);
  }

  // ---- A whole insertion ----

  // What precedes an insertion: the sequence holds a reference to some entry, or it found none.
  ghost predicate BoundOrMissed(c: Prefixes, ids: Key) {
    (exists key :: RefsOf(c, key) > 0) || Peek(c, ids).None?
  }

  lemma Halves(lengths: seq<nat>, i: nat)
    requires i < |lengths| && NoDup(lengths)
    ensures lengths[..i] + [lengths[i]] + lengths[i + 1..] == lengths
    ensures NoDup(lengths[i + 1..]) && (forall r :: r in lengths[i + 1..] ==> r in lengths)
    ensures lengths[i] !in lengths[i + 1..] && (forall r :: r in lengths[i + 1..] ==> r !in lengths[..i])
    ensures lengths[i] !in lengths[..i] && (forall r :: r in lengths[..i] ==> r in lengths)
  {
  }

  // Midway in an insertion: the lengths before i are through, and the i-th is next.
  ghost function Midway(lm: Lm, m: Memory, ids: Key, logits: Option<Logits>, now: int, i: nat): Memory
    requires i <= |CandidateLengths(m.cache, |ids|)|
  {
    InsertAll(m, ids, KvOf(lm, ids), logits, CandidateLengths(m.cache, |ids|)[..i], now)
  }

  lemma MidwayKeeps(lm: Lm, m: Memory, ids: Key, logits: Option<Logits>, now: int, i: nat)
    requires Inv(m) && AllMean(lm, m.cache.entries) && ids != [] && (logits.Some? ==> logits.value == LogitsOf(lm, ids))
    requires i <= |CandidateLengths(m.cache, |ids|)|
    ensures var m0 := Midway(lm, m, ids, logits, now, i);
      Inv(m0) && SameConfig(m, m0) && RefsMove(m.cache, m0.cache, None, None)
  {
    hide Inv, AllMean, KvOf, LogitsOf, RefsMove, InsertAll;
    var lengths := CandidateLengths(m.cache, |ids|);
    CandidateLengthsAre(m.cache, |ids|);
    assert forall r :: r in lengths[..i] ==> r in lengths;
    InsertAllKeeps(lm, m, ids, KvOf(lm, ids), logits, lengths[..i], now);
  }

  lemma MidwayNext(lm: Lm, m: Memory, ids: Key, logits: Option<Logits>, now: int, i: nat)
    requires i < |CandidateLengths(m.cache, |ids|)|
    ensures var lengths, kv := CandidateLengths(m.cache, |ids|), KvOf(lm, ids);
      var m0, m1 := Midway(lm, m, ids, logits, now, i), Midway(lm, m, ids, logits, now, i + 1);
      && m1 == InsertOne(m0, ids, kv, logits, lengths[i], now)
      && InsertAll(m, ids, kv, logits, lengths, now) == InsertAll(m1, ids, kv, logits, lengths[i + 1..], now)
  {
    hide KvOf, InsertOne, CandidateLengths;
    var lengths, kv := CandidateLengths(m.cache, |ids|), KvOf(lm, ids);
    assert lengths[..i + 1][..i] == lengths[..i];
    assert lengths[..i + 1] + lengths[i + 1..] == lengths;
    InsertAllConcat(m, ids, kv, logits, lengths[..i + 1], lengths[i + 1..], now);
  }

  lemma CandidatesInside(c: Prefixes, ids: Key)
    ensures Inside(ids, CandidateLengths(c, |ids|))
  {
    hide CandidateLengths, WholeBlocks;
    CandidateLengthsAre(c, |ids|);
    var lengths := CandidateLengths(c, |ids|);
    forall r | r in lengths ensures r <= |ids| {
      assert r in lengths <==> c.minTokens <= r <= |ids| && (r == |ids| || WholeBlocks(c, r, |ids| / c.blockSize));
    }
  }

  lemma InsideFewer(ids: Key, lengths: seq<nat>, fewer: seq<nat>)
    requires Inside(ids, lengths) && forall r :: r in fewer ==> r in lengths
    ensures Inside(ids, fewer)
  {
  }

  // The i-th prefix comes in as the last entry, or not at all.
  lemma ComesInLast(lm: Lm, m: Memory, ids: Key, logits: Option<Logits>, now: int, i: nat)
    requires Inv(m) && AllMean(lm, m.cache.entries) && ids != [] && (logits.Some? ==> logits.value == LogitsOf(lm, ids))
    requires i < |CandidateLengths(m.cache, |ids|)| && CandidateLengths(m.cache, |ids|)[i] <= |ids|
    requires var lengths := CandidateLengths(m.cache, |ids|);
      && !Has(m.cache, ids[..lengths[i]])
      && Has(InsertAll(m, ids, KvOf(lm, ids), logits, lengths, now).cache, ids[..lengths[i]])
    ensures var m1, lengths := Midway(lm, m, ids, logits, now, i + 1), CandidateLengths(m.cache, |ids|);
      && m1.cache.entries != [] && Standing(m1, ids, lengths[i + 1..], now, |m1.cache.entries| - 1)
      && m1.cache.entries[|m1.cache.entries| - 1].tokenIds == ids[..lengths[i]]
  {
    hide Inv, AllMean, KvOf, LogitsOf, InsertAll, InsertOne, CandidateLengths, Midway, NoDup, LeastUsed, Take, Has;
    var lengths, kv := CandidateLengths(m.cache, |ids|), KvOf(lm, ids);
    var m0, m1 := Midway(lm, m, ids, logits, now, i), Midway(lm, m, ids, logits, now, i + 1);
    CandidateLengthsAre(m.cache, |ids|);
    Halves(lengths, i);
    MidwayKeeps(lm, m, ids, logits, now, i);
    MidwayKeeps(lm, m, ids, logits, now, i + 1);
    MidwayNext(lm, m, ids, logits, now, i);
    InvSizes(m0);
    InvSizes(m1);
    InsertOneIs(m0, ids, kv, logits, lengths[i], now);
    NotYet(lm, m, ids, logits, now, i);
    BroughtIn(m1, ids, kv, logits, lengths[i + 1..], now, ids[..lengths[i]]);
    CandidatesInside(m.cache, ids);
    InsideFewer(ids, lengths, lengths[i + 1..]);
    LastStands(m1, ids, lengths[i + 1..], now, lengths[i]);
  }

  lemma LastStands(m: Memory, ids: Key, rest: seq<nat>, now: int, n: nat)
    requires m.cache.entries != [] && |m.cache.entries| <= m.cache.maxEntries && Distinct(m.cache.entries)
    requires Inside(ids, rest) && NoDup(rest) && n !in rest && n <= |ids|
    requires var e := m.cache.entries[|m.cache.entries| - 1]; e.tokenIds == ids[..n] && e.refs == 0 && e.lastUsed == now
    ensures Standing(m, ids, rest, now, |m.cache.entries| - 1)
  {
    hide NoDup, Distinct;
    forall r | r in rest ensures ids[..r] != ids[..n] { assert |ids[..r]| == r && |ids[..n]| == n; }
  }

  lemma InvSizes(m: Memory)
    requires Inv(m)
    ensures |m.cache.entries| <= m.cache.maxEntries && Distinct(m.cache.entries)
  {
  }

  lemma NotYet(lm: Lm, m: Memory, ids: Key, logits: Option<Logits>, now: int, i: nat)
    requires i < |CandidateLengths(m.cache, |ids|)| && CandidateLengths(m.cache, |ids|)[i] <= |ids|
    requires !Has(m.cache, ids[..CandidateLengths(m.cache, |ids|)[i]])
    ensures !Has(Midway(lm, m, ids, logits, now, i).cache, ids[..CandidateLengths(m.cache, |ids|)[i]])
  {
    hide KvOf, InsertAll, CandidateLengths;
    var lengths := CandidateLengths(m.cache, |ids|);
    CandidateLengthsAre(m.cache, |ids|);
    Halves(lengths, i);
    BroughtIn(m, ids, KvOf(lm, ids), logits, lengths[..i], now, ids[..lengths[i]]);
  }

  lemma NoneOfThese(lm: Lm, m: Memory, ids: Key, logits: Option<Logits>, now: int, i: nat)
    requires i <= |CandidateLengths(m.cache, |ids|)| && Peek(m.cache, ids).None?
    ensures var lengths, m0 := CandidateLengths(m.cache, |ids|), Midway(lm, m, ids, logits, now, i);
      Inside(ids, lengths[i..]) && NoneOf(ids, lengths[i..], m0.cache.entries, 0)
  {
    hide KvOf, InsertAll, CandidateLengths;
    var lengths, m0 := CandidateLengths(m.cache, |ids|), Midway(lm, m, ids, logits, now, i);
    CandidateLengthsAre(m.cache, |ids|);
    PeekFromIsLongest(m.cache, ids, |ids|);
    forall r | r in lengths[i..] ensures r <= |ids| && !Has(m0.cache, ids[..r]) {
      var k :| i <= k < |lengths| && lengths[k] == r;
      assert r in lengths && r !in lengths[..i];
      BroughtIn(m, ids, KvOf(lm, ids), logits, lengths[..i], now, ids[..r]);
    }
  }

  lemma StandsAfterReference(c: Prefixes, key: Key)
    requires c.entries != [] && c.entries[|c.entries| - 1].refs == 0 && RefsOf(c, key) > 0
    ensures SomeReferenced(c.entries, |c.entries| - 1)
  {
    assert c.entries[Find(c.entries, key)].refs > 0;
  }

  lemma NoneOfBefore(ids: Key, rest: seq<nat>, entries: seq<Entry>, p: nat)
    requires Inside(ids, rest) && NoneOf(ids, rest, entries, 0) && p <= |entries|
    ensures NoneOf(ids, rest, entries[..p], 0)
  {
  }

  lemma StandingParts(m: Memory, ids: Key, rest: seq<nat>, now: int, p: nat)
    requires Standing(m, ids, rest, now, p)
    ensures p < |m.cache.entries| <= m.cache.maxEntries && m.cache.entries[p].refs == 0 && Inside(ids, rest)
    ensures NoDup(rest)
  {
  }

  // So the i-th prefix is there at the end only if the candidates from it on are few.
  lemma StoredIsStorable(lm: Lm, m: Memory, ids: Key, logits: Option<Logits>, now: int, i: nat)
    requires Inv(m) && AllMean(lm, m.cache.entries) && ids != [] && (logits.Some? ==> logits.value == LogitsOf(lm, ids))
    requires i < |CandidateLengths(m.cache, |ids|)| && CandidateLengths(m.cache, |ids|)[i] <= |ids|
    requires BoundOrMissed(m.cache, ids)
    requires var lengths := CandidateLengths(m.cache, |ids|);
      && !Has(m.cache, ids[..lengths[i]])
      && Has(InsertAll(m, ids, KvOf(lm, ids), logits, lengths, now).cache, ids[..lengths[i]])
    ensures Storable(m.cache, CandidateLengths(m.cache, |ids|)[i])
  {
    hide Inv, AllMean, KvOf, LogitsOf, InsertAll, CandidateLengths, Midway, NoDup, Has, Standing, RefsOf, Peek, NoneOf;
    var lengths := CandidateLengths(m.cache, |ids|);
    var m1 := Midway(lm, m, ids, logits, now, i + 1);
    CandidatesFrom(m.cache, |ids|, i);
    ComesInLast(lm, m, ids, logits, now, i);
    var p: nat, rest := |m1.cache.entries| - 1, lengths[i + 1..];
    MidwayKeeps(lm, m, ids, logits, now, i + 1);
    MidwayNext(lm, m, ids, logits, now, i);
    Outlasts(m1, ids, KvOf(lm, ids), logits, rest, now, p);
    StandingParts(m1, ids, rest, now, p);
    if Peek(m.cache, ids).None? {
      NoneOfThese(lm, m, ids, logits, now, i + 1);
      NoneOfBefore(ids, rest, m1.cache.entries, p);
      NonePresent(ids, rest, m1.cache.entries[..p]);
    } else {
      var key :| RefsOf(m.cache, key) > 0;
      assert RefsOf(m1.cache, key) > 0;
      StandsAfterReference(m1.cache, key);
      PresentBounded(ids, rest, m1.cache.entries[..p]);
    }
  }

  // ---- Every insertion keeps the stored keys storable ----

  ghost predicate SameLimits(c: Prefixes, c': Prefixes) {
    c'.maxEntries == c.maxEntries && c'.minTokens == c.minTokens && c'.blockSize == c.blockSize
  }

  lemma {:induction false} SameDown(c: Prefixes, c': Prefixes, blocks: nat, lengths: seq<nat>)
    requires SameLimits(c, c')
    ensures AlignedDown(c', blocks, lengths) == AlignedDown(c, blocks, lengths)
  {
    var aligned := blocks * c.blockSize;
    if aligned >= c.minTokens && blocks > 0 {
      SameDown(c, c', blocks - 1, if aligned !in lengths then lengths + [aligned] else lengths);
    }
  }

  lemma SameStorable(c: Prefixes, c': Prefixes, n: nat)
    requires SameLimits(c, c')
    ensures Storable(c', n) == Storable(c, n)
  {
    SameDown(c, c', n / c.blockSize, if n >= c.minTokens then [n] else []);
  }

  lemma ContentsStorable(c: Prefixes, c': Prefixes)
    requires SameLimits(c, c') && SameContents(c.entries, c'.entries) && KeysStorable(c)
    ensures KeysStorable(c')
  {
    hide Storable;
    forall i | 0 <= i < |c'.entries| ensures Storable(c', |c'.entries[i].tokenIds|) {
      SameStorable(c, c', |c.entries[i].tokenIds|);
    }
  }

  lemma HasStorable(c: Prefixes, key: Key)
    requires KeysStorable(c) && Has(c, key)
    ensures Storable(c, |key|)
  {
    hide Storable;
  }

  lemma BroughtInStorable(lm: Lm, m: Memory, ids: Key, logits: Option<Logits>, now: int, key: Key)
    requires Inv(m) && AllMean(lm, m.cache.entries) && ids != [] && (logits.Some? ==> logits.value == LogitsOf(lm, ids))
    requires KeysStorable(m.cache) && BoundOrMissed(m.cache, ids)
    requires Has(InsertAll(m, ids, KvOf(lm, ids), logits, CandidateLengths(m.cache, |ids|), now).cache, key)
    ensures Storable(m.cache, |key|)
  {
    hide Inv, AllMean, KvOf, LogitsOf, InsertAll, CandidateLengths, Has, Storable, KeysStorable, BoundOrMissed;
    var lengths := CandidateLengths(m.cache, |ids|);
    if Has(m.cache, key) {
      HasStorable(m.cache, key);
    } else {
      BroughtIn(m, ids, KvOf(lm, ids), logits, lengths, now, key);
      var i :| 0 <= i < |lengths| && lengths[i] == |key|;
      assert ids[..|key|] == key;
      StoredIsStorable(lm, m, ids, logits, now, i);
    }
  }

  lemma InsertStorable(lm: Lm, m: Memory, ids: Key, logits: Option<Logits>, now: int)
    requires Inv(m) && AllMean(lm, m.cache.entries) && ids != [] && (logits.Some? ==> logits.value == LogitsOf(lm, ids))
    requires KeysStorable(m.cache) && BoundOrMissed(m.cache, ids)
    ensures KeysStorable(Insert(m, ids, KvOf(lm, ids), logits, now).cache)
  {
    hide Inv, AllMean, KvOf, LogitsOf, InsertAll, CandidateLengths, Storable, BoundOrMissed;
    var m' := Insert(m, ids, KvOf(lm, ids), logits, now);
    InsertKeeps(lm, m, ids, KvOf(lm, ids), logits, now);
    if |ids| >= m.cache.minTokens {
      forall j | 0 <= j < |m'.cache.entries| ensures Storable(m'.cache, |m'.cache.entries[j].tokenIds|) {
        BroughtInStorable(lm, m, ids, logits, now, m'.cache.entries[j].tokenIds);
        SameStorable(m.cache, m'.cache, |m'.cache.entries[j].tokenIds|);
      }
    }
  }

  // ---- A whole prefill ----

  lemma BindContents(cfg: Config, m: Memory, q: Sequence, now: int)
    ensures SameContents(m.cache.entries, BindPrefixAtPrefill(cfg, m, q, now).0.cache.entries)
  {
    hide Lookup, SameContents, Detach;
    SameEntries(m.cache.entries);
    LookupContents(m, q.req.prompt, now);
  }

  // A sequence that stores what it has computed holds a reference, or its prompt was not found.
  lemma BindBindsOrMisses(lm: Lm, cfg: Config, m: Memory, q: Sequence, now: int)
    requires Inv(m) && AllMean(lm, m.cache.entries) && Budgeted(m, q) && PrefixOk(lm, cfg, q) && cfg.prefixOn
    requires q.prefixKey.Some? ==> RefsOf(m.cache, q.prefixKey.value) > 0
    ensures BoundOrMissed(BindPrefixAtPrefill(cfg, m, q, now).0.cache, q.req.prompt)
  {
    hide Inv, AllMean, KvOf, LogitsOf, RefsOf, Lookup, Peek;
    BindKeeps(lm, cfg, m, q, now);
    LookupKeeps(lm, m, q.req.prompt, now);
  }

  lemma StoreStorable(lm: Lm, cfg: Config, m: Memory, q: Sequence, now: int)
    requires Inv(m) && AllMean(lm, m.cache.entries) && q.req.prompt != []
    requires KeysStorable(m.cache) && BoundOrMissed(m.cache, q.req.prompt)
    ensures KeysStorable(Store(m, q, Recompute(lm, q.req.prompt), now).0.cache)
  {
    hide Inv, AllMean, KvOf, LogitsOf, Insert, Adopt, KeysStorable, BoundOrMissed, SameContents;
    var out := Recompute(lm, q.req.prompt);
    var m2 := Insert(m, q.req.prompt, out.cache, Some(out.logits), now);
    InsertStorable(lm, m, q.req.prompt, Some(out.logits), now);
    AdoptContents(m2, q, now);
    AdoptSizes(m2, q, now);
    ContentsStorable(m2.cache, Adopt(m2, q, now).0.cache);
  }

  lemma AdoptSizes(m: Memory, q: Sequence, now: int)
    ensures SameLimits(m.cache, Adopt(m, q, now).0.cache)
  {
    hide Pin, ShareFromLive, Reserve, Detach, Find, CandidateLengths;
  }

  lemma PrefillStorable(lm: Lm, cfg: Config, m: Memory, q: Sequence, now: int, fails: bool)
    requires Inv(m) && AllMean(lm, m.cache.entries) && Budgeted(m, q) && PrefixOk(lm, cfg, q) && q.req.maxTokens >= 1
    requires q.prefixKey.Some? ==> RefsOf(m.cache, q.prefixKey.value) > 0
    requires KeysStorable(m.cache)
    ensures KeysStorable(PrefillWithReuse(lm, cfg, m, q, now, fails).m.cache)
  {
    hide Inv, AllMean, KvOf, LogitsOf, RefsOf, Reuse;
    hide Store, BindPrefixAtPrefill, KeysStorable, BoundOrMissed, SameContents, Budgeted;
    var (m1, q1) := BindPrefixAtPrefill(cfg, m, q, now);
    BindKeeps(lm, cfg, m, q, now);
    BindContents(cfg, m, q, now);
    ContentsStorable(m.cache, m1.cache);
    ReuseIsPrefill(lm, cfg, q1);
    if !fails && q.req.prompt != [] && cfg.prefixOn {
      BindBindsOrMisses(lm, cfg, m, q, now);
      StoreStorable(lm, cfg, m1, q1, now);
    }
  }
}
