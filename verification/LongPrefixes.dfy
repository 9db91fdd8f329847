// How a prompt with more candidate lengths than the cache has entries gets stored whole: it is built
// up level by level, and between the levels those that the next one will need are looked up, so that
// they are given up last.
module LongPrefixes {
  import opened Common
  import opened KvCache
  import opened LanguageModel
  import opened Engines
  import opened Generation
  import opened Sequences
  import opened BlockPool
  import opened PrefixCache
  import opened PrefixLaws
  import opened PrefixOps
  import opened Scheduler
  import opened StoredKeys
  import opened Lifecycle
  import opened EmptyBatch
  import opened Worker
  import opened WorkerRuns
  import opened WorkerHistory
  import opened StoredRuns
  import opened FailingRuns
  import opened EvictionQueue
  import opened QueuedEntries
  import opened StoringRuns

  // ---- One reference on the entries ----

  // The entry of the key has changed in nothing but its references, blocks and last use.
  ghost predicate Counted(entries: seq<Entry>, entries': seq<Entry>, key: Key, refs: nat, lastUsed: int) {
    var i := Find(entries, key);
    && i < |entries| && |entries'| == |entries| && entries' == entries[i := entries'[i]]
    && entries'[i].tokenIds == key && entries'[i].refs == refs && entries'[i].lastUsed == lastUsed
  }

  lemma HitHolds(cfg: Config, m: Memory, q: Sequence, now: int)
    requires Idle(m) && cfg.prefixOn && Peek(m.cache, q.req.prompt).Some? && TryAllocate(cfg, m, q, now).ok
    ensures var key, t := Peek(m.cache, q.req.prompt).value.tokenIds, TryAllocate(cfg, m, q, now);
      t.q.prefixKey == Some(key) && Counted(m.cache.entries, t.m.cache.entries, key, 1, now)
  {
    hide Reserve;
    PeekFromIsLongest(m.cache, q.req.prompt, |q.req.prompt|);
    IdleNeverShares(m, Peek(m.cache, q.req.prompt).value.tokenIds);
  }

  lemma EndReleases(cfg: Config, m: Memory, q: Sequence, status: Status, key: Key)
    requires cfg.prefixOn && q.prefixKey == Some(key) && key != [] && Find(m.cache.entries, key) < |m.cache.entries|
    requires m.cache.entries[Find(m.cache.entries, key)].refs == 1
    ensures Counted(m.cache.entries, EndAs(cfg, m, q, status).0.cache.entries, key, 0,
      m.cache.entries[Find(m.cache.entries, key)].lastUsed)
  {
    hide Unpin;
  }

  lemma FinishReleases(cfg: Config, m: Memory, q: Sequence, key: Key)
    requires cfg.prefixOn && q.prefixKey == Some(key) && key != [] && Find(m.cache.entries, key) < |m.cache.entries|
    requires m.cache.entries[Find(m.cache.entries, key)].refs == 1
    ensures Counted(m.cache.entries, FinishSequence(cfg, m, q).0.cache.entries, key, 0,
      m.cache.entries[Find(m.cache.entries, key)].lastUsed)
  {
    hide EndAs;
    var reason := if q.reason.Some? then q.reason.value else Length;
    EndReleases(cfg, m, q.(result := Some(Generation(q.output, reason))), Finished, key);
  }

  // ---- Helpers that fit ----

  // A request for one token after any level, that hits any level below the top, fits apart.
  ghost predicate LevelsFit(u: Setup, keys: seq<Key>) {
    && (forall k :: 0 <= k < |keys| ==> BlocksNeeded(u.blockSize, |keys[k]| + 1) <= u.numBlocks)
    && (forall h, k :: 0 <= h <= k < |keys| && h < |keys| - 1 ==>
      BlocksNeeded(u.blockSize, |keys[h]|) + BlocksNeeded(u.blockSize, |keys[k]| + 1 - |keys[h]|) <= u.numBlocks)
  }

  lemma LevelAdmits(cfg: Config, u: Setup, m: Memory, keys: seq<Key>, id: Id, h: nat, k: nat)
    requires SameConfig(Init(u).m, m) && cfg.prefixOn && LevelsFit(u, keys) && h <= k < |keys| && h < |keys| - 1
    requires |keys[h]| <= |keys[k]| && HitLength(cfg, m, NewSequence(id, One(keys[k]))) == |keys[h]|
    ensures AdmitsWhenIdle(cfg, m, NewSequence(id, One(keys[k])))
  {
    hide HitLength, BlocksNeeded;
  }

  lemma PeeksItself(c: Prefixes, key: Key)
    requires Has(c, key) && |key| >= c.minTokens
    ensures Peek(c, key).Some? && Peek(c, key).value.tokenIds == key
  {
    assert key[..|key|] == key;
  }

  // What a run of this kind keeps in view.
  ghost predicate Stage(lm: Lm, cfg: Config, u: Setup, s: State, next: Id, keys: seq<Key>, queue: seq<int>,
          clock: int) {
    && AtEase(lm, cfg, u, s, next) && cfg.prefixOn && cfg.maxWaiting >= 1
    && Ladder(Init(u).m.cache, keys) && LevelsFit(u, keys)
    && (forall k :: 0 <= k < |keys| ==> keys[k] != [] && |keys[k]| >= u.minTokens)
    && Lines(s.m.cache.entries, keys, queue, 0) && UsedBy(s.m.cache.entries, clock)
  }

  // ---- A touch ----

  lemma UsedByUpdated(entries: seq<Entry>, i: nat, e: Entry, now: int, later: int)
    requires UsedBy(entries, now) && i < |entries| && now <= later && e.lastUsed <= later
    ensures UsedBy(entries[i := e], later)
  {
  }

  // Taking the reference and giving it back moves the level to the end of the queue.
  lemma TouchedLines(entries: seq<Entry>, held: seq<Entry>, freed: seq<Entry>, keys: seq<Key>, queue: seq<int>, a: nat,
          key: Key, clock: int)
    requires Lines(entries, keys, queue, 0) && UsedBy(entries, clock) && a < |queue| && 1 <= queue[a] <= |keys|
    requires key == keys[queue[a] - 1] && Counted(entries, held, key, 1, clock + 1)
    requires Counted(held, freed, key, 0, clock + 1)
    ensures Lines(freed, keys, WithoutAt(queue, a) + [queue[a]], 0) && UsedBy(freed, clock + 1)
  {
    hide Lines, Find, Distinct;
    var i, rest := PlaceOf(entries, keys, queue[a]), WithoutAt(queue, a);
    LinesHold(entries, keys, queue, a, i, held[i]);
    AtUpdated(entries, i, held[i], keys, queue[a]);
    UsedByUpdated(entries, i, held[i], clock, clock + 1);
    UsedByUpdated(held, i, freed[i], clock + 1, clock + 1);
    forall b | 0 <= b < |rest| ensures Before(held, PlaceOf(held, keys, rest[b]), i) {
      QueuedElsewhere(held, keys, rest, queue[a], b);
    }
    assert rest + [] == rest && rest + [queue[a]] + [] == rest + [queue[a]];
    LinesRelease(held, keys, rest, [], queue[a], i, freed[i]);
  }

  lemma QueuedElsewhere(entries: seq<Entry>, keys: seq<Key>, queue: seq<int>, held: int, b: nat)
    requires Lines(entries, keys, queue, held) && held != 0 && b < |queue|
    ensures PlaceOf(entries, keys, queue[b]) < |entries|
    ensures PlaceOf(entries, keys, queue[b]) != PlaceOf(entries, keys, held)
  {
    hide PlaceOf;
  }

  lemma LevelIsThere(c: Prefixes, keys: seq<Key>, queue: seq<int>, held: int, a: nat)
    requires Lines(c.entries, keys, queue, held) && a < |queue|
    ensures 1 <= queue[a] <= |keys| && Has(c, keys[queue[a] - 1])
  {
  }

  lemma Touches(lm: Lm, cfg: Config, u: Setup, s: State, id: Id, keys: seq<Key>, queue: seq<int>, a: nat, clock: int)
      returns (s': State)
    requires Stage(lm, cfg, u, s, id, keys, queue, clock) && a < |queue| && queue[a] < |keys|
    ensures Stage(lm, cfg, u, s', id + 1, keys, WithoutAt(queue, a) + [queue[a]], clock + 1)
  {
    hide AtEase, Ladder, Lines, UsedBy, Has, Peek, AdmitsWhenIdle;
    hide BlocksNeeded, TryAllocate, EndAs, Find, Idle, Inv, AllMean;
    LevelIsThere(s.m.cache, keys, queue, 0, a);
    var key := keys[queue[a] - 1];
    EaseIsIdle(lm, cfg, u, s, id);
    AtEaseSizes(lm, cfg, u, s, id);
    PeeksItself(s.m.cache, key);
    LevelAdmits(cfg, u, s.m, keys, id, queue[a] - 1, queue[a] - 1);
    s' := ComesAndGoes(lm, cfg, u, s, id, key, clock + 1);
    var t := TryAllocate(cfg, s.m, NewSequence(id, One(key)), clock + 1);
    HitHolds(cfg, s.m, NewSequence(id, One(key)), clock + 1);
    CountedFind(s.m.cache.entries, t.m.cache.entries, key, 1, clock + 1);
    EndReleases(cfg, t.m, t.q.(abortRequested := true), Aborted, key);
    TouchedLines(s.m.cache.entries, t.m.cache.entries, s'.m.cache.entries, keys, queue, a, key, clock);
  }

  lemma AtEaseSizes(lm: Lm, cfg: Config, u: Setup, s: State, next: Id)
    requires AtEase(lm, cfg, u, s, next)
    ensures SameConfig(Init(u).m, s.m) && s.m.cache.minTokens == u.minTokens && s.m.cache.maxEntries == u.maxEntries
  {
    hide Reachable;
  }

  lemma CountedFind(entries: seq<Entry>, entries': seq<Entry>, key: Key, refs: nat, lastUsed: int)
    requires Counted(entries, entries', key, refs, lastUsed)
    ensures Find(entries', key) == Find(entries, key) < |entries'|
    ensures entries'[Find(entries', key)].refs == refs && entries'[Find(entries', key)].lastUsed == lastUsed
  {
    AtUpdated(entries, Find(entries, key), entries'[Find(entries, key)], [key], 1);
  }

  // ---- A level more ----

  // The longest stored prefix of the next level is the top one.
  lemma PeeksBelow(c: Prefixes, keys: seq<Key>, queue: seq<int>, top: nat)
    requires Lines(c.entries, keys, queue, 0) && Nested(keys) && 1 <= top < |keys| && top in queue && top + 1 !in queue
    requires |keys[top - 1]| >= c.minTokens
    ensures Peek(c, keys[top]).Some? && Peek(c, keys[top]).value.tokenIds == keys[top - 1]
  {
    hide Lines;
    var prompt, key := keys[top], keys[top - 1];
    PeekFromIsLongest(c, prompt, |prompt|);
    LinedLevels(c.entries, keys, queue, 0, top);
    HasAt(c, keys, top);
    assert key == prompt[..|key|];
    forall n: nat | |key| < n <= |prompt| ensures !Has(c, prompt[..n]) {
      NotBetween(c, keys, queue, top, n);
    }
  }

  lemma NotBetween(c: Prefixes, keys: seq<Key>, queue: seq<int>, top: nat, n: nat)
    requires Lines(c.entries, keys, queue, 0) && Nested(keys) && 1 <= top < |keys| && top + 1 !in queue
    requires |keys[top - 1]| < n <= |keys[top]|
    ensures !Has(c, keys[top][..n])
  {
    hide Distinct;
    forall i | 0 <= i < |c.entries|
      ensures var n := |c.entries[i].tokenIds|; n <= |keys[top - 1]| || n > |keys[top]|
    {
      assert Lined(c.entries, keys, queue, 0, i);
      NoLevel(c.entries, keys);
      var a :| 0 <= a < |queue| && PlaceOf(c.entries, keys, queue[a]) == i;
      assert queue[a] in queue;
      assert queue[a] < top ==> |keys[queue[a] - 1]| < |keys[top - 1]|;
      assert queue[a] > top + 1 ==> |keys[queue[a] - 1]| > |keys[top]|;
    }
  }

  lemma BoundPrefill(lm: Lm, cfg: Config, m: Memory, q: Sequence, now: int)
    requires q.prefixKey.Some? && cfg.prefixOn
    ensures var p := PrefillWithReuse(lm, cfg, m, q, now, false);
      p.out.Ok? ==> p.q == q && p.m == Insert(m, q.req.prompt, p.out.value.cache, Some(p.out.value.logits), now)
  {
    hide Insert, Reuse, CandidateLengths;
  }

  lemma HeldKept(m: Memory, ids: Key, kv: Cache, logits: Option<Logits>, now: int, key: Key)
    requires Distinct(m.cache.entries) && RefsOf(m.cache, key) > 0
    requires RefsOf(Insert(m, ids, kv, logits, now).cache, key) > 0
    ensures var entries, entries' := m.cache.entries, Insert(m, ids, kv, logits, now).cache.entries;
      entries'[Find(entries', key)] == entries[Find(entries, key)]
  {
    hide InsertAll, CandidateLengths;
    var entries, entries' := m.cache.entries, Insert(m, ids, kv, logits, now).cache.entries;
    InsertAddsOnlyPrefixes(m, ids, kv, logits, CandidateLengths(m.cache, |ids|), now);
    var e := entries'[Find(entries', key)];
    assert e in entries';
    var j :| 0 <= j < |entries| && entries[j] == e;
  }

  lemma NewIsLatest(m: Memory, ids: Key, kv: Cache, logits: Option<Logits>, now: int, key: Key)
    requires !Has(m.cache, key) && Has(Insert(m, ids, kv, logits, now).cache, key)
    ensures var entries' := Insert(m, ids, kv, logits, now).cache.entries; entries'[Find(entries', key)].lastUsed == now
  {
    hide InsertAll, CandidateLengths;
    var entries, entries' := m.cache.entries, Insert(m, ids, kv, logits, now).cache.entries;
    InsertAddsOnlyPrefixes(m, ids, kv, logits, CandidateLengths(m.cache, |ids|), now);
    var e := entries'[Find(entries', key)];
    assert e in entries' && e !in entries;
  }

  lemma LadderSame(c: Prefixes, c': Prefixes, keys: seq<Key>)
    requires Ladder(c, keys) && SameLimits(c, c')
    ensures Ladder(c', keys)
  {
    forall k | 0 <= k < |keys| ensures CandidateLengths(c', |keys[k]|) == LengthsUpTo(keys, k + 1) {
      var n := |keys[k]|;
      SameDown(c, c', n / c.blockSize, if n >= c.minTokens then [n] else []);
    }
  }

  // After the insertion the held level stands before all that are queued.
  lemma BuiltLines(m: Memory, keys: seq<Key>, rest: seq<int>, top: nat, kv: Cache, logits: Option<Logits>, clock: int,
          freed: seq<Entry>)
    requires InLine(m.cache, keys, rest, top, clock + 2) && Ladder(m.cache, keys) && 1 <= top < |keys|
    requires top + 1 !in rest && SeqLen(kv) == |keys[top]| >= m.cache.minTokens
    requires m.cache.entries[PlaceOf(m.cache.entries, keys, top)].lastUsed == clock + 1
    requires var queue := PutDown(rest, top, Room(m.cache.maxEntries, top), top + 1); queue != [] && queue[0] == top + 1
    requires Counted(Insert(m, keys[top], kv, logits, clock + 2).cache.entries, freed, keys[top - 1], 0, clock + 1)
    ensures Lines(freed, keys, [top] + PutDown(rest, top, Room(m.cache.maxEntries, top), top + 1), 0)
    ensures UsedBy(freed, clock + 2)
  {
    hide Lines, Find, Distinct, PutDown, Insert, Ladder;
    var queue := PutDown(rest, top, Room(m.cache.maxEntries, top), top + 1);
    var m2 := Insert(m, keys[top], kv, logits, clock + 2);
    var entries, i := m2.cache.entries, PlaceOf(m2.cache.entries, keys, top);
    InsertInLine(m, keys, rest, top, kv, logits, top + 1, clock + 2);
    LadderNested(m.cache, keys);
    NewestFirst(m, keys, rest, top, kv, logits, clock + 2);
    UsedByUpdated(entries, i, freed[i], clock + 2, clock + 2);
    forall a | 0 <= a < |queue| ensures Before(entries, i, PlaceOf(entries, keys, queue[a])) {
      NotEarlier(entries, keys, queue, top, a);
    }
    assert [] + queue == queue && [] + [top as int] + queue == [top as int] + queue;
    LinesRelease(entries, keys, [], queue, top, i, freed[i]);
  }

  lemma LadderNested(c: Prefixes, keys: seq<Key>)
    requires Ladder(c, keys)
    ensures Nested(keys)
  {
  }

  // The new top was not there before, and the held level is as it was.
  lemma NewestFirst(m: Memory, keys: seq<Key>, rest: seq<int>, top: nat, kv: Cache, logits: Option<Logits>, now: int)
    requires Lines(m.cache.entries, keys, rest, top) && Nested(keys) && 1 <= top < |keys| && top + 1 !in rest
    requires var c' := Insert(m, keys[top], kv, logits, now).cache;
      var queue := PutDown(rest, top, Room(m.cache.maxEntries, top), top + 1);
      Lines(c'.entries, keys, queue, top) && queue != [] && queue[0] == top + 1
    ensures var entries, entries' := m.cache.entries, Insert(m, keys[top], kv, logits, now).cache.entries;
      && PlaceOf(entries', keys, top + 1) < |entries'| && entries'[PlaceOf(entries', keys, top + 1)].lastUsed == now
      && PlaceOf(entries', keys, top) < |entries'| && PlaceOf(entries, keys, top) < |entries|
      && entries'[PlaceOf(entries', keys, top)] == entries[PlaceOf(entries, keys, top)]
  {
    hide Insert, PutDown, Distinct;
    LinedLevels(m.cache.entries, keys, rest, top, top + 1);
    HeldKept(m, keys[top], kv, logits, now, keys[top - 1]);
    NewIsLatest(m, keys[top], kv, logits, now, keys[top]);
  }

  lemma NotEarlier(entries: seq<Entry>, keys: seq<Key>, queue: seq<int>, held: int, a: nat)
    requires Lines(entries, keys, queue, held) && a < |queue| && held != 0
    requires entries[PlaceOf(entries, keys, held)].lastUsed < entries[PlaceOf(entries, keys, queue[0])].lastUsed
    ensures Before(entries, PlaceOf(entries, keys, held), PlaceOf(entries, keys, queue[a]))
  {
    hide PlaceOf, Distinct, Lined;
    assert a > 0 ==> Before(entries, PlaceOf(entries, keys, queue[0]), PlaceOf(entries, keys, queue[a]));
  }

  lemma NextAdmits(lm: Lm, cfg: Config, u: Setup, s: State, id: Id, keys: seq<Key>, rest: seq<int>, top: nat,
          clock: int)
    requires Stage(lm, cfg, u, s, id, keys, [top as int] + rest, clock) && 1 <= top < |keys| && top + 1 !in rest
    ensures AdmitsWhenIdle(cfg, s.m, NewSequence(id, One(keys[top]))) && Idle(s.m)
    ensures Peek(s.m.cache, keys[top]).Some? && Peek(s.m.cache, keys[top]).value.tokenIds == keys[top - 1]
  {
    hide AtEase, Ladder, Lines, UsedBy, Has, Peek, AdmitsWhenIdle, BlocksNeeded, Find, Idle, Inv, AllMean, Nested;
    var queue := [top as int] + rest;
    EaseIsIdle(lm, cfg, u, s, id);
    AtEaseSizes(lm, cfg, u, s, id);
    LadderNested(Init(u).m.cache, keys);
    NotNext(queue, rest, top);
    PeeksBelow(s.m.cache, keys, queue, top);
    NestedLengths(keys, top);
    LevelAdmits(cfg, u, s.m, keys, id, top - 1, top);
  }

  // Admitted, it holds the top level.
  lemma NextHolds(lm: Lm, cfg: Config, u: Setup, s: State, id: Id, keys: seq<Key>, rest: seq<int>, top: nat, clock: int)
    requires Stage(lm, cfg, u, s, id, keys, [top as int] + rest, clock) && 1 <= top < |keys| && u.maxEntries >= 2
    requires Idle(s.m) && TryAllocate(cfg, s.m, NewSequence(id, One(keys[top])), clock + 1).ok
    requires Peek(s.m.cache, keys[top]).Some? && Peek(s.m.cache, keys[top]).value.tokenIds == keys[top - 1]
    ensures var t := TryAllocate(cfg, s.m, NewSequence(id, One(keys[top])), clock + 1);
      && InLine(t.m.cache, keys, rest, top, clock + 2) && Ladder(t.m.cache, keys)
      && t.m.cache.maxEntries == u.maxEntries && t.m.cache.minTokens == u.minTokens
      && t.q.prefixKey == Some(keys[top - 1]) && t.q.req == One(keys[top])
      && var e := t.m.cache.entries[PlaceOf(t.m.cache.entries, keys, top)]; e.lastUsed == clock + 1 && e.refs == 1
  {
    hide AtEase, Ladder, Lines, UsedBy, Has, Peek, TryAllocate, Find, Idle, InLine, Counted, LevelsFit;
    var q := NewSequence(id, One(keys[top]));
    var t := TryAllocate(cfg, s.m, q, clock + 1);
    AtEaseSizes(lm, cfg, u, s, id);
    EaseLimits(lm, cfg, u, s, id);
    HitHolds(cfg, s.m, q, clock + 1);
    AttemptProgress(cfg, s.m, q, clock + 1);
    TryAllocateSizes(cfg, s.m, q, clock + 1);
    HeldLines(s.m.cache, t.m.cache, keys, rest, top, clock);
    LadderSame(Init(u).m.cache, t.m.cache, keys);
  }

  lemma EaseLimits(lm: Lm, cfg: Config, u: Setup, s: State, next: Id)
    requires AtEase(lm, cfg, u, s, next)
    ensures |s.m.cache.entries| <= u.maxEntries
  {
    hide Reachable, AllMean, Idle;
    EaseIsIdle(lm, cfg, u, s, next);
  }

  lemma StageFits(lm: Lm, cfg: Config, u: Setup, s: State, next: Id, keys: seq<Key>, queue: seq<int>, clock: int,
          k: nat)
    requires Stage(lm, cfg, u, s, next, keys, queue, clock) && k < |keys|
    ensures AtEase(lm, cfg, u, s, next) && cfg.prefixOn && cfg.maxWaiting >= 1
    ensures keys[k] != [] && |keys[k]| >= u.minTokens && BlocksNeeded(u.blockSize, |keys[k]| + 1) <= u.numBlocks
  {
    hide AtEase, Ladder, Lines, UsedBy, BlocksNeeded;
  }

  lemma StageMoves(lm: Lm, cfg: Config, u: Setup, s: State, next: Id, keys: seq<Key>, queue: seq<int>, clock: int,
          s': State, next': Id, queue': seq<int>, clock': int)
    requires Stage(lm, cfg, u, s, next, keys, queue, clock) && AtEase(lm, cfg, u, s', next')
    requires Lines(s'.m.cache.entries, keys, queue', 0) && UsedBy(s'.m.cache.entries, clock')
    ensures Stage(lm, cfg, u, s', next', keys, queue', clock')
  {
    hide AtEase, Ladder, Lines, UsedBy, LevelsFit;
  }

  // The next level is served: it comes in, and what was missing below it.
  lemma Builds(lm: Lm, cfg: Config, u: Setup, s: State, id: Id, keys: seq<Key>, rest: seq<int>, top: nat, clock: int)
      returns (s': State)
    requires Stage(lm, cfg, u, s, id, keys, [top as int] + rest, clock) && 1 <= top < |keys| && top + 1 !in rest
    requires u.maxEntries >= 2
    requires var queue := PutDown(rest, top, u.maxEntries - 1, top + 1); queue != [] && queue[0] == top + 1
    ensures Stage(lm, cfg, u, s', id + 1, keys, [top as int] + PutDown(rest, top, u.maxEntries - 1, top + 1), clock + 2)
  {
    hide Stage, AtEase, Ladder, Lines, UsedBy, InLine, Peek, AdmitsWhenIdle, BlocksNeeded, TryAllocate, FinishSequence;
    hide PutDown, PrefillWithReuse, Insert, KvOf, LogitsOf, Idle, PlaceOf;
    var prompt, queue := keys[top], [top as int] + rest;
    StageFits(lm, cfg, u, s, id, keys, queue, clock, top);
    StageFits(lm, cfg, u, s, id, keys, queue, clock, top - 1);
    NextAdmits(lm, cfg, u, s, id, keys, rest, top, clock);
    s' := ComesAndStores(lm, cfg, u, s, id, prompt, clock + 1, clock + 2);
    NextHolds(lm, cfg, u, s, id, keys, rest, top, clock);
    var t := TryAllocate(cfg, s.m, NewSequence(id, One(prompt)), clock + 1);
    BoundPrefill(lm, cfg, t.m, t.q.(status := Prefilling), clock + 2);
    var out := Recompute(lm, prompt);
    var noted := NoteToken(t.q.(status := Prefilling), Argmax(out.logits)).(kv := Some(out.cache));
    BuiltEntries(cfg, t.m, out, noted, keys, rest, top, clock);
    StageMoves(lm, cfg, u, s, id, keys, queue, clock, s', id + 1,
      [top as int] + PutDown(rest, top, u.maxEntries - 1, top + 1), clock + 2);
  }

  lemma NotNext(queue: seq<int>, rest: seq<int>, top: nat)
    requires queue == [top as int] + rest && top + 1 !in rest
    ensures top + 1 !in queue && top in queue && queue[0] == top && WithoutAt(queue, 0) == rest
  {
  }

  lemma NestedLengths(keys: seq<Key>, top: nat)
    requires Nested(keys) && 1 <= top < |keys|
    ensures |keys[top - 1]| <= |keys[top]|
  {
  }

  lemma HeldLines(c: Prefixes, c': Prefixes, keys: seq<Key>, rest: seq<int>, top: nat, clock: int)
    requires Lines(c.entries, keys, [top as int] + rest, 0) && UsedBy(c.entries, clock) && 1 <= top <= |keys|
    requires Counted(c.entries, c'.entries, keys[top - 1], 1, clock + 1) && |c.entries| <= c'.maxEntries
    requires c'.maxEntries >= 2
    ensures InLine(c', keys, rest, top, clock + 2)
    ensures var e := c'.entries[PlaceOf(c'.entries, keys, top)]; e.lastUsed == clock + 1 && e.refs == 1
  {
    hide Find, Distinct;
    var queue := [top as int] + rest;
    var i := PlaceOf(c.entries, keys, top);
    assert queue[0] == top && WithoutAt(queue, 0) == rest;
    LinesHold(c.entries, keys, queue, 0, i, c'.entries[i]);
    AtUpdated(c.entries, i, c'.entries[i], keys, top);
    UsedByUpdated(c.entries, i, c'.entries[i], clock, clock + 2);
  }

  // The whole service of the next level, once it is admitted.
  lemma BuiltEntries(cfg: Config, m: Memory, out: Output, noted: Sequence, keys: seq<Key>, rest: seq<int>, top: nat,
          clock: int)
    requires InLine(m.cache, keys, rest, top, clock + 2) && Ladder(m.cache, keys) && 1 <= top < |keys|
    requires var e := m.cache.entries[PlaceOf(m.cache.entries, keys, top)]; e.lastUsed == clock + 1 && e.refs == 1
    requires top + 1 !in rest && SeqLen(out.cache) == |keys[top]| >= m.cache.minTokens && keys[top - 1] != []
    requires var queue := PutDown(rest, top, Room(m.cache.maxEntries, top), top + 1); queue != [] && queue[0] == top + 1
    requires cfg.prefixOn && noted.prefixKey == Some(keys[top - 1])
    ensures var m2 := Insert(m, keys[top], out.cache, Some(out.logits), clock + 2);
      var freed := FinishSequence(cfg, m2, noted).0.cache.entries;
      && Lines(freed, keys, [top as int] + PutDown(rest, top, Room(m.cache.maxEntries, top), top + 1), 0)
      && UsedBy(freed, clock + 2)
  {
    hide Lines, PutDown, Insert, Ladder, FinishSequence, Find, Distinct;
    var m2 := Insert(m, keys[top], out.cache, Some(out.logits), clock + 2);
    InsertInLine(m, keys, rest, top, out.cache, Some(out.logits), top + 1, clock + 2);
    LadderNested(m.cache, keys);
    NewestFirst(m, keys, rest, top, out.cache, Some(out.logits), clock + 2);
    FinishReleases(cfg, m2, noted, keys[top - 1]);
    BuiltLines(m, keys, rest, top, out.cache, Some(out.logits), clock, FinishSequence(cfg, m2, noted).0.cache.entries);
  }

  // ---- The first levels ----

  ghost predicate AllUsedAt(entries: seq<Entry>, now: int) {
    forall i :: 0 <= i < |entries| ==> entries[i].lastUsed == now
  }

  lemma InsertedNow(m: Memory, ids: Key, kv: Cache, logits: Option<Logits>, now: int)
    requires m.cache.entries == []
    ensures AllUsedAt(Insert(m, ids, kv, logits, now).cache.entries, now)
  {
    hide InsertAll, CandidateLengths;
    var entries := Insert(m, ids, kv, logits, now).cache.entries;
    InsertAddsOnlyPrefixes(m, ids, kv, logits, CandidateLengths(m.cache, |ids|), now);
    assert forall i :: 0 <= i < |entries| ==> entries[i] in entries;
  }

  lemma AdoptUses(m: Memory, q: Sequence, now: int)
    requires AllUsedAt(m.cache.entries, now)
    ensures AllUsedAt(Adopt(m, q, now).0.cache.entries, now)
  {
    hide Pin, ShareFromLive, Reserve, Detach, Find, CandidateLengths;
  }

  lemma FinishUses(cfg: Config, m: Memory, q: Sequence, now: int)
    requires AllUsedAt(m.cache.entries, now)
    ensures AllUsedAt(FinishSequence(cfg, m, q).0.cache.entries, now)
  {
    hide Unpin, Find;
  }

  // Entries used at the same time stand in line as they stand in the dictionary.
  lemma SameLines(entries: seq<Entry>, entries': seq<Entry>, keys: seq<Key>, queue: seq<int>, now: int)
    requires Lines(entries, keys, queue, 0) && SameContents(entries, entries')
    requires AllUsedAt(entries, now) && AllUsedAt(entries', now)
    requires forall i :: 0 <= i < |entries'| ==> entries'[i].refs == 0
    ensures Lines(entries', keys, queue, 0) && UsedBy(entries', now)
  {
    hide Find;
    forall k ensures PlaceOf(entries', keys, k) == PlaceOf(entries, keys, k) {
      if 1 <= k <= |keys| { FindStable(entries, entries', keys[k - 1]); }
    }
    forall i | 0 <= i < |entries'| ensures Lined(entries', keys, queue, 0, i) {
      assert Lined(entries, keys, queue, 0, i);
    }
    forall a, b | 0 <= a < b < |queue|
      ensures Before(entries', PlaceOf(entries', keys, queue[a]), PlaceOf(entries', keys, queue[b]))
    {
      assert Before(entries, PlaceOf(entries, keys, queue[a]), PlaceOf(entries, keys, queue[b]));
    }
  }

  lemma EmptyIsIdle(lm: Lm, cfg: Config, u: Setup)
    ensures AtEase(lm, cfg, u, Init(u), 0)
  {
    hide Reachable;
    ReachableStart(lm, cfg, u);
  }

  lemma FirstAdmits(cfg: Config, u: Setup, prompt: Key)
    requires BlocksNeeded(u.blockSize, |prompt| + 1) <= u.numBlocks
    ensures AdmitsWhenIdle(cfg, Init(u).m, NewSequence(0, One(prompt)))
  {
    hide BlocksNeeded, Peek;
    NothingStored(Init(u).m.cache, prompt);
    NoBlocks(u.blockSize);
  }

  // What serving a level stores in an empty cache, once adopted and given back.
  lemma FirstEntries(lm: Lm, cfg: Config, m: Memory, q: Sequence, keys: seq<Key>, top: nat, final: seq<Entry>)
    requires m.cache.entries == [] && Ladder(m.cache, keys) && 1 <= top <= |keys| && top <= m.cache.maxEntries
    requires q.req == One(keys[top - 1]) && q.prefixKey.None? && q.prefixTokens == 0 && cfg.prefixOn
    requires keys[top - 1] != []
    requires |keys[top - 1]| >= m.cache.minTokens
    requires var p := PrefillWithReuse(lm, cfg, m, q, 0, false);
      && p.out.Ok?
      && var noted := NoteToken(p.q, Argmax(p.out.value.logits)).(kv := Some(p.out.value.cache));
         final == FinishSequence(cfg, p.m, noted).0.cache.entries
    requires forall i :: 0 <= i < |final| ==> final[i].refs == 0
    ensures Lines(final, keys, Down(top), 0) && UsedBy(final, 0)
  {
    hide Ladder, KvOf, LogitsOf, Peek, PrefillWithReuse, Insert, Adopt, FinishSequence, Lines, UsedBy, PutDown;
    var prompt := keys[top - 1];
    var out := Recompute(lm, prompt);
    NothingStored(m.cache, prompt);
    MissPrefill(lm, cfg, m, q, 0);
    var m2 := Insert(m, prompt, out.cache, Some(out.logits), 0);
    var (m3, q3) := Adopt(m2, q, 0);
    var noted := NoteToken(q3, Argmax(out.logits)).(kv := Some(out.cache));
    EmptyLines(m.cache, keys);
    InsertInLine(m, keys, [], 0, out.cache, Some(out.logits), top, 0);
    assert Down(top)[..top - top] == [];
    PutsAll(m.cache.maxEntries, top, top);
    InsertedNow(m, prompt, out.cache, Some(out.logits), 0);
    AdoptContents(m2, q, 0);
    AdoptUses(m2, q, 0);
    FinishContents(cfg, m3, noted);
    FinishUses(cfg, m3, noted, 0);
    SameThen(m2.cache.entries, m3.cache.entries, final);
    SameLines(m2.cache.entries, final, keys, Down(top), 0);
  }

  lemma EmptyLines(c: Prefixes, keys: seq<Key>)
    requires c.entries == []
    ensures InLine(c, keys, [], 0, 0)
  {
  }

  lemma Starts(lm: Lm, cfg: Config, u: Setup, keys: seq<Key>, top: nat) returns (s: State)
    requires cfg.prefixOn && cfg.maxWaiting >= 1 && Ladder(Init(u).m.cache, keys) && LevelsFit(u, keys)
    requires forall k :: 0 <= k < |keys| ==> keys[k] != [] && |keys[k]| >= u.minTokens
    requires 1 <= top <= |keys| && top <= u.maxEntries
    ensures Stage(lm, cfg, u, s, 1, keys, Down(top), 0)
  {
    hide AtEase, Ladder, Lines, UsedBy, Peek, AdmitsWhenIdle, BlocksNeeded, TryAllocate, FinishSequence, Idle;
    hide Inv, AllMean, PrefillWithReuse, KvOf, LogitsOf;
    var prompt := keys[top - 1];
    EmptyIsIdle(lm, cfg, u);
    FirstAdmits(cfg, u, prompt);
    s := ComesAndStores(lm, cfg, u, Init(u), 0, prompt, 0, 0);
    var q := NewSequence(0, One(prompt));
    NothingStored(Init(u).m.cache, prompt);
    MissAttempt(cfg, Init(u).m, q, 0);
    var t := TryAllocate(cfg, Init(u).m, q, 0);
    EaseIsIdle(lm, cfg, u, s, 1);
    IdleUnreferenced(s.m);
    FirstEntries(lm, cfg, t.m, t.q.(status := Prefilling), keys, top, s.m.cache.entries);
  }

  // ---- Level by level ----

  // Of the levels the next round will look for, the first i have been touched.
  function PartlyTouched(low: nat, top: int, count: nat, i: nat): seq<int>
    requires i <= count
  {
    [top] + Spaced(top - 1 - 2 * i, count - i) + Down(low) + Spaced(top - 1, i)
  }

  lemma TouchOne(low: nat, top: int, count: nat, i: nat)
    requires i < count
    ensures PartlyTouched(low, top, count, i)[1] == top - 1 - 2 * i
    ensures var queue := PartlyTouched(low, top, count, i);
      WithoutAt(queue, 1) + [queue[1]] == PartlyTouched(low, top, count, i + 1)
  {
    var queue := PartlyTouched(low, top, count, i);
    var tail := Spaced(top - 1 - 2 * i, count - i);
    assert tail[1..] == Spaced(top - 1 - 2 * (i + 1), count - (i + 1));
    assert WithoutAt(queue, 1) == [top] + tail[1..] + Down(low) + Spaced(top - 1, i);
    assert Spaced(top - 1, i) + [queue[1]] == Spaced(top - 1, i + 1);
  }

  lemma {:induction false} TouchesSpaced(lm: Lm, cfg: Config, u: Setup, s: State, next: Id, keys: seq<Key>, low: nat,
          top: int, count: nat, i: nat, clock: int) returns (s': State, next': Id, clock': int)
    requires i <= count && Stage(lm, cfg, u, s, next, keys, PartlyTouched(low, top, count, i), clock) && top <= |keys|
    ensures Stage(lm, cfg, u, s', next', keys, [top] + Rested(low, top, count), clock')
    decreases count - i
  {
    hide Stage;
    if i == count {
      assert Spaced(top - 1 - 2 * i, 0) == [] && [top] + [] == [top];
      assert PartlyTouched(low, top, count, i) == [top] + Rested(low, top, count);
      s', next', clock' := s, next, clock;
    } else {
      TouchOne(low, top, count, i);
      var a := Touches(lm, cfg, u, s, next, keys, PartlyTouched(low, top, count, i), 1, clock);
      s', next', clock' := TouchesSpaced(lm, cfg, u, a, next + 1, keys, low, top, count, i + 1, clock + 1);
    }
  }

  lemma AfterStart(entries: nat)
    requires entries >= 3
    ensures Down(entries)[1] == entries - 1
    ensures WithoutAt(Down(entries), 1) + [Down(entries)[1]] == [entries as int] + Rested(entries - 2, entries, 1)
  {
    assert Down(entries)[2..] == Down(entries - 2);
    assert Spaced(entries - 1, 1) == [entries - 1];
  }

  // What a round leaves is what the next one starts its touches from.
  lemma AfterRound(low: nat, top: nat, j: nat)
    requires low >= 2 && top == low + 2 * j + 2
    ensures var queue := [top as int] + ([top + 1] + Spaced(top - 2, j) + Down(low));
      && queue[0] == top
      && WithoutAt(queue, 0) + [queue[0]] == PartlyTouched(low - 1, top + 1, j + 2, 1)
  {
    var queue := [top as int] + ([top + 1] + Spaced(top - 2, j) + Down(low));
    assert Down(low) == [low as int] + Down(low - 1);
    assert Spaced(top - 2, j) + [low as int] == Spaced(top - 2, j + 1);
    assert WithoutAt(queue, 0) == [top + 1] + Spaced(top - 2, j) + Down(low);
    assert [top + 1] + Spaced(top - 2, j) + Down(low) == [top + 1] + Spaced(top - 2, j + 1) + Down(low - 1);
    assert Spaced(top, 1) == [top as int];
  }

  lemma NextIsNew(low: nat, top: nat, count: nat)
    requires low <= top
    ensures top + 1 !in Rested(low, top, count)
  {
    forall a | 0 <= a < low + count ensures Rested(low, top, count)[a] != top + 1 { RestedAt(low, top, count, a); }
  }

  // j levels above what the cache takes at once.
  lemma {:induction false} Reaches(lm: Lm, cfg: Config, u: Setup, keys: seq<Key>, j: nat)
      returns (s: State, next: Id, clock: int)
    requires cfg.prefixOn && cfg.maxWaiting >= 1 && Ladder(Init(u).m.cache, keys) && LevelsFit(u, keys)
    requires forall k :: 0 <= k < |keys| ==> keys[k] != [] && |keys[k]| >= u.minTokens
    requires j + 3 <= u.maxEntries && u.maxEntries + j < |keys|
    ensures var top := u.maxEntries + j;
      Stage(lm, cfg, u, s, next, keys, [top as int] + Rested(u.maxEntries - 2 - j, top, j + 1), clock)
    decreases j
  {
    hide Stage, Ladder, LevelsFit, PutDown, Rested;
    if j == 0 {
      var a := Starts(lm, cfg, u, keys, u.maxEntries);
      AfterStart(u.maxEntries);
      s := Touches(lm, cfg, u, a, 1, keys, Down(u.maxEntries), 1, 0);
      next, clock := 2, 1;
    } else {
      var low, top := u.maxEntries - 1 - j, u.maxEntries + j - 1;
      var a, id, now := Reaches(lm, cfg, u, keys, j - 1);
      NextIsNew(low, top, j);
      Round(low, top, j - 1);
      var b := Builds(lm, cfg, u, a, id, keys, Rested(low, top, j), top, now);
      AfterRound(low, top, j - 1);
      var queue := [top as int] + ([top + 1] + Spaced(top - 2, j - 1) + Down(low));
      var c := Touches(lm, cfg, u, b, id + 1, keys, queue, 0, now + 2);
      s, next, clock := TouchesSpaced(lm, cfg, u, c, id + 2, keys, low - 1, top + 1, j + 1, 1, now + 3);
    }
  }

  // ---- The whole prompt ----

  // Every stored key is the front of one prompt.
  ghost predicate StoresFrontsOf(c: Prefixes, prompt: Key) {
    forall i :: 0 <= i < |c.entries| ==> c.entries[i].tokenIds <= prompt
  }

  lemma StagedKeys(lm: Lm, cfg: Config, u: Setup, s: State, next: Id, keys: seq<Key>, queue: seq<int>, clock: int,
          a: nat)
    requires Stage(lm, cfg, u, s, next, keys, queue, clock) && a < |queue| && queue[a] == |keys|
    ensures AtEase(lm, cfg, u, s, next) && Has(s.m.cache, keys[|keys| - 1])
    ensures StoresFrontsOf(s.m.cache, keys[|keys| - 1])
  {
    hide AtEase, LevelsFit;
    LevelIsThere(s.m.cache, keys, queue, 0, a);
    LadderNested(Init(u).m.cache, keys);
    forall i | 0 <= i < |s.m.cache.entries| ensures s.m.cache.entries[i].tokenIds <= keys[|keys| - 1] {
      LinedIsFront(s.m.cache.entries, keys, queue, i);
    }
  }

  lemma LinedIsFront(entries: seq<Entry>, keys: seq<Key>, queue: seq<int>, i: nat)
    requires Lines(entries, keys, queue, 0) && Nested(keys) && i < |entries|
    ensures keys != [] && entries[i].tokenIds <= keys[|keys| - 1]
  {
    hide Distinct;
    assert Lined(entries, keys, queue, 0, i);
    NoLevel(entries, keys);
  }

  // A prompt with no more candidate lengths than a key can outlive its insertion with is stored by
  // some run, and nothing but the fronts of it.
  lemma StoresPrompt(lm: Lm, cfg: Config, u: Setup, prompt: Key) returns (s: State, next: Id)
    requires cfg.prefixOn && cfg.maxWaiting >= 1 && |prompt| >= u.minTokens && Storable(Init(u).m.cache, |prompt|)
    requires LevelsFit(u, LadderOf(Init(u).m.cache, prompt))
    ensures AtEase(lm, cfg, u, s, next) && Has(s.m.cache, prompt) && StoresFrontsOf(s.m.cache, prompt)
  {
    hide Stage, Ladder, LevelsFit, PutDown, Rested, AtEase, CandidateLengths, StoresFrontsOf, Has;
    var keys := LadderOf(Init(u).m.cache, prompt);
    LadderIsLadder(Init(u).m.cache, prompt);
    CandidateLengthsAre(Init(u).m.cache, |prompt|);
    var n := |keys|;
    if n <= u.maxEntries {
      s := Starts(lm, cfg, u, keys, n);
      next := 1;
      StagedKeys(lm, cfg, u, s, next, keys, Down(n), 0, 0);
    } else {
      var j: nat := n - 1 - u.maxEntries;
      var low: nat := u.maxEntries - 2 - j;
      var a, id, clock := Reaches(lm, cfg, u, keys, j);
      NextIsNew(low, n - 1, j + 1);
      Round(low, n - 1, j);
      s := Builds(lm, cfg, u, a, id, keys, Rested(low, n - 1, j + 1), n - 1, clock);
      next := id + 1;
      var queue := [n - 1] + ([n as int] + Spaced(n - 3, j) + Down(low));
      StagedKeys(lm, cfg, u, s, next, keys, queue, clock + 2, 1);
    }
  }

  ghost predicate StoredSomewhere(lm: Lm, cfg: Config, u: Setup, prompt: Key) {
    exists s :: Reachable(lm, cfg, s) && SameConfig(Init(u).m, s.m) && Has(s.m.cache, prompt)
  }

  // With blocks enough for the requests that lead to it: a prompt is found stored after some run of a
  // process of these sizes if and only if it has no more candidate lengths than that.
  lemma StoredExactlyWhen(lm: Lm, cfg: Config, u: Setup, prompt: Key)
    requires cfg.prefixOn && cfg.maxWaiting >= 1 && |prompt| >= u.minTokens
    requires LevelsFit(u, LadderOf(Init(u).m.cache, prompt))
    ensures StoredSomewhere(lm, cfg, u, prompt) <==> Storable(Init(u).m.cache, |prompt|)
  {
    hide Reachable, Has, Storable, LevelsFit, KeysStorable, StoresFrontsOf;
    if Storable(Init(u).m.cache, |prompt|) {
      var s, next := StoresPrompt(lm, cfg, u, prompt);
    }
    if StoredSomewhere(lm, cfg, u, prompt) {
      var s :| Reachable(lm, cfg, s) && SameConfig(Init(u).m, s.m) && Has(s.m.cache, prompt);
      StoredKeysAreStorable(lm, cfg, s);
      HasStorable(s.m.cache, prompt);
      SameStorable(Init(u).m.cache, s.m.cache, |prompt|);
    }
  }
}
