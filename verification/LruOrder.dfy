/** Which entries an eviction takes: over every run, the least recently used of those it may. */
module LruOrder {
  import opened Prelude
  import opened Lru
  import opened LruLaws
  import opened LruRuns

  /** With a member of the list, `dead` has every evictable one that was used less recently. */
  ghost predicate OldestTaken<B>(ids: seq<BlobId>, index: map<BlobId, Entry<B>>, use: map<BlobId, nat>, dead: set<BlobId>) {
    forall x, y :: x in ids && y in ids && x in dead && Older(index, use, y, x) ==> y in dead
  }

  /** `y` may be evicted and was used less recently than `x`. */
  predicate Older<B>(index: map<BlobId, Entry<B>>, use: map<BlobId, nat>, y: BlobId, x: BlobId) {
    !Protected(index, y) && y in use && x in use && use[y] < use[x]
  }

  lemma {:induction false} OrderInit(ids: seq<BlobId>, use: map<BlobId, nat>)
    requires ids != [] && MostRecentFirst(ids, use)
    ensures MostRecentFirst(ids[..|ids| - 1], use)
    ensures forall x :: x in ids ==> x in use && use[x] >= use[ids[|ids| - 1]]
  {
    var n := |ids| - 1;
    if n > 0 {
      OrderInit(ids[1..], use);
      assert ids[..n][1..] == ids[1..][..n - 1];
      assert ids[n] == ids[1..][n - 1];
    }
  }

  lemma {:induction false} PrefixTakesOldest<B>(ids: seq<BlobId>, index: map<BlobId, Entry<B>>, use: map<BlobId, nat>, k: nat)
    requires MostRecentFirst(ids, use) && k <= |Victims(ids, index)|
    ensures OldestTaken(ids, index, use, Elems(Victims(ids, index)[..k]))
  {
    if ids != [] && k > 0 {
      var n := |ids| - 1;
      var last, front := ids[n], ids[..n];
      assert ids == front + [last];
      OrderInit(ids, use);
      if Protected(index, last) {
        PrefixTakesOldest(front, index, use, k);
      } else {
        var vs := Victims(front, index);
        PrefixTakesOldest(front, index, use, k - 1);
        assert Victims(ids, index)[..k] == [last] + vs[..k - 1];
      }
    }
  }

  /** The first `k` of the victims of one list, then of another: closed on both. */
  lemma JoinedTakesOldest<B>(c: Cache<B>, use: map<BlobId, nat>, gone: seq<BlobId>)
    requires Valid(c) && MostRecentFirst(c.main, use) && MostRecentFirst(c.hot, use) && gone <= Candidates(c)
    ensures OldestTaken(c.main, c.index, use, Elems(gone)) && OldestTaken(c.hot, c.index, use, Elems(gone))
  {
    var m, h := Victims(c.main, c.index), Victims(c.hot, c.index);
    VictimsAreEvictable(c.main, c.index);
    VictimsAreEvictable(c.hot, c.index);
    if |gone| <= |m| {
      assert gone == m[..|gone|];
      PrefixTakesOldest(c.main, c.index, use, |gone|);
    } else {
      var k := |gone| - |m|;
      assert gone == m + h[..k];
      PrefixTakesOldest(c.hot, c.index, use, k);
    }
  }

  lemma MainTakesOldest<B>(p: Policy, c: Cache<B>, size: nat, use: map<BlobId, nat>, n: nat) returns (dead: set<BlobId>)
    requires Valid(c) && Recency(c, use, n)
    ensures Thinned(c, EvictMain(p, c, size), dead)
    ensures OldestTaken(c.main, c.index, use, dead) && OldestTaken(c.hot, c.index, use, dead)
  {
    var gone := EvictMainRemovesShortestRun(p, c, size);
    JoinedTakesOldest(c, use, gone);
    dead := Elems(gone);
  }

  lemma HotTakesOldest<B>(p: Policy, c: Cache<B>, size: nat, pin: bool, use: map<BlobId, nat>, n: nat) returns (dead: set<BlobId>)
    requires Valid(c) && Recency(c, use, n)
    ensures var r := if pin then EvictHot(p, c, size) else c; Valid(r) && Thinned(c, r, dead)
    ensures OldestTaken(c.hot, c.index, use, dead) && forall x :: x in dead ==> x in c.hot
  {
    if pin && p.hotLimit > 0 {
      var gone := EvictHotRemovesShortestRun(p, c, size);
      EvictHotValid(p, c, size);
      assert gone == Victims(c.hot, c.index)[..|gone|];
      PrefixTakesOldest(c.hot, c.index, use, |gone|);
      dead := Elems(gone);
    } else {
      ThinnedNone(c);
      dead := {};
    }
  }

  /** `x` and `y` are in the same list, and `y` would have to go first. */
  predicate Rivals<B>(c: Cache<B>, use: map<BlobId, nat>, x: BlobId, y: BlobId) {
    x in c.index && y in c.index && c.index[x].pinned == c.index[y].pinned && Older(c.index, use, y, x)
  }

  function ListOf<B>(c: Cache<B>, pinned: bool): seq<BlobId> { if pinned then c.hot else c.main }

  /** An entry that is in the index is in its list. */
  predicate Listed<B>(c: Cache<B>, x: BlobId) { x in c.index ==> x in ListOf(c, c.index[x].pinned) }

  lemma OneRound<B>(c: Cache<B>, r: Cache<B>, use: map<BlobId, nat>, dead: set<BlobId>, x: BlobId, y: BlobId)
    requires Rivals(c, use, x, y) && Listed(c, x) && Listed(c, y) && r.index == c.index - dead
    requires OldestTaken(ListOf(c, c.index[x].pinned), c.index, use, dead)
    ensures x !in r.index ==> y !in r.index
    ensures x in r.index && y in r.index ==> Rivals(r, use, x, y)
  {
  }

  lemma DropStage<B>(c: Cache<B>, id: BlobId, use: map<BlobId, nat>, n: nat, x: BlobId, y: BlobId)
    requires Valid(c) && Recency(c, use, n) && x != id && y != id && Rivals(c, use, x, y)
    ensures Valid(Drop(c, id)) && Recency(Drop(c, id), use, n) && Rivals(Drop(c, id), use, x, y)
  {
    var dead := DropRemoves(c, id);
    RecencyThin(c, Drop(c, id), dead, use, n);
  }

  lemma HotStage<B>(p: Policy, c: Cache<B>, size: nat, pin: bool, use: map<BlobId, nat>, n: nat, x: BlobId, y: BlobId)
    requires Valid(c) && Recency(c, use, n) && Rivals(c, use, x, y)
    ensures var r := if pin then EvictHot(p, c, size) else c;
            && Valid(r) && Recency(r, use, n) && (x !in r.index ==> y !in r.index)
            && (x in r.index && y in r.index ==> Rivals(r, use, x, y))
  {
    var r := if pin then EvictHot(p, c, size) else c;
    var dead := HotTakesOldest(p, c, size, pin, use, n);
    RecencyThin(c, r, dead, use, n);
    if c.index[x].pinned { OneRound(c, r, use, dead, x, y); } else { assert x !in dead; }
  }

  lemma MainStage<B>(p: Policy, c: Cache<B>, size: nat, use: map<BlobId, nat>, n: nat, x: BlobId, y: BlobId)
    requires Valid(c) && Recency(c, use, n) && Rivals(c, use, x, y)
    ensures var r := EvictMain(p, c, size); x !in r.index ==> y !in r.index
  {
    var dead := MainTakesOldest(p, c, size, use, n);
    OneRound(c, EvictMain(p, c, size), use, dead, x, y);
  }

  lemma Lost<B>(p: Policy, c: Cache<B>, size: nat, y: BlobId)
    requires Valid(c) && y !in c.index
    ensures y !in EvictMain(p, c, size).index
  {
    var gone := EvictMainRemovesShortestRun(p, c, size);
  }

  /** Making room takes, with an entry, every evictable one of its list used less recently. */
  lemma RoomTakesOldest<B>(p: Policy, c: Cache<B>, id: BlobId, size: nat, pin: bool, use: map<BlobId, nat>, n: nat, x: BlobId, y: BlobId)
    requires Valid(c) && Recency(c, use, n) && x != id && y != id && Rivals(c, use, x, y)
    ensures x !in MakeRoom(p, c, id, size, pin).index ==> y !in MakeRoom(p, c, id, size, pin).index
  {
    var c1 := Drop(c, id);
    DropStage(c, id, use, n, x, y);
    HotStage(p, c1, size, pin, use, n, x, y);
    var c2 := if pin then EvictHot(p, c1, size) else c1;
    if y in c2.index { MainStage(p, c2, size, use, n, x, y); } else { Lost(p, c2, size, y); }
  }

  /** In every run: an operation makes room by evicting `x` only if it also evicts every
      evictable entry of the same list that was used less recently. */
  lemma EvictsLeastRecentlyUsed<B>(p: Policy, c0: Cache<B>, r0: Ranks, ops: seq<Op<B>>, op: Op<B>, x: BlobId, y: BlobId)
    requires Valid(c0) && Recency(c0, r0.use, r0.n) && !Addresses(op, x) && !Addresses(op, y)
    requires Rivals(Exec(p, c0, ops), LastUse(p, c0, r0, ops), x, y)
    ensures var c' := Step(p, Exec(p, c0, ops), op); x !in c'.index ==> y !in c'.index
  {
    var c, use := Exec(p, c0, ops), LastUse(p, c0, r0, ops);
    RunValid(p, c0, ops);
    RunRecency(p, c0, r0, ops);
    StepTakesOldest(p, c, op, use, r0.n + |ops|, x, y);
  }

  lemma StepTakesOldest<B>(p: Policy, c: Cache<B>, op: Op<B>, use: map<BlobId, nat>, n: nat, x: BlobId, y: BlobId)
    requires Valid(c) && Recency(c, use, n) && !Addresses(op, x) && !Addresses(op, y) && Rivals(c, use, x, y)
    ensures x !in Step(p, c, op).index ==> y !in Step(p, c, op).index
  {
    match op
    case OpPut(id, _, size, opts, _) => RoomTakesOldest(p, c, id, size, opts.pinHot && p.hotPin, use, n, x, y);
    case OpLostPut(id, size, pin) => RoomTakesOldest(p, c, id, size, pin, use, n, x, y);
    case _ =>
  }

  // ---------------------------------------------------------------------
  // No more than it must
  // ---------------------------------------------------------------------

  /** The bytes of the cache, and of its hot region, without blob `id`. */
  function OtherBytes<B>(c: Cache<B>, id: BlobId): int { c.bytesUsed - SizeOf(c.index, id) }

  function OtherHotBytes<B>(c: Cache<B>, id: BlobId): int {
    c.hotBytes - if id in c.index && c.index[id].pinned then c.index[id].size else 0
  }

  /** Before the last of `gone` went, the new blob did not fit. */
  ghost predicate LastWasNeeded<B>(index: map<BlobId, Entry<B>>, gone: seq<BlobId>, bytes: int, size: nat, limit: nat) {
    gone != [] ==> limit > 0 && bytes - Total(gone[..|gone| - 1], index) + size > limit
  }

  lemma RunWasNeeded<B>(c: Cache<B>, vs: seq<BlobId>, gone: seq<BlobId>, bytes: int, size: nat, limit: nat)
    requires limit > 0 && ShortestRunGone(c, vs, bytes + size - limit, gone)
    ensures LastWasNeeded(c.index, gone, bytes, size, limit)
  {
    if gone != [] { assert Freed(gone, c.index, |gone| - 1) < bytes + size - limit; }
  }

  lemma HotWasNeeded<B>(p: Policy, c: Cache<B>, size: nat, pin: bool) returns (gone: seq<BlobId>)
    requires Valid(c)
    ensures var r := if pin then EvictHot(p, c, size) else c;
            Valid(r) && r.index == c.index - Elems(gone) && r.bytesUsed == c.bytesUsed - Total(gone, c.index)
    ensures LastWasNeeded(c.index, gone, c.hotBytes, size, p.hotLimit) && (gone != [] ==> pin)
    ensures forall x :: x in gone ==> x in c.index
  {
    if pin {
      gone := EvictHotRemovesShortestRun(p, c, size);
      EvictHotValid(p, c, size);
      if p.hotLimit > 0 {
        RunWasNeeded(c, Victims(c.hot, c.index), gone, c.hotBytes, size, p.hotLimit);
      } else {
        RemovedNone(c);
        gone := [];
      }
    } else {
      RemovedNone(c);
      gone := [];
    }
  }

  lemma MainWasNeeded<B>(p: Policy, c: Cache<B>, size: nat) returns (gone: seq<BlobId>)
    requires Valid(c)
    ensures EvictMain(p, c, size).index == c.index - Elems(gone) && forall x :: x in gone ==> x in c.index
    ensures LastWasNeeded(c.index, gone, c.bytesUsed, size, p.maxBytes)
  {
    if p.maxBytes > 0 {
      gone := EvictMainRemovesShortestRun(p, c, size);
      RunWasNeeded(c, Candidates(c), gone, c.bytesUsed, size, p.maxBytes);
    } else {
      RemovedNone(c);
      gone := [];
    }
  }

  lemma SameNeed<B>(i1: map<BlobId, Entry<B>>, i2: map<BlobId, Entry<B>>, gone: seq<BlobId>, bytes: int, size: nat, limit: nat)
    requires LastWasNeeded(i1, gone, bytes, size, limit) && forall x :: x in gone ==> SizeOf(i1, x) == SizeOf(i2, x)
    ensures LastWasNeeded(i2, gone, bytes, size, limit) && Total(gone, i1) == Total(gone, i2)
  {
    TotalFrame(gone, i1, i2);
    if gone != [] { TotalFrame(gone[..|gone| - 1], i1, i2); }
  }

  lemma DropBytes<B>(c: Cache<B>, id: BlobId)
    ensures var d := Drop(c, id);
            d.index == c.index - {id} && d.bytesUsed == OtherBytes(c, id) && d.hotBytes == OtherHotBytes(c, id)
  {
    if id !in c.index { assert c.index - {id} == c.index; }
  }

  lemma KeysThrice<B>(m: map<BlobId, Entry<B>>, id: BlobId, a: set<BlobId>, b: set<BlobId>, e: Entry<B>)
    ensures (m - {id} - a - b)[id := e].Keys == m.Keys - a - b + {id}
  {
  }

  lemma RoomTakesNoMore<B>(p: Policy, c: Cache<B>, id: BlobId, size: nat, pin: bool)
    returns (hotGone: seq<BlobId>, gone: seq<BlobId>)
    requires Valid(c)
    ensures MakeRoom(p, c, id, size, pin).index == c.index - {id} - Elems(hotGone) - Elems(gone)
    ensures LastWasNeeded(c.index, hotGone, OtherHotBytes(c, id), size, p.hotLimit) && (hotGone != [] ==> pin)
    ensures LastWasNeeded(c.index, gone, OtherBytes(c, id) - Total(hotGone, c.index), size, p.maxBytes)
  {
    var c1 := Drop(c, id);
    DropBytes(c, id);
    var dead := DropRemoves(c, id);
    hotGone := HotWasNeeded(p, c1, size, pin);
    var c2 := if pin then EvictHot(p, c1, size) else c1;
    gone := MainWasNeeded(p, c2, size);
    SameNeed(c1.index, c.index, hotGone, c1.hotBytes, size, p.hotLimit);
    SameNeed(c2.index, c.index, gone, c2.bytesUsed, size, p.maxBytes);
  }

  /** A Put takes from the cache its own old entry, from the hot region no more than makes a
      pinned blob fit there, and from the rest no more than then makes the blob fit: without
      the last one that went it would not. */
  lemma PutTakesNoMoreThanItMust<B>(p: Policy, c: Cache<B>, id: BlobId, body: B, size: nat, o: PutOptions, now: int)
    returns (hotGone: seq<BlobId>, gone: seq<BlobId>)
    requires Valid(c) && !TooBig(p, size)
    ensures Put(p, c, id, body, size, o, now).index.Keys == c.index.Keys - Elems(hotGone) - Elems(gone) + {id}
    ensures LastWasNeeded(c.index, hotGone, OtherHotBytes(c, id), size, p.hotLimit) && (hotGone != [] ==> o.pinHot && p.hotPin)
    ensures LastWasNeeded(c.index, gone, OtherBytes(c, id) - Total(hotGone, c.index), size, p.maxBytes)
  {
    hotGone, gone := RoomTakesNoMore(p, c, id, size, o.pinHot && p.hotPin);
    KeysThrice(c.index, id, Elems(hotGone), Elems(gone), NewEntry(p, body, size, o, now));
  }
}
