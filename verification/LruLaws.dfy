/** Laws of the hot cache's eviction: what one eviction removes, and what each round of
    its loop does. */
module LruLaws {
  import opened Prelude
  import opened Lru

  // ---------------------------------------------------------------------
  // What an eviction removes
  // ---------------------------------------------------------------------

  ghost function Elems(ids: seq<BlobId>): set<BlobId> { set x | x in ids }

  /** The bytes the first `k` victims take. */
  ghost function Freed<B>(victims: seq<BlobId>, index: map<BlobId, Entry<B>>, k: nat): nat
    requires k <= |victims|
  {
    Total(victims[..k], index)
  }

  /** Shortest is what its name says: its run frees enough, or takes all, and no shorter run frees enough. */
  lemma {:induction false} ShortestIsLeast<B>(victims: seq<BlobId>, index: map<BlobId, Entry<B>>, need: int)
    ensures var k := Shortest(victims, index, need);
            && (k < |victims| ==> Freed(victims, index, k) >= need)
            && (forall j: nat :: j < k ==> Freed(victims, index, j) < need)
    decreases |victims|
  {
    if need > 0 && victims != [] {
      var k := Shortest(victims, index, need);
      ShortestIsLeast(victims[1..], index, need - SizeOf(index, victims[0]));
      FreedCons(victims, index, k - 1);
      forall j: nat | j < k ensures Freed(victims, index, j) < need {
        if j > 0 {
          FreedCons(victims, index, j - 1);
        }
      }
    }
  }

  lemma FreedCons<B>(victims: seq<BlobId>, index: map<BlobId, Entry<B>>, j: nat)
    requires j < |victims|
    ensures Freed(victims, index, j + 1) == SizeOf(index, victims[0]) + Freed(victims[1..], index, j)
  {
    assert victims[..j + 1][1..] == victims[1..][..j];
  }

  /** Conversely a run with those two properties has exactly that length. */
  lemma {:induction false} ShortestIsOnly<B>(victims: seq<BlobId>, index: map<BlobId, Entry<B>>, need: int, k: nat)
    requires k <= |victims|
    requires k < |victims| ==> Freed(victims, index, k) >= need
    requires forall j: nat :: j < k ==> Freed(victims, index, j) < need
    ensures k == Shortest(victims, index, need)
  {
    ShortestIsLeast(victims, index, need);
  }

  lemma {:induction false} WithoutLast(ids: seq<BlobId>, dead: set<BlobId>)
    requires ids != []
    ensures var n := |ids| - 1;
            Without(ids, dead) == if ids[n] in dead then Without(ids[..n], dead) else Without(ids[..n], dead) + [ids[n]]
  {
    var n := |ids| - 1;
    if n > 0 {
      WithoutLast(ids[1..], dead);
      assert ids[1..][..n - 1] == ids[..n][1..];
    } else {
      assert ids[1..] == [] && ids[..n] == [];
    }
  }

  lemma {:induction false} VictimsFrame<B>(ids: seq<BlobId>, i1: map<BlobId, Entry<B>>, i2: map<BlobId, Entry<B>>)
    requires forall x :: x in ids ==> Protected(i1, x) == Protected(i2, x)
    ensures Victims(ids, i1) == Victims(ids, i2)
  {
    if ids != [] {
      var n := |ids| - 1;
      assert ids[n] in ids;
      VictimsFrame(ids[..n], i1, i2);
    }
  }

  /** Removing the first victim leaves the others, in the same order. */
  lemma {:induction false} VictimsDropFirst<B>(ids: seq<BlobId>, index: map<BlobId, Entry<B>>, v: BlobId)
    requires NoDup(ids) && Victims(ids, index) != [] && Victims(ids, index)[0] == v
    ensures Victims(Without(ids, {v}), index - {v}) == Victims(ids, index)[1..]
  {
    var n := |ids| - 1;
    WithoutLast(ids, {v});
    NoDupLast(ids);
    VictimsAreEvictable(ids, index);
    if Protected(index, ids[n]) {
      VictimsDropFirst(ids[..n], index, v);
      var rest := Without(ids[..n], {v});
      assert (rest + [ids[n]])[..|rest|] == rest;
    } else {
      WithoutAbsent(ids[..n], {v});
      VictimsFrame(ids[..n], index - {v}, index);
    }
  }

  /** The list an eviction round looks at: main, or hot once main is empty. */
  function RoundList<B>(c: Cache<B>): seq<BlobId> {
    if c.main != [] then c.main else c.hot
  }

  lemma CandidatesRound<B>(c: Cache<B>)
    ensures Candidates(c) == [] <==> Victims(RoundList(c), c.index) == []
    ensures Candidates(c) != [] ==> Candidates(c)[0] == Victims(RoundList(c), c.index)[0]
    ensures c.main != [] && Candidates(c) != [] ==> Victims(c.main, c.index) != []
  {
    VictimsAreEvictable(c.main, c.index);
    if c.main != [] && Victims(c.main, c.index) == [] {
      assert c.main[0] in c.main;
      assert !AllEvictable(c.main, c.index);
    }
  }

  lemma DropFirstOfHot<B>(c: Cache<B>, v: BlobId)
    requires Valid(c) && c.main == [] && Victims(c.hot, c.index) != [] && v == Victims(c.hot, c.index)[0]
    ensures Drop(c, v).main == [] && Victims(Drop(c, v).hot, Drop(c, v).index) == Victims(c.hot, c.index)[1..]
  {
    VictimsAreEvictable(c.hot, c.index);
    VictimsDropFirst(c.hot, c.index, v);
  }

  lemma DropFirstOfMain<B>(c: Cache<B>, v: BlobId)
    requires Valid(c) && Victims(c.main, c.index) != [] && v == Victims(c.main, c.index)[0]
    ensures Victims(Drop(c, v).main, Drop(c, v).index) == Victims(c.main, c.index)[1..]
    ensures Victims(Drop(c, v).hot, Drop(c, v).index) == Victims(c.hot, c.index)
    ensures AllEvictable(Drop(c, v).main, Drop(c, v).index) <==> AllEvictable(c.main, c.index)
  {
    VictimsAreEvictable(c.main, c.index);
    VictimsDropFirst(c.main, c.index, v);
    MainDropKeepsHot(c, v);
  }

  /** The candidates, from the victims of the two lists. */
  function Joined(all: bool, m: seq<BlobId>, h: seq<BlobId>): seq<BlobId> {
    if all then m + h else m
  }

  lemma JoinedTail(all: bool, m: seq<BlobId>, h: seq<BlobId>)
    requires m != []
    ensures Joined(all, m[1..], h) == Joined(all, m, h)[1..]
  {
    assert (m + h)[1..] == m[1..] + h;
  }

  lemma JoinedHotOnly(h: seq<BlobId>)
    ensures Joined(true, [], h) == h
  {
    assert [] + h == h;
  }

  lemma CandidatesJoin<B>(c: Cache<B>)
    ensures Candidates(c) == Joined(AllEvictable(c.main, c.index), Victims(c.main, c.index), Victims(c.hot, c.index))
  {
  }

  lemma CandidatesOfHot<B>(c: Cache<B>)
    requires c.main == []
    ensures Candidates(c) == Victims(c.hot, c.index)
  {
    CandidatesJoin(c);
    JoinedHotOnly(Victims(c.hot, c.index));
  }

  lemma CandidatesDropMain<B>(c: Cache<B>, v: BlobId)
    requires Valid(c) && Victims(c.main, c.index) != [] && v == Victims(c.main, c.index)[0]
    ensures Candidates(Drop(c, v)) == Candidates(c)[1..]
  {
    DropFirstOfMain(c, v);
    JoinedTail(AllEvictable(c.main, c.index), Victims(c.main, c.index), Victims(c.hot, c.index));
    CandidatesJoin(c);
    CandidatesJoin(Drop(c, v));
  }

  /** A round of evictMain drops the first candidate and leaves the others as they were. */
  lemma CandidatesDropFirst<B>(c: Cache<B>, v: BlobId)
    requires Valid(c) && Candidates(c) != [] && v == Candidates(c)[0]
    ensures Candidates(Drop(c, v)) == Candidates(c)[1..]
  {
    CandidatesRound(c);
    if c.main == [] {
      DropFirstOfHot(c, v);
      CandidatesOfHot(c);
      CandidatesOfHot(Drop(c, v));
    } else {
      CandidatesDropMain(c, v);
    }
  }

  lemma MainDropKeepsHot<B>(c: Cache<B>, v: BlobId)
    requires Valid(c) && v in c.main && !Protected(c.index, v)
    ensures Victims(Drop(c, v).hot, Drop(c, v).index) == Victims(c.hot, c.index)
    ensures AllEvictable(Drop(c, v).main, Drop(c, v).index) <==> AllEvictable(c.main, c.index)
  {
    VictimsFrame(c.hot, c.index - {v}, c.index);
    WithoutElems(c.main, {v});
    var d := Drop(c, v);
    forall x | x in c.main && x != v ensures Protected(d.index, x) == Protected(c.index, x) {}
  }

  /** `r` is `c` without `ids`: survivors keep their order and the byte count drops by their sizes. */
  ghost predicate Removed<B>(c: Cache<B>, r: Cache<B>, ids: seq<BlobId>) {
    && r.hot == Without(c.hot, Elems(ids)) && r.main == Without(c.main, Elems(ids))
    && r.index == c.index - Elems(ids)
    && r.bytesUsed == c.bytesUsed - Total(ids, c.index)
  }

  lemma RemovedNone<B>(c: Cache<B>)
    ensures Removed(c, c, [])
  {
    WithoutAbsent(c.hot, {});
    WithoutAbsent(c.main, {});
    assert Elems([]) == {};
  }

  lemma RemovedCons<B>(c: Cache<B>, d: Cache<B>, r: Cache<B>, ids: seq<BlobId>)
    requires ids != [] && NoDup(ids)
    requires d.hot == Without(c.hot, {ids[0]}) && d.main == Without(c.main, {ids[0]})
    requires d.index == c.index - {ids[0]} && d.bytesUsed == c.bytesUsed - SizeOf(c.index, ids[0])
    requires Removed(d, r, ids[1..])
    ensures Removed(c, r, ids)
  {
    var v, rest := ids[0], ids[1..];
    ElemsCons(ids);
    WithoutTwice(c.hot, {v}, Elems(rest));
    WithoutTwice(c.main, {v}, Elems(rest));
    MinusTwice(c.index, v, Elems(rest));
    TotalFrame(rest, c.index, d.index);
  }

  lemma ElemsCons(ids: seq<BlobId>)
    requires ids != []
    ensures Elems(ids) == {ids[0]} + Elems(ids[1..])
  {
    assert ids == [ids[0]] + ids[1..];
  }

  lemma MinusTwice<B>(m: map<BlobId, B>, v: BlobId, s: set<BlobId>)
    ensures (m - {v}) - s == m - ({v} + s)
  {
  }

  /** Dropping blobs one by one removes exactly them from the lists and the index. */
  lemma {:induction false} DropAllRemoves<B>(c: Cache<B>, ids: seq<BlobId>)
    requires Valid(c) && NoDup(ids) && forall x :: x in ids ==> x in c.index
    ensures Removed(c, DropAll(c, ids), ids)
    decreases |ids|
  {
    if ids == [] {
      RemovedNone(c);
    } else {
      DropValid(c, ids[0]);
      DropAllRemoves(Drop(c, ids[0]), ids[1..]);
      RemovedCons(c, Drop(c, ids[0]), DropAll(c, ids), ids);
    }
  }

  lemma {:induction false} NoDupPrefix(ids: seq<BlobId>, k: nat)
    requires NoDup(ids) && k <= |ids|
    ensures NoDup(ids[..k])
  {
    if k > 0 {
      NoDupPrefix(ids[1..], k - 1);
      assert ids[..k][1..] == ids[1..][..k - 1];
      assert ids[..k] == [ids[0]] + ids[1..][..k - 1];
    }
  }

  /** Of the victims `vs`, exactly the shortest run that frees `need` bytes goes. */
  ghost predicate ShortestRunGone<B>(c: Cache<B>, vs: seq<BlobId>, need: int, gone: seq<BlobId>) {
    && gone <= vs
    && (gone != vs ==> Total(gone, c.index) >= need)
    && forall j: nat :: j < |gone| ==> Freed(gone, c.index, j) < need
  }

  lemma DropShortest<B>(c: Cache<B>, vs: seq<BlobId>, need: int) returns (gone: seq<BlobId>)
    requires Valid(c) && NoDup(vs) && forall x :: x in vs ==> x in c.index
    ensures Removed(c, DropAll(c, vs[..Shortest(vs, c.index, need)]), gone)
    ensures ShortestRunGone(c, vs, need, gone)
  {
    var k := Shortest(vs, c.index, need);
    gone := vs[..k];
    NoDupPrefix(vs, k);
    DropAllRemoves(c, gone);
    ShortestIsLeast(vs, c.index, need);
    forall j: nat | j < |gone| ensures Freed(gone, c.index, j) < need {
      assert gone[..j] == vs[..j];
      assert Freed(vs, c.index, j) < need;
    }
    assert k < |vs| ==> Freed(vs, c.index, k) >= need;
  }

  /** evictMain removes exactly the shortest oldest-first run of candidates that makes the
      new blob fit; all of them are evictable, and survivors keep their order. */
  lemma EvictMainRemovesShortestRun<B>(p: Policy, c: Cache<B>, incoming: nat) returns (gone: seq<BlobId>)
    requires Valid(c)
    ensures Removed(c, EvictMain(p, c, incoming), gone)
    ensures forall x :: x in gone ==> x in c.index && !Protected(c.index, x)
    ensures gone <= Candidates(c)
    ensures p.maxBytes > 0 ==> ShortestRunGone(c, Candidates(c), c.bytesUsed + incoming - p.maxBytes, gone)
  {
    if p.maxBytes == 0 {
      gone := [];
      RemovedNone(c);
    } else {
      CandidatesNoDup(c);
      gone := DropShortest(c, Candidates(c), c.bytesUsed + incoming - p.maxBytes);
    }
  }

  lemma CandidatesNoDup<B>(c: Cache<B>)
    requires Valid(c)
    ensures NoDup(Candidates(c))
    ensures forall x :: x in Candidates(c) ==> x in c.index && !Protected(c.index, x)
  {
    VictimsAreEvictable(c.main, c.index);
    VictimsAreEvictable(c.hot, c.index);
    if AllEvictable(c.main, c.index) {
      NoDupConcat(Victims(c.main, c.index), Victims(c.hot, c.index));
    }
  }

  /** evictHot does the same to the hot list against its own limit. */
  lemma EvictHotRemovesShortestRun<B>(p: Policy, c: Cache<B>, incoming: nat) returns (gone: seq<BlobId>)
    requires Valid(c)
    ensures Removed(c, EvictHot(p, c, incoming), gone)
    ensures forall x :: x in gone ==> x in c.hot && !Protected(c.index, x)
    ensures p.hotLimit > 0 ==>
              ShortestRunGone(c, Victims(c.hot, c.index), c.hotBytes + incoming - p.hotLimit, gone)
  {
    if p.hotLimit == 0 {
      gone := [];
      RemovedNone(c);
    } else {
      VictimsAreEvictable(c.hot, c.index);
      gone := DropShortest(c, Victims(c.hot, c.index), c.hotBytes + incoming - p.hotLimit);
    }
  }

  /** The hot list loses an entry to evictMain only when evictMain has emptied main. */
  lemma HotTouchedOnlyWhenMainEmpty<B>(p: Policy, c: Cache<B>, incoming: nat)
    requires Valid(c)
    ensures EvictMain(p, c, incoming).hot != c.hot ==> EvictMain(p, c, incoming).main == []
  {
    var gone := EvictMainRemovesShortestRun(p, c, incoming);
    var m := Victims(c.main, c.index);
    VictimsAreEvictable(c.main, c.index);
    if |gone| <= |m| {
      assert gone == m[..|gone|];
      WithoutAbsent(c.hot, Elems(gone));
    } else {
      forall x | x in c.main ensures x in Elems(gone) {
        var i :| 0 <= i < |m| && m[i] == x;
        assert gone[i] == Candidates(c)[i] == x;
      }
      WithoutAll(c.main, Elems(gone));
    }
  }

  lemma {:induction false} WithoutAll(ids: seq<BlobId>, dead: set<BlobId>)
    requires forall x :: x in ids ==> x in dead
    ensures Without(ids, dead) == []
  {
    if ids != [] {
      assert ids[0] in ids;
      WithoutAll(ids[1..], dead);
    }
  }

  // ---------------------------------------------------------------------
  // One round of an eviction loop
  // ---------------------------------------------------------------------

  lemma {:induction false} FreedSnoc<B>(vs: seq<BlobId>, index: map<BlobId, Entry<B>>, k: nat)
    requires k < |vs|
    ensures Freed(vs, index, k + 1) == Freed(vs, index, k) + SizeOf(index, vs[k])
  {
    TotalSnoc(vs[..k], index, vs[k]);
    assert vs[..k + 1] == vs[..k] + [vs[k]];
  }

  lemma {:induction false} TotalSnoc<B>(ids: seq<BlobId>, index: map<BlobId, Entry<B>>, id: BlobId)
    ensures Total(ids + [id], index) == Total(ids, index) + SizeOf(index, id)
  {
    if ids == [] {
      assert ids + [id] == [id];
    } else {
      assert (ids + [id])[1..] == ids[1..] + [id];
      TotalSnoc(ids[1..], index, id);
    }
  }

  lemma {:induction false} NoDupAt(ids: seq<BlobId>, i: nat, j: nat)
    requires NoDup(ids) && i < j < |ids|
    ensures ids[i] != ids[j]
  {
    if i == 0 {
      assert ids[1..][j - 1] == ids[j];
    } else {
      NoDupAt(ids[1..], i - 1, j - 1);
    }
  }

  /** The cache after an eviction loop that started from `c` has dropped the first `k` of `vs`. */
  function After<B>(c: Cache<B>, vs: seq<BlobId>, k: nat): Cache<B>
    requires k <= |vs|
  {
    DropAll(c, vs[..k])
  }

  lemma AfterNext<B>(c: Cache<B>, vs: seq<BlobId>, k: nat)
    requires k < |vs|
    ensures After(c, vs, k + 1) == Drop(After(c, vs, k), vs[k])
  {
    DropAllSnoc(c, vs[..k], vs[k]);
    assert vs[..k + 1] == vs[..k] + [vs[k]];
  }

  /** What the loop has not dropped yet is still cached with the entry it had. */
  lemma AfterKeeps<B>(c: Cache<B>, vs: seq<BlobId>, k: nat)
    requires Valid(c) && k <= |vs| && NoDup(vs) && forall x :: x in vs ==> x in c.index
    ensures Valid(After(c, vs, k)) && After(c, vs, k).bytesUsed == c.bytesUsed - Freed(vs, c.index, k)
    ensures k < |vs| ==> vs[k] in After(c, vs, k).index && After(c, vs, k).index[vs[k]] == c.index[vs[k]]
  {
    DropAllValid(c, vs[..k]);
    NoDupPrefix(vs, k);
    DropAllRemoves(c, vs[..k]);
    if k < |vs| && vs[k] in vs[..k] {
      var i :| 0 <= i < k && vs[i] == vs[k];
      NoDupAt(vs, i, k);
    }
  }

  /** No fewer than `k` victims free `need` bytes. */
  ghost predicate NotYet<B>(vs: seq<BlobId>, index: map<BlobId, Entry<B>>, need: int, k: nat) {
    k <= |vs| && forall j: nat :: j < k ==> Freed(vs, index, j) < need
  }

  /** After `k` rounds of evictMain's loop the candidates left are the rest of those it started with. */
  lemma {:induction false} CandidatesAfter<B>(c: Cache<B>, k: nat)
    requires Valid(c) && k <= |Candidates(c)|
    ensures Candidates(After(c, Candidates(c), k)) == Candidates(c)[k..]
  {
    var vs := Candidates(c);
    if k > 0 {
      CandidatesAfter(c, k - 1);
      CandidatesNoDup(c);
      AfterKeeps(c, vs, k - 1);
      AfterNext(c, vs, k - 1);
      CandidatesDropFirst(After(c, vs, k - 1), vs[k - 1]);
    }
  }

  /** A round of evictMain finds the next candidate at the back of the list it looks at, or
      none is left. */
  lemma MainRound<B>(c: Cache<B>, incoming: nat, maxBytes: nat, k: nat)
    requires Valid(c) && NotYet(Candidates(c), c.index, c.bytesUsed + incoming - maxBytes, k)
    ensures var vs, now := Candidates(c), After(c, Candidates(c), k);
            var found := Victims(RoundList(now), now.index);
            && now.bytesUsed == c.bytesUsed - Freed(vs, c.index, k)
            && (found == [] <==> k == |vs|)
            && (found != [] ==> found[0] == vs[k] && vs[k] in now.index && After(c, vs, k + 1) == Drop(now, vs[k]))
            && (k < |vs| && now.bytesUsed + incoming > maxBytes ==>
                  NotYet(vs, c.index, c.bytesUsed + incoming - maxBytes, k + 1))
  {
    var vs := Candidates(c);
    CandidatesNoDup(c);
    CandidatesAfter(c, k);
    AfterKeeps(c, vs, k);
    CandidatesRound(After(c, vs, k));
    if k < |vs| {
      AfterNext(c, vs, k);
    }
  }

  lemma MainDone<B>(p: Policy, c: Cache<B>, incoming: nat, k: nat)
    requires Valid(c) && p.maxBytes > 0
    requires NotYet(Candidates(c), c.index, c.bytesUsed + incoming - p.maxBytes, k)
    requires k == |Candidates(c)| || After(c, Candidates(c), k).bytesUsed + incoming <= p.maxBytes
    ensures After(c, Candidates(c), k) == EvictMain(p, c, incoming)
  {
    CandidatesNoDup(c);
    AfterKeeps(c, Candidates(c), k);
    ShortestIsOnly(Candidates(c), c.index, c.bytesUsed + incoming - p.maxBytes, k);
  }

  /** After `k` rounds of evictHot's loop, the remaining hot victims are the rest. */
  ghost predicate HotAfter<B>(c: Cache<B>, vs: seq<BlobId>, k: nat)
    requires k <= |vs|
  {
    var now := After(c, vs, k);
    Victims(now.hot, now.index) == vs[k..] && now.hotBytes == c.hotBytes - Freed(vs, c.index, k)
  }

  lemma HotAfterNext<B>(c: Cache<B>, vs: seq<BlobId>, k: nat)
    requires Valid(c) && vs == Victims(c.hot, c.index) && k < |vs| && HotAfter(c, vs, k)
    ensures HotAfter(c, vs, k + 1)
  {
    VictimsAreEvictable(c.hot, c.index);
    AfterKeeps(c, vs, k);
    AfterNext(c, vs, k);
    FreedSnoc(vs, c.index, k);
    HotVictimsNext(After(c, vs, k), After(c, vs, k + 1), vs, k);
  }

  lemma {:induction false} HotVictimsAfter<B>(c: Cache<B>, k: nat)
    requires Valid(c) && k <= |Victims(c.hot, c.index)|
    ensures HotAfter(c, Victims(c.hot, c.index), k)
  {
    if k > 0 {
      HotVictimsAfter(c, k - 1);
      HotAfterNext(c, Victims(c.hot, c.index), k - 1);
    }
  }

  lemma HotVictimsNext<B>(b: Cache<B>, d: Cache<B>, vs: seq<BlobId>, k: nat)
    requires Valid(b) && k < |vs| && Victims(b.hot, b.index) == vs[k..] && d == Drop(b, vs[k])
    ensures vs[k] in b.index && Victims(d.hot, d.index) == vs[k + 1..] && d.hotBytes == b.hotBytes - b.index[vs[k]].size
  {
    assert vs[k..][0] == vs[k] && vs[k..][1..] == vs[k + 1..];
    HotDrop(b, vs[k]);
  }

  lemma HotDrop<B>(c: Cache<B>, v: BlobId)
    requires Valid(c) && Victims(c.hot, c.index) != [] && v == Victims(c.hot, c.index)[0]
    ensures v in c.index && Drop(c, v).hotBytes == c.hotBytes - c.index[v].size
    ensures Victims(Drop(c, v).hot, Drop(c, v).index) == Victims(c.hot, c.index)[1..]
  {
    VictimsAreEvictable(c.hot, c.index);
    VictimsDropFirst(c.hot, c.index, v);
  }

  lemma HotRound<B>(c: Cache<B>, incoming: nat, hotLimit: nat, k: nat)
    requires Valid(c) && NotYet(Victims(c.hot, c.index), c.index, c.hotBytes + incoming - hotLimit, k)
    ensures var vs := Victims(c.hot, c.index);
            var now := After(c, vs, k);
            var found := Victims(now.hot, now.index);
            && (found == [] <==> k == |vs|)
            && (found != [] ==> found[0] == vs[k] && vs[k] in now.index && After(c, vs, k + 1) == Drop(now, vs[k]))
            && (k < |vs| && now.hotBytes + incoming > hotLimit ==>
                  NotYet(vs, c.index, c.hotBytes + incoming - hotLimit, k + 1))
  {
    var vs := Victims(c.hot, c.index);
    VictimsAreEvictable(c.hot, c.index);
    HotVictimsAfter(c, k);
    AfterKeeps(c, vs, k);
    if k < |vs| {
      AfterNext(c, vs, k);
    }
  }

  lemma HotDone<B>(p: Policy, c: Cache<B>, incoming: nat, k: nat)
    requires Valid(c) && p.hotLimit > 0
    requires NotYet(Victims(c.hot, c.index), c.index, c.hotBytes + incoming - p.hotLimit, k)
    requires k == |Victims(c.hot, c.index)| || After(c, Victims(c.hot, c.index), k).hotBytes + incoming <= p.hotLimit
    ensures After(c, Victims(c.hot, c.index), k) == EvictHot(p, c, incoming)
  {
    HotVictimsAfter(c, k);
    ShortestIsOnly(Victims(c.hot, c.index), c.index, c.hotBytes + incoming - p.hotLimit, k);
  }
}
