/** Runs of a disk cache after a restart: the lists are still in the order of last use, with
    the order of storing before the restart, and the evictable bytes still fit. */
module DiskRuns {
  import opened Prelude
  import opened DiskFiles
  import opened DiskWarm
  import L = Lru
  import opened LruRuns
  import opened LruPuts
  import opened LruPins

  /** Blobs by their place in the scan, oldest first. */
  function Places(ids: seq<BlobId>): map<BlobId, nat> {
    if ids == [] then map[] else Places(ids[..|ids| - 1])[ids[|ids| - 1] := |ids|]
  }

  /** A rank nobody in the cache has changes nothing. */
  lemma RankElsewhere(c: L.Cache<()>, id: BlobId, use: map<BlobId, nat>, n: nat)
    requires L.Valid(c) && Recency(c, use, n) && id !in c.index
    ensures Recency(c, use[id := n + 1], n + 1)
  {
    OrderFrame(c.hot, use, id, n + 1);
    OrderFrame(c.main, use, id, n + 1);
  }

  lemma AdoptOneRecency(p: L.Policy, d: Disk, c: L.Cache<()>, id: BlobId, now: int, use: map<BlobId, nat>, n: nat)
    requires L.Valid(c) && Recency(c, use, n) && id !in c.index
    ensures Recency(AdoptOne(p, d, c, id, now), use[id := n + 1], n + 1)
  {
    if L.Expired(EntryAt(p, d, id), now) {
      RankElsewhere(c, id, use, n);
    } else {
      RecencyFront(c, L.Insert(c, id, EntryAt(p, d, id)), id, use, n);
    }
  }

  lemma AdoptLast(p: L.Policy, d: Disk, ids: seq<BlobId>, now: int)
    requires ids != [] && L.NoDup(ids)
    ensures var c := Adopted(p, d, ids[..|ids| - 1], now);
            L.Valid(c) && ids[|ids| - 1] !in c.index && L.NoDup(ids[..|ids| - 1])
  {
    var n := |ids| - 1;
    L.NoDupLast(ids);
    AdoptedValid(p, d, ids[..n], now);
    AdoptedIndex(p, d, ids[..n], now, ids[n]);
  }

  lemma {:induction false} AdoptLastRecency(p: L.Policy, d: Disk, ids: seq<BlobId>, now: int)
    requires ids != [] && L.NoDup(ids)
    requires Recency(Adopted(p, d, ids[..|ids| - 1], now), Places(ids[..|ids| - 1]), |ids| - 1)
    ensures Recency(Adopted(p, d, ids, now), Places(ids), |ids|)
  {
    var n := |ids| - 1;
    var c := Adopted(p, d, ids[..n], now);
    AdoptLast(p, d, ids, now);
    AdoptOneRecency(p, d, c, ids[n], now, Places(ids[..n]), n);
    assert Adopted(p, d, ids, now) == AdoptOne(p, d, c, ids[n], now);
    assert Places(ids) == Places(ids[..n])[ids[n] := |ids|];
  }

  lemma {:induction false} AdoptedRecency(p: L.Policy, d: Disk, ids: seq<BlobId>, now: int)
    requires L.NoDup(ids)
    ensures Recency(Adopted(p, d, ids, now), Places(ids), |ids|)
  {
    if ids != [] {
      L.NoDupLast(ids);
      AdoptedRecency(p, d, ids[..|ids| - 1], now);
      AdoptLastRecency(p, d, ids, now);
    }
  }

  /** A restarted cache is in the order in which its blobs were stored. */
  lemma WarmedRecency(p: L.Policy, found: Disk, now: int, c: L.Cache<()>) returns (order: seq<BlobId>)
    requires WarmsTo(p, found, now, c)
    ensures ScanOrder(found, order) && L.Valid(c) && Recency(c, Places(order), |order|)
  {
    order :| ScanOrder(found, order) && c == L.EvictMain(p, Adopted(p, found, order, now), 0);
    var c0 := Adopted(p, found, order, now);
    AdoptedRecency(p, found, order, now);
    AdoptedValid(p, found, order, now);
    WarmsToValid(p, found, now, c);
    var dead := MainRemoves(p, c0, 0);
    RecencyThin(c0, c, dead, Places(order), |order|);
  }

  // ---------------------------------------------------------------------
  // The order of storing
  // ---------------------------------------------------------------------

  lemma {:induction false} PlacesAt(ids: seq<BlobId>, k: nat)
    requires L.NoDup(ids) && k < |ids|
    ensures ids[k] in Places(ids) && Places(ids)[ids[k]] == k + 1
  {
    var n := |ids| - 1;
    L.NoDupLast(ids);
    if k < n {
      PlacesAt(ids[..n], k);
      assert ids[..n][k] == ids[k] && ids[k] in ids[..n];
    }
  }

  lemma LastPutUnique<B>(p: L.Policy, ops: seq<Op<B>>, id: BlobId, i: nat, j: nat)
    requires LastPut(p, ops, id, i) && LastPut(p, ops, id, j)
    ensures i == j
  {
    assert i < j ==> Leaves(p, ops[j], id);
    assert j < i ==> Leaves(p, ops[i], id);
  }

  /** A blob that comes back has on disk the time of its last Put. */
  lemma AgeIsPutTime(p: L.Policy, c0: L.Cache<()>, ops: seq<Op<()>>, d: Disk, id: BlobId, i: nat)
    requires Blank(c0) && Backed(p, d, Exec(p, c0, ops).index) && LastPut(p, ops, id, i) && Complete(d, id)
    ensures Age(d.metas, id) == ops[i].now
  {
    var index := Exec(p, c0, ops).index;
    assert id in d.metas.Keys;
    assert Describes(p, d, id, index[id]);
    var j := CachedAsLastPut(p, c0, ops, id);
    LastPutUnique(p, ops, id, i, j);
  }

  lemma OlderRanksLower(d: Disk, order: seq<BlobId>, a: BlobId, b: BlobId)
    requires ScanOrder(d, order) && Complete(d, a) && Complete(d, b) && Age(d.metas, a) < Age(d.metas, b)
    ensures a in Places(order) && b in Places(order) && Places(order)[a] < Places(order)[b]
  {
    assert a in order && b in order;
    var x :| 0 <= x < |order| && order[x] == a;
    var y :| 0 <= y < |order| && order[y] == b;
    PlacesAt(order, x);
    PlacesAt(order, y);
  }

  lemma WarmIsComplete(p: L.Policy, d: Disk, now: int, c: L.Cache<()>, id: BlobId)
    requires WarmsTo(p, d, now, c) && id in c.index
    ensures Complete(d, id)
  {
    var order :| ScanOrder(d, order) && c == L.EvictMain(p, Adopted(p, d, order, now), 0);
    EvictMainSub(p, Adopted(p, d, order, now), 0, id);
    AdoptedIndex(p, d, order, now, id);
  }

  lemma ListedAge(p: L.Policy, c0: L.Cache<()>, ops: seq<Op<()>>, d: Disk, now: int, c: L.Cache<()>,
                  id: BlobId, i: nat, list: seq<BlobId>)
    requires Blank(c0) && Backed(p, d, Exec(p, c0, ops).index) && WarmsTo(p, d, now, c)
    requires LastPut(p, ops, id, i) && (list == c.main || list == c.hot) && id in list
    ensures Complete(d, id) && Age(d.metas, id) == ops[i].now
  {
    WarmsToValid(p, d, now, c);
    WarmIsComplete(p, d, now, c, id);
    AgeIsPutTime(p, c0, ops, d, id, i);
  }

  /** After a restart the lists are in the order of the last Puts: of two blobs in the same list,
      whenever they were used in between, the one put earlier stands nearer the back. */
  lemma RestartOrdersByPut(p: L.Policy, c0: L.Cache<()>, ops: seq<Op<()>>, d: Disk, now: int, c: L.Cache<()>,
                           a: BlobId, i: nat, b: BlobId, j: nat, list: seq<BlobId>, x: nat, y: nat)
    requires Blank(c0) && Backed(p, d, Exec(p, c0, ops).index) && WarmsTo(p, d, now, c)
    requires LastPut(p, ops, a, i) && LastPut(p, ops, b, j) && ops[i].now < ops[j].now
    requires (list == c.main || list == c.hot) && x < |list| && list[x] == a && y < |list| && list[y] == b
    ensures y < x
  {
    assert a in list && b in list;
    ListedAge(p, c0, ops, d, now, c, a, i, list);
    ListedAge(p, c0, ops, d, now, c, b, j, list);
    var order := WarmedRecency(p, d, now, c);
    OlderRanksLower(d, order, a, b);
    if x < y { OrderAt(list, Places(order), x, y); }
  }

  lemma {:induction false} NothingPinned(p: L.Policy, d: Disk, ids: seq<BlobId>, now: int)
    requires !p.hotPin
    ensures Adopted(p, d, ids, now).hot == []
  {
    if ids != [] { NothingPinned(p, d, ids[..|ids| - 1], now); }
  }

  /** In plain LRU mode a restart brings the evictable bytes down to the limit. */
  lemma WarmedFits(p: L.Policy, found: Disk, now: int, c: L.Cache<()>)
    requires WarmsTo(p, found, now, c) && p.maxBytes > 0 && !p.hotPin
    ensures L.Valid(c) && Fits(p, c)
  {
    var order :| ScanOrder(found, order) && c == L.EvictMain(p, Adopted(p, found, order, now), 0);
    var c0 := Adopted(p, found, order, now);
    AdoptedValid(p, found, order, now);
    NothingPinned(p, found, order, now);
    WarmsToValid(p, found, now, c);
    RoomForIncoming(p, c0, 0);
    var dead := MainRemoves(p, c0, 0);
  }

  /** With a hot region a restart brings the evictable main entries down to the limit, and
      leaves the pinned ones alone as long as anything is left in main. */
  lemma WarmedMainFits(p: L.Policy, found: Disk, now: int, c: L.Cache<()>)
    requires WarmsTo(p, found, now, c) && p.maxBytes > 0
    ensures L.Valid(c) && MainBytes(c) <= p.maxBytes
  {
    var order :| ScanOrder(found, order) && c == L.EvictMain(p, Adopted(p, found, order, now), 0);
    AdoptedValid(p, found, order, now);
    WarmsToValid(p, found, now, c);
    RoomForIncoming(p, Adopted(p, found, order, now), 0);
  }

  /** Every run after a restart: whatever stands nearer the front of a list was used later,
      where blobs not used since rank by the order of storing. */
  lemma ListOrderAfterRestart(p: L.Policy, found: Disk, now: int, c: L.Cache<()>, ops: seq<Op<()>>, i: nat, j: nat)
    returns (order: seq<BlobId>)
    requires WarmsTo(p, found, now, c)
    ensures ScanOrder(found, order)
    ensures var e, use := Exec(p, c, ops), LastUse(p, c, Ranks(Places(order), |order|), ops);
            && (i < j < |e.main| ==> e.main[i] in use && e.main[j] in use && use[e.main[i]] > use[e.main[j]])
            && (i < j < |e.hot| ==> e.hot[i] in use && e.hot[j] in use && use[e.hot[i]] > use[e.hot[j]])
  {
    order := WarmedRecency(p, found, now, c);
    ListOrderIsOrderOfLastUse(p, c, Ranks(Places(order), |order|), ops, i, j);
  }

  /** Every run after a restart keeps the evictable bytes within the limit. */
  lemma EvictableBytesFitAfterRestart(p: L.Policy, found: Disk, now: int, c: L.Cache<()>, ops: seq<Op<()>>)
    requires WarmsTo(p, found, now, c) && p.maxBytes > 0 && !p.hotPin
    ensures var e := Exec(p, c, ops); e.hot == [] && EvictableBytes(e.main, e.index) <= p.maxBytes
  {
    WarmedFits(p, found, now, c);
    EvictableBytesNeverExceedLimit(p, c, ops);
  }

  /** The same with a hot region: the evictable main entries keep within MaxBytes, and the
      pinned ones within MaxBytes, the hot limit or what the restart brought back, whichever
      is most; once a blob has been pinned they fit into the hot region or are just one. */
  lemma PinnedBytesAfterRestart(p: L.Policy, found: Disk, now: int, c: L.Cache<()>, ops: seq<Op<()>>, h: nat)
    requires WarmsTo(p, found, now, c) && p.maxBytes > 0 && p.hotLimit > 0
    requires p.maxBytes <= h && p.hotLimit <= h && PinnedBytes(c) <= h
    ensures PinFits(p, Exec(p, c, ops), h)
    ensures PinsSome(p, ops) ==> HotFits(p, Exec(p, c, ops))
  {
    WarmedMainFits(p, found, now, c);
    EvictableBytesWithPins(p, c, ops, h);
    if PinsSome(p, ops) { PinnedBytesFitHotRegion(p, c, ops); }
  }
}
