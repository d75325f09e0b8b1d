/** Restarting a disk cache from whatever files a crash left: which blobs come back, with
    which entries and in which order. */
module DiskWarm {
  import opened Prelude
  import opened DiskFiles
  import L = Lru
  import LruLaws
  import LruRuns

  /** loadMeta and the reset of the pin under a policy without a hot region. */
  function EntryOf(p: L.Policy, m: MetaFile): L.Entry<()> {
    match m
    case Meta(size, hash, storedAt, expiresAt, pinned, nonEvictable, hits) =>
      L.Entry((), size, hash, storedAt, storedAt, hits, pinned && p.hotPin, nonEvictable, expiresAt)
    case Garbage => L.Entry((), 0, "", 0, 0, 0, false, false, None)
  }

  function Age(metas: map<BlobId, MetaFile>, id: BlobId): int {
    if id in metas && metas[id].Meta? then metas[id].storedAt else 0
  }

  function InsertByAge(id: BlobId, ids: seq<BlobId>, metas: map<BlobId, MetaFile>): seq<BlobId> {
    if ids == [] || Age(metas, id) <= Age(metas, ids[0]) then [id] + ids
    else [ids[0]] + InsertByAge(id, ids[1..], metas)
  }

  function SortByAge(ids: seq<BlobId>, metas: map<BlobId, MetaFile>): seq<BlobId> {
    if ids == [] then [] else InsertByAge(ids[0], SortByAge(ids[1..], metas), metas)
  }

  ghost predicate OldestFirst(ids: seq<BlobId>, metas: map<BlobId, MetaFile>) {
    forall i, k :: 0 <= i < k < |ids| ==> Age(metas, ids[i]) <= Age(metas, ids[k])
  }

  lemma {:induction false} InsertByAgeElems(id: BlobId, ids: seq<BlobId>, metas: map<BlobId, MetaFile>, x: BlobId)
    ensures x in InsertByAge(id, ids, metas) <==> x == id || x in ids
  {
    if ids != [] && Age(metas, id) > Age(metas, ids[0]) {
      InsertByAgeElems(id, ids[1..], metas, x);
      assert ids == [ids[0]] + ids[1..];
    }
  }

  lemma {:induction false} InsertByAgeSorts(id: BlobId, ids: seq<BlobId>, metas: map<BlobId, MetaFile>)
    requires OldestFirst(ids, metas) && L.NoDup(ids) && id !in ids
    ensures OldestFirst(InsertByAge(id, ids, metas), metas) && L.NoDup(InsertByAge(id, ids, metas))
  {
    if ids == [] || Age(metas, id) <= Age(metas, ids[0]) {
      assert ([id] + ids)[1..] == ids;
    } else {
      var rest := InsertByAge(id, ids[1..], metas);
      InsertByAgeSorts(id, ids[1..], metas);
      assert ([ids[0]] + rest)[1..] == rest;
      InsertByAgeElems(id, ids[1..], metas, ids[0]);
      forall k | 0 <= k < |rest| ensures Age(metas, ids[0]) <= Age(metas, rest[k]) {
        InsertByAgeElems(id, ids[1..], metas, rest[k]);
      }
    }
  }

  lemma {:induction false} SortByAgeSorts(ids: seq<BlobId>, metas: map<BlobId, MetaFile>)
    requires L.NoDup(ids)
    ensures OldestFirst(SortByAge(ids, metas), metas) && L.NoDup(SortByAge(ids, metas))
    ensures forall x :: x in SortByAge(ids, metas) <==> x in ids
  {
    if ids != [] {
      var rest := SortByAge(ids[1..], metas);
      SortByAgeSorts(ids[1..], metas);
      InsertByAgeSorts(ids[0], rest, metas);
      forall x ensures x in SortByAge(ids, metas) <==> x in ids {
        InsertByAgeElems(ids[0], rest, metas, x);
        assert ids == [ids[0]] + ids[1..];
      }
    }
  }

  // ---------------------------------------------------------------------
  // What comes back
  // ---------------------------------------------------------------------

  /** The blobs with a body and readable metadata, by the time they were stored. */
  ghost predicate ScanOrder(d: Disk, order: seq<BlobId>) {
    L.NoDup(order) && OldestFirst(order, d.metas) && forall id :: id in order <==> Complete(d, id)
  }

  function EntryAt(p: L.Policy, d: Disk, id: BlobId): L.Entry<()> {
    EntryOf(p, if id in d.metas then d.metas[id] else Garbage)
  }

  function AdoptOne(p: L.Policy, d: Disk, c: L.Cache<()>, id: BlobId, now: int): L.Cache<()> {
    if L.Expired(EntryAt(p, d, id), now) then c else L.Insert(c, id, EntryAt(p, d, id))
  }

  /** The blobs of `ids` that have not expired, each pushed to the front of its list. */
  function Adopted(p: L.Policy, d: Disk, ids: seq<BlobId>, now: int): L.Cache<()> {
    if ids == [] then L.Empty()
    else AdoptOne(p, d, Adopted(p, d, ids[..|ids| - 1], now), ids[|ids| - 1], now)
  }

  lemma AdoptOneIndex(p: L.Policy, d: Disk, c: L.Cache<()>, id: BlobId, now: int)
    ensures AdoptOne(p, d, c, id, now).index
         == if L.Expired(EntryAt(p, d, id), now) then c.index else c.index[id := EntryAt(p, d, id)]
  {
  }

  lemma Last(ids: seq<BlobId>, id: BlobId)
    requires ids != []
    ensures id in ids <==> id in ids[..|ids| - 1] || id == ids[|ids| - 1]
  {
    assert ids == ids[..|ids| - 1] + [ids[|ids| - 1]];
  }

  /** Exactly the unexpired blobs come back, with the entries their metadata describes. */
  lemma {:induction false} AdoptedIndex(p: L.Policy, d: Disk, ids: seq<BlobId>, now: int, id: BlobId)
    ensures id in Adopted(p, d, ids, now).index <==> id in ids && !L.Expired(EntryAt(p, d, id), now)
    ensures id in Adopted(p, d, ids, now).index ==> Adopted(p, d, ids, now).index[id] == EntryAt(p, d, id)
  {
    if ids != [] {
      var n := |ids| - 1;
      AdoptedIndex(p, d, ids[..n], now, id);
      AdoptOneIndex(p, d, Adopted(p, d, ids[..n], now), ids[n], now);
      Last(ids, id);
    }
  }

  lemma AdoptOneValid(p: L.Policy, d: Disk, c: L.Cache<()>, id: BlobId, now: int)
    requires L.Valid(c) && id !in c.index
    ensures L.Valid(AdoptOne(p, d, c, id, now))
  {
    if !L.Expired(EntryAt(p, d, id), now) { L.InsertValid(c, id, EntryAt(p, d, id)); }
  }

  lemma {:induction false} AdoptedValid(p: L.Policy, d: Disk, ids: seq<BlobId>, now: int)
    requires L.NoDup(ids)
    ensures L.Valid(Adopted(p, d, ids, now))
  {
    if ids != [] {
      var n := |ids| - 1;
      L.NoDupLast(ids);
      AdoptedValid(p, d, ids[..n], now);
      AdoptedIndex(p, d, ids[..n], now, ids[n]);
      AdoptOneValid(p, d, Adopted(p, d, ids[..n], now), ids[n], now);
    }
  }

  /** A cache closed in order comes back whole: every unexpired entry as it was, but for the
      times and hits of its use, and no other. */
  lemma RestartKeepsEntries(p: L.Policy, d: Disk, index: map<BlobId, L.Entry<()>>, order: seq<BlobId>, now: int, id: BlobId)
    requires Backed(p, d, index) && ScanOrder(d, order)
    ensures var again := Adopted(p, d, order, now).index;
            && (id in again <==> id in index && !L.Expired(index[id], now))
            && (id in again ==> again[id] == index[id].(lastAccess := index[id].storedAt, hits := again[id].hits))
            && (id in again ==> id in d.metas && d.metas[id].Meta? && again[id].hits == d.metas[id].hits)
  {
    if id in index { assert Describes(p, d, id, index[id]); }
    AdoptedIndex(p, d, order, now, id);
    var again := Adopted(p, d, order, now).index;
    if id in again { assert again[id].body == index[id].body; }
  }

  // ---------------------------------------------------------------------
  // The scan
  // ---------------------------------------------------------------------

  /** Files only go away, and those of complete blobs stay. */
  ghost predicate Sifted(found: Disk, d: Disk) {
    && (forall id :: id in d.bodies ==> id in found.bodies && d.bodies[id] == found.bodies[id])
    && (forall id :: id in d.metas ==> id in found.metas && d.metas[id] == found.metas[id])
    && (forall id :: Complete(found, id) ==> id in d.bodies && id in d.metas)
  }

  /** Part way through the metadata files: `todo` are still to be looked at. */
  ghost predicate Scanning(found: Disk, d: Disk, todo: set<BlobId>, complete: seq<BlobId>) {
    && Sifted(found, d) && L.NoDup(complete)
    && (forall id :: id in complete ==> id !in todo && Complete(found, id))
    && (forall id :: id in d.metas ==> id in todo || id in complete)
    && (forall id :: id in todo ==> id in d.metas && (id in d.bodies <==> id in found.bodies))
  }

  lemma ScanKeeps(found: Disk, d: Disk, todo: set<BlobId>, complete: seq<BlobId>, id: BlobId)
    requires Scanning(found, d, todo, complete) && id in todo && id in d.bodies && d.metas[id].Meta?
    ensures Scanning(found, d, todo - {id}, complete + [id])
  {
    assert L.NoDup([id]);
    L.NoDupConcat(complete, [id]);
  }

  /** A metadata file without body, or one that does not parse, goes, and its body too. */
  lemma ScanDrops(found: Disk, d: Disk, todo: set<BlobId>, complete: seq<BlobId>, id: BlobId, d': Disk)
    requires Scanning(found, d, todo, complete) && id in todo && (id !in d.bodies || d.metas[id].Garbage?)
    requires d'.metas == d.metas - {id} && (d'.bodies == d.bodies || d'.bodies == d.bodies - {id})
    ensures Scanning(found, d', todo - {id}, complete)
  {
  }

  /** Part way through filling the index: the blobs of `rest` are on disk, not yet adopted. */
  ghost predicate Adopting(p: L.Policy, d1: Disk, d: Disk, index: map<BlobId, L.Entry<()>>, rest: seq<BlobId>) {
    && L.NoDup(rest)
    && (forall id :: id in d.bodies <==> id in index || id in rest)
    && (forall id :: id in d.metas <==> id in index || id in rest)
    && (forall id :: id in index ==> id !in rest && Describes(p, d, id, index[id]))
    && (forall id :: id in rest ==> id in d1.metas && Complete(d, id) && d.metas[id] == d1.metas[id])
  }

  lemma AdoptKeeps(p: L.Policy, d1: Disk, d: Disk, index: map<BlobId, L.Entry<()>>, rest: seq<BlobId>, history: set<PutRecord>)
    requires Adopting(p, d1, d, index, rest) && rest != [] && SamePut(d, history, rest[0])
    ensures Adopting(p, d1, d, index[rest[0] := EntryAt(p, d1, rest[0])], rest[1..])
  {
    var id, e := rest[0], EntryAt(p, d1, rest[0]);
    assert rest == [id] + rest[1..];
    assert id in rest;
    var index' := index[id := e];
    forall x | x in index' ensures x !in rest[1..] && Describes(p, d, x, index'[x]) {
      if x != id { assert x in index; }
    }
  }

  lemma AdoptDrops(p: L.Policy, d1: Disk, d: Disk, d': Disk, index: map<BlobId, L.Entry<()>>, rest: seq<BlobId>)
    requires Adopting(p, d1, d, index, rest) && rest != []
    requires d'.bodies == d.bodies - {rest[0]} && d'.metas == d.metas - {rest[0]}
    ensures Adopting(p, d1, d', index, rest[1..])
  {
    var id, tail := rest[0], rest[1..];
    forall x ensures x in rest <==> x == id || x in tail { assert rest == [id] + tail; }
    forall x | x in index ensures x !in tail && Describes(p, d', x, index[x]) { StillDescribed(p, d, d', x, id, index[x]); }
    forall x | x in tail ensures x in d1.metas && Complete(d', x) && d'.metas[x] == d1.metas[x] { assert x in rest; }
  }

  lemma StillDescribed(p: L.Policy, d: Disk, d': Disk, x: BlobId, id: BlobId, e: L.Entry<()>)
    requires Describes(p, d, x, e) && x != id && d'.bodies == d.bodies - {id} && d'.metas == d.metas - {id}
    ensures Describes(p, d', x, e)
  {
  }

  lemma SiftedFrom(found: Disk, swept: Disk, d: Disk)
    requires Sifted(swept, d) && swept.bodies == found.bodies && swept.metas == found.metas
    ensures Sifted(found, d)
  {
    forall id | Complete(found, id) ensures id in d.bodies && id in d.metas { assert Complete(swept, id); }
  }

  /** After the scan: one body and one readable metadata file per complete blob. */
  lemma ScanDone(p: L.Policy, found: Disk, d: Disk, d': Disk, complete: seq<BlobId>)
    requires Scanning(found, d, {}, complete)
    requires d'.metas == d.metas && d'.bodies == map id | id in d.bodies && id in complete :: d.bodies[id]
    ensures Sifted(found, d') && ScanOrder(d', SortByAge(complete, d'.metas))
    ensures Adopting(p, d', d', map[], SortByAge(complete, d'.metas))
  {
    var order := SortByAge(complete, d'.metas);
    SortByAgeSorts(complete, d'.metas);
    forall id ensures id in order <==> Complete(d', id) {
      assert id in order <==> id in complete;
    }
  }

  lemma AdoptDone(p: L.Policy, d1: Disk, d: Disk, index: map<BlobId, L.Entry<()>>)
    requires Adopting(p, d1, d, index, [])
    ensures Backed(p, d, index)
  {
    assert d.bodies.Keys == index.Keys && d.metas.Keys == index.Keys;
  }

  /** The cache that a restart on `found` gives. */
  ghost predicate WarmsTo(p: L.Policy, found: Disk, now: int, c: L.Cache<()>) {
    exists order :: ScanOrder(found, order) && c == L.EvictMain(p, Adopted(p, found, order, now), 0)
  }

  lemma {:induction false} AdoptedSame(p: L.Policy, a: Disk, b: Disk, ids: seq<BlobId>, now: int)
    requires forall id :: id in ids ==> id in a.metas && id in b.metas && a.metas[id] == b.metas[id]
    ensures Adopted(p, a, ids, now) == Adopted(p, b, ids, now)
  {
    if ids != [] {
      var n := |ids| - 1;
      assert ids[n] in ids;
      AdoptedSame(p, a, b, ids[..n], now);
    }
  }

  lemma {:induction false} SameAges(ids: seq<BlobId>, a: map<BlobId, MetaFile>, b: map<BlobId, MetaFile>)
    requires OldestFirst(ids, a) && forall id :: id in ids ==> id in a && id in b && a[id] == b[id]
    ensures OldestFirst(ids, b)
  {
    forall i, k | 0 <= i < k < |ids| ensures Age(b, ids[i]) <= Age(b, ids[k]) {
      assert ids[i] in ids && ids[k] in ids;
      assert Age(a, ids[i]) <= Age(a, ids[k]);
    }
  }

  lemma Warmed(p: L.Policy, found: Disk, d1: Disk, order: seq<BlobId>, now: int)
    requires ScanOrder(d1, order) && Sifted(found, d1)
    ensures ScanOrder(found, order) && WarmsTo(p, found, now, L.EvictMain(p, Adopted(p, d1, order, now), 0))
  {
    forall id ensures id in order <==> Complete(found, id) {
      assert id in order <==> Complete(d1, id);
    }
    SameAges(order, d1.metas, found.metas);
    AdoptedSame(p, d1, found, order, now);
  }

  lemma WarmsToValid(p: L.Policy, found: Disk, now: int, c: L.Cache<()>)
    requires WarmsTo(p, found, now, c)
    ensures L.Valid(c)
  {
    var order :| ScanOrder(found, order) && c == L.EvictMain(p, Adopted(p, found, order, now), 0);
    AdoptedValid(p, found, order, now);
    L.EvictMainValid(p, Adopted(p, found, order, now), 0);
  }

  // ---------------------------------------------------------------------
  // Crash and restart
  // ---------------------------------------------------------------------

  /** Dropping entries leaves the others as they are. */
  lemma {:induction false} DropAllSub<B>(c: L.Cache<B>, ids: seq<BlobId>)
    ensures L.DropAll(c, ids).index.Keys <= c.index.Keys
    ensures forall id :: id in L.DropAll(c, ids).index ==> L.DropAll(c, ids).index[id] == c.index[id]
    decreases |ids|
  {
    if ids != [] { DropAllSub(L.Drop(c, ids[0]), ids[1..]); }
  }

  lemma EvictMainSub<B>(p: L.Policy, c: L.Cache<B>, incoming: nat, id: BlobId)
    requires id in L.EvictMain(p, c, incoming).index
    ensures id in c.index && L.EvictMain(p, c, incoming).index[id] == c.index[id]
  {
    var vs := L.Candidates(c);
    DropAllSub(c, vs[..L.Shortest(vs, c.index, c.bytesUsed + incoming - p.maxBytes)]);
  }

  /** The bytes really on disk for the blobs of a list. */
  function BodyBytes(d: Disk, ids: seq<BlobId>): nat {
    if ids == [] then 0 else (if ids[0] in d.bodies then |d.bodies[ids[0]]| else 0) + BodyBytes(d, ids[1..])
  }

  lemma {:induction false} TotalIsBodyBytes(d: Disk, ids: seq<BlobId>, index: map<BlobId, L.Entry<()>>)
    requires forall id :: id in ids ==> id in index && id in d.bodies && index[id].size == |d.bodies[id]|
    ensures L.Total(ids, index) == BodyBytes(d, ids)
  {
    if ids != [] {
      assert ids[0] in ids;
      TotalIsBodyBytes(d, ids[1..], index);
    }
  }

  lemma RestartedEntry(p: L.Policy, d: Disk, history: set<PutRecord>, now: int, c: L.Cache<()>, id: BlobId)
    requires Consistent(d, history) && WarmsTo(p, d, now, c) && id in c.index
    ensures Complete(d, id) && PutRecord(id, d.bodies[id], d.metas[id]) in history
    ensures c.index[id] == EntryOf(p, d.metas[id]) && c.index[id].size == |d.bodies[id]|
    ensures !L.Expired(c.index[id], now)
  {
    var order :| ScanOrder(d, order) && c == L.EvictMain(p, Adopted(p, d, order, now), 0);
    EvictMainSub(p, Adopted(p, d, order, now), 0, id);
    AdoptedIndex(p, d, order, now, id);
    assert SamePut(d, history, id);
  }

  /** Die at any moment, restart: each entry has the body and the metadata of one and the
      same Put, and the byte counters are the real lengths of the bodies. */
  lemma CrashThenRestart(p: L.Policy, trail: seq<Disk>, history: set<PutRecord>, i: nat, now: int, c: L.Cache<()>)
    requires Safe(trail, history) && i < |trail| && WarmsTo(p, trail[i], now, c)
    ensures forall id :: id in c.index ==>
              && Complete(trail[i], id) && PutRecord(id, trail[i].bodies[id], trail[i].metas[id]) in history
              && c.index[id] == EntryOf(p, trail[i].metas[id])
    ensures L.Valid(c) && c.hotBytes == BodyBytes(trail[i], c.hot)
    ensures c.bytesUsed == c.hotBytes + BodyBytes(trail[i], c.main)
  {
    var d := trail[i];
    WarmsToValid(p, d, now, c);
    forall id | id in c.index
      ensures Complete(d, id) && PutRecord(id, d.bodies[id], d.metas[id]) in history
              && c.index[id] == EntryOf(p, d.metas[id]) && c.index[id].size == |d.bodies[id]|
    {
      RestartedEntry(p, d, history, now, c, id);
    }
    TotalIsBodyBytes(d, c.hot, c.index);
    TotalIsBodyBytes(d, c.main, c.index);
  }

  // ---------------------------------------------------------------------
  // A crash in the middle of an operation on another blob
  // ---------------------------------------------------------------------

  /** The two files of a blob are in `d` what they are in `d0`. */
  ghost predicate SameFilesOf(d0: Disk, d: Disk, id: BlobId) {
    && (id in d.bodies <==> id in d0.bodies) && (id in d0.bodies ==> d.bodies[id] == d0.bodies[id])
    && (id in d.metas <==> id in d0.metas) && (id in d0.metas ==> d.metas[id] == d0.metas[id])
  }

  lemma {:induction false} UntouchedStays(trail: seq<Disk>, log: seq<FileOp>, from: nat, k: nat, id: BlobId)
    requires Logged(trail, log) && from <= k <= |log|
    requires forall i :: from <= i < k ==> Subject(log[i]) != Some(id)
    ensures SameFilesOf(trail[from], trail[k], id)
    decreases k
  {
    if from < k { UntouchedStays(trail, log, from, k - 1, id); }
  }

  /** evictMain never takes a protected entry. */
  lemma ProtectedStaysWarm(p: L.Policy, d: Disk, order: seq<BlobId>, now: int, id: BlobId)
    requires ScanOrder(d, order) && id in order && L.Protected(Adopted(p, d, order, now).index, id)
    ensures var c := L.EvictMain(p, Adopted(p, d, order, now), 0);
            id in c.index && c.index[id] == Adopted(p, d, order, now).index[id]
  {
    var c0 := Adopted(p, d, order, now);
    AdoptedValid(p, d, order, now);
    var gone := LruLaws.EvictMainRemovesShortestRun(p, c0, 0);
  }

  /** The files of a protected blob that has not expired are on disk. */
  ghost predicate Kept(p: L.Policy, d: Disk, now: int, id: BlobId) {
    Complete(d, id) && d.metas[id].nonEvictable && !L.Expired(EntryOf(p, d.metas[id]), now)
  }

  ghost function AllKept(p: L.Policy, d: Disk, now: int): set<BlobId> {
    set id | id in d.metas && Kept(p, d, now, id)
  }

  /** The scan leaves such a blob as it was, and it ends up in the index. */
  lemma KeptStays(p: L.Policy, found: Disk, d1: Disk, order: seq<BlobId>, now: int)
    requires ScanOrder(d1, order) && Sifted(found, d1)
    ensures forall id :: id in AllKept(p, found, now) ==> !L.Expired(EntryAt(p, d1, id), now)
    ensures AllKept(p, found, now) <= L.EvictMain(p, Adopted(p, d1, order, now), 0).index.Keys
  {
    forall id | id in AllKept(p, found, now)
      ensures !L.Expired(EntryAt(p, d1, id), now)
      ensures id in L.EvictMain(p, Adopted(p, d1, order, now), 0).index
    {
      assert Complete(found, id);
      assert d1.metas[id] == found.metas[id];
      assert Complete(d1, id);
      AdoptedIndex(p, d1, order, now, id);
      ProtectedStaysWarm(p, d1, order, now, id);
    }
  }

  /** Such a blob comes back from any restart. */
  lemma ProtectedComesBack(p: L.Policy, d: Disk, now: int, c: L.Cache<()>, id: BlobId)
    requires WarmsTo(p, d, now, c) && Kept(p, d, now, id)
    ensures id in c.index && c.index[id] == EntryOf(p, d.metas[id])
  {
    var order :| ScanOrder(d, order) && c == L.EvictMain(p, Adopted(p, d, order, now), 0);
    AdoptedIndex(p, d, order, now, id);
    ProtectedStaysWarm(p, d, order, now, id);
  }

  /** Die in any state of one operation `op`, from position `from` of the trail on, and restart:
      every protected and unexpired entry of another blob comes back, with the body and the
      metadata it had. */
  lemma ProtectedSurvivesCrash(p: L.Policy, trail: seq<Disk>, log: seq<FileOp>, from: nat, k: nat,
                               c0: L.Cache<()>, op: LruRuns.Op<()>, now: int, c: L.Cache<()>, id: BlobId)
    requires Logged(trail, log) && from <= k <= |log| && L.Valid(c0) && Backed(p, trail[from], c0.index)
    requires TouchedOnly(log, from, LruRuns.Step(p, c0, op).index, op.id) && WarmsTo(p, trail[k], now, c)
    requires id != op.id && L.Protected(c0.index, id) && !L.Expired(c0.index[id], now)
    ensures id in c.index && Describes(p, trail[from], id, c.index[id])
    ensures id in trail[k].bodies && trail[k].bodies[id] == trail[from].bodies[id]
  {
    assert Describes(p, trail[from], id, c0.index[id]);
    LruRuns.ProtectedLeavesOnlyByItsOwnOp(p, c0, op, id);
    UntouchedStays(trail, log, from, k, id);
    ProtectedComesBack(p, trail[k], now, c, id);
  }

  // ---------------------------------------------------------------------
  // A crash in the middle of a restart
  // ---------------------------------------------------------------------

  /** A restart that began at `now` on trail[0] and died after `k` file operations. */
  datatype Opening = Opening(trail: seq<Disk>, log: seq<FileOp>, now: int, k: nat)

  /** What DiskCache.Open promises of its file operations, so far as it got. */
  ghost predicate Opened(p: L.Policy, o: Opening) {
    Logged(o.trail, o.log) && o.k <= |o.log| && Spared(o.log, AllKept(p, o.trail[0], o.now))
  }

  /** Restarts that died one after the other, each on what the one before left. */
  ghost predicate Openings(p: L.Policy, os: seq<Opening>) {
    && (forall i :: 0 <= i < |os| ==> Opened(p, os[i]))
    && (forall i :: 0 < i < |os| ==> os[i].trail[0] == os[i - 1].trail[os[i - 1].k])
  }

  lemma OpeningSpares(p: L.Policy, o: Opening, id: BlobId)
    requires Opened(p, o) && Kept(p, o.trail[0], o.now, id)
    ensures SameFilesOf(o.trail[0], o.trail[o.k], id)
  {
    UntouchedStays(o.trail, o.log, 0, o.k, id);
  }

  lemma {:induction false} OpeningsSpare(p: L.Policy, os: seq<Opening>, n: nat, id: BlobId)
    requires Openings(p, os) && n < |os| && Complete(os[0].trail[0], id)
    requires forall i :: 0 <= i <= n ==> Kept(p, os[0].trail[0], os[i].now, id)
    ensures SameFilesOf(os[0].trail[0], os[n].trail[os[n].k], id)
  {
    if n > 0 { OpeningsSpare(p, os, n - 1, id); }
    assert Kept(p, os[0].trail[0], os[n].now, id);
    assert Kept(p, os[n].trail[0], os[n].now, id);
    OpeningSpares(p, os[n], id);
  }

  /** Die while restarting, in any state and any number of times in a row, and restart: every
      protected entry that none of the restarts found expired comes back, with the body and
      the metadata it had. */
  lemma ProtectedSurvivesRestarts(p: L.Policy, os: seq<Opening>, now: int, c: L.Cache<()>, id: BlobId)
    requires Openings(p, os) && os != []
    requires var last := os[|os| - 1]; WarmsTo(p, last.trail[last.k], now, c)
    requires Kept(p, os[0].trail[0], now, id) && forall i :: 0 <= i < |os| ==> Kept(p, os[0].trail[0], os[i].now, id)
    ensures var found, last := os[0].trail[0], os[|os| - 1];
            && id in c.index && c.index[id] == EntryOf(p, found.metas[id])
            && id in last.trail[last.k].bodies && last.trail[last.k].bodies[id] == found.bodies[id]
  {
    var last := os[|os| - 1];
    OpeningsSpare(p, os, |os| - 1, id);
    ProtectedComesBack(p, last.trail[last.k], now, c, id);
  }
}
