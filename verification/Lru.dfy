/** The bookkeeping common to the memory and the disk hot cache: two recency lists,
    an index, byte counters and the eviction loops, as functions on values, and the proof
    that each operation keeps them consistent. The two cache classes are proved against
    these functions. */
module Lru {
  import opened Prelude

  /** `B` is the payload kept in memory: the bytes for MemoryCache, nothing for DiskCache. */
  datatype Entry<B> = Entry(
    body: B, size: nat, hash: string, storedAt: int, lastAccess: int,
    hits: nat, pinned: bool, nonEvictable: bool, expiresAt: Option<int>)

  /** The lists run from most recently used to least recently used. */
  datatype Cache<B> = Cache(
    hot: seq<BlobId>, main: seq<BlobId>, index: map<BlobId, Entry<B>>,
    bytesUsed: int, hotBytes: int)

  /** `maxBytes == 0` and `hotLimit == 0` mean no limit, `ttl == 0` no expiry. */
  datatype Policy = Policy(hotPin: bool, maxBytes: nat, hotLimit: nat, ttl: nat)

  datatype PutOptions = PutOptions(hash: string, ttl: nat, pinHot: bool, nonEvictable: bool)

  function Empty<B>(): Cache<B> { Cache([], [], map[], 0, 0) }

  function Without(ids: seq<BlobId>, dead: set<BlobId>): seq<BlobId> {
    if ids == [] then []
    else if ids[0] in dead then Without(ids[1..], dead)
    else [ids[0]] + Without(ids[1..], dead)
  }

  function SizeOf<B>(index: map<BlobId, Entry<B>>, id: BlobId): nat {
    if id in index then index[id].size else 0
  }

  function Total<B>(ids: seq<BlobId>, index: map<BlobId, Entry<B>>): nat {
    if ids == [] then 0 else SizeOf(index, ids[0]) + Total(ids[1..], index)
  }

  predicate Protected<B>(index: map<BlobId, Entry<B>>, id: BlobId) {
    id in index && index[id].nonEvictable
  }

  predicate Expired<B>(e: Entry<B>, now: int) {
    e.expiresAt.Some? && now > e.expiresAt.value
  }

  ghost predicate NoDup(ids: seq<BlobId>) {
    ids == [] || (ids[0] !in ids[1..] && NoDup(ids[1..]))
  }

  /** The index is the disjoint union of the two lists, split by the pinned flag, and the
      counters are exact sums. */
  ghost predicate Valid<B>(c: Cache<B>) {
    && NoDup(c.hot) && NoDup(c.main)
    && (forall id :: id in c.hot ==> id in c.index && c.index[id].pinned)
    && (forall id :: id in c.main ==> id in c.index && !c.index[id].pinned)
    && (forall id :: id in c.index ==> if c.index[id].pinned then id in c.hot else id in c.main)
    && c.hotBytes == Total(c.hot, c.index)
    && c.bytesUsed == c.hotBytes + Total(c.main, c.index)
  }

  // ---------------------------------------------------------------------
  // Operations
  // ---------------------------------------------------------------------

  /** removeLocked, and nothing when the blob is not cached. */
  function Drop<B>(c: Cache<B>, id: BlobId): Cache<B> {
    if id !in c.index then c
    else
      var e := c.index[id];
      if e.pinned then
        Cache(Without(c.hot, {id}), c.main, c.index - {id}, c.bytesUsed - e.size, c.hotBytes - e.size)
      else
        Cache(c.hot, Without(c.main, {id}), c.index - {id}, c.bytesUsed - e.size, c.hotBytes)
  }

  function DropAll<B>(c: Cache<B>, ids: seq<BlobId>): Cache<B>
    decreases |ids|
  {
    if ids == [] then c else DropAll(Drop(c, ids[0]), ids[1..])
  }

  function Touch<B>(c: Cache<B>, id: BlobId, now: int): Cache<B>
    requires id in c.index
  {
    var e := c.index[id];
    var c1 := c.(index := c.index[id := e.(hits := e.hits + 1, lastAccess := now)]);
    if e.pinned then c1.(hot := [id] + Without(c.hot, {id})) else c1.(main := [id] + Without(c.main, {id}))
  }

  function Get<B>(c: Cache<B>, id: BlobId, now: int): Cache<B> {
    if id !in c.index then c
    else if Expired(c.index[id], now) then Drop(c, id)
    else Touch(c, id, now)
  }

  /** The evictable members of a list, oldest first. */
  function Victims<B>(ids: seq<BlobId>, index: map<BlobId, Entry<B>>): seq<BlobId> {
    if ids == [] then []
    else
      var n := |ids| - 1;
      if Protected(index, ids[n]) then Victims(ids[..n], index) else [ids[n]] + Victims(ids[..n], index)
  }

  ghost predicate AllEvictable<B>(ids: seq<BlobId>, index: map<BlobId, Entry<B>>) {
    forall x :: x in ids ==> !Protected(index, x)
  }

  /** Everything evictMain may remove, in the order it would: the evictable main entries
      oldest first, and the hot ones only when nothing else stays in main. */
  ghost function Candidates<B>(c: Cache<B>): seq<BlobId> {
    if AllEvictable(c.main, c.index) then Victims(c.main, c.index) + Victims(c.hot, c.index)
    else Victims(c.main, c.index)
  }

  /** How many victims, taken in order, it takes to free `need` bytes; all of them when
      they do not suffice. */
  function Shortest<B>(victims: seq<BlobId>, index: map<BlobId, Entry<B>>, need: int): (k: nat)
    ensures k <= |victims|
    decreases |victims|
  {
    if need <= 0 || victims == [] then 0
    else 1 + Shortest(victims[1..], index, need - SizeOf(index, victims[0]))
  }

  /** evictMainLocked: the shortest run of candidates that makes `incoming` bytes fit goes. */
  ghost function EvictMain<B>(p: Policy, c: Cache<B>, incoming: nat): Cache<B> {
    if p.maxBytes == 0 then c
    else
      var vs := Candidates(c);
      DropAll(c, vs[..Shortest(vs, c.index, c.bytesUsed + incoming - p.maxBytes)])
  }

  /** evictHotLocked: the same for the hot list against its own limit. */
  ghost function EvictHot<B>(p: Policy, c: Cache<B>, incoming: nat): Cache<B> {
    if p.hotLimit == 0 then c
    else
      var vs := Victims(c.hot, c.index);
      DropAll(c, vs[..Shortest(vs, c.index, c.hotBytes + incoming - p.hotLimit)])
  }

  function NewEntry<B>(p: Policy, body: B, size: nat, o: PutOptions, now: int): Entry<B> {
    Entry(body, size, o.hash, now, now, 0, o.pinHot && p.hotPin, o.nonEvictable,
          if o.ttl > 0 then Some(now + o.ttl) else if p.ttl > 0 then Some(now + p.ttl) else None)
  }

  /** Replacing an old entry and making room, as Put does before it inserts. */
  ghost function MakeRoom<B>(p: Policy, c: Cache<B>, id: BlobId, size: nat, pin: bool): Cache<B> {
    var c1 := Drop(c, id);
    var c2 := if pin then EvictHot(p, c1, size) else c1;
    EvictMain(p, c2, size)
  }

  function Insert<B>(c: Cache<B>, id: BlobId, e: Entry<B>): Cache<B> {
    if e.pinned then
      Cache([id] + c.hot, c.main, c.index[id := e], c.bytesUsed + e.size, c.hotBytes + e.size)
    else
      Cache(c.hot, [id] + c.main, c.index[id := e], c.bytesUsed + e.size, c.hotBytes)
  }

  predicate TooBig(p: Policy, size: nat) { p.maxBytes > 0 && size > p.maxBytes }

  ghost function Put<B>(p: Policy, c: Cache<B>, id: BlobId, body: B, size: nat, o: PutOptions, now: int): Cache<B> {
    if TooBig(p, size) then c
    else Insert(MakeRoom(p, c, id, size, o.pinHot && p.hotPin), id, NewEntry(p, body, size, o, now))
  }

  // ---------------------------------------------------------------------
  // Lists without some of their members
  // ---------------------------------------------------------------------

  lemma {:induction false} WithoutElems(ids: seq<BlobId>, dead: set<BlobId>)
    ensures forall x :: x in Without(ids, dead) <==> x in ids && x !in dead
    ensures NoDup(ids) ==> NoDup(Without(ids, dead))
  {
    if ids != [] {
      var rest := Without(ids[1..], dead);
      WithoutElems(ids[1..], dead);
      assert ids == [ids[0]] + ids[1..];
      assert ([ids[0]] + rest)[1..] == rest;
    }
  }

  lemma {:induction false} NoDupLast(ids: seq<BlobId>)
    requires NoDup(ids) && ids != []
    ensures NoDup(ids[..|ids| - 1]) && ids[|ids| - 1] !in ids[..|ids| - 1]
  {
    var n := |ids| - 1;
    if n > 0 {
      NoDupLast(ids[1..]);
      assert ids[..n][1..] == ids[1..][..n - 1];
      assert ids[..n] == [ids[0]] + ids[1..][..n - 1];
    }
  }

  lemma {:induction false} NoDupConcat(a: seq<BlobId>, b: seq<BlobId>)
    requires NoDup(a) && NoDup(b) && forall x :: x in a ==> x !in b
    ensures NoDup(a + b)
  {
    if a == [] {
      assert a + b == b;
    } else {
      NoDupConcat(a[1..], b);
      assert (a + b)[1..] == a[1..] + b;
      assert a[0] in a;
    }
  }

  lemma {:induction false} WithoutAbsent(ids: seq<BlobId>, dead: set<BlobId>)
    requires forall x :: x in ids ==> x !in dead
    ensures Without(ids, dead) == ids
  {
    if ids != [] {
      assert ids[0] in ids;
      WithoutAbsent(ids[1..], dead);
      assert ids == [ids[0]] + ids[1..];
    }
  }

  lemma {:induction false} WithoutTwice(ids: seq<BlobId>, a: set<BlobId>, b: set<BlobId>)
    ensures Without(Without(ids, a), b) == Without(ids, a + b)
  {
    if ids != [] {
      var rest := Without(ids[1..], a);
      WithoutTwice(ids[1..], a, b);
      if ids[0] !in a {
        assert ([ids[0]] + rest)[1..] == rest;
      }
    }
  }

  lemma {:induction false} TotalFrame<B>(ids: seq<BlobId>, i1: map<BlobId, Entry<B>>, i2: map<BlobId, Entry<B>>)
    requires forall x :: x in ids ==> SizeOf(i1, x) == SizeOf(i2, x)
    ensures Total(ids, i1) == Total(ids, i2)
  {
    if ids != [] {
      assert ids[0] in ids;
      TotalFrame(ids[1..], i1, i2);
    }
  }

  lemma {:induction false} TotalWithoutOne<B>(ids: seq<BlobId>, index: map<BlobId, Entry<B>>, id: BlobId)
    requires NoDup(ids) && id in ids
    ensures Total(Without(ids, {id}), index) == Total(ids, index) - SizeOf(index, id)
  {
    var rest := ids[1..];
    if ids[0] == id {
      assert id !in rest;
      WithoutAbsent(rest, {id});
    } else {
      TotalWithoutOne(rest, index, id);
      assert ([ids[0]] + Without(rest, {id}))[1..] == Without(rest, {id});
    }
  }

  // ---------------------------------------------------------------------
  // Every operation keeps the index, the lists and the counters consistent
  // ---------------------------------------------------------------------

  lemma DropTotals<B>(c: Cache<B>, id: BlobId)
    requires Valid(c) && id in c.index
    ensures Total(Drop(c, id).hot, Drop(c, id).index) == Drop(c, id).hotBytes
    ensures Total(Drop(c, id).main, Drop(c, id).index) == Drop(c, id).bytesUsed - Drop(c, id).hotBytes
  {
    var d := Drop(c, id);
    WithoutElems(c.hot, {id});
    WithoutElems(c.main, {id});
    TotalFrame(d.hot, d.index, c.index);
    TotalFrame(d.main, d.index, c.index);
    if c.index[id].pinned {
      TotalWithoutOne(c.hot, c.index, id);
    } else {
      TotalWithoutOne(c.main, c.index, id);
    }
  }

  lemma DropValid<B>(c: Cache<B>, id: BlobId)
    requires Valid(c) && id in c.index
    ensures Valid(Drop(c, id)) && |Drop(c, id).index| < |c.index|
    ensures Drop(c, id).hot == Without(c.hot, {id}) && Drop(c, id).main == Without(c.main, {id})
  {
    DropTotals(c, id);
    WithoutElems(c.hot, {id});
    WithoutElems(c.main, {id});
    if c.index[id].pinned {
      WithoutAbsent(c.main, {id});
    } else {
      WithoutAbsent(c.hot, {id});
    }
    assert (c.index - {id}).Keys == c.index.Keys - {id};
  }

  lemma {:induction false} VictimsAreEvictable<B>(ids: seq<BlobId>, index: map<BlobId, Entry<B>>)
    ensures forall x :: x in Victims(ids, index) <==> x in ids && !Protected(index, x)
    ensures NoDup(ids) ==> NoDup(Victims(ids, index))
  {
    if ids != [] {
      var n := |ids| - 1;
      VictimsAreEvictable(ids[..n], index);
      assert ids == ids[..n] + [ids[n]];
      var rest := Victims(ids[..n], index);
      assert ([ids[n]] + rest)[1..] == rest;
      if NoDup(ids) {
        NoDupLast(ids);
      }
    }
  }

  lemma {:induction false} DropAllValid<B>(c: Cache<B>, ids: seq<BlobId>)
    requires Valid(c)
    ensures Valid(DropAll(c, ids)) && DropAll(c, ids).index.Keys <= c.index.Keys
    decreases |ids|
  {
    if ids != [] {
      if ids[0] in c.index {
        DropValid(c, ids[0]);
      }
      DropAllValid(Drop(c, ids[0]), ids[1..]);
    }
  }

  lemma {:induction false} DropAllSnoc<B>(c: Cache<B>, ids: seq<BlobId>, id: BlobId)
    ensures DropAll(c, ids + [id]) == Drop(DropAll(c, ids), id)
    decreases |ids|
  {
    if ids == [] {
      assert (ids + [id])[1..] == [];
    } else {
      assert (ids + [id])[1..] == ids[1..] + [id];
      DropAllSnoc(Drop(c, ids[0]), ids[1..], id);
    }
  }

  lemma MakeRoomValid<B>(p: Policy, c: Cache<B>, id: BlobId, size: nat, pin: bool)
    requires Valid(c)
    ensures Valid(MakeRoom(p, c, id, size, pin)) && id !in MakeRoom(p, c, id, size, pin).index
  {
    if id in c.index {
      DropValid(c, id);
    }
    var c1 := Drop(c, id);
    EvictHotValid(p, c1, size);
    var c2 := if pin then EvictHot(p, c1, size) else c1;
    EvictMainValid(p, c2, size);
  }

  lemma EvictMainValid<B>(p: Policy, c: Cache<B>, incoming: nat)
    requires Valid(c)
    ensures Valid(EvictMain(p, c, incoming)) && EvictMain(p, c, incoming).index.Keys <= c.index.Keys
  {
    if p.maxBytes > 0 {
      var vs := Candidates(c);
      DropAllValid(c, vs[..Shortest(vs, c.index, c.bytesUsed + incoming - p.maxBytes)]);
    }
  }

  lemma EvictHotValid<B>(p: Policy, c: Cache<B>, incoming: nat)
    requires Valid(c)
    ensures Valid(EvictHot(p, c, incoming)) && EvictHot(p, c, incoming).index.Keys <= c.index.Keys
  {
    if p.hotLimit > 0 {
      var vs := Victims(c.hot, c.index);
      DropAllValid(c, vs[..Shortest(vs, c.index, c.hotBytes + incoming - p.hotLimit)]);
    }
  }

  lemma PushFront<B>(ids: seq<BlobId>, id: BlobId, index: map<BlobId, Entry<B>>)
    requires NoDup(ids) && id !in ids
    ensures NoDup([id] + ids)
    ensures forall x :: x in [id] + ids <==> x == id || x in ids
    ensures Total([id] + ids, index) == SizeOf(index, id) + Total(ids, index)
  {
    assert ([id] + ids)[1..] == ids;
  }

  lemma InsertValid<B>(c: Cache<B>, id: BlobId, e: Entry<B>)
    requires Valid(c) && id !in c.index
    ensures Valid(Insert(c, id, e))
  {
    var d := Insert(c, id, e);
    TotalFrame(c.hot, c.index, d.index);
    TotalFrame(c.main, c.index, d.index);
    PushFront(if e.pinned then c.hot else c.main, id, d.index);
  }

  lemma TouchValid<B>(c: Cache<B>, id: BlobId, now: int)
    requires Valid(c) && id in c.index
    ensures Valid(Touch(c, id, now))
  {
    var d := Touch(c, id, now);
    var list := if c.index[id].pinned then c.hot else c.main;
    WithoutElems(list, {id});
    TotalWithoutOne(list, c.index, id);
    TotalFrame(c.hot, c.index, d.index);
    TotalFrame(c.main, c.index, d.index);
    TotalFrame(Without(list, {id}), c.index, d.index);
    PushFront(Without(list, {id}), id, d.index);
  }
}
