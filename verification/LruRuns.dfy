/** What holds in every run of hot-cache operations, for the memory and the disk cache. */
module LruRuns {
  import opened Prelude
  import opened Lru
  import opened LruLaws

  /** `OpRemove` is Evict, and also DiskCache.Get on an entry whose body file is gone;
      `OpLostPut` is DiskCache.Put failing to publish after it has made room. */
  datatype Op<B> =
    | OpGet(id: BlobId, now: int)
    | OpPut(id: BlobId, body: B, size: nat, opts: PutOptions, now: int)
    | OpRemove(id: BlobId)
    | OpLostPut(id: BlobId, size: nat, pin: bool)

  ghost function Step<B>(p: Policy, c: Cache<B>, op: Op<B>): Cache<B> {
    match op
    case OpGet(id, now) => Get(c, id, now)
    case OpPut(id, body, size, opts, now) => Put(p, c, id, body, size, opts, now)
    case OpRemove(id) => Drop(c, id)
    case OpLostPut(id, size, pin) => MakeRoom(p, c, id, size, pin)
  }

  /** A run from `c0`: empty for a new cache, warmed for a disk cache after a restart. */
  ghost function Exec<B>(p: Policy, c0: Cache<B>, ops: seq<Op<B>>): Cache<B> {
    if ops == [] then c0 else Step(p, Exec(p, c0, ops[..|ops| - 1]), ops[|ops| - 1])
  }

  // ---------------------------------------------------------------------
  // Consistency
  // ---------------------------------------------------------------------

  lemma GetValid<B>(c: Cache<B>, id: BlobId, now: int)
    requires Valid(c)
    ensures Valid(Get(c, id, now))
  {
    if id in c.index {
      DropValid(c, id);
      TouchValid(c, id, now);
    }
  }

  lemma PutValid<B>(p: Policy, c: Cache<B>, id: BlobId, body: B, size: nat, opts: PutOptions, now: int)
    requires Valid(c)
    ensures Valid(Put(p, c, id, body, size, opts, now))
  {
    var pin := opts.pinHot && p.hotPin;
    MakeRoomValid(p, c, id, size, pin);
    InsertValid(MakeRoom(p, c, id, size, pin), id, NewEntry(p, body, size, opts, now));
  }

  lemma StepValid<B>(p: Policy, c: Cache<B>, op: Op<B>)
    requires Valid(c)
    ensures Valid(Step(p, c, op))
  {
    match op
    case OpGet(id, now) =>
      GetValid(c, id, now);
    case OpPut(id, body, size, opts, now) =>
      PutValid(p, c, id, body, size, opts, now);
    case OpRemove(id) =>
      if id in c.index {
        DropValid(c, id);
      }
    case OpLostPut(id, size, pin) =>
      MakeRoomValid(p, c, id, size, pin);
  }

  /** In every run the index is the disjoint union of the two lists and both byte counters are exact. */
  lemma {:induction false} RunValid<B>(p: Policy, c0: Cache<B>, ops: seq<Op<B>>)
    requires Valid(c0)
    ensures Valid(Exec(p, c0, ops))
  {
    if ops != [] {
      RunValid(p, c0, ops[..|ops| - 1]);
      StepValid(p, Exec(p, c0, ops[..|ops| - 1]), ops[|ops| - 1]);
    }
  }

  // ---------------------------------------------------------------------
  // Protected entries
  // ---------------------------------------------------------------------

  /** `r` is `c` without the blobs in `dead`; the others keep their place and their entry. */
  ghost predicate Thinned<B>(c: Cache<B>, r: Cache<B>, dead: set<BlobId>) {
    r.hot == Without(c.hot, dead) && r.main == Without(c.main, dead) && r.index == c.index - dead
  }

  lemma ThinnedNone<B>(c: Cache<B>)
    ensures Thinned(c, c, {})
  {
    WithoutAbsent(c.hot, {});
    WithoutAbsent(c.main, {});
  }

  lemma ThinnedTwice<B>(c: Cache<B>, d: Cache<B>, r: Cache<B>, a: set<BlobId>, b: set<BlobId>)
    requires Thinned(c, d, a) && Thinned(d, r, b)
    ensures Thinned(c, r, a + b)
  {
    WithoutTwice(c.hot, a, b);
    WithoutTwice(c.main, a, b);
    assert (c.index - a) - b == c.index - (a + b);
  }

  lemma DropRemoves<B>(c: Cache<B>, id: BlobId) returns (dead: set<BlobId>)
    requires Valid(c)
    ensures Valid(Drop(c, id)) && dead <= {id} && Thinned(c, Drop(c, id), dead)
  {
    if id in c.index {
      DropValid(c, id);
      dead := {id};
    } else {
      ThinnedNone(c);
      dead := {};
    }
  }

  lemma HotRemoves<B>(p: Policy, c: Cache<B>, size: nat, pin: bool) returns (dead: set<BlobId>)
    requires Valid(c)
    ensures var r := if pin then EvictHot(p, c, size) else c; Valid(r) && Thinned(c, r, dead)
    ensures forall x :: x in dead ==> !Protected(c.index, x)
  {
    if pin {
      var gone := EvictHotRemovesShortestRun(p, c, size);
      EvictHotValid(p, c, size);
      dead := Elems(gone);
    } else {
      ThinnedNone(c);
      dead := {};
    }
  }

  /** Making room only removes entries, and among the others only evictable ones. */
  lemma MakeRoomRemoves<B>(p: Policy, c: Cache<B>, id: BlobId, size: nat, pin: bool) returns (dead: set<BlobId>)
    requires Valid(c)
    ensures Thinned(c, MakeRoom(p, c, id, size, pin), dead)
    ensures forall x :: x in dead ==> x == id || !Protected(c.index, x)
  {
    var c1 := Drop(c, id);
    var d1 := DropRemoves(c, id);
    var d2 := HotRemoves(p, c1, size, pin);
    var c2 := if pin then EvictHot(p, c1, size) else c1;
    var d3 := MainRemoves(p, c2, size);
    ThinnedTwice(c, c1, c2, d1, d2);
    ThinnedTwice(c, c2, EvictMain(p, c2, size), d1 + d2, d3);
    dead := d1 + d2 + d3;
  }

  lemma MainRemoves<B>(p: Policy, c: Cache<B>, size: nat) returns (dead: set<BlobId>)
    requires Valid(c)
    ensures Thinned(c, EvictMain(p, c, size), dead)
    ensures forall x :: x in dead ==> !Protected(c.index, x)
  {
    var gone := EvictMainRemovesShortestRun(p, c, size);
    dead := Elems(gone);
  }

  predicate Addresses<B>(op: Op<B>, id: BlobId) { op.id == id }

  /** A non-evictable entry leaves the cache, or changes body or protection, only through an
      operation on that same blob; a Get on it does so only when the entry has expired. */
  lemma ProtectedLeavesOnlyByItsOwnOp<B>(p: Policy, c: Cache<B>, op: Op<B>, id: BlobId)
    requires Valid(c) && Protected(c.index, id)
    requires Addresses(op, id) ==> op.OpGet? && !Expired(c.index[id], op.now)
    ensures var c' := Step(p, c, op);
            && Protected(c'.index, id)
            && c'.index[id].body == c.index[id].body && c'.index[id].size == c.index[id].size
  {
    match op
    case OpGet(_, _) =>
    case OpPut(id1, _, size, opts, _) =>
      var dead := MakeRoomRemoves(p, c, id1, size, opts.pinHot && p.hotPin);
    case OpRemove(_) =>
    case OpLostPut(id1, size, pin) =>
      var dead := MakeRoomRemoves(p, c, id1, size, pin);
  }

  // ---------------------------------------------------------------------
  // Recency
  // ---------------------------------------------------------------------

  /** The blob an operation uses: a Get that hits, or a Put that is accepted. */
  function Used<B>(p: Policy, c: Cache<B>, op: Op<B>): Option<BlobId> {
    match op
    case OpGet(id, now) => if id in c.index && !Expired(c.index[id], now) then Some(id) else None
    case OpPut(id, _, size, _, _) => if TooBig(p, size) then None else Some(id)
    case _ => None
  }

  /** How recently the blobs of a cache were used: `use` ranks them, the latest at most `n`. */
  datatype Ranks = Ranks(use: map<BlobId, nat>, n: nat)

  const Unused := Ranks(map[], 0)

  /** For each blob, the rank of the last operation in the run that used it; the operations
      rank after whatever came before the run. */
  ghost function LastUse<B>(p: Policy, c0: Cache<B>, r0: Ranks, ops: seq<Op<B>>): map<BlobId, nat> {
    if ops == [] then r0.use
    else
      var before := ops[..|ops| - 1];
      Bump(LastUse(p, c0, r0, before), Used(p, Exec(p, c0, before), ops[|ops| - 1]), r0.n + |ops|)
  }

  function Bump(use: map<BlobId, nat>, used: Option<BlobId>, n: nat): map<BlobId, nat> {
    if used.Some? then use[used.value := n] else use
  }

  /** Strictly decreasing in `use` from front to back. */
  ghost predicate MostRecentFirst(ids: seq<BlobId>, use: map<BlobId, nat>) {
    ids == [] ||
    (&& ids[0] in use
     && (forall x :: x in ids[1..] ==> x in use && use[x] < use[ids[0]])
     && MostRecentFirst(ids[1..], use))
  }

  lemma {:induction false} WithoutKeepsOrder(ids: seq<BlobId>, dead: set<BlobId>, use: map<BlobId, nat>)
    requires MostRecentFirst(ids, use)
    ensures MostRecentFirst(Without(ids, dead), use)
  {
    if ids != [] {
      WithoutKeepsOrder(ids[1..], dead, use);
      WithoutElems(ids[1..], dead);
      var rest := Without(ids[1..], dead);
      assert ([ids[0]] + rest)[1..] == rest;
    }
  }

  lemma {:induction false} OrderFrame(ids: seq<BlobId>, use: map<BlobId, nat>, id: BlobId, n: nat)
    requires MostRecentFirst(ids, use) && id !in ids
    ensures MostRecentFirst(ids, use[id := n])
  {
    if ids != [] {
      assert ids[0] in ids;
      OrderFrame(ids[1..], use, id, n);
    }
  }

  lemma OrderPush(ids: seq<BlobId>, use: map<BlobId, nat>, id: BlobId, n: nat)
    requires MostRecentFirst(ids, use) && id !in ids && forall x :: x in ids ==> x in use && use[x] < n
    ensures MostRecentFirst([id] + ids, use[id := n])
  {
    OrderFrame(ids, use, id, n);
    assert ([id] + ids)[1..] == ids;
  }

  ghost predicate Recency<B>(c: Cache<B>, use: map<BlobId, nat>, n: nat) {
    && MostRecentFirst(c.hot, use) && MostRecentFirst(c.main, use)
    && forall x :: x in c.index ==> x in use && use[x] <= n
  }

  lemma RecencyThin<B>(c: Cache<B>, r: Cache<B>, dead: set<BlobId>, use: map<BlobId, nat>, n: nat)
    requires Recency(c, use, n)
    requires Thinned(c, r, dead)
    ensures Recency(r, use, n)
  {
    WithoutKeepsOrder(c.hot, dead, use);
    WithoutKeepsOrder(c.main, dead, use);
  }

  lemma RecencyFront<B>(c: Cache<B>, r: Cache<B>, id: BlobId, use: map<BlobId, nat>, n: nat)
    requires Valid(c) && Recency(c, use, n) && id !in c.index
    requires r.index.Keys == c.index.Keys + {id}
    requires (r.hot == [id] + c.hot && r.main == c.main) || (r.hot == c.hot && r.main == [id] + c.main)
    ensures Recency(r, use[id := n + 1], n + 1)
  {
    if r.hot == [id] + c.hot && r.main == c.main {
      OrderPush(c.hot, use, id, n + 1);
      OrderFrame(c.main, use, id, n + 1);
    } else {
      OrderPush(c.main, use, id, n + 1);
      OrderFrame(c.hot, use, id, n + 1);
    }
  }

  lemma TouchIsDropThenFront<B>(c: Cache<B>, id: BlobId, now: int)
    requires Valid(c) && id in c.index
    ensures var d, r := Drop(c, id), Touch(c, id, now);
            && r.index.Keys == d.index.Keys + {id}
            && ((r.hot == [id] + d.hot && r.main == d.main) || (r.hot == d.hot && r.main == [id] + d.main))
  {
  }

  lemma RecencyGet<B>(c: Cache<B>, id: BlobId, now: int, use: map<BlobId, nat>, n: nat)
    requires Valid(c) && Recency(c, use, n)
    ensures Recency(Get(c, id, now),
                    if id in c.index && !Expired(c.index[id], now) then use[id := n + 1] else use, n + 1)
  {
    if id in c.index {
      var dead := DropRemoves(c, id);
      RecencyThin(c, Drop(c, id), dead, use, n);
      if !Expired(c.index[id], now) {
        TouchIsDropThenFront(c, id, now);
        RecencyFront(Drop(c, id), Touch(c, id, now), id, use, n);
      }
    }
  }

  lemma RecencyPut<B>(p: Policy, c: Cache<B>, id: BlobId, e: Entry<B>, pin: bool, use: map<BlobId, nat>, n: nat)
    requires Valid(c) && Recency(c, use, n)
    ensures Recency(Insert(MakeRoom(p, c, id, e.size, pin), id, e), use[id := n + 1], n + 1)
  {
    var r := MakeRoom(p, c, id, e.size, pin);
    var dead := MakeRoomRemoves(p, c, id, e.size, pin);
    MakeRoomValid(p, c, id, e.size, pin);
    RecencyThin(c, r, dead, use, n);
    RecencyFront(r, Insert(r, id, e), id, use, n);
  }

  lemma RecencyStep<B>(p: Policy, c: Cache<B>, op: Op<B>, use: map<BlobId, nat>, n: nat)
    requires Valid(c) && Recency(c, use, n)
    ensures var u := Used(p, c, op);
            Recency(Step(p, c, op), if u.Some? then use[u.value := n + 1] else use, n + 1)
  {
    match op
    case OpGet(id, now) =>
      RecencyGet(c, id, now, use, n);
    case OpPut(id, body, size, opts, now) =>
      RecencyPut(p, c, id, NewEntry(p, body, size, opts, now), opts.pinHot && p.hotPin, use, n);
    case OpRemove(id) =>
      var dead := DropRemoves(c, id);
      RecencyThin(c, Drop(c, id), dead, use, n);
    case OpLostPut(id, size, pin) =>
      var dead := MakeRoomRemoves(p, c, id, size, pin);
      RecencyThin(c, MakeRoom(p, c, id, size, pin), dead, use, n);
  }

  lemma {:induction false} ExecLast<B>(p: Policy, c0: Cache<B>, ops: seq<Op<B>>)
    requires ops != []
    ensures Exec(p, c0, ops) == Step(p, Exec(p, c0, ops[..|ops| - 1]), ops[|ops| - 1])
  {
  }

  lemma {:induction false} UseLast<B>(p: Policy, c0: Cache<B>, r0: Ranks, ops: seq<Op<B>>)
    requires ops != []
    ensures var before := ops[..|ops| - 1];
            LastUse(p, c0, r0, ops)
              == Bump(LastUse(p, c0, r0, before), Used(p, Exec(p, c0, before), ops[|ops| - 1]), r0.n + |ops|)
  {
  }

  /** `op` leads from `c` to `c'` and, at rank `n`, from the ranks `use` to `use'`. */
  ghost predicate Ranked<B>(p: Policy, c: Cache<B>, op: Op<B>, use: map<BlobId, nat>, n: nat, c': Cache<B>, use': map<BlobId, nat>) {
    c' == Step(p, c, op) && use' == Bump(use, Used(p, c, op), n)
  }

  lemma {:induction false} LastMove<B>(p: Policy, c0: Cache<B>, r0: Ranks, ops: seq<Op<B>>)
    requires ops != []
    ensures Ranked(p, Exec(p, c0, ops[..|ops| - 1]), ops[|ops| - 1], LastUse(p, c0, r0, ops[..|ops| - 1]), r0.n + |ops|,
                   Exec(p, c0, ops), LastUse(p, c0, r0, ops))
  {
    ExecLast(p, c0, ops);
    UseLast(p, c0, r0, ops);
  }

  lemma RecencyNext<B>(p: Policy, c: Cache<B>, op: Op<B>, use: map<BlobId, nat>, n: nat, c': Cache<B>, use': map<BlobId, nat>)
    requires Valid(c) && n > 0 && Recency(c, use, n - 1) && Ranked(p, c, op, use, n, c', use')
    ensures Recency(c', use', n)
  {
    RecencyStep(p, c, op, use, n - 1);
  }

  lemma {:induction false} RunRecency<B>(p: Policy, c0: Cache<B>, r0: Ranks, ops: seq<Op<B>>)
    requires Valid(c0) && Recency(c0, r0.use, r0.n)
    ensures Recency(Exec(p, c0, ops), LastUse(p, c0, r0, ops), r0.n + |ops|)
  {
    if ops != [] {
      var before := ops[..|ops| - 1];
      RunRecency(p, c0, r0, before);
      RunValid(p, c0, before);
      LastMove(p, c0, r0, ops);
      RecencyNext(p, Exec(p, c0, before), ops[|ops| - 1], LastUse(p, c0, r0, before), r0.n + |ops|,
                  Exec(p, c0, ops), LastUse(p, c0, r0, ops));
    }
  }

  lemma {:induction false} OrderAt(ids: seq<BlobId>, use: map<BlobId, nat>, i: nat, j: nat)
    requires MostRecentFirst(ids, use) && i < j < |ids|
    ensures ids[i] in use && ids[j] in use && use[ids[i]] > use[ids[j]]
  {
    if i == 0 {
      assert ids[j] == ids[1..][j - 1];
    } else {
      OrderAt(ids[1..], use, i - 1, j - 1);
    }
  }

  /** After any run, the order of both lists is the order of last use: whatever stands
      nearer the front was used by a later operation, or ranked higher before the run. */
  lemma ListOrderIsOrderOfLastUse<B>(p: Policy, c0: Cache<B>, r0: Ranks, ops: seq<Op<B>>, i: nat, j: nat)
    requires Valid(c0) && Recency(c0, r0.use, r0.n)
    ensures var c, use := Exec(p, c0, ops), LastUse(p, c0, r0, ops);
            && (i < j < |c.main| ==> c.main[i] in use && c.main[j] in use && use[c.main[i]] > use[c.main[j]])
            && (i < j < |c.hot| ==> c.hot[i] in use && c.hot[j] in use && use[c.hot[i]] > use[c.hot[j]])
  {
    var c, use := Exec(p, c0, ops), LastUse(p, c0, r0, ops);
    RunRecency(p, c0, r0, ops);
    if i < j < |c.main| {
      OrderAt(c.main, use, i, j);
    }
    if i < j < |c.hot| {
      OrderAt(c.hot, use, i, j);
    }
  }

  /** A cache that holds nothing, as Empty() does. */
  ghost predicate Blank<B>(c: Cache<B>) {
    |c.hot| == 0 && |c.main| == 0 && |c.index| == 0 && c.bytesUsed == 0 && c.hotBytes == 0
  }

  /** An empty cache is where such a run may start. */
  lemma {:induction false} EmptyStarts<B>(p: Policy, c: Cache<B>)
    requires Blank(c)
    ensures Valid(c) && Recency(c, Unused.use, Unused.n) && Fits(p, c)
  {
  }

  // ---------------------------------------------------------------------
  // Capacity
  // ---------------------------------------------------------------------

  function Weight<B>(index: map<BlobId, Entry<B>>, id: BlobId): nat {
    if Protected(index, id) then 0 else SizeOf(index, id)
  }

  /** The bytes held by the evictable members of a list. */
  function EvictableBytes<B>(ids: seq<BlobId>, index: map<BlobId, Entry<B>>): nat {
    if ids == [] then 0 else Weight(index, ids[0]) + EvictableBytes(ids[1..], index)
  }

  lemma {:induction false} EvictableFrame<B>(ids: seq<BlobId>, i1: map<BlobId, Entry<B>>, i2: map<BlobId, Entry<B>>)
    requires forall x :: x in ids ==> Weight(i1, x) == Weight(i2, x)
    ensures EvictableBytes(ids, i1) == EvictableBytes(ids, i2)
  {
    if ids != [] {
      assert ids[0] in ids;
      EvictableFrame(ids[1..], i1, i2);
    }
  }

  lemma {:induction false} EvictableThin<B>(ids: seq<BlobId>, index: map<BlobId, Entry<B>>, dead: set<BlobId>)
    ensures EvictableBytes(Without(ids, dead), index) <= EvictableBytes(ids, index)
  {
    if ids != [] {
      EvictableThin(ids[1..], index, dead);
      assert ([ids[0]] + Without(ids[1..], dead))[1..] == Without(ids[1..], dead);
    }
  }

  lemma {:induction false} EvictableWithoutOne<B>(ids: seq<BlobId>, index: map<BlobId, Entry<B>>, id: BlobId)
    requires NoDup(ids) && id in ids
    ensures EvictableBytes(Without(ids, {id}), index) == EvictableBytes(ids, index) - Weight(index, id)
  {
    var rest := ids[1..];
    if ids[0] == id {
      WithoutAbsent(rest, {id});
    } else {
      EvictableWithoutOne(rest, index, id);
      assert ([ids[0]] + Without(rest, {id}))[1..] == Without(rest, {id});
    }
  }

  lemma {:induction false} EvictableBounds<B>(ids: seq<BlobId>, index: map<BlobId, Entry<B>>)
    ensures EvictableBytes(ids, index) <= Total(ids, index)
    ensures (forall x :: x in ids ==> Protected(index, x)) ==> EvictableBytes(ids, index) == 0
  {
    if ids != [] {
      EvictableBounds(ids[1..], index);
      assert forall x :: x in ids[1..] ==> x in ids;
    }
  }

  /** The invariant of plain LRU mode: nothing is pinned and evictable bytes fit. */
  ghost predicate Fits<B>(p: Policy, c: Cache<B>) {
    c.hot == [] && EvictableBytes(c.main, c.index) <= p.maxBytes
  }

  lemma FitsThin<B>(p: Policy, c: Cache<B>, r: Cache<B>, dead: set<BlobId>)
    requires Fits(p, c)
    requires Thinned(c, r, dead)
    ensures Fits(p, r)
  {
    EvictableThin(c.main, c.index, dead);
    WithoutElems(c.main, dead);
    EvictableFrame(r.main, c.index, r.index);
  }

  lemma OnlyProtectedLeft<B>(c: Cache<B>, r: Cache<B>, gone: seq<BlobId>)
    requires gone == Candidates(c) && Removed(c, r, gone) && forall x :: x in c.main ==> x in c.index
    ensures forall x :: x in r.main ==> Protected(r.index, x)
  {
    WithoutElems(c.main, Elems(gone));
    VictimsAreEvictable(c.main, c.index);
    forall x | x in r.main ensures Protected(r.index, x) {
      assert x in c.main && x !in Elems(gone);
    }
  }

  /** evictMain makes room among the evictable main entries, pinned entries or not. */
  lemma RoomForIncoming<B>(p: Policy, c: Cache<B>, incoming: nat)
    requires Valid(c) && p.maxBytes > 0
    ensures var r := EvictMain(p, c, incoming);
            EvictableBytes(r.main, r.index) == 0 || EvictableBytes(r.main, r.index) + incoming <= p.maxBytes
  {
    var r := EvictMain(p, c, incoming);
    var gone := EvictMainRemovesShortestRun(p, c, incoming);
    EvictMainValid(p, c, incoming);
    EvictableBounds(r.main, r.index);
    if gone == Candidates(c) {
      OnlyProtectedLeft(c, r, gone);
    } else {
      assert EvictableBytes(r.main, r.index) <= r.bytesUsed;
    }
  }

  lemma FitsPut<B>(p: Policy, c: Cache<B>, op: Op<B>)
    requires Valid(c) && Fits(p, c) && p.maxBytes > 0 && !p.hotPin && op.OpPut? && !TooBig(p, op.size)
    ensures Fits(p, Step(p, c, op))
  {
    var r := MakeRoom(p, c, op.id, op.size, false);
    FitsRoom(p, c, op.id, op.size);
    FitsInsert(p, r, op.id, NewEntry(p, op.body, op.size, op.opts, op.now));
  }

  /** Making room leaves nothing pinned, and room for the incoming bytes. */
  lemma FitsRoom<B>(p: Policy, c: Cache<B>, id: BlobId, size: nat)
    requires Valid(c) && Fits(p, c) && p.maxBytes > 0
    ensures var r := MakeRoom(p, c, id, size, false);
            && r.hot == [] && id !in r.main && id !in r.index
            && (EvictableBytes(r.main, r.index) == 0 || EvictableBytes(r.main, r.index) + size <= p.maxBytes)
  {
    var dropped := DropRemoves(c, id);
    MakeRoomValid(p, c, id, size, false);
    var dead := MakeRoomRemoves(p, c, id, size, false);
    RoomForIncoming(p, Drop(c, id), size);
  }

  lemma FitsInsert<B>(p: Policy, r: Cache<B>, id: BlobId, e: Entry<B>)
    requires r.hot == [] && id !in r.main && !e.pinned && e.size <= p.maxBytes
    requires EvictableBytes(r.main, r.index) == 0 || EvictableBytes(r.main, r.index) + e.size <= p.maxBytes
    ensures Fits(p, Insert(r, id, e))
  {
    EvictableFrame(r.main, r.index, r.index[id := e]);
    assert ([id] + r.main)[1..] == r.main;
  }

  lemma FitsStep<B>(p: Policy, c: Cache<B>, op: Op<B>)
    requires Valid(c) && Fits(p, c) && p.maxBytes > 0 && !p.hotPin
    ensures Fits(p, Step(p, c, op))
  {
    match op
    case OpGet(id, now) =>
      var dead := DropRemoves(c, id);
      FitsThin(p, c, Drop(c, id), dead);
      if id in c.index && !Expired(c.index[id], now) {
        var r := Touch(c, id, now);
        EvictableWithoutOne(c.main, c.index, id);
        WithoutElems(c.main, {id});
        EvictableFrame(Without(c.main, {id}), c.index, r.index);
        assert ([id] + Without(c.main, {id}))[1..] == Without(c.main, {id});
      }
    case OpPut(_, _, size, _, _) =>
      if !TooBig(p, size) {
        FitsPut(p, c, op);
      }
    case OpRemove(id) =>
      var dead := DropRemoves(c, id);
      FitsThin(p, c, Drop(c, id), dead);
    case OpLostPut(id, size, pin) =>
      var dead := MakeRoomRemoves(p, c, id, size, pin);
      FitsThin(p, c, MakeRoom(p, c, id, size, pin), dead);
  }

  /** In plain LRU mode with a positive limit, evictable entries never hold more than
      MaxBytes together, whatever non-evictable entries are cached beside them. */
  lemma {:induction false} EvictableBytesNeverExceedLimit<B>(p: Policy, c0: Cache<B>, ops: seq<Op<B>>)
    requires p.maxBytes > 0 && !p.hotPin && Valid(c0) && Fits(p, c0)
    ensures Exec(p, c0, ops).hot == []
    ensures EvictableBytes(Exec(p, c0, ops).main, Exec(p, c0, ops).index) <= p.maxBytes
  {
    if ops != [] {
      var before := ops[..|ops| - 1];
      EvictableBytesNeverExceedLimit(p, c0, before);
      RunValid(p, c0, before);
      FitsStep(p, Exec(p, c0, before), ops[|ops| - 1]);
    }
  }
}
