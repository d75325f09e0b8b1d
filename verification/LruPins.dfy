/** How many evictable bytes a hot cache can hold when blobs may be pinned: the main list
    keeps within MaxBytes and the hot list within its own limit, but not both together. */
module LruPins {
  import opened Prelude
  import opened Lru
  import opened LruLaws
  import opened LruRuns

  function MainBytes<B>(c: Cache<B>): nat { EvictableBytes(c.main, c.index) }
  function PinnedBytes<B>(c: Cache<B>): nat { EvictableBytes(c.hot, c.index) }

  /** All evictable bytes, pinned or not. */
  function Held<B>(c: Cache<B>): nat { PinnedBytes(c) + MainBytes(c) }

  // ---------------------------------------------------------------------
  // What an operation does to each of the two
  // ---------------------------------------------------------------------

  lemma ThinHolds<B>(c: Cache<B>, r: Cache<B>, dead: set<BlobId>)
    requires Thinned(c, r, dead)
    ensures MainBytes(r) <= MainBytes(c) && PinnedBytes(r) <= PinnedBytes(c)
    ensures forall x :: x in r.hot ==> x in c.hot && Protected(r.index, x) == Protected(c.index, x)
  {
    EvictableThin(c.main, c.index, dead);
    EvictableThin(c.hot, c.index, dead);
    WithoutElems(c.main, dead);
    WithoutElems(c.hot, dead);
    EvictableFrame(r.main, c.index, r.index);
    EvictableFrame(r.hot, c.index, r.index);
  }

  /** Moving an entry to the front of its list changes no sum. */
  lemma FrontHolds<B>(ids: seq<BlobId>, index: map<BlobId, Entry<B>>, index': map<BlobId, Entry<B>>, id: BlobId)
    requires NoDup(ids) && id in ids && forall x :: x in ids ==> Weight(index, x) == Weight(index', x)
    ensures EvictableBytes([id] + Without(ids, {id}), index') == EvictableBytes(ids, index)
  {
    var rest := Without(ids, {id});
    EvictableWithoutOne(ids, index, id);
    WithoutElems(ids, {id});
    EvictableFrame(rest, index, index');
    assert ([id] + rest)[1..] == rest;
  }

  lemma TouchHolds<B>(c: Cache<B>, id: BlobId, now: int)
    requires Valid(c) && id in c.index
    ensures var r := Touch(c, id, now);
            && MainBytes(r) == MainBytes(c) && PinnedBytes(r) == PinnedBytes(c)
            && forall x :: x in r.hot ==> x in c.hot && Protected(r.index, x) == Protected(c.index, x)
  {
    var r := Touch(c, id, now);
    WithoutElems(c.hot, {id});
    if c.index[id].pinned {
      FrontHolds(c.hot, c.index, r.index, id);
      EvictableFrame(c.main, c.index, r.index);
    } else {
      FrontHolds(c.main, c.index, r.index, id);
      EvictableFrame(c.hot, c.index, r.index);
    }
  }

  lemma InsertHolds<B>(c: Cache<B>, id: BlobId, e: Entry<B>)
    requires id !in c.main && id !in c.hot
    ensures var r, w := Insert(c, id, e), if e.nonEvictable then 0 else e.size;
            && MainBytes(r) == MainBytes(c) + (if e.pinned then 0 else w)
            && PinnedBytes(r) == PinnedBytes(c) + (if e.pinned then w else 0)
  {
    var r := Insert(c, id, e);
    EvictableFrame(c.main, c.index, r.index);
    EvictableFrame(c.hot, c.index, r.index);
    assert ([id] + c.main)[1..] == c.main && ([id] + c.hot)[1..] == c.hot;
  }

  /** evictHot makes room among the evictable pinned entries, or none of them is left. */
  lemma RoomForPinned<B>(p: Policy, c: Cache<B>, incoming: nat)
    requires Valid(c) && p.hotLimit > 0
    ensures var r := EvictHot(p, c, incoming);
            (forall x :: x in r.hot ==> Protected(r.index, x)) || PinnedBytes(r) + incoming <= p.hotLimit
  {
    var r := EvictHot(p, c, incoming);
    var gone := EvictHotRemovesShortestRun(p, c, incoming);
    EvictHotValid(p, c, incoming);
    EvictableBounds(r.hot, r.index);
    WithoutElems(c.hot, Elems(gone));
    VictimsAreEvictable(c.hot, c.index);
    if gone == Victims(c.hot, c.index) {
      forall x | x in r.hot ensures Protected(r.index, x) { assert x in c.hot && x !in Elems(gone); }
    } else {
      WithoutAbsent(c.main, Elems(gone));
      TotalFrame(c.main, c.index, r.index);
    }
  }

  /** What making room leaves: the blob is out, and there is room in the list it will enter. */
  lemma RoomHolds<B>(p: Policy, c: Cache<B>, id: BlobId, size: nat, pin: bool)
    requires Valid(c) && p.maxBytes > 0 && p.hotLimit > 0
    ensures var r := MakeRoom(p, c, id, size, pin);
            && Valid(r) && id !in r.index
            && MainBytes(r) <= MainBytes(c) && PinnedBytes(r) <= PinnedBytes(c)
            && (MainBytes(r) == 0 || MainBytes(r) + size <= p.maxBytes)
            && (pin ==> (forall x :: x in r.hot ==> Protected(r.index, x)) || PinnedBytes(r) + size <= p.hotLimit)
  {
    var c1 := Drop(c, id);
    var c2 := if pin then EvictHot(p, c1, size) else c1;
    var d1 := DropRemoves(c, id);
    var d2 := HotRemoves(p, c1, size, pin);
    var d3 := MainRemoves(p, c2, size);
    ThinHolds(c, c1, d1);
    ThinHolds(c1, c2, d2);
    ThinHolds(c2, EvictMain(p, c2, size), d3);
    RoomForIncoming(p, c2, size);
    RoomForPinned(p, c1, size);
    MakeRoomValid(p, c, id, size, pin);
  }

  // ---------------------------------------------------------------------
  // The bounds, over every run
  // ---------------------------------------------------------------------

  /** Evictable main entries fit into MaxBytes, evictable pinned ones into `h` bytes. */
  ghost predicate PinFits<B>(p: Policy, c: Cache<B>, h: nat) {
    MainBytes(c) <= p.maxBytes && PinnedBytes(c) <= h
  }

  /** Evictable pinned entries fit into the hot region, unless there is only one of them. */
  ghost predicate HotFits<B>(p: Policy, c: Cache<B>) {
    || PinnedBytes(c) <= p.hotLimit
    || forall x, y :: x in c.hot && y in c.hot && !Protected(c.index, x) && !Protected(c.index, y) ==> x == y
  }

  predicate PinsBlob<B>(p: Policy, op: Op<B>) {
    op.OpPut? && op.opts.pinHot && p.hotPin && !TooBig(p, op.size)
  }

  lemma PutFits<B>(p: Policy, c: Cache<B>, op: Op<B>, h: nat)
    requires Valid(c) && p.maxBytes > 0 && p.hotLimit > 0 && op.OpPut? && !TooBig(p, op.size)
    requires PinFits(p, c, h) && p.maxBytes <= h && p.hotLimit <= h
    ensures PinFits(p, Step(p, c, op), h)
  {
    var pin := op.opts.pinHot && p.hotPin;
    var r := MakeRoom(p, c, op.id, op.size, pin);
    RoomHolds(p, c, op.id, op.size, pin);
    EvictableBounds(r.hot, r.index);
    InsertHolds(r, op.id, NewEntry(p, op.body, op.size, op.opts, op.now));
  }

  lemma OnlyTheNewOne<B>(r: Cache<B>, id: BlobId, e: Entry<B>)
    requires e.pinned && forall x :: x in r.hot ==> Protected(r.index, x)
    ensures forall x :: x in Insert(r, id, e).hot && !Protected(Insert(r, id, e).index, x) ==> x == id
  {
  }

  /** A pinned Put brings the hot list within its limit, whatever it held before. */
  lemma PinnedPutFits<B>(p: Policy, c: Cache<B>, op: Op<B>)
    requires Valid(c) && p.maxBytes > 0 && p.hotLimit > 0 && PinsBlob(p, op)
    ensures HotFits(p, Step(p, c, op))
  {
    var r := MakeRoom(p, c, op.id, op.size, true);
    var e := NewEntry(p, op.body, op.size, op.opts, op.now);
    RoomHolds(p, c, op.id, op.size, true);
    InsertHolds(r, op.id, e);
    if forall x :: x in r.hot ==> Protected(r.index, x) { OnlyTheNewOne(r, op.id, e); }
  }

  /** Every other operation takes nothing into the hot list. */
  lemma OtherHolds<B>(p: Policy, c: Cache<B>, op: Op<B>)
    requires Valid(c) && !PinsBlob(p, op)
    ensures var r := Step(p, c, op);
            && PinnedBytes(r) <= PinnedBytes(c)
            && ((op.OpPut? && !TooBig(p, op.size)) || MainBytes(r) <= MainBytes(c))
            && forall x :: x in r.hot ==> x in c.hot && Protected(r.index, x) == Protected(c.index, x)
  {
    match op
    case OpGet(id, now) =>
      var dead := DropRemoves(c, id);
      ThinHolds(c, Drop(c, id), dead);
      if id in c.index { TouchHolds(c, id, now); }
    case OpPut(id, body, size, opts, now) =>
      if !TooBig(p, size) { UnpinnedPutHolds(p, c, id, NewEntry(p, body, size, opts, now)); }
    case OpRemove(id) =>
      var dead := DropRemoves(c, id);
      ThinHolds(c, Drop(c, id), dead);
    case OpLostPut(id, size, pin) =>
      var dead := MakeRoomRemoves(p, c, id, size, pin);
      ThinHolds(c, MakeRoom(p, c, id, size, pin), dead);
  }

  lemma UnpinnedPutHolds<B>(p: Policy, c: Cache<B>, id: BlobId, e: Entry<B>)
    requires Valid(c) && !e.pinned
    ensures var r := Insert(MakeRoom(p, c, id, e.size, false), id, e);
            && PinnedBytes(r) <= PinnedBytes(c)
            && forall x :: x in r.hot ==> x in c.hot && Protected(r.index, x) == Protected(c.index, x)
  {
    var room := MakeRoom(p, c, id, e.size, false);
    var dead := MakeRoomRemoves(p, c, id, e.size, false);
    ThinHolds(c, room, dead);
    MakeRoomValid(p, c, id, e.size, false);
    InsertHolds(room, id, e);
  }

  lemma PinFitsStep<B>(p: Policy, c: Cache<B>, op: Op<B>, h: nat)
    requires Valid(c) && p.maxBytes > 0 && p.hotLimit > 0
    requires PinFits(p, c, h) && p.maxBytes <= h && p.hotLimit <= h
    ensures PinFits(p, Step(p, c, op), h)
  {
    if op.OpPut? && !TooBig(p, op.size) {
      PutFits(p, c, op, h);
    } else {
      OtherHolds(p, c, op);
    }
  }

  lemma HotFitsStep<B>(p: Policy, c: Cache<B>, op: Op<B>)
    requires Valid(c) && p.maxBytes > 0 && p.hotLimit > 0 && (HotFits(p, c) || PinsBlob(p, op))
    ensures HotFits(p, Step(p, c, op))
  {
    if PinsBlob(p, op) {
      PinnedPutFits(p, c, op);
    } else {
      OtherHolds(p, c, op);
    }
  }

  /** In every run with a hot region: the evictable main entries keep within MaxBytes, and
      the evictable pinned ones within MaxBytes, the hot limit or what was there before,
      whichever is most. */
  lemma {:induction false} EvictableBytesWithPins<B>(p: Policy, c0: Cache<B>, ops: seq<Op<B>>, h: nat)
    requires p.maxBytes > 0 && p.hotLimit > 0 && Valid(c0)
    requires PinFits(p, c0, h) && p.maxBytes <= h && p.hotLimit <= h
    ensures PinFits(p, Exec(p, c0, ops), h)
  {
    if ops != [] {
      var before := ops[..|ops| - 1];
      EvictableBytesWithPins(p, c0, before, h);
      RunValid(p, c0, before);
      PinFitsStep(p, Exec(p, c0, before), ops[|ops| - 1], h);
    }
  }

  /** Some operation of the run pins a blob. */
  ghost predicate PinsSome<B>(p: Policy, ops: seq<Op<B>>) { exists i :: 0 <= i < |ops| && PinsBlob(p, ops[i]) }

  lemma PinnedBefore<B>(p: Policy, ops: seq<Op<B>>)
    requires ops != [] && !PinsBlob(p, ops[|ops| - 1])
    ensures PinsSome(p, ops) ==> PinsSome(p, ops[..|ops| - 1])
  {
    if i :| 0 <= i < |ops| && PinsBlob(p, ops[i]) { assert ops[..|ops| - 1][i] == ops[i]; }
  }

  lemma {:induction false} HotFitsLast<B>(p: Policy, c0: Cache<B>, ops: seq<Op<B>>)
    requires p.maxBytes > 0 && p.hotLimit > 0 && ops != [] && Valid(Exec(p, c0, ops[..|ops| - 1]))
    requires HotFits(p, Exec(p, c0, ops[..|ops| - 1])) || PinsBlob(p, ops[|ops| - 1])
    ensures HotFits(p, Exec(p, c0, ops))
  {
    ExecLast(p, c0, ops);
    HotFitsStep(p, Exec(p, c0, ops[..|ops| - 1]), ops[|ops| - 1]);
  }

  /** In every run that starts so, or that has pinned a blob, the evictable pinned entries fit
      into the hot region, or there is only one of them. */
  lemma {:induction false} PinnedBytesFitHotRegion<B>(p: Policy, c0: Cache<B>, ops: seq<Op<B>>)
    requires p.maxBytes > 0 && p.hotLimit > 0 && Valid(c0)
    requires HotFits(p, c0) || PinsSome(p, ops)
    ensures HotFits(p, Exec(p, c0, ops))
  {
    if ops != [] {
      var n := |ops| - 1;
      RunValid(p, c0, ops[..n]);
      if !PinsBlob(p, ops[n]) {
        PinnedBefore(p, ops);
        PinnedBytesFitHotRegion(p, c0, ops[..n]);
      }
      HotFitsLast(p, c0, ops);
    }
  }

  // ---------------------------------------------------------------------
  // The bounds cannot be better
  // ---------------------------------------------------------------------

  ghost predicate HoldsAtMost<B>(p: Policy, c0: Cache<B>, ops: seq<Op<B>>, b: nat) { Held(Exec(p, c0, ops)) <= b }

  /** Every run from `c0` keeps its evictable bytes within `b`. */
  ghost predicate Bounded<B(!new)>(p: Policy, c0: Cache<B>, b: nat) {
    forall ops: seq<Op<B>> :: HoldsAtMost(p, c0, ops, b)
  }

  ghost predicate Leads<B>(p: Policy, c0: Cache<B>, ops: seq<Op<B>>, c: Cache<B>) { Exec(p, c0, ops) == c && Valid(c) }

  lemma Go<B>(p: Policy, c0: Cache<B>, ops: seq<Op<B>>, c: Cache<B>, op: Op<B>) returns (ops': seq<Op<B>>, c': Cache<B>)
    requires Leads(p, c0, ops, c)
    ensures Leads(p, c0, ops', c') && c' == Step(p, c, op)
  {
    ops', c' := ops + [op], Step(p, c, op);
    assert ops'[..|ops|] == ops;
    StepValid(p, c, op);
  }

  lemma GoFirst<B>(p: Policy, c0: Cache<B>, op: Op<B>) returns (ops: seq<Op<B>>, c: Cache<B>)
    requires Valid(c0)
    ensures Leads(p, c0, ops, c) && c == Step(p, c0, op)
  {
    ops, c := [op], Step(p, c0, op);
    assert ops[..0] == [] && Exec(p, c0, ops[..0]) == c0;
    StepValid(p, c0, op);
  }

  const Guard := BlobId("")

  /** One protected entry makes up the main list, so evictMain finds no candidate. */
  ghost predicate Guarded<B>(c: Cache<B>) {
    c.main == [Guard] && Guard in c.index && Protected(c.index, Guard)
  }

  lemma GuardedStays<B>(p: Policy, c: Cache<B>, incoming: nat)
    requires Guarded(c)
    ensures EvictMain(p, c, incoming) == c
  {
    assert Guard in c.main && !AllEvictable(c.main, c.index);
    assert c.main[..0] == [] && Victims(c.main[..0], c.index) == [];
    assert Victims(c.main, c.index) == [];
  }

  function Plain(pin: bool, protect: bool): PutOptions { PutOptions("", 0, pin, protect) }

  lemma GuardEnters<B>(p: Policy, c0: Cache<B>, body: B)
    requires Blank(c0)
    ensures var c := Step(p, c0, OpPut(Guard, body, 0, Plain(false, true), 0));
            Guarded(c) && Held(c) == 0 && c.hot == [] && c.index.Keys == {Guard}
  {
    assert Candidates(c0) == [];
    assert MakeRoom(p, c0, Guard, 0, false) == c0;
    InsertHolds(c0, Guard, NewEntry(p, body, 0, Plain(false, true), 0));
  }

  lemma Guarding<B>(p: Policy, c0: Cache<B>, body: B) returns (ops: seq<Op<B>>, c: Cache<B>)
    requires Blank(c0)
    ensures Leads(p, c0, ops, c) && Guarded(c) && Held(c) == 0 && c.hot == [] && c.index.Keys == {Guard}
  {
    EmptyStarts(p, c0);
    GuardEnters(p, c0, body);
    ops, c := GoFirst(p, c0, OpPut(Guard, body, 0, Plain(false, true), 0));
  }

  /** Behind a guarded main list a Put takes nothing away, when it is unpinned, or there is no
      limit on the hot list, or that is empty. */
  lemma OneMore<B>(p: Policy, c: Cache<B>, id: BlobId, body: B, pin: bool)
    requires p.hotPin && Guarded(c) && id !in c.index && Valid(c) && (pin ==> p.hotLimit == 0 || c.hot == [])
    ensures var r := Step(p, c, OpPut(id, body, p.maxBytes, Plain(pin, false), 0));
            && r.index.Keys == c.index.Keys + {id} && Held(r) == Held(c) + p.maxBytes
            && (pin ==> Guarded(r))
  {
    assert pin ==> EvictHot(p, c, p.maxBytes) == c;
    GuardedStays(p, c, p.maxBytes);
    InsertHolds(c, id, NewEntry(p, body, p.maxBytes, Plain(pin, false), 0));
  }

  lemma PutOneMore<B>(p: Policy, c0: Cache<B>, ops: seq<Op<B>>, c: Cache<B>, id: BlobId, body: B, pin: bool)
    returns (ops': seq<Op<B>>, c': Cache<B>)
    requires p.hotPin && Leads(p, c0, ops, c) && Guarded(c) && id !in c.index && (pin ==> p.hotLimit == 0 || c.hot == [])
    ensures Leads(p, c0, ops', c') && c'.index.Keys == c.index.Keys + {id} && Held(c') == Held(c) + p.maxBytes
    ensures pin ==> Guarded(c')
  {
    ops', c' := Go(p, c0, ops, c, OpPut(id, body, p.maxBytes, Plain(pin, false), 0));
    OneMore(p, c, id, body, pin);
  }

  function Name(n: nat): (id: BlobId)
    ensures |id.name| == n
  {
    BlobId(seq(n, _ => 'a'))
  }

  /** With pins, whatever the hot limit, a run can hold twice MaxBytes in evictable entries. */
  lemma TwiceTheLimit<B>(p: Policy, c0: Cache<B>, body: B) returns (ops: seq<Op<B>>, c: Cache<B>)
    requires p.hotPin && Blank(c0)
    ensures Leads(p, c0, ops, c) && Held(c) == 2 * p.maxBytes
  {
    ops, c := Guarding(p, c0, body);
    ops, c := PutOneMore(p, c0, ops, c, Name(1), body, true);
    ops, c := PutOneMore(p, c0, ops, c, Name(2), body, false);
  }

  /** With pins and no hot limit, a run can hold any number of evictable bytes. */
  lemma {:induction false} NoLimit<B>(p: Policy, c0: Cache<B>, body: B, n: nat) returns (ops: seq<Op<B>>, c: Cache<B>)
    requires p.hotPin && p.hotLimit == 0 && p.maxBytes > 0 && Blank(c0)
    ensures Leads(p, c0, ops, c) && Guarded(c) && Held(c) >= n
    ensures forall id :: id in c.index.Keys ==> |id.name| <= n
  {
    if n == 0 {
      ops, c := Guarding(p, c0, body);
    } else {
      ops, c := NoLimit(p, c0, body, n - 1);
      ops, c := PutOneMore(p, c0, ops, c, Name(n), body, true);
    }
  }

  lemma Breaks<B(!new)>(p: Policy, c0: Cache<B>, ops: seq<Op<B>>, c: Cache<B>, b: nat)
    requires Leads(p, c0, ops, c) && Held(c) > b
    ensures !Bounded(p, c0, b)
  {
    assert !HoldsAtMost(p, c0, ops, b);
  }

  lemma PlainFits<B>(p: Policy, c0: Cache<B>, ops: seq<Op<B>>)
    requires p.maxBytes > 0 && !p.hotPin && Blank(c0)
    ensures HoldsAtMost(p, c0, ops, p.maxBytes)
  {
    EmptyStarts(p, c0);
    EvictableBytesNeverExceedLimit(p, c0, ops);
  }

  /** Evictable bytes keep within MaxBytes in every run of a new cache exactly when nothing
      can be pinned. */
  lemma WithinLimitExactlyWithoutPins<B(!new)>(p: Policy, c0: Cache<B>, body: B)
    requires p.maxBytes > 0 && Blank(c0)
    ensures Bounded(p, c0, p.maxBytes) <==> !p.hotPin
  {
    if p.hotPin {
      LessIsNot(p, c0, body, p.maxBytes);
    } else {
      forall ops: seq<Op<B>> ensures HoldsAtMost(p, c0, ops, p.maxBytes) { PlainFits(p, c0, ops); }
    }
  }

  function Larger(a: nat, b: nat): nat { if a > b then a else b }

  lemma PinnedFits<B>(p: Policy, c0: Cache<B>, ops: seq<Op<B>>, b: nat)
    requires p.maxBytes > 0 && p.hotLimit > 0 && Blank(c0) && b >= p.maxBytes + Larger(p.hotLimit, p.maxBytes)
    ensures HoldsAtMost(p, c0, ops, b)
  {
    EmptyStarts(p, c0);
    EvictableBytesWithPins(p, c0, ops, Larger(p.hotLimit, p.maxBytes));
  }

  lemma BoundedByBoth<B(!new)>(p: Policy, c0: Cache<B>, b: nat)
    requires p.maxBytes > 0 && p.hotLimit > 0 && Blank(c0) && b >= p.maxBytes + Larger(p.hotLimit, p.maxBytes)
    ensures Bounded(p, c0, b)
  {
    forall ops: seq<Op<B>> ensures HoldsAtMost(p, c0, ops, b) { PinnedFits(p, c0, ops, b); }
  }

  lemma LessIsNot<B(!new)>(p: Policy, c0: Cache<B>, body: B, b: nat)
    requires p.hotPin && Blank(c0) && b < 2 * p.maxBytes
    ensures !Bounded(p, c0, b)
  {
    var ops, c := TwiceTheLimit(p, c0, body);
    Breaks(p, c0, ops, c, b);
  }

  /** With a hot region within MaxBytes, the evictable bytes of a new cache are bounded by
      twice MaxBytes, and by nothing less. */
  lemma LeastBound<B(!new)>(p: Policy, c0: Cache<B>, body: B, b: nat)
    requires p.hotPin && 0 < p.hotLimit <= p.maxBytes && Blank(c0)
    ensures Bounded(p, c0, b) <==> b >= 2 * p.maxBytes
  {
    if b >= 2 * p.maxBytes { BoundedByBoth(p, c0, b); } else { LessIsNot(p, c0, body, b); }
  }

  /** There is a bound at all exactly when nothing can be pinned or the hot list has a limit. */
  lemma BoundedExactlyWithHotLimit<B(!new)>(p: Policy, c0: Cache<B>, body: B)
    requires p.maxBytes > 0 && Blank(c0)
    ensures (exists b: nat :: Bounded(p, c0, b)) <==> !p.hotPin || p.hotLimit > 0
  {
    if p.hotLimit > 0 {
      BoundedByBoth(p, c0, p.maxBytes + Larger(p.hotLimit, p.maxBytes));
    } else if p.hotPin {
      forall b: nat ensures !Bounded(p, c0, b) {
        var ops, c := NoLimit(p, c0, body, b + 1);
        Breaks(p, c0, ops, c, b);
      }
    } else {
      WithinLimitExactlyWithoutPins(p, c0, body);
    }
  }
}
