/** What a hot cache holds of a blob, told from the Puts alone: an entry is what the last
    accepted Put of its blob asked for, it expires when that Put said, and a protected one is
    there until something is done to it. */
module LruPuts {
  import opened Prelude
  import opened Lru
  import opened LruLaws
  import opened LruRuns

  /** A blob put at `from` is still alive at `t`: the option's TTL decides, else the policy's. */
  predicate Alive(p: Policy, o: PutOptions, from: int, t: int) {
    if o.ttl > 0 then t <= from + o.ttl else if p.ttl > 0 then t <= from + p.ttl else true
  }

  /** The entry has the bytes, size, hash and protection of a Put at time `now`, is pinned if
      that was asked for and the policy has a hot region, and lives as long as it should. */
  ghost predicate AsPut<B>(p: Policy, e: Entry<B>, body: B, size: nat, o: PutOptions, now: int) {
    && e.body == body && e.size == size && e.hash == o.hash && e.storedAt == now
    && e.nonEvictable == o.nonEvictable && e.pinned == (o.pinHot && p.hotPin)
    && forall t: int :: Expired(e, t) <==> !Alive(p, o, now, t)
  }

  /** After an accepted Put the blob is cached at the front of its list, as it was put, and a
      Get at time `t` hits exactly if it is still alive then. */
  lemma PutStores<B>(p: Policy, c: Cache<B>, id: BlobId, body: B, size: nat, o: PutOptions, now: int, t: int)
    requires !TooBig(p, size)
    ensures var c' := Put(p, c, id, body, size, o, now);
            && id in c'.index && AsPut(p, c'.index[id], body, size, o, now)
            && c'.index[id].hits == 0 && c'.index[id].lastAccess == now
            && (if o.pinHot && p.hotPin then c'.hot != [] && c'.hot[0] == id else c'.main != [] && c'.main[0] == id)
            && (id in Get(c', id, t).index <==> Alive(p, o, now, t))
  {
  }

  /** A Put that is too big changes nothing. */
  lemma TooBigIsIgnored<B>(p: Policy, c: Cache<B>, op: Op<B>)
    requires op.OpPut? && TooBig(p, op.size)
    ensures Step(p, c, op) == c
  {
  }

  // ---------------------------------------------------------------------
  // Over whole runs
  // ---------------------------------------------------------------------

  predicate Accepts<B>(p: Policy, op: Op<B>, id: BlobId) { op.OpPut? && op.id == id && !TooBig(p, op.size) }

  /** The operation leaves a cached `id` in place: it is about another blob, or a Get. */
  predicate Leaves<B>(p: Policy, op: Op<B>, id: BlobId) {
    op.id != id || op.OpGet? || (op.OpPut? && TooBig(p, op.size))
  }

  /** Operation `i` is the last Put of `id` that was accepted, and nothing removed `id` since. */
  ghost predicate LastPut<B>(p: Policy, ops: seq<Op<B>>, id: BlobId, i: nat) {
    i < |ops| && Accepts(p, ops[i], id) && forall k :: i < k < |ops| ==> Leaves(p, ops[k], id)
  }

  /** How often, and when last, `id` was looked up after operation `i`. */
  function Lookups<B>(ops: seq<Op<B>>, id: BlobId, i: nat): nat {
    if |ops| <= i + 1 then 0
    else Lookups(ops[..|ops| - 1], id, i) + if ops[|ops| - 1].OpGet? && ops[|ops| - 1].id == id then 1 else 0
  }

  function LastTime<B>(ops: seq<Op<B>>, id: BlobId, i: nat, start: int): int {
    if |ops| <= i + 1 then start
    else if ops[|ops| - 1].OpGet? && ops[|ops| - 1].id == id then ops[|ops| - 1].now
    else LastTime(ops[..|ops| - 1], id, i, start)
  }

  /** The entry is what Put `i` made of it, with the lookups since then. */
  ghost predicate Holds<B>(p: Policy, e: Entry<B>, ops: seq<Op<B>>, id: BlobId, i: nat) {
    && i < |ops| && ops[i].OpPut? && AsPut(p, e, ops[i].body, ops[i].size, ops[i].opts, ops[i].now)
    && e.hits == Lookups(ops, id, i) && e.lastAccess == LastTime(ops, id, i, ops[i].now)
  }

  /** What one operation does to the entry of a blob. */
  lemma StepEntry<B>(p: Policy, c: Cache<B>, op: Op<B>, id: BlobId)
    requires Valid(c) && id in Step(p, c, op).index && !Accepts(p, op, id)
    ensures id in c.index && Leaves(p, op, id)
    ensures var e, e' := c.index[id], Step(p, c, op).index[id];
            if op.OpGet? && op.id == id then e' == e.(hits := e.hits + 1, lastAccess := op.now) else e' == e
  {
    match op
    case OpGet(_, _) =>
    case OpPut(id1, _, size, opts, _) =>
      if !TooBig(p, size) { var dead := MakeRoomRemoves(p, c, id1, size, opts.pinHot && p.hotPin); }
    case OpRemove(_) =>
    case OpLostPut(id1, size, pin) =>
      var dead := MakeRoomRemoves(p, c, id1, size, pin);
      MakeRoomValid(p, c, id1, size, pin);
  }

  lemma TouchedAsPut<B>(p: Policy, e: Entry<B>, e': Entry<B>, body: B, size: nat, o: PutOptions, now: int)
    requires AsPut(p, e, body, size, o, now) && e' == e.(hits := e'.hits, lastAccess := e'.lastAccess)
    ensures AsPut(p, e', body, size, o, now)
  {
    forall t: int ensures Expired(e', t) <==> !Alive(p, o, now, t) { assert Expired(e, t) <==> !Alive(p, o, now, t); }
  }

  lemma {:induction false} HoldsNext<B>(p: Policy, e: Entry<B>, e': Entry<B>, before: seq<Op<B>>, op: Op<B>, id: BlobId, i: nat)
    requires Holds(p, e, before, id, i)
    requires if op.OpGet? && op.id == id then e' == e.(hits := e.hits + 1, lastAccess := op.now) else e' == e
    ensures Holds(p, e', before + [op], id, i)
  {
    var ops := before + [op];
    assert ops[..|before|] == before && ops[i] == before[i];
    TouchedAsPut(p, e, e', ops[i].body, ops[i].size, ops[i].opts, ops[i].now);
  }

  lemma LastPutNext<B>(p: Policy, before: seq<Op<B>>, op: Op<B>, id: BlobId, i: nat)
    requires LastPut(p, before, id, i) && Leaves(p, op, id)
    ensures LastPut(p, before + [op], id, i)
  {
    var ops := before + [op];
    forall k | i < k < |ops| ensures Leaves(p, ops[k], id) { if k < |before| { assert ops[k] == before[k]; } }
  }

  lemma {:induction false} JustPut<B>(p: Policy, c: Cache<B>, before: seq<Op<B>>, op: Op<B>, id: BlobId)
    requires Accepts(p, op, id)
    ensures LastPut(p, before + [op], id, |before|)
    ensures id in Step(p, c, op).index && Holds(p, Step(p, c, op).index[id], before + [op], id, |before|)
  {
    PutStores(p, c, id, op.body, op.size, op.opts, op.now, 0);
    assert (before + [op])[|before|] == op;
  }

  lemma EntryNext<B>(p: Policy, c: Cache<B>, before: seq<Op<B>>, op: Op<B>, id: BlobId, was: nat) returns (i: nat)
    requires Valid(c) && id in Step(p, c, op).index
    requires id in c.index ==> LastPut(p, before, id, was) && Holds(p, c.index[id], before, id, was)
    ensures LastPut(p, before + [op], id, i) && Holds(p, Step(p, c, op).index[id], before + [op], id, i)
  {
    if Accepts(p, op, id) {
      i := |before|;
      JustPut(p, c, before, op, id);
    } else {
      i := was;
      StepEntry(p, c, op, id);
      HoldsNext(p, c.index[id], Step(p, c, op).index[id], before, op, id, i);
      LastPutNext(p, before, op, id, i);
    }
  }

  /** In every run of a new cache, an entry is what the last accepted Put of its blob asked for,
      nothing has removed it since, and its hits and time of use count the lookups since. */
  lemma {:induction false} CachedAsLastPut<B>(p: Policy, c0: Cache<B>, ops: seq<Op<B>>, id: BlobId) returns (i: nat)
    requires Blank(c0) && id in Exec(p, c0, ops).index
    ensures LastPut(p, ops, id, i) && Holds(p, Exec(p, c0, ops).index[id], ops, id, i)
  {
    EmptyStarts(p, c0);
    if ops != [] {
      var before, op := ops[..|ops| - 1], ops[|ops| - 1];
      RunValid(p, c0, before);
      ExecLast(p, c0, ops);
      assert before + [op] == ops;
      var was := 0;
      if id in Exec(p, c0, before).index { was := CachedAsLastPut(p, c0, before, id); }
      i := EntryNext(p, Exec(p, c0, before), before, op, id, was);
    }
  }

  /** Every later Get of `id` comes while the blob of Put `i` is alive. */
  ghost predicate GetsInTime<B>(p: Policy, ops: seq<Op<B>>, id: BlobId, i: nat)
    requires i < |ops| && ops[i].OpPut?
  {
    forall k :: i < k < |ops| && ops[k].OpGet? && ops[k].id == id ==> Alive(p, ops[i].opts, ops[i].now, ops[k].now)
  }

  /** The blob is cached and protected, as Put `i` left it. */
  ghost predicate Kept<B>(p: Policy, c: Cache<B>, ops: seq<Op<B>>, id: BlobId, i: nat) {
    id in c.index && Protected(c.index, id) && Holds(p, c.index[id], ops, id, i)
  }

  lemma KeptNext<B>(p: Policy, c: Cache<B>, before: seq<Op<B>>, op: Op<B>, id: BlobId, i: nat)
    requires Valid(c) && Kept(p, c, before, id, i) && Leaves(p, op, id)
    requires op.OpGet? && op.id == id ==> Alive(p, before[i].opts, before[i].now, op.now)
    ensures Kept(p, Step(p, c, op), before + [op], id, i)
  {
    if op.OpPut? && TooBig(p, op.size) {
      TooBigIsIgnored(p, c, op);
    } else {
      ProtectedLeavesOnlyByItsOwnOp(p, c, op, id);
      StepEntry(p, c, op, id);
    }
    HoldsNext(p, c.index[id], Step(p, c, op).index[id], before, op, id, i);
  }

  /** In every run, a blob put with NonEvictable stays cached and protected, as it was put, until
      another Put of it is accepted, it is removed, or a Get finds it expired. */
  lemma {:induction false} ProtectedStays<B>(p: Policy, c0: Cache<B>, ops: seq<Op<B>>, id: BlobId, i: nat)
    requires Valid(c0) && LastPut(p, ops, id, i) && ops[i].opts.nonEvictable && GetsInTime(p, ops, id, i)
    ensures Kept(p, Exec(p, c0, ops), ops, id, i)
    decreases |ops|
  {
    var n := |ops| - 1;
    var before, op := ops[..n], ops[n];
    RunValid(p, c0, before);
    ExecLast(p, c0, ops);
    assert before + [op] == ops;
    if i == n {
      JustPut(p, Exec(p, c0, before), before, op, id);
    } else {
      assert before[i] == ops[i];
      ShorterRun(p, ops, id, i);
      ProtectedStays(p, c0, before, id, i);
      KeptNext(p, Exec(p, c0, before), before, op, id, i);
    }
  }

  lemma ShorterRun<B>(p: Policy, ops: seq<Op<B>>, id: BlobId, i: nat)
    requires LastPut(p, ops, id, i) && GetsInTime(p, ops, id, i) && i < |ops| - 1
    ensures LastPut(p, ops[..|ops| - 1], id, i) && GetsInTime(p, ops[..|ops| - 1], id, i)
  {
    var before := ops[..|ops| - 1];
    forall k | i < k < |before| ensures Leaves(p, before[k], id) { assert before[k] == ops[k]; }
  }
}
