/** No acknowledged blob is lost, in any interleaving, when the surroundings keep the
    pipeline's assumptions. */
module PipelineSafety {
  import opened Prelude
  import opened Pipeline
  import opened PipelineShape

  /** The assumptions the pipeline relies on. A cache that loses the old entry in a failed Put
      is safe if Writes come once, and a cache that dies with the process if that never dies. */
  ghost predicate SafeEnv(env: Env) {
    && !env.ttl && !env.lossyGet && !env.blindEvict && !env.panics && !env.outsider
    && !env.writes.Any? && (env.lossyPut ==> env.writes.Once?)
    && !(env.volatileCache && env.crashes)
  }

  /** The gateway with a MemoryCache, for as long as the process lives. */
  ghost predicate MemoryGateway(env: Env) {
    && env.volatileCache && !env.crashes && !env.lossyPut && !env.lossyGet && !env.writes.Any?
    && !env.ttl && !env.blindEvict && !env.panics && !env.outsider
  }

  /** The gateway with a DiskCache whose files can be opened, across crashes and failed
      publications, with each ID written once. */
  ghost predicate DiskGateway(env: Env) {
    && env.lossyPut && env.crashes && !env.volatileCache && !env.lossyGet && env.writes.Once?
    && !env.ttl && !env.blindEvict && !env.panics && !env.outsider
  }

  // ---------------------------------------------------------------------
  // The claim
  // ---------------------------------------------------------------------

  /** Every acknowledged body is the current durable version, or in L1 and protected there. */
  ghost predicate AckedIsRecoverable(blob: Blob) {
    forall data :: data in blob.acked ==>
      || (blob.versions != [] && Last(blob.versions) == data)
      || (blob.cache.Some? && blob.cache.value == CacheEntry(data, true))
  }

  /** A COMMITTED_DURABLE row is backed by a durable object with the written bytes. */
  ghost predicate DurableIsStored(body: Bytes, blob: Blob) {
    blob.status.Some? && blob.status.value.commit == Durable ==> blob.versions != [] && Last(blob.versions) == body
  }

  ghost predicate NothingLost(env: Env, s: State) {
    forall b :: AckedIsRecoverable(At(s, b)) && DurableIsStored(env.body(b), At(s, b))
  }

  // ---------------------------------------------------------------------
  // The invariant
  // ---------------------------------------------------------------------

  ghost predicate Stored(blob: Blob) { blob.versions != [] }

  ghost predicate Held(blob: Blob) {
    Stored(blob) || (blob.cache.Some? && blob.cache.value.nonEvictable)
  }

  ghost predicate BlobInv(body: Bytes, blob: Blob) {
    && (blob.cache.Some? ==> blob.cache.value.body == body && (blob.cache.value.nonEvictable || Stored(blob)))
    && (forall v :: v in blob.versions ==> v == body)
    && (blob.status.Some? ==>
          if blob.status.value.commit == Durable then Stored(blob) else GoodStatus(body, blob.status.value))
    && blob.acked <= {body}
    && (blob.acked != {} ==> blob.status.Some? && Held(blob))
  }

  ghost predicate GoodStatus(body: Bytes, st: Status) { st.size == |body| && st.sum == Sha(body) }

  ghost predicate PromoteInv(body: Bytes, blob: Blob, p: PromotePc) {
    match p
    case PHead(st) => GoodStatus(body, st) && blob.status.Some?
    case PHeadMark(st) => GoodStatus(body, st) && Stored(blob) && blob.status.Some?
    case PRead(st) => GoodStatus(body, st) && blob.status.Some?
    case PUpload(st, data) => GoodStatus(body, st) && data == body && blob.status.Some?
    case PMark(_, _) => Stored(blob) && blob.status.Some?
    case PReget(st) => Stored(blob)
    case PReput(st, data) => data == body && Stored(blob)
    case PPublish(shared, own) => shared == own && (own ==> Stored(blob))
    case PDelete(own) => own ==> Stored(blob)
    case _ => true
  }

  ghost predicate ReadInv(body: Bytes, blob: Blob, r: ReadPc) {
    match r
    case RJoin(known) => known ==> Stored(blob)
    case RFetch(known) => known ==> Stored(blob)
    case RHit(data) => data == body
    case RPublish(shared, own) => shared == own && (own.Some? ==> own.value == Got(body, Sha(body)) && Stored(blob))
    case RDelete(own) => own.Some? ==> own.value == Got(body, Sha(body)) && Stored(blob)
    case _ => true
  }

  ghost predicate PcInv(body: Bytes, blob: Blob, pc: Pc) {
    match pc
    case Writing(w, data, _) => data == body && (w.WStatus? ==> Held(blob))
    case Promoting(p, ack) =>
      && PromoteInv(body, blob, p)
      && (ack.Some? ==> ack.value == body && blob.status.Some? && Held(blob))
    case Reading(r) => ReadInv(body, blob, r)
    case Filling(f) => f.body == body && f.sum == Sha(body) && Stored(blob)
    case Evicting(e) => blob.status.Some? && (e.EGo? ==> Stored(blob))
  }

  ghost predicate PromoteFlightInv(s: State, f: nat) {
    f in s.promoteFlights && s.promoteFlights[f].result == Some(true) ==> Stored(At(s, s.promoteFlights[f].blob))
  }

  ghost predicate RestoreFlightInv(env: Env, s: State, f: nat) {
    f in s.restoreFlights && s.restoreFlights[f].result.Some? && s.restoreFlights[f].result.value.Some? ==>
      && s.restoreFlights[f].result.value.value == GoodGot(env, s.restoreFlights[f].blob)
      && Stored(At(s, s.restoreFlights[f].blob))
  }

  ghost function GoodGot(env: Env, b: BlobId): Got { Got(env.body(b), Sha(env.body(b))) }

  /** Whoever waits, waits on a flight of its own blob. */
  ghost predicate WaitInv(s: State, c: Call) {
    match c.pc
    case Promoting(PWait(f), _) => f in s.promoteFlights && s.promoteFlights[f].blob == c.blob
    case Reading(RWait(f, _)) => f in s.restoreFlights && s.restoreFlights[f].blob == c.blob
    case _ => true
  }

  ghost predicate CallInv(env: Env, s: State, id: nat) {
    id in s.calls ==>
      && id < s.next
      && PcInv(env.body(s.calls[id].blob), At(s, s.calls[id].blob), s.calls[id].pc)
      && WaitInv(s, s.calls[id])
      && (id in s.promoteFlights ==> s.promoteFlights[id].blob == s.calls[id].blob)
      && (id in s.restoreFlights ==> s.restoreFlights[id].blob == s.calls[id].blob)
  }

  ghost predicate MapsInv(s: State) {
    && (forall b :: b in s.promoting ==> s.promoting[b] in s.promoteFlights && s.promoteFlights[s.promoting[b]].blob == b)
    && (forall b :: b in s.restoring ==> s.restoring[b] in s.restoreFlights && s.restoreFlights[s.restoring[b]].blob == b)
    && (forall f :: f in s.promoteFlights || f in s.restoreFlights ==> f < s.next)
  }

  ghost predicate Inv(env: Env, s: State) {
    && (forall b :: BlobInv(env.body(b), At(s, b)))
    && (forall id: nat :: CallInv(env, s, id))
    && (forall f: nat :: PromoteFlightInv(s, f) && RestoreFlightInv(env, s, f))
    && MapsInv(s)
  }

  lemma InvImpliesClaim(env: Env, s: State)
    requires Inv(env, s)
    ensures NothingLost(env, s)
  {
    forall b ensures AckedIsRecoverable(At(s, b)) && DurableIsStored(env.body(b), At(s, b)) {
      BlobClaim(env.body(b), At(s, b));
    }
  }

  lemma BlobClaim(body: Bytes, blob: Blob)
    requires BlobInv(body, blob)
    ensures AckedIsRecoverable(blob) && DurableIsStored(body, blob)
  {
    if Stored(blob) {
      assert Last(blob.versions) in blob.versions;
    }
  }

  // ---------------------------------------------------------------------
  // What a step of one call does to its blob
  // ---------------------------------------------------------------------

  /** What no step takes back. */
  ghost predicate Evolves(x: Blob, y: Blob) {
    (Stored(x) ==> Stored(y)) && (Held(x) ==> Held(y)) && (x.status.Some? ==> y.status.Some?)
  }

  lemma PcInvKept(body: Bytes, x: Blob, y: Blob, pc: Pc)
    requires Evolves(x, y) && PcInv(body, x, pc)
    ensures PcInv(body, y, pc)
  {
  }

  ghost predicate GoodLocal(body: Bytes, x: Blob, l: Local) {
    BlobInv(body, l.blob) && Evolves(x, l.blob) && (l.go.Goto? ==> PcInv(body, l.blob, l.go.pc))
  }

  /** The one Put that can take a blob out of the cache before it is stored. */
  predicate LosesOld(env: Env, pc: Pc, o: Outcome) {
    env.lossyPut && pc.Writing? && pc.w.WPut? && !o.Ok?
  }

  lemma WriteGood(env: Env, body: Bytes, x: Blob, w: WritePc, data: Bytes, sync: bool, o: Outcome)
    requires SafeEnv(env) && BlobInv(body, x) && PcInv(body, x, Writing(w, data, sync))
    requires !LosesOld(env, Writing(w, data, sync), o)
    ensures GoodLocal(body, x, WriteStep(env, x, w, data, sync, o))
  {
  }

  lemma PromoteGood(env: Env, body: Bytes, x: Blob, p: PromotePc, ack: Option<Bytes>, o: Outcome)
    requires SafeEnv(env) && BlobInv(body, x) && PcInv(body, x, Promoting(p, ack)) && Busy(p)
    ensures GoodLocal(body, x, PromoteStep(env, x, p, ack, o))
  {
  }

  lemma FillGood(env: Env, body: Bytes, x: Blob, f: FillPc, o: Outcome)
    requires SafeEnv(env) && BlobInv(body, x) && PcInv(body, x, Filling(f))
    ensures GoodLocal(body, x, FillStep(env, x, f, o))
  {
  }

  lemma EvictGood(env: Env, body: Bytes, x: Blob, e: EvictPc, o: Outcome)
    requires SafeEnv(env) && BlobInv(body, x) && PcInv(body, x, Evicting(e)) && (e.ECheck? ==> o.Ok?)
    ensures GoodLocal(body, x, EvictStep(x, e, o))
  {
  }

  lemma LocalGood(env: Env, body: Bytes, x: Blob, pc: Pc, o: Outcome)
    requires SafeEnv(env) && BlobInv(body, x) && PcInv(body, x, pc) && IsLocal(pc)
    requires (pc == Evicting(ECheck) ==> o.Ok?) && !LosesOld(env, pc, o)
    ensures GoodLocal(body, x, LocalStep(env, x, pc, o))
  {
    match pc
    case Writing(w, data, sync) => WriteGood(env, body, x, w, data, sync, o);
    case Promoting(p, ack) => PromoteGood(env, body, x, p, ack, o);
    case Filling(f) => FillGood(env, body, x, f, o);
    case Evicting(e) => EvictGood(env, body, x, e, o);
  }

  // ---------------------------------------------------------------------
  // Every step keeps the invariant
  // ---------------------------------------------------------------------

  /** Blobs only evolve, and flights keep their blob. */
  ghost predicate Extends(s: State, s': State) {
    && (forall b :: Evolves(At(s, b), At(s', b)))
    && (forall f :: f in s.promoteFlights ==>
          f in s'.promoteFlights && s'.promoteFlights[f].blob == s.promoteFlights[f].blob)
    && (forall f :: f in s.restoreFlights ==>
          f in s'.restoreFlights && s'.restoreFlights[f].blob == s.restoreFlights[f].blob)
    && s.next <= s'.next
  }

  /** A call that does not move keeps its invariant. */
  lemma OtherCall(env: Env, s: State, s': State, id: nat)
    requires CallInv(env, s, id) && Extends(s, s') && id in s.calls && id in s'.calls && s'.calls[id] == s.calls[id]
    requires id !in s.promoteFlights ==> id !in s'.promoteFlights
    requires id !in s.restoreFlights ==> id !in s'.restoreFlights
    ensures CallInv(env, s', id)
  {
    var c := s.calls[id];
    PcInvKept(env.body(c.blob), At(s, c.blob), At(s', c.blob), c.pc);
  }

  /** The parts of the invariant that do not mention calls. */
  ghost predicate SharedInv(env: Env, s: State) {
    && (forall b :: BlobInv(env.body(b), At(s, b)))
    && (forall f: nat :: PromoteFlightInv(s, f) && RestoreFlightInv(env, s, f))
    && MapsInv(s)
  }

  /** A step of call `id` keeps the invariant when it keeps the shared part and leaves
      the call, if it goes on, in a good place. */
  lemma StepOfCall(env: Env, s: State, s': State, id: nat)
    requires Inv(env, s) && id in s.calls && Extends(s, s') && SharedInv(env, s')
    requires s'.calls.Keys <= s.calls.Keys && forall i :: i in s'.calls && i != id ==> s'.calls[i] == s.calls[i]
    requires forall f :: f != id ==> (f in s'.promoteFlights ==> f in s.promoteFlights) && (f in s'.restoreFlights ==> f in s.restoreFlights)
    requires CallInv(env, s', id)
    ensures Inv(env, s')
  {
    forall i: nat ensures CallInv(env, s', i) {
      assert CallInv(env, s, i);
      if i in s'.calls && i != id {
        OtherCall(env, s, s', i);
      }
    }
  }

  lemma SetOne(env: Env, s: State, b: BlobId, blob: Blob)
    requires SharedInv(env, s) && BlobInv(env.body(b), blob) && Evolves(At(s, b), blob)
    ensures SharedInv(env, SetBlob(s, b, blob)) && Extends(s, SetBlob(s, b, blob))
  {
    var s' := SetBlob(s, b, blob);
    forall b1 ensures BlobInv(env.body(b1), At(s', b1)) && Evolves(At(s, b1), At(s', b1)) {
      assert BlobInv(env.body(b1), At(s, b1));
    }
    forall f: nat ensures PromoteFlightInv(s', f) && RestoreFlightInv(env, s', f) {
      assert PromoteFlightInv(s, f) && RestoreFlightInv(env, s, f);
    }
  }

  lemma SharedCarriesOver(env: Env, s: State, t: State, u: State)
    requires SharedInv(env, t) && Extends(s, t)
    requires u == t.(calls := u.calls, counters := u.counters)
    ensures SharedInv(env, u) && Extends(s, u)
  {
    forall b ensures BlobInv(env.body(b), At(u, b)) && Evolves(At(s, b), At(u, b)) {
      assert BlobInv(env.body(b), At(t, b)) && Evolves(At(s, b), At(t, b));
    }
    forall f: nat ensures PromoteFlightInv(u, f) && RestoreFlightInv(env, u, f) {
      assert PromoteFlightInv(t, f) && RestoreFlightInv(env, t, f);
    }
  }

  /** The call `id` changes the shared state from `s` to `t` and then goes on to `go`. */
  lemma Moved(env: Env, s: State, t: State, id: nat, go: Then, counters: Counters)
    requires Inv(env, s) && id in s.calls && SharedInv(env, t) && Extends(s, t) && t.calls == s.calls
    requires t.promoteFlights.Keys <= s.promoteFlights.Keys + {id} && t.restoreFlights.Keys <= s.restoreFlights.Keys + {id}
    requires var b := s.calls[id].blob;
             && (go.Goto? ==> PcInv(env.body(b), At(t, b), go.pc) && WaitInv(t, Call(b, go.pc)))
             && (id in t.promoteFlights ==> t.promoteFlights[id].blob == b)
             && (id in t.restoreFlights ==> t.restoreFlights[id].blob == b)
    ensures Inv(env, Follow(t, id, s.calls[id].blob, go).(counters := counters))
  {
    var u := Follow(t, id, s.calls[id].blob, go).(counters := counters);
    assert CallInv(env, s, id);
    SharedCarriesOver(env, s, t, u);
    StepOfCall(env, s, u, id);
  }

  lemma TickLocalInv(env: Env, s: State, id: nat, o: Outcome)
    requires SafeEnv(env) && Inv(env, s) && TickAllowed(env, s, id, o) && IsLocal(s.calls[id].pc)
    requires !LosesOld(env, s.calls[id].pc, o)
    ensures Inv(env, TickStep(env, s, id, o))
  {
    var b, pc := s.calls[id].blob, s.calls[id].pc;
    assert CallInv(env, s, id) && BlobInv(env.body(b), At(s, b));
    LocalGood(env, env.body(b), At(s, b), pc, o);
    var l := LocalStep(env, At(s, b), pc, o);
    LocalNeverWaits(env, At(s, b), pc, o);
    SetOne(env, s, b, l.blob);
    Moved(env, s, SetBlob(s, b, l.blob), id, l.go, Add(s.counters, l.count));
  }

  /** Only a Write under way relies on the cache entry of a blob that is not stored. */
  lemma PcInvWithoutCache(body: Bytes, x: Blob, pc: Pc)
    requires PcInv(body, x, pc) && !IsWriter(pc)
    ensures PcInv(body, x.(cache := None), pc)
  {
  }

  lemma LosingBlob(body: Bytes, x: Blob)
    requires BlobInv(body, x) && x.acked == {}
    ensures BlobInv(body, x.(cache := None))
  {
  }

  /** A failed Put of the only Write of a blob may lose the entry: nobody was told of it. */
  lemma LosingWriteInv(env: Env, s: State, s': State, id: nat, b: BlobId)
    requires Inv(env, s) && WriterInv(s) && WritesAt(s, id, b)
    requires s' == Follow(SetBlob(s, b, At(s, b).(cache := None)), id, b, End).(counters := s'.counters)
    ensures Inv(env, s')
  {
    assert BlobInv(env.body(b), At(s, b));
    LosingBlob(env.body(b), At(s, b));
    forall b1 ensures BlobInv(env.body(b1), At(s', b1)) {
      assert BlobInv(env.body(b1), At(s, b1));
    }
    forall f: nat ensures PromoteFlightInv(s', f) && RestoreFlightInv(env, s', f) {
      assert PromoteFlightInv(s, f) && RestoreFlightInv(env, s, f);
    }
    forall i: nat ensures CallInv(env, s', i) {
      assert CallInv(env, s, i) && LoneWriter(s, i, id, b);
      if i in s'.calls && s.calls[i].blob == b {
        PcInvWithoutCache(env.body(b), At(s, b), s.calls[i].pc);
      }
    }
  }

  lemma LocalNeverWaits(env: Env, x: Blob, pc: Pc, o: Outcome)
    requires IsLocal(pc)
    ensures var go := LocalStep(env, x, pc, o).go;
            go.Goto? ==> (go.pc.Promoting? ==> !go.pc.p.PWait?) && !go.pc.Reading?
  {
  }

  lemma AckGood(env: Env, s: State, b: BlobId, ack: Option<Bytes>, ok: bool)
    requires SharedInv(env, s)
    requires ok && ack.Some? ==> ack.value == env.body(b) && At(s, b).status.Some? && Held(At(s, b))
    ensures SharedInv(env, Ack(s, b, ack, ok)) && Extends(s, Ack(s, b, ack, ok))
  {
    if ok && ack.Some? {
      assert BlobInv(env.body(b), At(s, b));
      SetOne(env, s, b, At(s, b).(acked := At(s, b).acked + {ack.value}));
    }
  }

  lemma PromoteFlightSet(env: Env, s: State, s': State, id: nat, b: BlobId, result: Option<bool>)
    requires SharedInv(env, s) && id < s.next && (id in s.promoteFlights ==> s.promoteFlights[id].blob == b)
    requires result == Some(true) ==> Stored(At(s, b))
    requires s' == s.(promoteFlights := s.promoteFlights[id := Flight(b, result)])
    ensures SharedInv(env, s') && Extends(s, s')
  {
    forall b1 ensures BlobInv(env.body(b1), At(s', b1)) {
      assert BlobInv(env.body(b1), At(s, b1));
    }
    forall f: nat ensures PromoteFlightInv(s', f) && RestoreFlightInv(env, s', f) {
      assert PromoteFlightInv(s, f) && RestoreFlightInv(env, s, f);
    }
  }

  lemma RestoreFlightSet(env: Env, s: State, s': State, id: nat, b: BlobId, result: Option<Option<Got>>)
    requires SharedInv(env, s) && id < s.next && (id in s.restoreFlights ==> s.restoreFlights[id].blob == b)
    requires result.Some? && result.value.Some? ==> result.value.value == GoodGot(env, b) && Stored(At(s, b))
    requires s' == s.(restoreFlights := s.restoreFlights[id := Flight(b, result)])
    ensures SharedInv(env, s') && Extends(s, s')
  {
    forall b1 ensures BlobInv(env.body(b1), At(s', b1)) {
      assert BlobInv(env.body(b1), At(s, b1));
    }
    forall f: nat ensures PromoteFlightInv(s', f) && RestoreFlightInv(env, s', f) {
      assert PromoteFlightInv(s, f) && RestoreFlightInv(env, s, f);
    }
  }

  /** Call `id` stands at the promote step `p` of blob `b`. */
  ghost predicate PromotesAt(env: Env, s: State, id: nat, b: BlobId, p: PromotePc, ack: Option<Bytes>) {
    Inv(env, s) && id in s.calls && s.calls[id] == Call(b, Promoting(p, ack))
  }

  lemma JoinWaitsInv(env: Env, s: State, id: nat, b: BlobId, ack: Option<Bytes>, o: Outcome)
    requires PromotesAt(env, s, id, b, PJoin, ack) && b in s.promoting
    ensures Inv(env, FlightStep(s, id, b, PJoin, ack, o))
  {
    assert CallInv(env, s, id);
    Stay(env, s);
    Moved(env, s, s, id, Goto(Promoting(PWait(s.promoting[b]), ack)), s.counters);
  }

  lemma JoinLeadsInv(env: Env, s: State, id: nat, b: BlobId, ack: Option<Bytes>, o: Outcome)
    requires PromotesAt(env, s, id, b, PJoin, ack) && b !in s.promoting
    ensures Inv(env, FlightStep(s, id, b, PJoin, ack, o))
  {
    assert CallInv(env, s, id);
    var t := s.(promoteFlights := s.promoteFlights[id := Flight(b, None)]);
    PromoteFlightSet(env, s, t, id, b, None);
    LeadPromote(env, s, t, id, b);
    Moved(env, s, t.(promoting := s.promoting[b := id]), id, Goto(Promoting(PStatus, ack)), s.counters);
  }

  lemma WaitCancelInv(env: Env, s: State, id: nat, b: BlobId, f: nat, ack: Option<Bytes>)
    requires PromotesAt(env, s, id, b, PWait(f), ack)
    ensures Inv(env, FlightStep(s, id, b, PWait(f), ack, Cancel))
  {
    assert CallInv(env, s, id);
    Stay(env, s);
    Moved(env, s, s, id, End, s.counters);
  }

  lemma WaitEndsInv(env: Env, s: State, id: nat, b: BlobId, f: nat, ack: Option<Bytes>, o: Outcome)
    requires PromotesAt(env, s, id, b, PWait(f), ack) && !o.Cancel?
    requires f in s.promoteFlights && s.promoteFlights[f].result.Some?
    ensures Inv(env, FlightStep(s, id, b, PWait(f), ack, o))
  {
    assert CallInv(env, s, id) && PromoteFlightInv(s, f);
    var ok := s.promoteFlights[f].result.value;
    AckGood(env, s, b, ack, ok);
    AckFrame(s, b, ack, ok);
    Moved(env, s, Ack(s, b, ack, ok), id, End, s.counters);
  }

  lemma AckFrame(s: State, b: BlobId, ack: Option<Bytes>, ok: bool)
    ensures Ack(s, b, ack, ok) == s.(blobs := Ack(s, b, ack, ok).blobs)
  {
  }

  lemma PublishInv(env: Env, s: State, id: nat, b: BlobId, shared: bool, own: bool, ack: Option<Bytes>, o: Outcome)
    requires PromotesAt(env, s, id, b, PPublish(shared, own), ack)
    ensures Inv(env, FlightStep(s, id, b, PPublish(shared, own), ack, o))
  {
    assert CallInv(env, s, id);
    Stay(env, s);
    var t := s.(promoteFlights := s.promoteFlights[id := Flight(b, Some(shared))]);
    PromoteFlightSet(env, s, t, id, b, Some(shared));
    Moved(env, s, t, id, Goto(Promoting(PDelete(own), ack)), s.counters);
  }

  lemma DeleteInv(env: Env, s: State, id: nat, b: BlobId, own: bool, ack: Option<Bytes>, o: Outcome)
    requires PromotesAt(env, s, id, b, PDelete(own), ack)
    ensures Inv(env, FlightStep(s, id, b, PDelete(own), ack, o))
  {
    assert CallInv(env, s, id);
    var t := s.(promoting := s.promoting - {b});
    UnlistPromote(env, s, t, b);
    AckGood(env, t, b, ack, own);
    ExtendsTwice(s, t, Ack(t, b, ack, own));
    Moved(env, s, Ack(t, b, ack, own), id, End, s.counters);
  }

  lemma TickFlightInv(env: Env, s: State, id: nat, o: Outcome)
    requires Inv(env, s) && TickAllowed(env, s, id, o)
    requires s.calls[id].pc.Promoting? && !IsLocal(s.calls[id].pc)
    ensures Inv(env, TickStep(env, s, id, o))
  {
    var b, p, ack := s.calls[id].blob, s.calls[id].pc.p, s.calls[id].pc.ackOnSuccess;
    match p
    case PJoin =>
      if b in s.promoting {
        JoinWaitsInv(env, s, id, b, ack, o);
      } else {
        JoinLeadsInv(env, s, id, b, ack, o);
      }
    case PWait(f) =>
      if o.Cancel? {
        WaitCancelInv(env, s, id, b, f, ack);
      } else {
        WaitEndsInv(env, s, id, b, f, ack, o);
      }
    case PPublish(shared, own) => PublishInv(env, s, id, b, shared, own, ack, o);
    case PDelete(own) => DeleteInv(env, s, id, b, own, ack, o);
    case _ =>
  }

  lemma Stay(env: Env, s: State)
    requires Inv(env, s)
    ensures SharedInv(env, s) && Extends(s, s)
  {
  }

  lemma ExtendsTwice(s: State, t: State, u: State)
    requires Extends(s, t) && Extends(t, u)
    ensures Extends(s, u)
  {
    forall b ensures Evolves(At(s, b), At(u, b)) {
      assert Evolves(At(s, b), At(t, b)) && Evolves(At(t, b), At(u, b));
    }
  }

  lemma LeadPromote(env: Env, s: State, t: State, id: nat, b: BlobId)
    requires SharedInv(env, t) && Extends(s, t) && id in t.promoteFlights && t.promoteFlights[id].blob == b
    ensures var u := t.(promoting := t.promoting[b := id]); SharedInv(env, u) && Extends(s, u)
  {
    var u := t.(promoting := t.promoting[b := id]);
    SharedFrame(env, s, t, u);
  }

  lemma UnlistPromote(env: Env, s: State, t: State, b: BlobId)
    requires Inv(env, s) && t == s.(promoting := s.promoting - {b})
    ensures SharedInv(env, t) && Extends(s, t)
  {
    SharedFrame(env, s, s, t);
  }

  /** Only the two maps from blobs to flights differ, and they point where they should. */
  lemma SharedFrame(env: Env, s: State, t: State, u: State)
    requires SharedInv(env, t) && Extends(s, t) && MapsInv(u)
    requires u == t.(promoting := u.promoting, restoring := u.restoring)
    ensures SharedInv(env, u) && Extends(s, u)
  {
    forall b ensures BlobInv(env.body(b), At(u, b)) && Evolves(At(s, b), At(u, b)) {
      assert BlobInv(env.body(b), At(t, b)) && Evolves(At(s, b), At(t, b));
    }
    forall f: nat ensures PromoteFlightInv(u, f) && RestoreFlightInv(env, u, f) {
      assert PromoteFlightInv(t, f) && RestoreFlightInv(env, t, f);
    }
  }

  lemma FetchedIsTheBody(env: Env, body: Bytes, blob: Blob, o: Outcome)
    requires BlobInv(body, blob)
    ensures Fetched(env, blob, o).Some? ==> Fetched(env, blob, o).value == Got(body, Sha(body)) && Stored(blob)
  {
    if Stored(blob) {
      assert Last(blob.versions) in blob.versions;
    }
  }

  /** Call `id` stands at the read step `r` of blob `b`. */
  ghost predicate ReadsAt(env: Env, s: State, id: nat, b: BlobId, r: ReadPc) {
    Inv(env, s) && id in s.calls && s.calls[id] == Call(b, Reading(r))
  }

  lemma LookupInv(env: Env, s: State, id: nat, b: BlobId, o: Outcome)
    requires SafeEnv(env) && ReadsAt(env, s, id, b, RGet)
    ensures Inv(env, ReadStep(env, s, id, b, RGet, o))
  {
    assert CallInv(env, s, id) && BlobInv(env.body(b), At(s, b));
    Stay(env, s);
    SetOne(env, s, b, At(s, b));
    Moved(env, s, SetBlob(s, b, At(s, b)), id, Lookup(env, At(s, b), o), s.counters);
  }

  lemma RestoreJoinWaitsInv(env: Env, s: State, id: nat, b: BlobId, known: bool, o: Outcome)
    requires ReadsAt(env, s, id, b, RJoin(known)) && b in s.restoring
    ensures Inv(env, ReadStep(env, s, id, b, RJoin(known), o))
  {
    assert CallInv(env, s, id);
    Stay(env, s);
    Moved(env, s, s, id, Goto(Reading(RWait(s.restoring[b], known))), s.counters);
  }

  lemma RestoreJoinLeadsInv(env: Env, s: State, id: nat, b: BlobId, known: bool, o: Outcome)
    requires ReadsAt(env, s, id, b, RJoin(known)) && b !in s.restoring
    ensures Inv(env, ReadStep(env, s, id, b, RJoin(known), o))
  {
    assert CallInv(env, s, id);
    Stay(env, s);
    var t := s.(restoreFlights := s.restoreFlights[id := Flight(b, None)]);
    RestoreFlightSet(env, s, t, id, b, None);
    var u := t.(restoring := s.restoring[b := id]);
    SharedFrame(env, s, t, u);
    Moved(env, s, u, id, Goto(Reading(RFetch(known))), s.counters);
  }

  lemma RestoreWaitInv(env: Env, s: State, id: nat, b: BlobId, f: nat, known: bool, o: Outcome)
    requires ReadsAt(env, s, id, b, RWait(f, known))
    requires !o.Cancel? ==> f in s.restoreFlights && s.restoreFlights[f].result.Some?
    ensures Inv(env, ReadStep(env, s, id, b, RWait(f, known), o))
  {
    assert CallInv(env, s, id) && RestoreFlightInv(env, s, f);
    Stay(env, s);
    Moved(env, s, s, id, if o.Cancel? then End else Filler(s.restoreFlights[f].result.value), s.counters);
  }

  lemma FetchInv(env: Env, s: State, id: nat, b: BlobId, known: bool, o: Outcome)
    requires ReadsAt(env, s, id, b, RFetch(known)) && !o.Panic?
    ensures Inv(env, ReadStep(env, s, id, b, RFetch(known), o))
  {
    assert CallInv(env, s, id) && BlobInv(env.body(b), At(s, b));
    Stay(env, s);
    FetchedIsTheBody(env, env.body(b), At(s, b), o);
    Moved(env, s, s, id, Goto(Reading(RPublish(Fetched(env, At(s, b), o), Fetched(env, At(s, b), o)))), s.counters);
  }

  lemma RestorePublishInv(env: Env, s: State, id: nat, b: BlobId, shared: Option<Got>, own: Option<Got>, o: Outcome)
    requires ReadsAt(env, s, id, b, RPublish(shared, own))
    ensures Inv(env, ReadStep(env, s, id, b, RPublish(shared, own), o))
  {
    assert CallInv(env, s, id);
    Stay(env, s);
    var t := s.(restoreFlights := s.restoreFlights[id := Flight(b, Some(shared))]);
    RestoreFlightSet(env, s, t, id, b, Some(shared));
    Moved(env, s, t, id, Goto(Reading(RDelete(own))), s.counters);
  }

  lemma RestoreDeleteInv(env: Env, s: State, id: nat, b: BlobId, own: Option<Got>, o: Outcome)
    requires ReadsAt(env, s, id, b, RDelete(own))
    ensures Inv(env, ReadStep(env, s, id, b, RDelete(own), o))
  {
    assert CallInv(env, s, id);
    Stay(env, s);
    var t := s.(restoring := s.restoring - {b});
    SharedFrame(env, s, s, t);
    Moved(env, s, t, id, Filler(own), s.counters);
  }

  lemma TickReadInv(env: Env, s: State, id: nat, o: Outcome)
    requires SafeEnv(env) && Inv(env, s) && TickAllowed(env, s, id, o) && s.calls[id].pc.Reading?
    ensures Inv(env, TickStep(env, s, id, o))
  {
    var b, r := s.calls[id].blob, s.calls[id].pc.r;
    match r
    case RGet => LookupInv(env, s, id, b, o);
    case RHit(_) =>
      assert CallInv(env, s, id);
      Stay(env, s);
      Moved(env, s, s, id, End, s.counters);
    case RJoin(known) =>
      if b in s.restoring {
        RestoreJoinWaitsInv(env, s, id, b, known, o);
      } else {
        RestoreJoinLeadsInv(env, s, id, b, known, o);
      }
    case RWait(f, known) => RestoreWaitInv(env, s, id, b, f, known, o);
    case RFetch(known) => FetchInv(env, s, id, b, known, o);
    case RPublish(shared, own) => RestorePublishInv(env, s, id, b, shared, own, o);
    case RDelete(own) => RestoreDeleteInv(env, s, id, b, own, o);
  }

  lemma BeginInv(env: Env, s: State, b: BlobId, op: Op)
    requires SafeEnv(env) && Inv(env, s) && BeginAllowed(env, s, b, op)
    ensures Inv(env, Apply(env, s, Begin(b, op)))
  {
    var s' := Apply(env, s, Begin(b, op));
    forall b1 ensures BlobInv(env.body(b1), At(s', b1)) && Evolves(At(s, b1), At(s', b1)) {
      assert BlobInv(env.body(b1), At(s, b1));
    }
    forall f: nat ensures PromoteFlightInv(s', f) && RestoreFlightInv(env, s', f) {
      assert PromoteFlightInv(s, f) && RestoreFlightInv(env, s, f);
    }
    forall i: nat ensures CallInv(env, s', i) {
      assert CallInv(env, s, i);
      if i in s'.calls && i != s.next {
        OtherCall(env, s, s', i);
      }
    }
  }

  lemma AutoEvictInv(env: Env, s: State, b: BlobId)
    requires Inv(env, s) && Enabled(env, s, AutoEvict(b))
    ensures Inv(env, Apply(env, s, AutoEvict(b)))
  {
    assert BlobInv(env.body(b), At(s, b));
    var s' := Apply(env, s, AutoEvict(b));
    SetOne(env, s, b, At(s, b).(cache := None));
    forall i: nat ensures CallInv(env, s', i) {
      assert CallInv(env, s, i);
      if i in s'.calls {
        OtherCall(env, s, s', i);
      }
    }
  }

  lemma CrashInv(env: Env, s: State)
    requires SafeEnv(env) && Inv(env, s) && env.crashes
    ensures Inv(env, Apply(env, s, Crash))
  {
    var s' := Apply(env, s, Crash);
    forall b ensures BlobInv(env.body(b), At(s', b)) {
      assert BlobInv(env.body(b), At(s, b));
    }
  }

  lemma StepInv(env: Env, s: State, a: Action)
    requires SafeEnv(env) && Inv(env, s) && Enabled(env, s, a)
    requires env.lossyPut ==> WriterInv(s)
    ensures Inv(env, Apply(env, s, a))
  {
    match a
    case Begin(b, op) => BeginInv(env, s, b, op);
    case Tick(id, o) =>
      if LosesOld(env, s.calls[id].pc, o) {
        LosingWriteInv(env, s, Apply(env, s, a), id, s.calls[id].blob);
      } else if IsLocal(s.calls[id].pc) {
        TickLocalInv(env, s, id, o);
      } else if s.calls[id].pc.Promoting? {
        TickFlightInv(env, s, id, o);
      } else {
        TickReadInv(env, s, id, o);
      }
    case AutoEvict(b) => AutoEvictInv(env, s, b);
    case Expire(_) =>
    case Outside(_, _) =>
    case Crash => CrashInv(env, s);
  }

  lemma {:induction false} InvHolds(env: Env, r: Run, i: nat)
    requires SafeEnv(env) && IsRun(env, r) && i < |r.states|
    ensures Inv(env, r.states[i])
  {
    if i == 0 {
      forall b ensures BlobInv(env.body(b), At(Start, b)) {}
    } else {
      InvHolds(env, r, i - 1);
      assert StepAt(env, r, i - 1);
      if env.lossyPut { WriterHolds(env, r, i - 1); }
      StepInv(env, r.states[i - 1], r.acts[i - 1]);
    }
  }

  /** In every interleaving, with crashes, faults, cancellations and automatic evictions at
      any point, no acknowledged body is lost and every COMMITTED_DURABLE row is backed by a
      durable object with the written bytes. */
  lemma NothingIsEverLost(env: Env, r: Run, i: nat)
    requires SafeEnv(env) && IsRun(env, r) && i < |r.states|
    ensures NothingLost(env, r.states[i])
  {
    InvHolds(env, r, i);
    InvImpliesClaim(env, r.states[i]);
  }

  /** The two caches that the gateway ships with are covered. */
  lemma ShippedCachesLoseNothing(env: Env, r: Run, i: nat)
    requires MemoryGateway(env) || DiskGateway(env)
    requires IsRun(env, r) && i < |r.states|
    ensures NothingLost(env, r.states[i])
  {
    NothingIsEverLost(env, r, i);
  }

  /** Read refines a plain map from blob IDs to bodies: a cache hit, the leader of a restore
      and every waiter return the body written under that ID, never a part of it, and a
      restore returns its checksum. */
  lemma ReadReturnsTheWrittenBytes(env: Env, r: Run, i: nat)
    requires SafeEnv(env) && IsRun(env, r) && i < |r.acts| && StepAt(env, r, i)
    requires Returned(env, r.states[i], r.acts[i]).Some?
    ensures var c := r.states[i].calls[r.acts[i].id];
            var got := Returned(env, r.states[i], r.acts[i]).value;
            got.body == env.body(c.blob) && (!c.pc.r.RHit? ==> got.sum == Sha(env.body(c.blob)))
  {
    var s, id := r.states[i], r.acts[i].id;
    InvHolds(env, r, i);
    assert CallInv(env, s, id);
    assert BlobInv(env.body(s.calls[id].blob), At(s, s.calls[id].blob));
    if s.calls[id].pc.r.RWait? {
      assert RestoreFlightInv(env, s, s.calls[id].pc.r.flight);
    }
  }

  /** A read that starts after the blob was acknowledged and misses the cache finds the
      object in the durable store when it fetches it as leader. */
  lemma AckedBlobIsFoundByItsLeader(env: Env, r: Run, i: nat, id: nat)
    requires SafeEnv(env) && IsRun(env, r) && i < |r.states|
    requires id in r.states[i].calls && r.states[i].calls[id].pc == Reading(RFetch(true))
    ensures var blob := At(r.states[i], r.states[i].calls[id].blob);
            blob.versions != [] && Last(blob.versions) == env.body(r.states[i].calls[id].blob)
  {
    var s, b := r.states[i], r.states[i].calls[id].blob;
    InvHolds(env, r, i);
    assert CallInv(env, s, id) && BlobInv(env.body(b), At(s, b));
    assert Last(At(s, b).versions) in At(s, b).versions;
  }
}
