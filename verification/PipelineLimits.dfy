/** The assumptions about the surroundings are exactly what the pipeline needs: for each of
    them a short run loses a blob as soon as it is dropped. */
module PipelineLimits {
  import opened Prelude
  import opened Pipeline
  import opened PipelineSafety

  lemma StartReachable(env: Env)
    ensures Reachable(env, Start)
  {
    var r := Run([Start], []);
    assert IsRun(env, r) && r.states[|r.acts|] == Start;
  }

  lemma Go(env: Env, s: State, a: Action) returns (s': State)
    requires Reachable(env, s) && Enabled(env, s, a)
    ensures Reachable(env, s') && s' == Apply(env, s, a)
  {
    s' := Apply(env, s, a);
    var r :| IsRun(env, r) && r.states[|r.acts|] == s;
    var r' := Run(r.states + [s'], r.acts + [a]);
    forall i: nat | i < |r'.acts| ensures StepAt(env, r', i) {
      assert i < |r.acts| ==> StepAt(env, r, i);
    }
    assert IsRun(env, r') && r'.states[|r'.acts|] == s';
  }

  /** A step of call `id`, which stands at `pc`, that touches only its own blob. */
  lemma GoLocal(env: Env, s: State, id: nat, b: BlobId, pc: Pc, o: Outcome) returns (s': State)
    requires Reachable(env, s) && id in s.calls && s.calls[id] == Call(b, pc) && IsLocal(pc) && !o.Panic? && !o.Reported?
    requires pc.Promoting? ==> !pc.p.PHead?
    requires pc == Evicting(ECheck) ==> o.Ok?
    ensures Reachable(env, s')
    ensures var l := LocalStep(env, At(s, b), pc, o);
            s' == Follow(SetBlob(s, b, l.blob), id, b, l.go).(counters := Add(s.counters, l.count))
  {
    s' := Go(env, s, Tick(id, o));
  }

  lemma GoRead(env: Env, s: State, id: nat, b: BlobId, r: ReadPc, o: Outcome) returns (s': State)
    requires Reachable(env, s) && id in s.calls && s.calls[id] == Call(b, Reading(r)) && !r.RWait?
    requires (o.Panic? ==> env.panics) && !o.Reported?
    ensures Reachable(env, s') && s' == ReadStep(env, s, id, b, r, o)
  {
    s' := Go(env, s, Tick(id, o));
  }

  predicate SameFlights(s: State, s': State) {
    && s'.promoting == s.promoting && s'.promoteFlights == s.promoteFlights
    && s'.restoring == s.restoring && s'.restoreFlights == s.restoreFlights
  }

  /** An asynchronous Write that succeeds: its body is cached, listed and acknowledged. */
  lemma WriteAcked(env: Env, s: State, b: BlobId, data: Bytes) returns (s': State)
    requires Reachable(env, s) && s.next !in s.calls && WriteAllowed(env, s, b, data)
    ensures Reachable(env, s') && s'.next == s.next + 1 && s'.calls == s.calls && SameFlights(s, s')
    ensures At(s', b) == Blob(Some(CacheEntry(data, true)), Some(Status(Cached, |data|, Sha(data))),
                              At(s, b).versions, At(s, b).acked + {data})
  {
    var id := s.next;
    var s1 := Go(env, s, Begin(b, Write(data, false)));
    var s2 := GoLocal(env, s1, id, b, Writing(WPut, data, false), Ok);
    s' := GoLocal(env, s2, id, b, Writing(WStatus, data, false), Ok);
    assert s'.calls == s.calls;
  }

  /** A step of a promoter, among other calls, that goes on to `q`. */
  lemma GoPromote(env: Env, s: State, id: nat, b: BlobId, p: PromotePc, o: Outcome, q: PromotePc) returns (s': State)
    requires Reachable(env, s) && id in s.calls && s.calls[id] == Call(b, Promoting(p, None)) && Busy(p)
    requires o == Ok || (o.Lost? && !p.PHead?) || (o == Fail && (p.PHead? ==> env.headErrs))
    requires PromoteStep(env, At(s, b), p, None, o).go == Goto(Promoting(q, None))
    ensures Reachable(env, s') && s'.calls == s.calls[id := Call(b, Promoting(q, None))]
    ensures At(s', b) == PromoteStep(env, At(s, b), p, None, o).blob && s'.next == s.next && SameFlights(s, s')
  {
    s' := Go(env, s, Tick(id, o));
  }

  lemma Lost(env: Env, s: State, b: BlobId, data: Bytes)
    requires data in At(s, b).acked && At(s, b).versions == []
    requires At(s, b).cache.None? || At(s, b).cache.value.body != data
    ensures !NothingLost(env, s)
  {
    assert !AckedIsRecoverable(At(s, b));
  }

  lemma ExpiryLoses(env: Env, b: BlobId) returns (s: State)
    requires env.ttl
    ensures Reachable(env, s) && !NothingLost(env, s)
  {
    StartReachable(env);
    s := WriteAcked(env, Start, b, env.body(b));
    s := Go(env, s, Expire(b));
    Lost(env, s, b, env.body(b));
  }

  lemma LossyPutLoses(env: Env, b: BlobId) returns (s: State)
    requires env.lossyPut && !env.writes.Once?
    ensures Reachable(env, s) && !NothingLost(env, s)
  {
    StartReachable(env);
    s := WriteAcked(env, Start, b, env.body(b));
    var id := s.next;
    s := Go(env, s, Begin(b, Write(env.body(b), false)));
    s := GoLocal(env, s, id, b, Writing(WPut, env.body(b), false), Fail);
    Lost(env, s, b, env.body(b));
  }

  lemma LossyGetLoses(env: Env, b: BlobId) returns (s: State)
    requires env.lossyGet
    ensures Reachable(env, s) && !NothingLost(env, s)
  {
    StartReachable(env);
    s := WriteAcked(env, Start, b, env.body(b));
    var id := s.next;
    s := Go(env, s, Begin(b, Read));
    s := GoRead(env, s, id, b, RGet, Fail);
    Lost(env, s, b, env.body(b));
  }

  lemma BlindEvictLoses(env: Env, b: BlobId) returns (s: State)
    requires env.blindEvict
    ensures Reachable(env, s) && !NothingLost(env, s)
  {
    StartReachable(env);
    s := Go(env, Start, Begin(b, Evict));
    s := GoLocal(env, s, 0, b, Evicting(ECheck), Ok);
    s := WriteAcked(env, s, b, env.body(b));
    s := GoLocal(env, s, 0, b, Evicting(EGo), Ok);
    Lost(env, s, b, env.body(b));
  }

  lemma RewriteLoses(env: Env, b: BlobId) returns (s: State)
    requires env.writes.Any?
    ensures Reachable(env, s) && !NothingLost(env, s)
  {
    StartReachable(env);
    s := WriteAcked(env, Start, b, []);
    s := WriteAcked(env, s, b, [0]);
    Lost(env, s, b, []);
  }

  lemma VolatileCacheLoses(env: Env, b: BlobId) returns (s: State)
    requires env.volatileCache && env.crashes
    ensures Reachable(env, s) && !NothingLost(env, s)
  {
    StartReachable(env);
    s := WriteAcked(env, Start, b, env.body(b));
    s := Go(env, s, Crash);
    Lost(env, s, b, env.body(b));
  }

  lemma Unbacked(env: Env, s: State, b: BlobId)
    requires At(s, b).status.Some? && At(s, b).status.value.commit == Durable && At(s, b).versions == []
    ensures !NothingLost(env, s)
  {
    assert !DurableIsStored(env.body(b), At(s, b));
  }

  /** Call `id` stands at the read step `r` of blob `b`. */
  ghost predicate ReadsFrom(env: Env, s: State, id: nat, b: BlobId, r: ReadPc) {
    Reachable(env, s) && id in s.calls && s.calls[id] == Call(b, Reading(r))
  }

  /** A new read that misses the cache. */
  lemma ReadMisses(env: Env, s: State, b: BlobId) returns (s': State)
    requires Reachable(env, s) && At(s, b).cache.None?
    ensures ReadsFrom(env, s', s.next, b, RJoin(At(s, b).acked != {}))
    ensures s'.calls == s.calls[s.next := s'.calls[s.next]] && s'.next == s.next + 1
    ensures At(s', b) == At(s, b) && SameFlights(s, s')
  {
    var s1 := Go(env, s, Begin(b, Read));
    s' := LookupMisses(env, s1, s.next, b);
  }

  lemma LookupMisses(env: Env, s: State, id: nat, b: BlobId) returns (s': State)
    requires ReadsFrom(env, s, id, b, RGet) && At(s, b).cache.None?
    ensures ReadsFrom(env, s', id, b, RJoin(At(s, b).acked != {})) && At(s', b) == At(s, b)
    ensures s' == s.(calls := s.calls[id := s'.calls[id]], blobs := s'.blobs)
  {
    s' := GoRead(env, s, id, b, RGet, Ok);
  }

  /** ... and becomes the leader of a restore. */
  lemma ReadLeads(env: Env, s: State, id: nat, b: BlobId, known: bool) returns (s': State)
    requires ReadsFrom(env, s, id, b, RJoin(known)) && b !in s.restoring
    ensures ReadsFrom(env, s', id, b, RFetch(known)) && At(s', b) == At(s, b)
    ensures s'.calls == s.calls[id := s'.calls[id]] && s'.next == s.next
    ensures s'.restoring == s.restoring[b := id] && s'.restoreFlights == s.restoreFlights[id := Flight(b, None)]
    ensures s'.promoting == s.promoting
  {
    s' := GoRead(env, s, id, b, RJoin(known), Ok);
  }

  /** What the leader tells its waiters and what it returns itself. */
  function Told(env: Env, blob: Blob, o: Outcome): (Option<Got>, Option<Got>) {
    if o.Panic? then (None, Some(Got([], NoSum))) else (Fetched(env, blob, o), Fetched(env, blob, o))
  }

  lemma ReadFetches(env: Env, s: State, id: nat, b: BlobId, known: bool, o: Outcome) returns (s': State)
    requires ReadsFrom(env, s, id, b, RFetch(known)) && (o.Panic? ==> env.panics) && !o.Reported?
    ensures ReadsFrom(env, s', id, b, RPublish(Told(env, At(s, b), o).0, Told(env, At(s, b), o).1))
    ensures s' == s.(calls := s'.calls) && s'.calls == s.calls[id := s'.calls[id]]
  {
    s' := GoRead(env, s, id, b, RFetch(known), o);
  }

  lemma ReadPublishes(env: Env, s: State, id: nat, b: BlobId, shared: Option<Got>, own: Option<Got>) returns (s': State)
    requires ReadsFrom(env, s, id, b, RPublish(shared, own))
    ensures ReadsFrom(env, s', id, b, RDelete(own)) && At(s', b) == At(s, b)
    ensures s'.calls == s.calls[id := s'.calls[id]] && s'.next == s.next && s'.restoring == s.restoring
    ensures s'.restoreFlights == s.restoreFlights[id := Flight(b, Some(shared))] && s'.promoting == s.promoting
  {
    s' := GoRead(env, s, id, b, RPublish(shared, own), Ok);
  }

  /** A leader with a result returns it, and the background fill records it. */
  lemma ReadFills(env: Env, s: State, id: nat, b: BlobId, own: Got) returns (s': State)
    requires ReadsFrom(env, s, id, b, RDelete(Some(own)))
    ensures Reachable(env, s') && At(s', b).versions == At(s, b).versions
    ensures At(s', b).status.Some? && At(s', b).status.value.commit == Durable
  {
    var s1 := GoRead(env, s, id, b, RDelete(Some(own)), Ok);
    var s2 := GoLocal(env, s1, id, b, Filling(FPut(own.body, own.sum)), Ok);
    s' := GoLocal(env, s2, id, b, Filling(FStatus(own.body, own.sum)), Ok);
  }

  lemma ReadToDurable(env: Env, s: State, b: BlobId, o: Outcome) returns (s': State)
    requires Reachable(env, s) && At(s, b).cache.None? && b !in s.restoring
    requires (o.Panic? ==> env.panics) && !o.Reported? && Told(env, At(s, b), o).1.Some?
    ensures Reachable(env, s') && At(s', b).versions == At(s, b).versions
    ensures At(s', b).status.Some? && At(s', b).status.value.commit == Durable
  {
    var id, known, told := s.next, At(s, b).acked != {}, Told(env, At(s, b), o);
    s' := ReadMisses(env, s, b);
    s' := ReadLeads(env, s', id, b, known);
    s' := ReadFetches(env, s', id, b, known, o);
    s' := ReadPublishes(env, s', id, b, told.0, told.1);
    s' := ReadFills(env, s', id, b, told.1.value);
  }

  lemma PanicLoses(env: Env, b: BlobId) returns (s: State)
    requires env.panics
    ensures Reachable(env, s) && !NothingLost(env, s)
  {
    StartReachable(env);
    s := ReadToDurable(env, Start, b, Panic);
    Unbacked(env, s, b);
  }

  lemma OutsiderLoses(env: Env, b: BlobId) returns (s: State)
    requires env.outsider
    ensures Reachable(env, s) && !NothingLost(env, s)
  {
    StartReachable(env);
    s := Go(env, Start, Outside(b, [[]]));
    s := ReadToDurable(env, s, b, Ok);
    s := Go(env, s, Outside(b, []));
    Unbacked(env, s, b);
  }

  lemma UnsafeEnvLoses(env: Env, b: BlobId) returns (s: State)
    requires !SafeEnv(env)
    ensures Reachable(env, s) && !NothingLost(env, s)
  {
    if env.ttl { s := ExpiryLoses(env, b); }
    else if env.lossyGet { s := LossyGetLoses(env, b); }
    else if env.blindEvict { s := BlindEvictLoses(env, b); }
    else if env.panics { s := PanicLoses(env, b); }
    else if env.outsider { s := OutsiderLoses(env, b); }
    else if env.writes.Any? { s := RewriteLoses(env, b); }
    else if env.lossyPut && !env.writes.Once? { s := LossyPutLoses(env, b); }
    else { s := VolatileCacheLoses(env, b); }
  }

  /** Nothing acknowledged is lost in any run if and only if the surroundings keep all the
      assumptions. */
  lemma NothingLostExactlyWhenSafe(env: Env)
    ensures (forall s :: Reachable(env, s) ==> NothingLost(env, s)) <==> SafeEnv(env)
  {
    if SafeEnv(env) {
      forall s | Reachable(env, s) ensures NothingLost(env, s) {
        var r :| IsRun(env, r) && r.states[|r.acts|] == s;
        NothingIsEverLost(env, r, |r.acts|);
      }
    } else {
      var s := UnsafeEnvLoses(env, BlobId("b"));
    }
  }
}
