/** Promotion across crashes: each blob is uploaded at most once, and a rerun after a crash
    finishes the job. */
module PipelineRecovery {
  import opened Prelude
  import opened Pipeline
  import opened PipelineShape
  import opened PipelineSafety
  import opened PipelineAlone
  import PipelineLimits

  // ---------------------------------------------------------------------
  // At most one version per blob
  // ---------------------------------------------------------------------

  ghost predicate UploaderAt(s: State, id: nat) {
    id in s.calls && AboutToUpload(s.calls[id].pc) ==> At(s, s.calls[id].blob).versions == []
  }

  ghost predicate OnceInv(s: State) {
    && (forall b :: |At(s, b).versions| <= 1)
    && (forall id: nat :: UploaderAt(s, id))
  }

  /** Only a successful or lost upload adds a version, and only after the last HEAD found none. */
  lemma LocalOnce(env: Env, body: Bytes, x: Blob, pc: Pc, o: Outcome)
    requires SafeEnv(env) && BlobInv(body, x) && PcInv(body, x, pc) && IsLocal(pc)
    requires pc.Promoting? && pc.p.PHead? ==> o.Ok? || !AlreadyDurable(env, x, pc.p.st)
    requires AboutToUpload(pc) ==> x.versions == []
    ensures var l := LocalStep(env, x, pc, o);
            && (l.blob.versions == x.versions || (|l.blob.versions| == 1 && AboutToUpload(pc)))
            && (l.go.Goto? && AboutToUpload(l.go.pc) ==> l.blob.versions == [])
  {
    if pc.Promoting? && pc.p.PHead? && Stored(x) {
      assert Last(x.versions) in x.versions;
    }
  }

  lemma OnceTick(s: State, s': State, id: nat, b: BlobId, pc: Pc)
    requires LeaderInv(s) && OnceInv(s) && Shape(s, s', id, b, pc)
    requires At(s', b).versions == At(s, b).versions || (|At(s', b).versions| == 1 && AboutToUpload(pc))
    requires id in s'.calls && AboutToUpload(s'.calls[id].pc) ==> At(s', b).versions == []
    ensures OnceInv(s')
  {
    assert LeaderAt(s, id);
    forall b1 ensures |At(s', b1).versions| <= 1 {
      assert |At(s, b1).versions| <= 1;
    }
    forall i: nat ensures UploaderAt(s', i) {
      assert UploaderAt(s, i) && LeaderAt(s, i);
    }
  }

  lemma OnceTickLocal(env: Env, s: State, id: nat, o: Outcome)
    requires SafeEnv(env) && !env.headErrs && Inv(env, s) && LeaderInv(s) && OnceInv(s)
    requires TickAllowed(env, s, id, o) && IsLocal(s.calls[id].pc)
    ensures OnceInv(TickStep(env, s, id, o))
  {
    var b, pc := s.calls[id].blob, s.calls[id].pc;
    assert CallInv(env, s, id) && BlobInv(env.body(b), At(s, b)) && UploaderAt(s, id);
    LocalOnce(env, env.body(b), At(s, b), pc, o);
    ShapeLocal(env, s, id, o);
    TickLocalIs(env, s, id, o);
    OnceTick(s, TickStep(env, s, id, o), id, b, pc);
  }

  lemma OnceOther(env: Env, s: State, a: Action)
    requires SafeEnv(env) && LeaderInv(s) && OnceInv(s) && Enabled(env, s, a)
    requires a.Tick? ==> !IsLocal(s.calls[a.id].pc)
    ensures OnceInv(Apply(env, s, a))
  {
    if a.Tick? {
      TickShape(env, s, a.id, a.outcome);
      OnceTick(s, Apply(env, s, a), a.id, s.calls[a.id].blob, s.calls[a.id].pc);
    } else {
      OnceStill(env, s, a);
    }
  }

  lemma OnceStill(env: Env, s: State, a: Action)
    requires SafeEnv(env) && LeaderInv(s) && OnceInv(s) && Enabled(env, s, a) && !a.Tick?
    ensures OnceInv(Apply(env, s, a))
  {
    var s' := Apply(env, s, a);
    forall b ensures |At(s', b).versions| <= 1 && At(s', b).versions == At(s, b).versions {
      assert |At(s, b).versions| <= 1;
    }
    forall i: nat ensures UploaderAt(s', i) {
      assert UploaderAt(s, i);
    }
  }

  lemma {:induction false} OnceHolds(env: Env, r: Run, i: nat)
    requires SafeEnv(env) && !env.headErrs && IsRun(env, r) && i < |r.states|
    ensures OnceInv(r.states[i])
  {
    if i > 0 {
      var s, a := r.states[i - 1], r.acts[i - 1];
      OnceHolds(env, r, i - 1);
      InvHolds(env, r, i - 1);
      LeaderHolds(env, r, i - 1);
      assert StepAt(env, r, i - 1);
      if a.Tick? && IsLocal(s.calls[a.id].pc) {
        OnceTickLocal(env, s, a.id, a.outcome);
      } else {
        OnceOther(env, s, a);
      }
    }
  }

  /** When HEAD never fails on a stored object, no blob ever gets a second version, whatever
      crashes, retries and lost acknowledgements happen in between. */
  lemma AtMostOneVersion(env: Env, r: Run, i: nat, b: BlobId)
    requires SafeEnv(env) && !env.headErrs && IsRun(env, r) && i < |r.states|
    ensures |At(r.states[i], b).versions| <= 1
  {
    OnceHolds(env, r, i);
  }

  // ---------------------------------------------------------------------
  // Every rerun that completes
  // ---------------------------------------------------------------------

  ghost predicate DurableAt(s: State, b: BlobId) {
    At(s, b).status.Some? && At(s, b).status.value.commit == Durable
  }

  lemma LocalMark(env: Env, body: Bytes, x: Blob, pc: Pc, o: Outcome)
    requires IsLocal(pc) && PcInv(body, x, pc)
    ensures var l := LocalStep(env, x, pc, o);
            l.go.Goto? && AfterMark(l.go.pc) ==>
              AfterMark(pc) || (l.blob.status.Some? && l.blob.status.value.commit == Durable)
  {
  }

  lemma TickMarkLocal(env: Env, s: State, id: nat, o: Outcome)
    requires SafeEnv(env) && Inv(env, s) && TickAllowed(env, s, id, o) && IsLocal(s.calls[id].pc)
    ensures var s' := TickStep(env, s, id, o);
            id in s'.calls && AfterMark(s'.calls[id].pc) ==> AfterMark(s.calls[id].pc) || DurableAt(s', s.calls[id].blob)
  {
    assert CallInv(env, s, id);
    var b := s.calls[id].blob;
    LocalMark(env, env.body(b), At(s, b), s.calls[id].pc, o);
  }

  /** A step puts a call past the mark only from there, or with the row durable. */
  lemma StepMark(env: Env, s: State, a: Action, id: nat)
    requires SafeEnv(env) && Inv(env, s) && LeaderInv(s) && Enabled(env, s, a)
    requires id in Apply(env, s, a).calls && AfterMark(Apply(env, s, a).calls[id].pc)
    ensures var s' := Apply(env, s, a);
            DurableAt(s', s'.calls[id].blob) || (id in s.calls && AfterMark(s.calls[id].pc) && s.calls[id].blob == s'.calls[id].blob)
  {
    if a.Tick? {
      TickShape(env, s, a.id, a.outcome);
      if IsLocal(s.calls[a.id].pc) { TickMarkLocal(env, s, a.id, a.outcome); }
    } else {
      assert LeaderAt(s, s.next);
    }
  }

  /** A promoter past the mark saw its row durable at some time since the last crash. */
  lemma {:induction false} MarkedSince(env: Env, r: Run, i: nat, j: nat, id: nat) returns (k: nat)
    requires SafeEnv(env) && IsRun(env, r) && i < j <= |r.acts| && r.acts[i] == Crash
    requires id in r.states[j].calls && AfterMark(r.states[j].calls[id].pc)
    ensures i < k <= j && DurableAt(r.states[k], r.states[j].calls[id].blob)
    decreases j
  {
    var s, a := r.states[j - 1], r.acts[j - 1];
    assert StepAt(env, r, j - 1);
    InvHolds(env, r, j - 1);
    LeaderHolds(env, r, j - 1);
    StepMark(env, s, a, id);
    if DurableAt(r.states[j], r.states[j].calls[id].blob) {
      k := j;
    } else {
      k := MarkedSince(env, r, i, j - 1, id);
    }
  }

  lemma LocalVersionsGrow(env: Env, x: Blob, pc: Pc, o: Outcome)
    requires IsLocal(pc)
    ensures x.versions <= LocalStep(env, x, pc, o).blob.versions
  {
  }

  lemma VersionsGrowStep(env: Env, s: State, a: Action, b: BlobId)
    requires !env.outsider && Enabled(env, s, a)
    ensures At(s, b).versions <= At(Apply(env, s, a), b).versions
  {
    if a.Tick? {
      TickShape(env, s, a.id, a.outcome);
      if IsLocal(s.calls[a.id].pc) { LocalVersionsGrow(env, At(s, b), s.calls[a.id].pc, a.outcome); }
    }
  }

  lemma {:induction false} VersionsGrow(env: Env, r: Run, i: nat, j: nat, b: BlobId)
    requires !env.outsider && IsRun(env, r) && i <= j <= |r.acts|
    ensures At(r.states[i], b).versions <= At(r.states[j], b).versions
    decreases j
  {
    if i < j {
      VersionsGrow(env, r, i, j - 1, b);
      assert StepAt(env, r, j - 1);
      VersionsGrowStep(env, r.states[j - 1], r.acts[j - 1], b);
    }
  }

  /** In every run, a Promote begun after a crash that is about to return success has the
      written bytes in the durable store, saw the row COMMITTED_DURABLE on its way, and, if HEAD
      never fails on a stored object, added no version to one published before the crash. */
  lemma RerunThatSucceedsIsDurable(env: Env, r: Run, i: nat, j: nat, id: nat) returns (k: nat)
    requires SafeEnv(env) && IsRun(env, r) && i < j <= |r.acts| && r.acts[i] == Crash
    requires id in r.states[j].calls
    requires r.states[j].calls[id].pc.Promoting? && r.states[j].calls[id].pc.p == PDelete(true)
    ensures var b := r.states[j].calls[id].blob;
            && At(r.states[j], b).versions != [] && Last(At(r.states[j], b).versions) == env.body(b)
            && i < k <= j && DurableAt(r.states[k], b)
            && (!env.headErrs && At(r.states[i], b).versions != [] ==>
                  At(r.states[j], b).versions == At(r.states[i], b).versions)
  {
    var b := r.states[j].calls[id].blob;
    InvHolds(env, r, j);
    assert CallInv(env, r.states[j], id) && BlobInv(env.body(b), At(r.states[j], b));
    assert Last(At(r.states[j], b).versions) in At(r.states[j], b).versions;
    k := MarkedSince(env, r, i, j, id);
    VersionsGrow(env, r, i, j, b);
    if !env.headErrs { AtMostOneVersion(env, r, j, b); }
  }

  // ---------------------------------------------------------------------
  // The rerun without faults
  // ---------------------------------------------------------------------

  /** What a Promote by itself leaves of a blob with a row and a copy: a durable row stays, an
      object found by HEAD is marked and the cache entry left as it was, and otherwise the
      written bytes are stored, the row is durable and the cache entry may be evicted. */
  ghost function Committed(body: Bytes, x: Blob): Blob {
    var row := Some(Status(Durable, |body|, Sha(body)));
    if x.status.Some? && x.status.value.commit == Durable then x
    else if x.versions != [] then x.(status := row)
    else Blob(Some(CacheEntry(body, false)), row, [body], x.acked)
  }

  /** In every reachable state in which nobody promotes the blob, one Promote by itself commits a
      blob with a row and a copy, and answers success. */
  lemma PromoteCommits(env: Env, s: State, b: BlobId)
    requires SafeEnv(env) && Reachable(env, s) && Clear(s, b, Promote) && At(s, b).status.Some? && Held(At(s, b))
    ensures Does(env, s, b, Promote, Committed(env.body(b), At(s, b)), Tallied(s.counters, FateOf(env, At(s, b))), Said(true))
    ensures At(s, b).status.value.commit == Cached && At(s, b).versions == [] ==> FateOf(env, At(s, b)) == Uploads
  {
    var r :| IsRun(env, r) && r.states[|r.acts|] == s;
    InvHolds(env, r, |r.acts|);
    var x := At(s, b);
    assert BlobInv(env.body(b), x);
    if Stored(x) { assert Last(x.versions) in x.versions; }
    assert x.versions == [] ==> x.versions + [env.body(b)] == [env.body(b)];
    PromoteAlone(env, s, b);
  }

  /** Crash in any reachable state with a row and a copy: from the crashed state, one Promote
      run without faults, alone, ends with the row COMMITTED_DURABLE and the written bytes
      stored; it adds no version, and leaves the cache entry alone, if one had been published
      before the crash or the row was durable; else the cached body may be evicted from now on. */
  lemma RerunAfterCrash(env: Env, s: State, b: BlobId) returns (n: nat, s': State)
    requires SafeEnv(env) && env.crashes && Reachable(env, s) && At(s, b).status.Some? && Held(At(s, b))
    ensures Leads(env, Apply(env, s, Crash), Acts(Apply(env, s, Crash), b, Promote, n), s') && s'.calls == map[] && DurableAt(s', b)
    ensures At(s', b).versions == if At(s, b).versions == [] then [env.body(b)] else At(s, b).versions
    ensures Last(At(s', b).versions) == env.body(b)
    ensures At(s, b).versions != [] ==> At(s', b).cache == At(s, b).cache
    ensures At(s, b).versions == [] ==> At(s', b).cache == Some(CacheEntry(env.body(b), false)) && Enabled(env, s', AutoEvict(b))
  {
    var r :| IsRun(env, r) && r.states[|r.acts|] == s;
    InvHolds(env, r, |r.acts|);
    assert BlobInv(env.body(b), At(s, b));
    if Stored(At(s, b)) { assert Last(At(s, b).versions) in At(s, b).versions; }
    var s0 := PipelineLimits.Go(env, s, Crash);
    assert At(s0, b) == At(s, b);
    PromoteCommits(env, s0, b);
    n, s' := DoesLeads(env, s0, b, Promote, Committed(env.body(b), At(s, b)), Tallied(s0.counters, FateOf(env, At(s, b))), Said(true));
  }

  // ---------------------------------------------------------------------
  // A second version
  // ---------------------------------------------------------------------

  /** Nobody runs, and the blob waits to be promoted. */
  ghost predicate Waiting(env: Env, s: State, b: BlobId) {
    Reachable(env, s) && s.calls == map[] && b !in s.promoting && Promotable(env, s, b)
  }

  ghost predicate Promotable(env: Env, s: State, b: BlobId) {
    && At(s, b).status == Some(Status(Cached, |env.body(b)|, Sha(env.body(b))))
    && At(s, b).cache.Some? && At(s, b).cache.value.body == env.body(b)
  }

  /** Call `id` is the only one, the registered promoter of `b` at step `p`. */
  ghost predicate Sole(env: Env, s: State, id: nat, b: BlobId, p: PromotePc) {
    Reachable(env, s) && s.calls == map[id := Call(b, Promoting(p, None))]
  }

  lemma SoleJoins(env: Env, s: State, b: BlobId) returns (s': State)
    requires Waiting(env, s, b)
    ensures Sole(env, s', s.next, b, PStatus) && At(s', b) == At(s, b)
  {
    var s1 := PipelineLimits.Go(env, s, Begin(b, Promote));
    s' := PipelineLimits.Go(env, s1, Tick(s.next, Ok));
  }

  lemma SoleEnds(env: Env, s: State, id: nat, b: BlobId) returns (s': State)
    requires Sole(env, s, id, b, PPublish(false, false))
    ensures Reachable(env, s') && s'.calls == map[] && b !in s'.promoting && At(s', b) == At(s, b)
  {
    var s1 := PipelineLimits.Go(env, s, Tick(id, Ok));
    s' := PipelineLimits.Go(env, s1, Tick(id, Ok));
  }

  /** HEAD fails, the PUT is published again, and its reply is lost. */
  lemma UploadAgain(env: Env, s: State, b: BlobId) returns (s': State)
    requires env.headErrs && Waiting(env, s, b)
    ensures Waiting(env, s', b) && At(s', b).versions == At(s, b).versions + [env.body(b)]
  {
    var id, st := s.next, At(s, b).status.value;
    s' := SoleJoins(env, s, b);
    s' := PipelineLimits.GoPromote(env, s', id, b, PStatus, Ok, PHead(st));
    s' := PipelineLimits.GoPromote(env, s', id, b, PHead(st), Fail, PRead(st));
    s' := PipelineLimits.GoPromote(env, s', id, b, PRead(st), Ok, PUpload(st, env.body(b)));
    s' := PipelineLimits.GoPromote(env, s', id, b, PUpload(st, env.body(b)), Lost, PPublish(false, false));
    s' := SoleEnds(env, s', id, b);
  }

  /** Under the assumptions of the pipeline, blobs keep a single version in every run if and
      only if HEAD never fails on a stored object. */
  lemma SingleVersionExactlyWhenHeadAnswers(env: Env)
    requires SafeEnv(env)
    ensures (forall s, b :: Reachable(env, s) ==> |At(s, b).versions| <= 1) <==> !env.headErrs
  {
    if env.headErrs {
      var b := BlobId("b");
      PipelineLimits.StartReachable(env);
      var s := PipelineLimits.WriteAcked(env, Start, b, env.body(b));
      s := UploadAgain(env, s, b);
      s := UploadAgain(env, s, b);
      assert |At(s, b).versions| == 2;
    } else {
      forall s, b | Reachable(env, s) ensures |At(s, b).versions| <= 1 {
        var r :| IsRun(env, r) && r.states[|r.acts|] == s;
        AtMostOneVersion(env, r, |r.acts|, b);
      }
    }
  }
}
