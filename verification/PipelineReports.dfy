/** What the status row of a durable blob says. MarkDurable records the size and checksum
    that the upload reported, and an upload may report neither: the bytes are stored all the
    same, but the row is accurate exactly when the reports it was made from are. */
module PipelineReports {
  import opened Prelude
  import opened Pipeline
  import opened PipelineShape
  import opened PipelineSafety
  import PipelineLimits

  /** A COMMITTED_DURABLE row has the size and the checksum of the written body. */
  ghost predicate RowAccurate(body: Bytes, blob: Blob) {
    blob.status.Some? && blob.status.value.commit == Durable ==> GoodStatus(body, blob.status.value)
  }

  ghost predicate RowsAccurate(env: Env, s: State) {
    forall b :: RowAccurate(env.body(b), At(s, b))
  }

  /** Step `a` records, after an upload, a report other than the size and checksum of the body. */
  ghost predicate MarksWrongly(env: Env, s: State, a: Action) {
    && a.Tick? && a.outcome.Ok? && a.id in s.calls
    && s.calls[a.id].pc.Promoting? && s.calls[a.id].pc.p.PMark?
    && var body := env.body(s.calls[a.id].blob);
       s.calls[a.id].pc.p.rep != Report(|body|, Sha(body))
  }

  lemma LocalRow(env: Env, body: Bytes, x: Blob, pc: Pc, o: Outcome)
    requires BlobInv(body, x) && PcInv(body, x, pc) && IsLocal(pc) && RowAccurate(body, x)
    requires o.Ok? && pc.Promoting? && pc.p.PMark? ==> pc.p.rep == Report(|body|, Sha(body))
    ensures RowAccurate(body, LocalStep(env, x, pc, o).blob)
  {
  }

  lemma StepAccurate(env: Env, s: State, a: Action)
    requires Inv(env, s) && !env.panics && Enabled(env, s, a) && RowsAccurate(env, s) && !MarksWrongly(env, s, a)
    ensures RowsAccurate(env, Apply(env, s, a))
  {
    var s' := Apply(env, s, a);
    if a.Tick? {
      var b, pc := s.calls[a.id].blob, s.calls[a.id].pc;
      TickShape(env, s, a.id, a.outcome);
      assert CallInv(env, s, a.id) && BlobInv(env.body(b), At(s, b)) && RowAccurate(env.body(b), At(s, b));
      if IsLocal(pc) { LocalRow(env, env.body(b), At(s, b), pc, a.outcome); }
      forall b1 ensures RowAccurate(env.body(b1), At(s', b1)) { assert RowAccurate(env.body(b1), At(s, b1)); }
    } else {
      StillAccurate(env, s, a);
    }
  }

  lemma StillAccurate(env: Env, s: State, a: Action)
    requires Enabled(env, s, a) && RowsAccurate(env, s) && !a.Tick?
    ensures RowsAccurate(env, Apply(env, s, a))
  {
    var s' := Apply(env, s, a);
    forall b ensures RowAccurate(env.body(b), At(s', b)) {
      assert RowAccurate(env.body(b), At(s, b));
      assert At(s', b).status == At(s, b).status;
    }
  }

  lemma AccurateAt(env: Env, r: Run, i: nat)
    requires SafeEnv(env) && i < |r.acts| && |r.states| == |r.acts| + 1 && StepAt(env, r, i)
    requires Inv(env, r.states[i]) && RowsAccurate(env, r.states[i]) && !MarksWrongly(env, r.states[i], r.acts[i])
    ensures RowsAccurate(env, r.states[i + 1])
  {
    StepAccurate(env, r.states[i], r.acts[i]);
  }

  lemma {:induction false} StaysAccurate(env: Env, r: Run, n: nat)
    requires SafeEnv(env) && IsRun(env, r) && n <= |r.acts|
    requires forall i :: 0 <= i < n ==> !MarksWrongly(env, r.states[i], r.acts[i])
    ensures RowsAccurate(env, r.states[n])
  {
    if n > 0 {
      StaysAccurate(env, r, n - 1);
      InvHolds(env, r, n - 1);
      AccurateAt(env, r, n - 1);
    }
  }

  lemma WrongMarkShows(env: Env, s: State, a: Action)
    requires Inv(env, s) && Enabled(env, s, a) && MarksWrongly(env, s, a)
    ensures !RowAccurate(env.body(s.calls[a.id].blob), At(Apply(env, s, a), s.calls[a.id].blob))
  {
    assert CallInv(env, s, a.id);
  }

  /** In every run, all durable rows are accurate all the time if and only if every mark after
      an upload had the body's size and checksum to record. */
  lemma RowsAreAccurateExactlyIfReportsAre(env: Env, r: Run)
    requires SafeEnv(env) && IsRun(env, r)
    ensures (forall i :: 0 <= i < |r.states| ==> RowsAccurate(env, r.states[i]))
       <==> (forall i :: 0 <= i < |r.acts| ==> !MarksWrongly(env, r.states[i], r.acts[i]))
  {
    if forall i :: 0 <= i < |r.acts| ==> !MarksWrongly(env, r.states[i], r.acts[i]) {
      forall i | 0 <= i < |r.states| ensures RowsAccurate(env, r.states[i]) { StaysAccurate(env, r, i); }
    } else {
      var i :| 0 <= i < |r.acts| && MarksWrongly(env, r.states[i], r.acts[i]);
      InvHolds(env, r, i);
      assert StepAt(env, r, i);
      WrongMarkShows(env, r.states[i], r.acts[i]);
      assert !RowsAccurate(env, r.states[i + 1]);
    }
  }

  /** A cache hit returns the checksum of the row, or none; it is the body's as long as every
      mark so far was right. */
  lemma HitReturnsTheRightChecksum(env: Env, r: Run, i: nat)
    requires SafeEnv(env) && IsRun(env, r) && i < |r.acts| && StepAt(env, r, i)
    requires Returned(env, r.states[i], r.acts[i]).Some?
    requires forall k :: 0 <= k < i ==> !MarksWrongly(env, r.states[k], r.acts[k])
    ensures var body := env.body(r.states[i].calls[r.acts[i].id].blob);
            var got := Returned(env, r.states[i], r.acts[i]).value;
            got.sum == Sha(body) || got.sum.NoSum?
  {
    var s := r.states[i];
    var b := s.calls[r.acts[i].id].blob;
    ReadReturnsTheWrittenBytes(env, r, i);
    StaysAccurate(env, r, i);
    InvHolds(env, r, i);
    assert RowAccurate(env.body(b), At(s, b)) && BlobInv(env.body(b), At(s, b));
  }

  lemma PromoteBlank(env: Env, s: State, id: nat, b: BlobId, st: Status, body: Bytes) returns (s': State)
    requires Reachable(env, s) && id in s.calls && s.calls[id] == Call(b, Promoting(PUpload(st, body), None))
    requires !Rejects(st, body) && At(s, b).status.Some?
    ensures Reachable(env, s') && At(s', b).versions == At(s, b).versions + [body]
    ensures At(s', b).status == Some(Status(Durable, 0, NoSum))
  {
    var s1 := PipelineLimits.Go(env, s, Tick(id, Reported(Report(0, NoSum))));
    s' := PipelineLimits.GoLocal(env, s1, id, b, Promoting(PMark(st, Report(0, NoSum)), None), Ok);
  }

  lemma PromoteReads(env: Env, s: State, b: BlobId) returns (s': State)
    requires Reachable(env, s) && b !in s.promoting && At(s, b).versions == []
    requires At(s, b).cache.Some? && At(s, b).status.Some? && At(s, b).status.value.commit == Cached
    ensures Reachable(env, s') && At(s', b) == At(s, b) && s'.next == s.next + 1
    ensures s'.calls == s.calls[s.next := Call(b, Promoting(PUpload(At(s, b).status.value, At(s, b).cache.value.body), None))]
    ensures s'.restoring == s.restoring && s'.restoreFlights == s.restoreFlights
  {
    var id, st := s.next, At(s, b).status.value;
    s' := PromoteStarts(env, s, b);
    s' := PipelineLimits.GoPromote(env, s', id, b, PStatus, Ok, PHead(st));
    s' := PipelineLimits.GoPromote(env, s', id, b, PHead(st), Ok, PRead(st));
    s' := PipelineLimits.GoPromote(env, s', id, b, PRead(st), Ok, PUpload(st, At(s, b).cache.value.body));
  }

  lemma PromoteStarts(env: Env, s: State, b: BlobId) returns (s': State)
    requires Reachable(env, s) && b !in s.promoting
    ensures Reachable(env, s') && At(s', b) == At(s, b) && s'.next == s.next + 1
    ensures s'.calls == s.calls[s.next := Call(b, Promoting(PStatus, None))]
    ensures s'.restoring == s.restoring && s'.restoreFlights == s.restoreFlights
  {
    var s1 := PipelineLimits.Go(env, s, Begin(b, Promote));
    s' := PromoteLeads(env, s1, s.next, b);
  }

  /** A promote that finds no other joins as the leader. */
  lemma PromoteLeads(env: Env, s: State, id: nat, b: BlobId) returns (s': State)
    requires Reachable(env, s) && id in s.calls && s.calls[id] == Call(b, Promoting(PJoin, None)) && b !in s.promoting
    ensures Reachable(env, s') && At(s', b) == At(s, b) && s'.next == s.next
    ensures s'.calls == s.calls[id := Call(b, Promoting(PStatus, None))]
    ensures s'.restoring == s.restoring && s'.restoreFlights == s.restoreFlights
  {
    s' := PipelineLimits.Go(env, s, Tick(id, Ok));
  }

  /** Whatever the surroundings, a multipart promote whose completion reports nothing leaves a
      COMMITTED_DURABLE row of size 0 without a checksum, above the stored body. */
  lemma BlankReportLeavesBlankRow(env: Env, b: BlobId) returns (s: State)
    ensures Reachable(env, s) && At(s, b).versions == [env.body(b)]
    ensures At(s, b).status == Some(Status(Durable, 0, NoSum)) && !RowAccurate(env.body(b), At(s, b))
  {
    PipelineLimits.StartReachable(env);
    s := PipelineLimits.WriteAcked(env, Start, b, env.body(b));
    var id, st := s.next, At(s, b).status.value;
    s := PromoteReads(env, s, b);
    s := PromoteBlank(env, s, id, b, st, env.body(b));
  }
}
