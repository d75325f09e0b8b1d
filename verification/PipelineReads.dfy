/** What reads answer: a hit returns the body that was cached when it looked, in every
    interleaving, and a read of an acknowledged blob by itself returns the written bytes. */
module PipelineReads {
  import opened Prelude
  import opened Pipeline
  import opened PipelineShape
  import opened PipelineSafety
  import opened PipelineAlone

  // ---------------------------------------------------------------------
  // A hit, among other calls
  // ---------------------------------------------------------------------

  /** Action `a` is no step of call `id`, and no crash. */
  predicate Spares(a: Action, id: nat) { !a.Crash? && (a.Tick? ==> a.id != id) }

  lemma OthersSpare(env: Env, s: State, a: Action, id: nat)
    requires LeaderInv(s) && Enabled(env, s, a) && Spares(a, id) && id in s.calls
    ensures id in Apply(env, s, a).calls && Apply(env, s, a).calls[id] == s.calls[id]
  {
    if a.Tick? {
      TickKeeps(env, s, a.id, a.outcome, id);
    } else {
      assert LeaderAt(s, id);
    }
  }

  lemma TickKeeps(env: Env, s: State, id: nat, o: Outcome, other: nat)
    requires TickAllowed(env, s, id, o) && other in s.calls && other != id
    ensures other in TickStep(env, s, id, o).calls && TickStep(env, s, id, o).calls[other] == s.calls[other]
  {
    TickShape(env, s, id, o);
    assert other in s.calls.Keys - {id};
  }

  lemma StaysAt(env: Env, r: Run, i: nat, id: nat)
    requires i < |r.acts| && |r.states| == |r.acts| + 1 && StepAt(env, r, i) && LeaderInv(r.states[i])
    requires Spares(r.acts[i], id) && id in r.states[i].calls
    ensures id in r.states[i + 1].calls && r.states[i + 1].calls[id] == r.states[i].calls[id]
  {
    OthersSpare(env, r.states[i], r.acts[i], id);
  }

  /** A call stays where it is while others move. */
  lemma {:induction false} CallStays(env: Env, r: Run, i: nat, j: nat, id: nat)
    requires IsRun(env, r) && i <= j <= |r.acts| && id in r.states[i].calls
    requires forall m :: i <= m < j ==> Spares(r.acts[m], id)
    ensures id in r.states[j].calls && r.states[j].calls[id] == r.states[i].calls[id]
    decreases j
  {
    if i < j {
      CallStays(env, r, i, j - 1, id);
      LeaderHolds(env, r, j - 1);
      StaysAt(env, r, j - 1, id);
    }
  }

  /** Call `id` is begun at step `i` as a read of `b`, looks into the cache at step `j` without
      an error, and takes its next step at `k`; the process lives that long. */
  ghost predicate LooksAt(r: Run, b: BlobId, id: nat, i: nat, j: nat, k: nat) {
    && i < j < k < |r.acts| < |r.states| && r.acts[i] == Begin(b, Read) && r.states[i].next == id
    && r.acts[j] == Tick(id, Ok) && r.acts[k].Tick? && r.acts[k].id == id
    && forall m :: i < m < k && m != j ==> Spares(r.acts[m], id)
  }

  /** In every run and whatever the surroundings: a read that finds its blob cached returns, at
      its next step, exactly the body that was cached when it looked, with the checksum of the
      row at that time if it could be read, and ends; meanwhile anything may have happened. */
  lemma HitReturnsTheCachedBody(env: Env, r: Run, b: BlobId, id: nat, i: nat, j: nat, k: nat)
    requires IsRun(env, r) && LooksAt(r, b, id, i, j, k) && At(r.states[j], b).cache.Some?
    ensures StepAt(env, r, k)
    ensures Returned(env, r.states[k], r.acts[k])
            == Some(Got(At(r.states[j], b).cache.value.body, if r.acts[k].outcome.Ok? then RowSum(At(r.states[k], b)) else NoSum))
    ensures id !in r.states[k + 1].calls && At(r.states[k + 1], b) == At(r.states[k], b)
  {
    assert StepAt(env, r, i) && StepAt(env, r, j) && StepAt(env, r, k);
    CallStays(env, r, i + 1, j, id);
    TickRead(env, r.states[j], id, b, RGet);
    CallStays(env, r, j + 1, k, id);
  }

  /** A read that finds its blob not cached goes on to the durable store. */
  lemma MissGoesOn(env: Env, r: Run, b: BlobId, id: nat, i: nat, j: nat, k: nat)
    requires IsRun(env, r) && LooksAt(r, b, id, i, j, k) && At(r.states[j], b).cache.None?
    ensures id in r.states[k].calls && r.states[k].calls[id] == Call(b, Reading(RJoin(At(r.states[j], b).acked != {})))
  {
    assert StepAt(env, r, i) && StepAt(env, r, j);
    CallStays(env, r, i + 1, j, id);
    TickRead(env, r.states[j], id, b, RGet);
    CallStays(env, r, j + 1, k, id);
  }

  // ---------------------------------------------------------------------
  // An acknowledged blob
  // ---------------------------------------------------------------------

  ghost predicate Fits(env: Env, b: BlobId) {
    env.maxRestoreBytes > 0 ==> |env.body(b)| <= env.maxRestoreBytes
  }

  /** In every reachable state in which nobody restores it, a read of an acknowledged blob, by
      itself and without faults, returns the written bytes, from the cache or from the durable
      store, exactly if they are cached or within the restore limit. */
  lemma AckedReadReturnsTheBody(env: Env, s: State, b: BlobId) returns (x: Blob, reply: Reply)
    requires SafeEnv(env) && Reachable(env, s) && Clear(s, b, Read) && At(s, b).acked != {}
    ensures Does(env, s, b, Read, x, s.counters, reply)
    ensures if At(s, b).cache.Some? || Fits(env, b) then reply.Body? && reply.got.body == env.body(b) else reply == Said(false)
    ensures if At(s, b).cache.None? && Fits(env, b) then At(s, b).versions != [] && x == Filled(At(s, b)) else x == At(s, b)
  {
    var r :| IsRun(env, r) && r.states[|r.acts|] == s;
    InvHolds(env, r, |r.acts|);
    var y := At(s, b);
    assert BlobInv(env.body(b), y);
    if Stored(y) { assert Last(y.versions) in y.versions; }
    ReadAlone(env, s, b);
    if y.cache.Some? {
      x, reply := y, Body(Got(y.cache.value.body, RowSum(y)));
    } else if Restorable(env, y) {
      x, reply := Filled(y), Body(Got(Last(y.versions), Sha(Last(y.versions))));
    } else {
      x, reply := y, Said(false);
    }
  }

  // ---------------------------------------------------------------------
  // Acknowledgement
  // ---------------------------------------------------------------------

  /** The body a Write under way is to acknowledge. */
  function WriterOf(pc: Pc): Option<Bytes> {
    match pc
    case Writing(_, data, _) => Some(data)
    case Promoting(_, ack) => ack
    case _ => None
  }

  /** What a step adds to the acknowledged bodies of `b`: the body of a Write that answers success. */
  ghost function NewlyAcked(env: Env, s: State, a: Action, b: BlobId): set<Bytes>
    requires Enabled(env, s, a)
  {
    if a.Tick? && s.calls[a.id].blob == b && WriterOf(s.calls[a.id].pc).Some? && ReplyAt(env, s, a) == Some(Said(true))
    then {WriterOf(s.calls[a.id].pc).value} else {}
  }

  lemma AckWriting(env: Env, s: State, id: nat, o: Outcome)
    requires TickAllowed(env, s, id, o) && s.calls[id].pc.Writing?
    ensures var b := s.calls[id].blob;
            At(TickStep(env, s, id, o), b).acked == At(s, b).acked + NewlyAcked(env, s, Tick(id, o), b)
  {
    if !o.Panic? { TickLocalIs(env, s, id, o); }
  }

  lemma AckPromoting(env: Env, s: State, id: nat, o: Outcome)
    requires TickAllowed(env, s, id, o) && s.calls[id].pc.Promoting? && IsLocal(s.calls[id].pc)
    ensures var b := s.calls[id].blob;
            At(TickStep(env, s, id, o), b).acked == At(s, b).acked && NewlyAcked(env, s, Tick(id, o), b) == {}
  {
    var b, pc := s.calls[id].blob, s.calls[id].pc;
    LocalKeepsRole(env, At(s, b), pc, o);
    PromoteGoesOn(env, At(s, b), pc.p, pc.ackOnSuccess, o);
    if !o.Panic? { TickLocalIs(env, s, id, o); }
  }

  lemma PromoteGoesOn(env: Env, x: Blob, p: PromotePc, ack: Option<Bytes>, o: Outcome)
    requires Busy(p)
    ensures PromoteStep(env, x, p, ack, o).go.Goto?
  {
  }

  /** What the singleflight steps of Promote add: at its end, the body to acknowledge if it succeeds. */
  function FlightAcks(s: State, p: PromotePc, ack: Option<Bytes>, o: Outcome): set<Bytes>
    requires p.PWait? && !o.Cancel? ==> p.flight in s.promoteFlights && s.promoteFlights[p.flight].result.Some?
  {
    if ack.None? then {}
    else if p.PWait? && !o.Cancel? && s.promoteFlights[p.flight].result.value then {ack.value}
    else if p == PDelete(true) then {ack.value}
    else {}
  }

  lemma FlightAcksIt(s: State, id: nat, b: BlobId, p: PromotePc, ack: Option<Bytes>, o: Outcome)
    requires p.PWait? && !o.Cancel? ==> p.flight in s.promoteFlights && s.promoteFlights[p.flight].result.Some?
    ensures At(FlightStep(s, id, b, p, ack, o), b).acked == At(s, b).acked + FlightAcks(s, p, ack, o)
  {
  }

  lemma FlightAnswers(env: Env, s: State, id: nat, o: Outcome)
    requires TickAllowed(env, s, id, o) && s.calls[id].pc.Promoting? && !IsLocal(s.calls[id].pc)
    ensures NewlyAcked(env, s, Tick(id, o), s.calls[id].blob) == FlightAcks(s, s.calls[id].pc.p, s.calls[id].pc.ackOnSuccess, o)
  {
  }

  lemma AckFlight(env: Env, s: State, id: nat, o: Outcome)
    requires TickAllowed(env, s, id, o) && s.calls[id].pc.Promoting? && !IsLocal(s.calls[id].pc)
    ensures var b := s.calls[id].blob;
            At(TickStep(env, s, id, o), b).acked == At(s, b).acked + NewlyAcked(env, s, Tick(id, o), b)
  {
    FlightAnswers(env, s, id, o);
    FlightAcksIt(s, id, s.calls[id].blob, s.calls[id].pc.p, s.calls[id].pc.ackOnSuccess, o);
  }

  /** A body counts as acknowledged from exactly the step at which its Write answers success. */
  lemma AckedExactlyWhenAnswered(env: Env, s: State, a: Action, b: BlobId)
    requires Enabled(env, s, a)
    ensures At(Apply(env, s, a), b).acked == At(s, b).acked + NewlyAcked(env, s, a, b)
  {
    if a.Tick? {
      var pc := s.calls[a.id].pc;
      TickShape(env, s, a.id, a.outcome);
      if pc.Writing? {
        AckWriting(env, s, a.id, a.outcome);
      } else if pc.Promoting? {
        if IsLocal(pc) { AckPromoting(env, s, a.id, a.outcome); } else { AckFlight(env, s, a.id, a.outcome); }
      }
    }
  }
}
