/** What a waiter of a restore is told: whatever its leader's fetch saw, which may have been
    before the blob was stored. */
module PipelineFlights {
  import opened Prelude
  import opened Pipeline
  import opened PipelineShape
  import opened PipelineSafety
  import PipelineLimits
  import PipelineReports

  // ---------------------------------------------------------------------
  // The life of a restore flight
  // ---------------------------------------------------------------------

  /** A call has no flight before it leads, and an unfinished one until it has published. */
  ghost predicate FlightAt(s: State, id: nat) {
    id in s.calls ==>
      && id < s.next
      && match s.calls[id].pc
         case Reading(RGet) => id !in s.restoreFlights
         case Reading(RHit(_)) => id !in s.restoreFlights
         case Reading(RJoin(_)) => id !in s.restoreFlights
         case Reading(RWait(_, _)) => id !in s.restoreFlights
         case Reading(RFetch(_)) => id in s.restoreFlights && s.restoreFlights[id] == Flight(s.calls[id].blob, None)
         case Reading(RPublish(_, _)) => id in s.restoreFlights && s.restoreFlights[id] == Flight(s.calls[id].blob, None)
         case _ => true
  }

  ghost predicate FlightsInv(s: State) {
    (forall id: nat :: FlightAt(s, id)) && forall f :: f in s.restoreFlights ==> f < s.next
  }

  /** Call `id` moves and touches at most its own flight. */
  ghost predicate OwnFlight(s: State, s': State, id: nat) {
    && id in s.calls && s'.next == s.next && s'.calls.Keys <= s.calls.Keys
    && (forall i :: i in s'.calls && i != id ==> s'.calls[i] == s.calls[i])
    && (s'.restoreFlights == s.restoreFlights
        || (id in s'.restoreFlights && s'.restoreFlights == s.restoreFlights[id := s'.restoreFlights[id]]))
  }

  lemma FlightsTick(s: State, s': State, id: nat)
    requires FlightsInv(s) && OwnFlight(s, s', id) && FlightAt(s', id)
    ensures FlightsInv(s')
  {
    assert FlightAt(s, id);
    forall i: nat ensures FlightAt(s', i) { assert FlightAt(s, i); }
  }

  predicate StandsAt(s: State, id: nat, c: Call) { id in s.calls && s.calls[id] == c }

  /** Where a read goes and what happens to its flight. */
  ghost predicate ReadMove(env: Env, s: State, s': State, id: nat, b: BlobId, r: ReadPc, o: Outcome) {
    match r
    case RJoin(known) =>
      if b in s.restoring then
        s'.restoreFlights == s.restoreFlights && StandsAt(s', id, Call(b, Reading(RWait(s.restoring[b], known))))
      else
        s'.restoreFlights == s.restoreFlights[id := Flight(b, None)] && StandsAt(s', id, Call(b, Reading(RFetch(known))))
    case RFetch(_) =>
      var told := PipelineLimits.Told(env, At(s, b), o);
      s'.restoreFlights == s.restoreFlights && StandsAt(s', id, Call(b, Reading(RPublish(told.0, told.1))))
    case RPublish(shared, own) =>
      s'.restoreFlights == s.restoreFlights[id := Flight(b, Some(shared))] && StandsAt(s', id, Call(b, Reading(RDelete(own))))
    case RGet =>
      && s'.restoreFlights == s.restoreFlights
      && (id in s'.calls ==> s'.calls[id].pc.Reading? && (s'.calls[id].pc.r.RHit? || s'.calls[id].pc.r.RJoin?))
    case _ =>
      s'.restoreFlights == s.restoreFlights && (id in s'.calls ==> s'.calls[id].pc.Filling?)
  }

  lemma ReadMoves(env: Env, s: State, id: nat, b: BlobId, r: ReadPc, o: Outcome)
    requires id in s.calls && s.calls[id] == Call(b, Reading(r))
    requires r.RWait? && !o.Cancel? ==> r.flight in s.restoreFlights && s.restoreFlights[r.flight].result.Some?
    ensures ReadMove(env, s, ReadStep(env, s, id, b, r, o), id, b, r, o)
  {
  }

  lemma ReadTick(env: Env, s: State, id: nat, o: Outcome)
    requires FlightsInv(s) && TickAllowed(env, s, id, o) && s.calls[id].pc.Reading?
    ensures FlightsInv(TickStep(env, s, id, o)) && OwnFlight(s, TickStep(env, s, id, o), id)
  {
    var b, r := s.calls[id].blob, s.calls[id].pc.r;
    assert FlightAt(s, id);
    TickShape(env, s, id, o);
    ReadMoves(env, s, id, b, r, o);
    FlightsTick(s, ReadStep(env, s, id, b, r, o), id);
  }

  lemma FlightsStep(env: Env, s: State, a: Action)
    requires FlightsInv(s) && Enabled(env, s, a)
    ensures FlightsInv(Apply(env, s, a))
  {
    if a.Tick? {
      if s.calls[a.id].pc.Reading? {
        ReadTick(env, s, a.id, a.outcome);
      } else {
        assert FlightAt(s, a.id);
        TickShape(env, s, a.id, a.outcome);
        FlightsTick(s, Apply(env, s, a), a.id);
      }
    } else {
      FlightsStill(env, s, a);
    }
  }

  lemma FlightsStill(env: Env, s: State, a: Action)
    requires FlightsInv(s) && Enabled(env, s, a) && !a.Tick?
    ensures FlightsInv(Apply(env, s, a))
  {
    var s' := Apply(env, s, a);
    forall i: nat ensures FlightAt(s', i) { assert FlightAt(s, i); }
  }

  lemma {:induction false} FlightsHold(env: Env, r: Run, n: nat)
    requires IsRun(env, r) && n <= |r.acts|
    ensures FlightsInv(r.states[n])
  {
    if n > 0 {
      FlightsHold(env, r, n - 1);
      assert StepAt(env, r, n - 1);
      FlightsStep(env, r.states[n - 1], r.acts[n - 1]);
    }
  }

  // ---------------------------------------------------------------------
  // What the fetch saw is what everybody is told
  // ---------------------------------------------------------------------

  /** Step `k` is the fetch of flight `f`. */
  ghost predicate FetchAt(r: Run, k: nat, f: nat) {
    && k < |r.acts| && k < |r.states| && r.acts[k].Tick? && r.acts[k].id == f
    && f in r.states[k].calls && r.states[k].calls[f].pc.Reading? && r.states[k].calls[f].pc.r.RFetch?
  }

  /** Flight `f` of blob `b` has fetched `got`: it publishes that, or has. */
  ghost predicate Carries(s: State, f: nat, b: BlobId, got: Option<Got>) {
    && f < s.next
    && (f in s.calls ==>
          match s.calls[f].pc
          case Reading(RPublish(shared, _)) => shared == got && s.calls[f].blob == b
          case Reading(RDelete(_)) => true
          case Reading(_) => false
          case _ => true)
    && (f in s.restoreFlights && s.restoreFlights[f].result.Some? ==> s.restoreFlights[f] == Flight(b, Some(got)))
  }

  lemma CarriesOwn(env: Env, s: State, s': State, f: nat, b: BlobId, got: Option<Got>, o: Outcome)
    requires Carries(s, f, b, got) && f in s.calls && Shape(s, s', f, s.calls[f].blob, s.calls[f].pc)
    requires s.calls[f].pc.Reading? ==> ReadMove(env, s, s', f, s.calls[f].blob, s.calls[f].pc.r, o)
    ensures Carries(s', f, b, got)
  {
  }

  lemma CarriesStep(env: Env, s: State, a: Action, f: nat, b: BlobId, got: Option<Got>)
    requires FlightsInv(s) && Carries(s, f, b, got) && Enabled(env, s, a)
    ensures Carries(Apply(env, s, a), f, b, got)
  {
    if a.Tick? {
      var c, s' := s.calls[a.id], Apply(env, s, a);
      TickShape(env, s, a.id, a.outcome);
      if a.id != f {
        if c.pc.Reading? { ReadTick(env, s, a.id, a.outcome); }
      } else {
        if c.pc.Reading? { ReadMoves(env, s, f, c.blob, c.pc.r, a.outcome); }
        CarriesOwn(env, s, s', f, b, got, a.outcome);
      }
    }
  }

  lemma FetchCarries(env: Env, s: State, f: nat, o: Outcome)
    requires FlightsInv(s) && TickAllowed(env, s, f, o) && !o.Panic?
    requires s.calls[f].pc.Reading? && s.calls[f].pc.r.RFetch?
    ensures Carries(TickStep(env, s, f, o), f, s.calls[f].blob, Fetched(env, At(s, s.calls[f].blob), o))
  {
    assert FlightAt(s, f);
    TickShape(env, s, f, o);
    ReadMoves(env, s, f, s.calls[f].blob, s.calls[f].pc.r, o);
  }

  lemma {:induction false} CarriedOn(env: Env, r: Run, k: nat, j: nat, f: nat)
    requires IsRun(env, r) && FetchAt(r, k, f) && k < j <= |r.acts| && !r.acts[k].outcome.Panic?
    ensures var b := r.states[k].calls[f].blob;
            Carries(r.states[j], f, b, Fetched(env, At(r.states[k], b), r.acts[k].outcome))
    decreases j
  {
    var b := r.states[k].calls[f].blob;
    assert StepAt(env, r, j - 1);
    FlightsHold(env, r, j - 1);
    if j == k + 1 {
      FetchCarries(env, r.states[k], f, r.acts[k].outcome);
    } else {
      CarriedOn(env, r, k, j - 1, f);
      CarriesStep(env, r.states[j - 1], r.acts[j - 1], f, b, Fetched(env, At(r.states[k], b), r.acts[k].outcome));
    }
  }

  /** A waiter that does not give up is told what the fetch of its flight saw, in every run. */
  lemma WaiterIsToldWhatTheFetchSaw(env: Env, r: Run, k: nat, j: nat)
    requires IsRun(env, r) && k < j < |r.acts| && r.acts[k].Tick? && !r.acts[k].outcome.Panic?
    requires r.acts[j].Tick? && !r.acts[j].outcome.Cancel? && r.acts[j].id in r.states[j].calls
    requires var pc := r.states[j].calls[r.acts[j].id].pc; pc.Reading? && pc.r.RWait? && FetchAt(r, k, pc.r.flight)
    ensures var f := r.states[j].calls[r.acts[j].id].pc.r.flight;
            && Enabled(env, r.states[j], r.acts[j])
            && Returned(env, r.states[j], r.acts[j])
               == Fetched(env, At(r.states[k], r.states[k].calls[f].blob), r.acts[k].outcome)
  {
    assert StepAt(env, r, j);
    CarriedOn(env, r, k, j, r.states[j].calls[r.acts[j].id].pc.r.flight);
  }

  /** A flight that has something to tell, or is about to. */
  ghost predicate HasFetched(s: State, f: nat) {
    || (f in s.restoreFlights && s.restoreFlights[f].result.Some?)
    || (f in s.calls && s.calls[f].pc.Reading? && s.calls[f].pc.r.RPublish?)
  }

  lemma FetchedByStep(env: Env, s: State, a: Action, f: nat)
    requires FlightsInv(s) && Enabled(env, s, a) && HasFetched(Apply(env, s, a), f)
    ensures HasFetched(s, f)
         || (a.Tick? && a.id == f && s.calls[f].pc.Reading? && s.calls[f].pc.r.RFetch?)
  {
    if a.Tick? {
      var c := s.calls[a.id];
      TickShape(env, s, a.id, a.outcome);
      if c.pc.Reading? {
        ReadMoves(env, s, a.id, c.blob, c.pc.r, a.outcome);
      }
    }
  }

  /** Whatever a flight tells, one of its steps fetched it, so the theorems about waiters
      always have a fetch to speak of. */
  lemma {:induction false} SomeFetch(env: Env, r: Run, j: nat, f: nat) returns (k: nat)
    requires IsRun(env, r) && j <= |r.acts| && HasFetched(r.states[j], f)
    ensures k < j && FetchAt(r, k, f)
  {
    FlightsHold(env, r, j - 1);
    assert StepAt(env, r, j - 1);
    FetchedByStep(env, r.states[j - 1], r.acts[j - 1], f);
    if HasFetched(r.states[j - 1], f) {
      k := SomeFetch(env, r, j - 1, f);
    } else {
      k := j - 1;
    }
  }

  ghost predicate Fits(env: Env, b: BlobId) {
    env.maxRestoreBytes > 0 ==> |env.body(b)| <= env.maxRestoreBytes
  }

  /** In every run in which a restore's fetch ran without a fault, and for a body within the
      restore limit, a waiter gets the written body exactly when the object was stored before
      that fetch. */
  lemma WaiterGetsTheBodyExactlyIfFetchedAfterStored(env: Env, r: Run, k: nat, j: nat)
    requires SafeEnv(env) && IsRun(env, r) && k < j < |r.acts| && r.acts[k].Tick? && r.acts[k].outcome.Ok?
    requires r.acts[j].Tick? && !r.acts[j].outcome.Cancel? && r.acts[j].id in r.states[j].calls
    requires var c := r.states[j].calls[r.acts[j].id];
             c.pc.Reading? && c.pc.r.RWait? && FetchAt(r, k, c.pc.r.flight) && Fits(env, c.blob)
    ensures var b := r.states[j].calls[r.acts[j].id].blob;
            && Enabled(env, r.states[j], r.acts[j])
            && Returned(env, r.states[j], r.acts[j])
               == if At(r.states[k], b).versions != [] then Some(Got(env.body(b), Sha(env.body(b)))) else None
  {
    var c := r.states[j].calls[r.acts[j].id];
    WaiterIsToldWhatTheFetchSaw(env, r, k, j);
    InvHolds(env, r, j);
    InvHolds(env, r, k);
    assert StepAt(env, r, j);
    assert CallInv(env, r.states[j], r.acts[j].id);
    CarriedOn(env, r, k, j, c.pc.r.flight);
    assert BlobInv(env.body(c.blob), At(r.states[k], c.blob));
    if Stored(At(r.states[k], c.blob)) {
      assert Last(At(r.states[k], c.blob).versions) in At(r.states[k], c.blob).versions;
    }
  }

  // ---------------------------------------------------------------------
  // A waiter that is told of an acknowledged, stored blob that it does not exist
  // ---------------------------------------------------------------------

  /** A leader that has fetched nothing and has not yet left the map. */
  lemma EmptyFlight(env: Env, b: BlobId) returns (s: State)
    ensures Reachable(env, s) && s.next == 1 && s.calls == map[0 := Call(b, Reading(RDelete(None)))]
    ensures At(s, b) == NoBlob && s.promoting == map[] && s.restoring == map[b := 0] && s.restoreFlights == map[0 := Flight(b, Some(None))]
  {
    PipelineLimits.StartReachable(env);
    s := PipelineLimits.ReadMisses(env, Start, b);
    s := PipelineLimits.ReadLeads(env, s, 0, b, false);
    s := PipelineLimits.ReadFetches(env, s, 0, b, false, Ok);
    s := PipelineLimits.ReadPublishes(env, s, 0, b, None, None);
  }

  /** Promote up to the durable row, then Evict. */
  lemma PromoteThenEvict(env: Env, s: State, b: BlobId) returns (s': State)
    requires Reachable(env, s) && s.promoting == map[] && At(s, b).versions == [] && At(s, b).cache.Some?
    requires At(s, b).status == Some(Status(Cached, |env.body(b)|, Sha(env.body(b)))) && At(s, b).cache.value.body == env.body(b)
    ensures Reachable(env, s') && At(s', b).cache.None? && At(s', b).versions == [env.body(b)]
    ensures At(s', b).acked == At(s, b).acked && s'.restoring == s.restoring && s'.restoreFlights == s.restoreFlights
  {
    var id, st, body := s.next, At(s, b).status.value, env.body(b);
    s' := PipelineReports.PromoteReads(env, s, b);
    s' := PipelineLimits.GoPromote(env, s', id, b, PUpload(st, body), Ok, PMark(st, Report(|body|, Sha(body))));
    s' := PipelineLimits.GoPromote(env, s', id, b, PMark(st, Report(|body|, Sha(body))), Ok, PReget(st));
    s' := EvictDurable(env, s', b);
  }

  lemma EvictDurable(env: Env, s: State, b: BlobId) returns (s': State)
    requires Reachable(env, s) && At(s, b).status.Some? && At(s, b).status.value.commit == Durable
    ensures Reachable(env, s') && At(s', b) == At(s, b).(cache := None)
    ensures s'.restoring == s.restoring && s'.restoreFlights == s.restoreFlights
  {
    var s1 := PipelineLimits.Go(env, s, Begin(b, Evict));
    var s2 := PipelineLimits.GoLocal(env, s1, s.next, b, Evicting(ECheck), Ok);
    s' := PipelineLimits.GoLocal(env, s2, s.next, b, Evicting(EGo), Ok);
  }

  /** Whatever the surroundings: a read that began after the blob was acknowledged, and after it
      was stored, joins a restore that fetched before and is told that there is no object. */
  lemma WaiterCanMissAnAcknowledgedBlob(env: Env, b: BlobId) returns (s: State, w: nat)
    ensures Reachable(env, s) && At(s, b).acked == {env.body(b)} && At(s, b).versions == [env.body(b)]
    ensures w in s.calls && s.calls[w].blob == b && s.calls[w].pc == Reading(RWait(0, true))
    ensures Enabled(env, s, Tick(w, Ok)) && Returned(env, s, Tick(w, Ok)) == None
  {
    s := EmptyFlight(env, b);
    s := PipelineLimits.WriteAcked(env, s, b, env.body(b));
    s := PromoteThenEvict(env, s, b);
    w := s.next;
    s := PipelineLimits.ReadMisses(env, s, b);
    s := PipelineLimits.GoRead(env, s, w, b, RJoin(true), Ok);
  }
}
