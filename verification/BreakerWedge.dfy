/** What a stray take of the probe leads to: exactly which runs end with the breaker wedged
    open, and why a breaker closed with the flag set opens once and for all. */
module BreakerWedge {
  import opened Prelude
  import opened Breaker
  import opened BreakerSteps

  // ---------------------------------------------------------------------
  // Which runs are wedged
  // ---------------------------------------------------------------------

  /** Step `i` is a stray take, and nothing clears the flag after it. */
  ghost predicate StrayTakeStays(r: Run, i: nat)
    requires i < |r.acts| && |r.states| == |r.acts| + 1
  {
    StrayTake(r.states[i], r.acts[i]) && forall k :: i < k < |r.acts| ==> !ClearsAt(r, k)
  }

  lemma OnlyTakesSet(c: Config, s: Shared, a: Action)
    requires Enabled(s, a) && Apply(c, s, a).probe
    ensures a.Tick? ==> !ClearsProbe(PcOf(s, a.thread))
    ensures s.probe || (a.Tick? && TakesProbe(PcOf(s, a.thread)))
  {
  }

  /** A set flag was set by a take that nothing has cleared since. */
  lemma {:induction false} LastTake(c: Config, r: Run, n: nat) returns (i: nat)
    requires IsRun(c, r) && r.states[0] == Start && n <= |r.acts| && r.states[n].probe
    ensures i < n && TakesAt(r, i) && forall k :: i < k < n ==> !ClearsAt(r, k)
  {
    assert StepAt(c, r, n - 1);
    OnlyTakesSet(c, r.states[n - 1], r.acts[n - 1]);
    if TakesAt(r, n - 1) {
      i := n - 1;
    } else {
      i := LastTake(c, r, n - 1);
      assert !ClearsAt(r, n - 1);
    }
  }

  /** After a take that is not stray the flag means half-open. */
  lemma TakeShowsHalfOpen(c: Config, s: Shared, a: Action)
    requires Knows(s) && Enabled(s, a) && a.Tick? && TakesProbe(PcOf(s, a.thread)) && !StrayTake(s, a)
    ensures FlagInv(Apply(c, s, a))
  {
    assert KnowsState(s, PcOf(s, a.thread));
    var s' := Apply(c, s, a);
    assert FlagMeansHalfOpen(s') || MidUpdate(PcOf(s', a.thread));
  }

  /** Between an uncleared take and the end of the run nobody else takes the probe. */
  lemma NoTakeAfter(c: Config, r: Run, i: nat, k: nat)
    requires IsRun(c, r) && r.states[0] == Start && i < k < |r.acts| && TakesAt(r, i)
    requires forall m :: i < m < |r.acts| ==> !ClearsAt(r, m)
    ensures !StrayTake(r.states[k], r.acts[k])
  {
    if TakesAt(r, k) {
      AtMostOneTakeBetweenClears(c, r, i, k);
      assert false;
    }
  }

  /** When the flag is set outside half-open and nobody is in the middle of an update, the
      last take was a stray one. */
  lemma LastTakeIsStray(c: Config, r: Run) returns (i: nat)
    requires IsRun(c, r) && r.states[0] == Start
    requires var s := r.states[|r.acts|]; s.probe && !s.state.CircuitHalfOpen? && Settled(s)
    ensures i < |r.acts| && StrayTakeStays(r, i)
  {
    i := LastTake(c, r, |r.acts|);
    if !StrayTake(r.states[i], r.acts[i]) {
      KnowsHolds(c, r, i);
      assert StepAt(c, r, i);
      TakeShowsHalfOpen(c, r.states[i], r.acts[i]);
      forall k | i + 1 <= k < |r.acts| ensures !StrayTake(r.states[k], r.acts[k]) { NoTakeAfter(c, r, i, k); }
      FlagHolds(c, r, i + 1, |r.acts|);
      assert false;
    }
  }

  /** No call is where it could still close the breaker, take the probe or clear it. */
  ghost predicate Calm(s: Shared) { forall t: nat :: Harmless(PcOf(s, t)) }

  /** Whatever happened before, a run that ends open, with no call in progress or only
      harmless ones, ends wedged if and only if some stray take has no clear after it. */
  lemma WedgedExactlyByAnUnclearedStrayTake(c: Config, r: Run)
    requires IsRun(c, r) && r.states[0] == Start
    requires r.states[|r.acts|].state.CircuitOpen? && Calm(r.states[|r.acts|])
    ensures Wedged(r.states[|r.acts|]) <==> exists i :: 0 <= i < |r.acts| && StrayTakeStays(r, i)
  {
    var s := r.states[|r.acts|];
    if s.probe {
      forall t: nat ensures !MidUpdate(PcOf(s, t)) { assert Harmless(PcOf(s, t)); }
      var i := LastTakeIsStray(c, r);
    }
    if i :| 0 <= i < |r.acts| && StrayTakeStays(r, i) {
      ProbeSurvives(c, r, i, |r.acts|);
    }
  }

  // ---------------------------------------------------------------------
  // Closed with the flag set
  // ---------------------------------------------------------------------

  /** Where calls can be that began on a breaker closed with the flag set: the way of a
      failure that trips it is open to them, and that of an open breaker once it is open. */
  predicate Doomed(s: Shared, pc: Pc) {
    match pc
    case Failing(f) => !f.FailureLock? && !f.FailureState? && !f.FailureOpenedAt? && !f.FailureClear?
    case Allowing(a) => Harmless(pc) && (!a.AllowLoad? ==> s.state.CircuitOpen?)
    case _ => Harmless(pc)
  }

  ghost predicate DeadEnd(s: Shared) {
    s.probe && !s.state.CircuitHalfOpen? && forall t: nat :: Doomed(s, PcOf(s, t))
  }

  lemma DoomedStep(c: Config, s: Shared, a: Action)
    requires s.probe && !s.state.CircuitHalfOpen? && Enabled(s, a) && Doomed(s, PcOf(s, a.thread))
    ensures var s' := Apply(c, s, a);
            && s'.probe && !s'.state.CircuitHalfOpen? && Doomed(s', PcOf(s', a.thread))
            && (s.state.CircuitOpen? ==> s'.state.CircuitOpen?)
            && (s.state.CircuitOpen? && PcOf(s', a.thread).Admitted? ==> PcOf(s, a.thread).Admitted?)
  {
  }

  lemma DeadEndStep(c: Config, s: Shared, a: Action)
    requires DeadEnd(s) && Enabled(s, a)
    ensures DeadEnd(Apply(c, s, a))
    ensures s.state.CircuitOpen? ==> Apply(c, s, a).state.CircuitOpen?
    ensures s.state.CircuitOpen? ==> forall t: nat :: PcOf(Apply(c, s, a), t).Admitted? ==> PcOf(s, t).Admitted?
  {
    var s' := Apply(c, s, a);
    assert Doomed(s, PcOf(s, a.thread));
    DoomedStep(c, s, a);
    forall t: nat
      ensures Doomed(s', PcOf(s', t))
      ensures s.state.CircuitOpen? && PcOf(s', t).Admitted? ==> PcOf(s, t).Admitted?
    {
      assert t != a.thread ==> PcOf(s', t) == PcOf(s, t);
      assert Doomed(s, PcOf(s, t));
    }
  }

  lemma {:induction false} DeadEndHolds(c: Config, r: Run, i: nat)
    requires IsRun(c, r) && DeadEnd(r.states[0]) && i < |r.states|
    ensures DeadEnd(r.states[i])
  {
    if i > 0 {
      DeadEndHolds(c, r, i - 1);
      assert StepAt(c, r, i - 1);
      DeadEndStep(c, r.states[i - 1], r.acts[i - 1]);
    }
  }

  /** From closed with the flag set and no call in progress, the next opening is for good:
      it is never half-open, and from the first open state on it stays open and admits nobody. */
  lemma {:induction false} NextOpeningIsForGood(c: Config, r: Run, i: nat, j: nat)
    requires IsRun(c, r) && r.states[0].state.CircuitClosed? && r.states[0].probe && NobodyCalls(r.states[0])
    requires i <= j < |r.states|
    ensures r.states[j].probe && !r.states[j].state.CircuitHalfOpen?
    ensures r.states[i].state.CircuitOpen? ==> r.states[j].state.CircuitOpen?
    ensures r.states[i].state.CircuitOpen? ==>
              forall t: nat :: PcOf(r.states[j], t).Admitted? ==> PcOf(r.states[i], t).Admitted?
    decreases j
  {
    assert DeadEnd(r.states[0]) by {
      forall t: nat ensures Doomed(r.states[0], PcOf(r.states[0], t)) { assert AtRest(PcOf(r.states[0], t)); }
    }
    DeadEndHolds(c, r, j);
    if i < j {
      NextOpeningIsForGood(c, r, i, j - 1);
      DeadEndHolds(c, r, j - 1);
      assert StepAt(c, r, j - 1);
      DeadEndStep(c, r.states[j - 1], r.acts[j - 1]);
    }
  }
}
