/** Why Allow answers as it does, in every interleaving: it admits on the strength of a closed
    breaker or of a probe it took itself, and refuses for a set flag or an early hour. */
module BreakerReasons {
  import opened Prelude
  import opened Breaker
  import opened BreakerSteps

  /** Reading the state, thread `t` finds the breaker closed. */
  predicate SeesClosed(s: Shared, t: nat) {
    s.state.CircuitClosed? && PcOf(s, t) in {Allowing(AllowLoad), Allowing(AllowRecheck)}
  }

  /** Reading the flag, it finds a probe in flight. */
  predicate SeesProbe(s: Shared, t: nat) {
    s.probe && PcOf(s, t) in {Allowing(RecheckProbe), Allowing(OpenProbe), Allowing(HalfProbe), Allowing(HalfProbeAgain)}
  }

  /** Reading the clock, it finds the reset timeout not over. */
  predicate TooEarly(c: Config, s: Shared, t: nat, now: int) {
    PcOf(s, t).Allowing? && PcOf(s, t).a.AllowTime? && now - PcOf(s, t).a.seen < c.resetTimeout
  }

  predicate ReasonToAdmit(s: Shared, a: Action, t: nat) {
    a.Tick? && a.thread == t && (SeesClosed(s, t) || TakesProbe(PcOf(s, t)))
  }

  predicate ReasonToRefuse(c: Config, s: Shared, a: Action, t: nat) {
    a.Tick? && a.thread == t && (SeesProbe(s, t) || TooEarly(c, s, t, a.now))
  }

  /** The thread is bound to answer so. */
  predicate WillAdmit(pc: Pc) { pc in {Admitted, Allowing(AllowUnlock(true)), Allowing(OpenToHalf)} }

  predicate WillRefuse(pc: Pc) { pc in {Refused, Allowing(AllowUnlock(false))} }

  /** A step binds its thread to an answer only for a reason. */
  lemma StepHasReason(c: Config, s: Shared, t: nat, now: int)
    requires Enabled(s, Tick(t, now)) && PcOf(s, t).Allowing?
    ensures var pc := PcOf(Apply(c, s, Tick(t, now)), t);
            && (pc.Allowing? || pc.Admitted? || pc.Refused?)
            && (WillAdmit(pc) ==> WillAdmit(PcOf(s, t)) || ReasonToAdmit(s, Tick(t, now), t))
            && (WillRefuse(pc) ==> WillRefuse(PcOf(s, t)) || ReasonToRefuse(c, s, Tick(t, now), t))
  {
  }

  lemma OthersLeave(c: Config, s: Shared, a: Action, t: nat)
    requires Enabled(s, a) && a.thread != t
    ensures PcOf(Apply(c, s, a), t) == PcOf(s, t)
  {
  }

  /** Thread `t` begins a call of Allow at step `i` and has not begun another before `n`. */
  ghost predicate AllowCall(r: Run, t: nat, i: nat, n: nat) {
    && i < n <= |r.acts| < |r.states| && r.acts[i] == Begin(t, DoAllow)
    && forall m :: i < m < n ==> r.acts[m].Begin? ==> r.acts[m].thread != t
  }

  ghost predicate AdmittedFor(r: Run, t: nat, i: nat, n: nat)
    requires i <= n <= |r.acts| < |r.states|
  {
    exists j :: i < j < n && ReasonToAdmit(r.states[j], r.acts[j], t)
  }

  ghost predicate RefusedFor(c: Config, r: Run, t: nat, i: nat, n: nat)
    requires i <= n <= |r.acts| < |r.states|
  {
    exists j :: i < j < n && ReasonToRefuse(c, r.states[j], r.acts[j], t)
  }

  ghost predicate Reasoned(c: Config, r: Run, t: nat, i: nat, n: nat)
    requires i <= n <= |r.acts| < |r.states|
  {
    var pc := PcOf(r.states[n], t);
    && (pc.Allowing? || pc.Admitted? || pc.Refused?)
    && (WillAdmit(pc) ==> AdmittedFor(r, t, i, n)) && (WillRefuse(pc) ==> RefusedFor(c, r, t, i, n))
  }

  lemma NextReasoned(c: Config, r: Run, t: nat, i: nat, n: nat)
    requires IsRun(c, r) && i < n < |r.acts| && Reasoned(c, r, t, i, n) && (r.acts[n].Begin? ==> r.acts[n].thread != t)
    ensures Reasoned(c, r, t, i, n + 1)
  {
    var s, a := r.states[n], r.acts[n];
    assert StepAt(c, r, n);
    if a.thread != t { OthersLeave(c, s, a, t); } else { StepHasReason(c, s, t, a.now); }
    if AdmittedFor(r, t, i, n) { var j :| i < j < n && ReasonToAdmit(r.states[j], r.acts[j], t); }
    if RefusedFor(c, r, t, i, n) { var j :| i < j < n && ReasonToRefuse(c, r.states[j], r.acts[j], t); }
  }

  lemma {:induction false} ReasonedHolds(c: Config, r: Run, t: nat, i: nat, n: nat)
    requires IsRun(c, r) && AllowCall(r, t, i, n)
    ensures Reasoned(c, r, t, i, n)
    decreases n
  {
    assert StepAt(c, r, i);
    if i + 1 < n {
      ReasonedHolds(c, r, t, i, n - 1);
      NextReasoned(c, r, t, i, n - 1);
    }
  }

  /** In every run from any state: a call of Allow that admits has found the breaker closed, or
      has itself put the probe in flight; one that refuses has found a probe in flight, or the
      reset timeout not over. */
  lemma EveryAnswerHasAReason(c: Config, r: Run, t: nat, i: nat, n: nat)
    requires IsRun(c, r) && AllowCall(r, t, i, n)
    ensures PcOf(r.states[n], t).Admitted? ==> exists j :: i < j < n && ReasonToAdmit(r.states[j], r.acts[j], t)
    ensures PcOf(r.states[n], t).Refused? ==> exists j :: i < j < n && ReasonToRefuse(c, r.states[j], r.acts[j], t)
  {
    ReasonedHolds(c, r, t, i, n);
  }
}
