/** A call of the circuit breaker that nobody interrupts, access by access, does what the
    atomic method does: the fine-grained breaker refines the machine of Breaker. */
module BreakerAlone {
  import opened Prelude
  import opened Breaker
  import opened BreakerSteps

  /** The fields are those of phase `p`. */
  predicate Agrees(s: Shared, p: Phase) {
    match p
    case Closed(run) => s.state.CircuitClosed? && s.failures == run && !s.probe
    case Open(at) => s.state.CircuitOpen? && s.openedAt == at && !s.probe
    case HalfOpen => s.state.CircuitHalfOpen? && s.probe
  }

  ghost predicate TickAt(c: Config, states: seq<Shared>, t: nat, now: int, i: nat)
    requires i + 1 < |states|
  {
    Moves(c, states[i], Tick(t, now), states[i + 1])
  }

  /** Thread `t`, at time `now`, gets from `s` to `s'` by its own accesses alone. */
  ghost predicate Alone(c: Config, s: Shared, t: nat, now: int, s': Shared) {
    exists states :: && |states| > 0 && states[0] == s && states[|states| - 1] == s'
                     && forall i: nat :: i + 1 < |states| ==> TickAt(c, states, t, now, i)
  }

  lemma Stay(c: Config, s: Shared, t: nat, now: int)
    ensures Alone(c, s, t, now, s)
  {
    var states := [s];
    assert |states| > 0 && states[0] == s && states[|states| - 1] == s;
  }

  /** One access more, from `pc`. */
  lemma Go1(c: Config, s0: Shared, s: Shared, t: nat, now: int, pc: Pc) returns (s': Shared)
    requires Alone(c, s0, t, now, s) && PcOf(s, t) == pc && Enabled(s, Tick(t, now))
    ensures Alone(c, s0, t, now, s') && s' == Advance(c, s, t, now, pc)
  {
    s' := Apply(c, s, Tick(t, now));
    var states :| |states| > 0 && states[0] == s0 && states[|states| - 1] == s
                  && forall i: nat :: i + 1 < |states| ==> TickAt(c, states, t, now, i);
    var longer := states + [s'];
    forall i: nat | i + 1 < |longer| ensures TickAt(c, longer, t, now, i) {
      if i + 1 < |states| { assert TickAt(c, states, t, now, i); }
    }
    assert longer[0] == s0 && longer[|longer| - 1] == s';
  }

  /** `s'` is `s` but for what thread `t` stands at and the breaker's own fields. */
  ghost predicate Others(s: Shared, s': Shared, t: nat) {
    s'.mu.None? && s'.pcs == s.pcs[t := PcOf(s', t)]
  }

  /** Thread `t` has begun `op`, and stands at `pc` with the lock as in `mu`. */
  ghost predicate Doing(c: Config, s0: Shared, op: Op, s: Shared, t: nat, now: int, pc: Pc, mu: Option<nat>) {
    Alone(c, Goto(s0, t, FirstPc(op)), t, now, s) && s.pcs == s0.pcs[t := pc] && s.mu == mu
  }

  function FirstPc(op: Op): Pc {
    match op
    case DoAllow => Allowing(AllowLoad)
    case DoSuccess => Succeeding(SuccessLoad)
    case DoFailure => Failing(FailureLoad)
  }

  lemma Begins(c: Config, s: Shared, t: nat, op: Op, now: int) returns (s': Shared)
    requires AtRest(PcOf(s, t)) && s.mu.None?
    ensures Enabled(s, Begin(t, op)) && s' == Apply(c, s, Begin(t, op)) && Doing(c, s, op, s', t, now, FirstPc(op), None)
    ensures s' == s.(pcs := s'.pcs)
  {
    s' := Goto(s, t, FirstPc(op));
    Stay(c, s', t, now);
  }

  /** One access of the call. */
  lemma Goes(c: Config, s0: Shared, op: Op, s: Shared, t: nat, now: int, pc: Pc, mu: Option<nat>) returns (s': Shared)
    requires Doing(c, s0, op, s, t, now, pc, mu) && !AtRest(pc) && (AtLock(pc) ==> mu.None?)
    ensures s' == Advance(c, s, t, now, pc) && Doing(c, s0, op, s', t, now, PcOf(s', t), s'.mu)
  {
    s' := Go1(c, Goto(s0, t, FirstPc(op)), s, t, now, pc);
    AdvanceKeeps(c, s, t, now, pc);
    assert s0.pcs[t := pc][t := s'.pcs[t]] == s0.pcs[t := s'.pcs[t]];
  }

  lemma AdvanceKeeps(c: Config, s: Shared, t: nat, now: int, pc: Pc)
    requires t in s.pcs && s.pcs[t] == pc && !AtRest(pc)
    ensures var s' := Advance(c, s, t, now, pc); t in s'.pcs && s'.pcs == s.pcs[t := s'.pcs[t]]
  {
  }

  /** The call is over: nobody else was touched, the lock is free, and the thread stands at `pc`. */
  ghost predicate Done(c: Config, s: Shared, op: Op, s': Shared, t: nat, now: int, pc: Pc) {
    Enabled(s, Begin(t, op)) && Alone(c, Apply(c, s, Begin(t, op)), t, now, s') && PcOf(s', t) == pc && Others(s, s', t)
  }

  // ---------------------------------------------------------------------
  // Allow
  // ---------------------------------------------------------------------

  lemma AllowOpen(c: Config, s: Shared, t: nat, now: int) returns (s': Shared)
    requires c.Valid() && s.mu.None? && AtRest(PcOf(s, t)) && s.state.CircuitOpen? && !s.probe
    ensures if now - s.openedAt < c.resetTimeout
            then Done(c, s, DoAllow, s', t, now, Refused) && s' == s.(pcs := s'.pcs)
            else Doing(c, s, DoAllow, s', t, now, Allowing(AllowLock), None) && s' == s.(pcs := s'.pcs)
  {
    s' := Begins(c, s, t, DoAllow, now);
    s' := Goes(c, s, DoAllow, s', t, now, Allowing(AllowLoad), None);
    s' := Goes(c, s, DoAllow, s', t, now, Allowing(AllowOpenedAt), None);
    s' := Goes(c, s, DoAllow, s', t, now, Allowing(AllowTime(s.openedAt)), None);
  }

  lemma AllowProbes(c: Config, s: Shared, s1: Shared, t: nat, now: int) returns (s': Shared)
    requires Doing(c, s, DoAllow, s1, t, now, Allowing(AllowLock), None) && s1.state.CircuitOpen? && !s1.probe
    requires AtRest(PcOf(s, t))
    ensures Done(c, s, DoAllow, s', t, now, Admitted) && s' == s1.(pcs := s'.pcs, state := CircuitHalfOpen, probe := true)
  {
    s' := Goes(c, s, DoAllow, s1, t, now, Allowing(AllowLock), None);
    s' := Goes(c, s, DoAllow, s', t, now, Allowing(AllowRecheck), Some(t));
    s' := Goes(c, s, DoAllow, s', t, now, Allowing(OpenProbe), Some(t));
    s' := Goes(c, s, DoAllow, s', t, now, Allowing(OpenTake), Some(t));
    s' := Goes(c, s, DoAllow, s', t, now, Allowing(OpenToHalf), Some(t));
    s' := Goes(c, s, DoAllow, s', t, now, Allowing(AllowUnlock(true)), Some(t));
  }

  lemma AllowOther(c: Config, s: Shared, t: nat, now: int) returns (s': Shared)
    requires s.mu.None? && AtRest(PcOf(s, t)) && (s.state.CircuitClosed? || (s.state.CircuitHalfOpen? && s.probe))
    ensures Done(c, s, DoAllow, s', t, now, if s.state.CircuitClosed? then Admitted else Refused) && s' == s.(pcs := s'.pcs)
  {
    s' := Begins(c, s, t, DoAllow, now);
    s' := Goes(c, s, DoAllow, s', t, now, Allowing(AllowLoad), None);
    if s.state.CircuitHalfOpen? {
      s' := Goes(c, s, DoAllow, s', t, now, Allowing(HalfProbe), None);
    }
  }

  /** Allow by itself admits exactly when the reference machine does, and leaves its next phase. */
  lemma AllowAlone(c: Config, s: Shared, p: Phase, t: nat, now: int) returns (s': Shared)
    requires c.Valid() && s.mu.None? && AtRest(PcOf(s, t)) && Agrees(s, p)
    ensures Done(c, s, DoAllow, s', t, now, if Admits(c, p, now) then Admitted else Refused)
    ensures Agrees(s', Next(c, p, Allow(now)))
  {
    if p.Open? {
      s' := AllowOpen(c, s, t, now);
      if now - s.openedAt >= c.resetTimeout { s' := AllowProbes(c, s, s', t, now); }
    } else {
      s' := AllowOther(c, s, t, now);
    }
  }

  // ---------------------------------------------------------------------
  // RecordSuccess and RecordFailure
  // ---------------------------------------------------------------------

  lemma SuccessHalf(c: Config, s: Shared, t: nat, now: int) returns (s': Shared)
    requires s.mu.None? && AtRest(PcOf(s, t)) && s.state.CircuitHalfOpen?
    ensures Done(c, s, DoSuccess, s', t, now, Idle) && s' == s.(pcs := s'.pcs, state := CircuitClosed, failures := 0, probe := false)
  {
    s' := Begins(c, s, t, DoSuccess, now);
    s' := Goes(c, s, DoSuccess, s', t, now, Succeeding(SuccessLoad), None);
    s' := Goes(c, s, DoSuccess, s', t, now, Succeeding(SuccessLock), None);
    s' := Goes(c, s, DoSuccess, s', t, now, Succeeding(SuccessState), Some(t));
    s' := Goes(c, s, DoSuccess, s', t, now, Succeeding(SuccessFailures), Some(t));
    s' := Goes(c, s, DoSuccess, s', t, now, Succeeding(SuccessClear), Some(t));
    s' := Goes(c, s, DoSuccess, s', t, now, Succeeding(SuccessUnlock), Some(t));
  }

  /** RecordSuccess by itself leaves the phase the reference machine goes to. */
  lemma SuccessAlone(c: Config, s: Shared, p: Phase, t: nat, now: int) returns (s': Shared)
    requires s.mu.None? && AtRest(PcOf(s, t)) && Agrees(s, p)
    ensures Done(c, s, DoSuccess, s', t, now, Idle) && Agrees(s', Next(c, p, Success))
  {
    if p.HalfOpen? {
      s' := SuccessHalf(c, s, t, now);
    } else {
      s' := Begins(c, s, t, DoSuccess, now);
      s' := Goes(c, s, DoSuccess, s', t, now, Succeeding(SuccessLoad), None);
      s' := Goes(c, s, DoSuccess, s', t, now, Succeeding(SuccessReset), None);
    }
  }

  lemma FailureHalf(c: Config, s: Shared, t: nat, now: int) returns (s': Shared)
    requires s.mu.None? && AtRest(PcOf(s, t)) && s.state.CircuitHalfOpen?
    ensures Done(c, s, DoFailure, s', t, now, Idle) && s' == s.(pcs := s'.pcs, state := CircuitOpen, openedAt := now, probe := false)
  {
    s' := Begins(c, s, t, DoFailure, now);
    s' := Goes(c, s, DoFailure, s', t, now, Failing(FailureLoad), None);
    s' := Goes(c, s, DoFailure, s', t, now, Failing(FailureLock), None);
    s' := Goes(c, s, DoFailure, s', t, now, Failing(FailureState), Some(t));
    s' := Goes(c, s, DoFailure, s', t, now, Failing(FailureOpenedAt), Some(t));
    s' := Goes(c, s, DoFailure, s', t, now, Failing(FailureClear), Some(t));
    s' := Goes(c, s, DoFailure, s', t, now, Failing(FailureUnlock), Some(t));
  }

  lemma FailureTrips(c: Config, s: Shared, s1: Shared, t: nat, now: int) returns (s': Shared)
    requires Doing(c, s, DoFailure, s1, t, now, Failing(TripLock), None) && s1.state.CircuitClosed? && AtRest(PcOf(s, t))
    ensures Done(c, s, DoFailure, s', t, now, Idle) && s' == s1.(pcs := s'.pcs, state := CircuitOpen, openedAt := now)
  {
    s' := Goes(c, s, DoFailure, s1, t, now, Failing(TripLock), None);
    s' := Goes(c, s, DoFailure, s', t, now, Failing(TripCheck), Some(t));
    s' := Goes(c, s, DoFailure, s', t, now, Failing(TripState), Some(t));
    s' := Goes(c, s, DoFailure, s', t, now, Failing(TripOpenedAt), Some(t));
    s' := Goes(c, s, DoFailure, s', t, now, Failing(FailureUnlock), Some(t));
  }

  lemma FailureClosed(c: Config, s: Shared, t: nat, now: int) returns (s': Shared)
    requires s.mu.None? && AtRest(PcOf(s, t)) && s.state.CircuitClosed?
    ensures s'.failures == s.failures + 1 && s'.openedAt == (if s.failures + 1 >= c.threshold then now else s.openedAt)
    ensures s'.state == (if s.failures + 1 >= c.threshold then CircuitOpen else CircuitClosed) && s'.probe == s.probe
    ensures Done(c, s, DoFailure, s', t, now, Idle)
  {
    s' := Begins(c, s, t, DoFailure, now);
    s' := Goes(c, s, DoFailure, s', t, now, Failing(FailureLoad), None);
    s' := Goes(c, s, DoFailure, s', t, now, Failing(FailureAdd), None);
    if s.failures + 1 >= c.threshold { s' := FailureTrips(c, s, s', t, now); }
  }

  /** RecordFailure by itself leaves the phase the reference machine goes to. */
  lemma FailureAlone(c: Config, s: Shared, p: Phase, t: nat, now: int) returns (s': Shared)
    requires s.mu.None? && AtRest(PcOf(s, t)) && Agrees(s, p)
    ensures Done(c, s, DoFailure, s', t, now, Idle) && Agrees(s', Next(c, p, Failure(now)))
  {
    match p
    case HalfOpen => s' := FailureHalf(c, s, t, now);
    case Closed(_) => s' := FailureClosed(c, s, t, now);
    case Open(_) =>
      s' := Begins(c, s, t, DoFailure, now);
      s' := Goes(c, s, DoFailure, s', t, now, Failing(FailureLoad), None);
  }
}
