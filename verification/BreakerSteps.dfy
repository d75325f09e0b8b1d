/** The circuit breaker with every atomic load, store and lock operation as a step of
    its own. Any number of threads run Allow, RecordSuccess and RecordFailure in any
    interleaving. Comments give the source line a program counter stands in front of. */
module BreakerSteps {
  import opened Prelude
  import opened Breaker

  datatype Op = DoAllow | DoSuccess | DoFailure

  datatype AllowPc =
    | AllowLoad            // 81
    | AllowOpenedAt        // 87
    | AllowTime(seen: int) // 88
    | AllowLock            // 92
    | AllowRecheck         // 97
    | RecheckProbe         // 102
    | RecheckTake          // 105
    | OpenProbe            // 111
    | OpenTake             // 114
    | OpenToHalf           // 115
    | HalfProbe            // 119
    | HalfLock             // 122
    | HalfProbeAgain       // 124
    | HalfTake             // 127
    | AllowUnlock(ok: bool)

  datatype SuccessPc =
    | SuccessLoad          // 137
    | SuccessLock          // 139
    | SuccessState         // 141
    | SuccessFailures      // 142
    | SuccessClear         // 143
    | SuccessUnlock
    | SuccessReset         // 147

  datatype FailurePc =
    | FailureLoad          // 154
    | FailureLock          // 156
    | FailureState         // 158
    | FailureOpenedAt      // 159
    | FailureClear         // 160
    | FailureAdd           // 164
    | TripLock             // 166
    | TripCheck            // 169
    | TripState            // 170
    | TripOpenedAt         // 171
    | FailureUnlock

  datatype Pc =
    | Idle | Admitted | Refused
    | Allowing(a: AllowPc) | Succeeding(s: SuccessPc) | Failing(f: FailurePc)

  datatype Shared = Shared(
    state: CircuitState, failures: int, openedAt: int, probe: bool,
    mu: Option<nat>, pcs: map<nat, Pc>)

  const Start := Shared(CircuitClosed, 0, 0, false, None, map[])

  /** `Begin` starts a call on an idle thread; `Tick` runs the thread's next access. */
  datatype Action = Begin(thread: nat, op: Op) | Tick(thread: nat, now: int)

  function PcOf(s: Shared, t: nat): Pc {
    if t in s.pcs then s.pcs[t] else Idle
  }

  predicate AtRest(pc: Pc) { pc.Idle? || pc.Admitted? || pc.Refused? }

  predicate AtLock(pc: Pc) {
    match pc
    case Allowing(a) => a.AllowLock? || a.HalfLock?
    case Succeeding(s) => s.SuccessLock?
    case Failing(f) => f.FailureLock? || f.TripLock?
    case _ => false
  }

  /** Between a Lock and its Unlock. */
  predicate HoldsLock(pc: Pc) {
    match pc
    case Allowing(a) =>
      || a.AllowRecheck? || a.RecheckProbe? || a.RecheckTake? || a.OpenProbe? || a.OpenTake?
      || a.OpenToHalf? || a.HalfProbeAgain? || a.HalfTake? || a.AllowUnlock?
    case Succeeding(s) => s.SuccessState? || s.SuccessFailures? || s.SuccessClear? || s.SuccessUnlock?
    case Failing(f) => !f.FailureLoad? && !f.FailureLock? && !f.FailureAdd? && !f.TripLock?
    case _ => false
  }

  /** The three stores of `true` into probeInFlight. */
  predicate TakesProbe(pc: Pc) {
    pc.Allowing? && (pc.a.RecheckTake? || pc.a.OpenTake? || pc.a.HalfTake?)
  }

  /** The two stores of `false` into probeInFlight. */
  predicate ClearsProbe(pc: Pc) {
    (pc.Succeeding? && pc.s.SuccessClear?) || (pc.Failing? && pc.f.FailureClear?)
  }

  predicate Enabled(s: Shared, a: Action) {
    match a
    case Begin(t, _) => AtRest(PcOf(s, t))
    case Tick(t, _) => !AtRest(PcOf(s, t)) && (AtLock(PcOf(s, t)) ==> s.mu.None?)
  }

  function Goto(s: Shared, t: nat, pc: Pc): Shared { s.(pcs := s.pcs[t := pc]) }

  function Acquire(s: Shared, t: nat, pc: Pc): Shared { Goto(s.(mu := Some(t)), t, pc) }

  function Release(s: Shared, t: nat, pc: Pc): Shared { Goto(s.(mu := None), t, pc) }

  function Apply(c: Config, s: Shared, a: Action): Shared
    requires Enabled(s, a)
  {
    match a
    case Begin(t, DoAllow) => Goto(s, t, Allowing(AllowLoad))
    case Begin(t, DoSuccess) => Goto(s, t, Succeeding(SuccessLoad))
    case Begin(t, DoFailure) => Goto(s, t, Failing(FailureLoad))
    case Tick(t, now) => Advance(c, s, t, now, PcOf(s, t))
  }

  function Advance(c: Config, s: Shared, t: nat, now: int, pc: Pc): Shared {
    match pc
    case Allowing(a) => AdvanceAllow(c, s, t, now, a)
    case Succeeding(a) => AdvanceSuccess(s, t, a)
    case Failing(a) => AdvanceFailure(c, s, t, now, a)
    case _ => s
  }

  function AdvanceAllow(c: Config, s: Shared, t: nat, now: int, pc: AllowPc): Shared {
    match pc
    case AllowLoad =>
      Goto(s, t, match s.state
           case CircuitClosed => Admitted
           case CircuitOpen => Allowing(AllowOpenedAt)
           case CircuitHalfOpen => Allowing(HalfProbe))
    case AllowOpenedAt => Goto(s, t, Allowing(AllowTime(s.openedAt)))
    case AllowTime(seen) => Goto(s, t, if now - seen < c.resetTimeout then Refused else Allowing(AllowLock))
    case AllowLock => Acquire(s, t, Allowing(AllowRecheck))
    case AllowRecheck =>
      Goto(s, t, match s.state
           case CircuitClosed => Allowing(AllowUnlock(true))
           case CircuitOpen => Allowing(OpenProbe)
           case CircuitHalfOpen => Allowing(RecheckProbe))
    case RecheckProbe => Goto(s, t, Allowing(if s.probe then AllowUnlock(false) else RecheckTake))
    case RecheckTake => Goto(s.(probe := true), t, Allowing(AllowUnlock(true)))
    case OpenProbe => Goto(s, t, Allowing(if s.probe then AllowUnlock(false) else OpenTake))
    case OpenTake => Goto(s.(probe := true), t, Allowing(OpenToHalf))
    case OpenToHalf => Goto(s.(state := CircuitHalfOpen), t, Allowing(AllowUnlock(true)))
    case HalfProbe => Goto(s, t, if s.probe then Refused else Allowing(HalfLock))
    case HalfLock => Acquire(s, t, Allowing(HalfProbeAgain))
    case HalfProbeAgain => Goto(s, t, Allowing(if s.probe then AllowUnlock(false) else HalfTake))
    case HalfTake => Goto(s.(probe := true), t, Allowing(AllowUnlock(true)))
    case AllowUnlock(ok) => Release(s, t, if ok then Admitted else Refused)
  }

  function AdvanceSuccess(s: Shared, t: nat, pc: SuccessPc): Shared {
    match pc
    case SuccessLoad => Goto(s, t, Succeeding(if s.state.CircuitHalfOpen? then SuccessLock else SuccessReset))
    case SuccessLock => Acquire(s, t, Succeeding(SuccessState))
    case SuccessState => Goto(s.(state := CircuitClosed), t, Succeeding(SuccessFailures))
    case SuccessFailures => Goto(s.(failures := 0), t, Succeeding(SuccessClear))
    case SuccessClear => Goto(s.(probe := false), t, Succeeding(SuccessUnlock))
    case SuccessUnlock => Release(s, t, Idle)
    case SuccessReset => Goto(s.(failures := 0), t, Idle)
  }

  function AdvanceFailure(c: Config, s: Shared, t: nat, now: int, pc: FailurePc): Shared {
    match pc
    case FailureLoad =>
      Goto(s, t, match s.state
           case CircuitClosed => Failing(FailureAdd)
           case CircuitOpen => Idle
           case CircuitHalfOpen => Failing(FailureLock))
    case FailureLock => Acquire(s, t, Failing(FailureState))
    case FailureState => Goto(s.(state := CircuitOpen), t, Failing(FailureOpenedAt))
    case FailureOpenedAt => Goto(s.(openedAt := now), t, Failing(FailureClear))
    case FailureClear => Goto(s.(probe := false), t, Failing(FailureUnlock))
    case FailureAdd =>
      Goto(s.(failures := s.failures + 1), t, if s.failures + 1 >= c.threshold then Failing(TripLock) else Idle)
    case TripLock => Acquire(s, t, Failing(TripCheck))
    case TripCheck => Goto(s, t, Failing(if s.state.CircuitClosed? then TripState else FailureUnlock))
    case TripState => Goto(s.(state := CircuitOpen), t, Failing(TripOpenedAt))
    case TripOpenedAt => Goto(s.(openedAt := now), t, Failing(FailureUnlock))
    case FailureUnlock => Release(s, t, Idle)
  }

  /** A run lists the states it passes through and the action between each two. */
  datatype Run = Run(states: seq<Shared>, acts: seq<Action>)

  ghost predicate Moves(c: Config, s: Shared, a: Action, s': Shared) {
    Enabled(s, a) && s' == Apply(c, s, a)
  }

  ghost predicate StepAt(c: Config, r: Run, i: nat)
    requires i < |r.acts| && |r.states| == |r.acts| + 1
  {
    Moves(c, r.states[i], r.acts[i], r.states[i + 1])
  }

  ghost predicate IsRun(c: Config, r: Run) {
    && |r.states| == |r.acts| + 1
    && forall i: nat :: i < |r.acts| ==> StepAt(c, r, i)
  }

  /** The mutex is held by exactly the thread that is between Lock and Unlock, and a
      thread about to take the probe sees the flag clear. */
  ghost predicate Inv(s: Shared) {
    forall t: nat ::
      && (s.mu == Some(t) <==> HoldsLock(PcOf(s, t)))
      && (TakesProbe(PcOf(s, t)) ==> !s.probe)
  }

  /** What one access of thread `me` does to the mutex, the flag and the threads. */
  ghost predicate Access(s: Shared, s': Shared, me: nat) {
    && s'.pcs == s.pcs[me := PcOf(s', me)] && me in s'.pcs
    && (s'.mu == s.mu || (s.mu.None? && s'.mu == Some(me)) || (s.mu == Some(me) && s'.mu.None?))
    && (s'.mu == Some(me) <==> HoldsLock(PcOf(s', me)))
    && (TakesProbe(PcOf(s', me)) ==> !s'.probe)
    && (s.mu != Some(me) ==> s'.probe == s.probe && s'.state == s.state)
  }

  lemma AllowAccess(c: Config, s: Shared, me: nat, now: int, pc: AllowPc)
    requires Inv(s) && PcOf(s, me) == Allowing(pc) && Enabled(s, Tick(me, now))
    ensures Access(s, AdvanceAllow(c, s, me, now, pc), me)
  {
    assert HoldsLock(PcOf(s, me)) <==> s.mu == Some(me);
  }

  lemma SuccessAccess(s: Shared, me: nat, now: int, pc: SuccessPc)
    requires Inv(s) && PcOf(s, me) == Succeeding(pc) && Enabled(s, Tick(me, now))
    ensures Access(s, AdvanceSuccess(s, me, pc), me)
  {
    assert HoldsLock(PcOf(s, me)) <==> s.mu == Some(me);
  }

  lemma FailureAccess(c: Config, s: Shared, me: nat, now: int, pc: FailurePc)
    requires Inv(s) && PcOf(s, me) == Failing(pc) && Enabled(s, Tick(me, now))
    ensures Access(s, AdvanceFailure(c, s, me, now, pc), me)
  {
    assert HoldsLock(PcOf(s, me)) <==> s.mu == Some(me);
  }

  lemma StepAccess(c: Config, s: Shared, a: Action)
    requires Inv(s) && Enabled(s, a)
    ensures Access(s, Apply(c, s, a), a.thread)
  {
    assert HoldsLock(PcOf(s, a.thread)) <==> s.mu == Some(a.thread);
    if a.Tick? {
      match PcOf(s, a.thread) {
        case Allowing(pc) => AllowAccess(c, s, a.thread, a.now, pc);
        case Succeeding(pc) => SuccessAccess(s, a.thread, a.now, pc);
        case Failing(pc) => FailureAccess(c, s, a.thread, a.now, pc);
      }
    }
  }

  lemma AccessInv(s: Shared, s': Shared, me: nat)
    requires Inv(s) && Access(s, s', me)
    ensures Inv(s')
  {
    forall t: nat
      ensures s'.mu == Some(t) <==> HoldsLock(PcOf(s', t))
      ensures TakesProbe(PcOf(s', t)) ==> !s'.probe
    {
      assert t != me ==> PcOf(s', t) == PcOf(s, t);
      assert HoldsLock(PcOf(s, t)) <==> s.mu == Some(t);
      assert HoldsLock(PcOf(s, me)) <==> s.mu == Some(me);
    }
  }

  lemma InvStep(c: Config, s: Shared, a: Action)
    requires Inv(s) && Enabled(s, a)
    ensures Inv(Apply(c, s, a))
  {
    StepAccess(c, s, a);
    AccessInv(s, Apply(c, s, a), a.thread);
  }

  lemma {:induction false} InvHolds(c: Config, r: Run, i: nat)
    requires IsRun(c, r) && r.states[0] == Start && i < |r.states|
    ensures Inv(r.states[i])
  {
    if i > 0 {
      InvHolds(c, r, i - 1);
      assert StepAt(c, r, i - 1);
      InvStep(c, r.states[i - 1], r.acts[i - 1]);
    }
  }

  /** Step `i` stores `true` into probeInFlight. */
  ghost predicate TakesAt(r: Run, i: nat)
    requires i < |r.acts| && |r.states| == |r.acts| + 1
  {
    r.acts[i].Tick? && TakesProbe(PcOf(r.states[i], r.acts[i].thread))
  }

  /** Step `i` stores `false` into probeInFlight. */
  ghost predicate ClearsAt(r: Run, i: nat)
    requires i < |r.acts| && |r.states| == |r.acts| + 1
  {
    r.acts[i].Tick? && ClearsProbe(PcOf(r.states[i], r.acts[i].thread))
  }

  lemma OnlyClearsUnset(c: Config, s: Shared, a: Action)
    requires Enabled(s, a) && s.probe
    requires a.Tick? ==> !ClearsProbe(PcOf(s, a.thread))
    ensures Apply(c, s, a).probe
  {
  }

  /** Without a clear in between, a probe once taken is still in flight. */
  lemma {:induction false} ProbeSurvives(c: Config, r: Run, i: nat, j: nat)
    requires IsRun(c, r) && i < j <= |r.acts| && TakesAt(r, i)
    requires forall k :: i < k < j ==> !ClearsAt(r, k)
    ensures r.states[j].probe
    decreases j
  {
    assert StepAt(c, r, j - 1);
    if j > i + 1 {
      ProbeSurvives(c, r, i, j - 1);
      assert !ClearsAt(r, j - 1);
      OnlyClearsUnset(c, r.states[j - 1], r.acts[j - 1]);
    }
  }

  /** Whatever the interleaving of the three paths that can take the probe, two takes
      always have a clear between them. */
  lemma AtMostOneTakeBetweenClears(c: Config, r: Run, i: nat, j: nat)
    requires IsRun(c, r) && r.states[0] == Start && i < j < |r.acts|
    requires TakesAt(r, i) && TakesAt(r, j)
    ensures exists k :: i < k < j && ClearsAt(r, k)
  {
    if !exists k :: i < k < j && ClearsAt(r, k) {
      ProbeSurvives(c, r, i, j);
      InvHolds(c, r, j);
      assert false;
    }
  }

  // ---------------------------------------------------------------------
  // When the flag means half-open
  // ---------------------------------------------------------------------

  /** Between two stores that change the state and the flag together. */
  predicate MidUpdate(pc: Pc) {
    match pc
    case Allowing(a) => a.OpenToHalf?
    case Succeeding(s) => s.SuccessFailures? || s.SuccessClear?
    case Failing(f) => f.FailureOpenedAt? || f.FailureClear?
    case _ => false
  }

  ghost predicate Settled(s: Shared) { forall t: nat :: !MidUpdate(PcOf(s, t)) }

  predicate FlagMeansHalfOpen(s: Shared) { s.probe ==> s.state.CircuitHalfOpen? }

  /** A take at line 127 by an Allow that read half-open, when the breaker no longer is. */
  predicate StrayTake(s: Shared, a: Action) {
    a.Tick? && PcOf(s, a.thread) == Allowing(HalfTake) && !s.state.CircuitHalfOpen?
  }

  /** What the holder of the lock has found out about the state. */
  predicate KnowsState(s: Shared, pc: Pc) {
    match pc
    case Allowing(a) =>
      (a.RecheckProbe? || a.RecheckTake? ==> s.state.CircuitHalfOpen?) && (a.OpenProbe? || a.OpenTake? ==> s.state.CircuitOpen?)
    case Failing(f) => f.TripState? ==> s.state.CircuitClosed?
    case _ => true
  }

  ghost predicate Knows(s: Shared) { forall t: nat :: KnowsState(s, PcOf(s, t)) }

  lemma AllowKnows(c: Config, s: Shared, me: nat, now: int, pc: AllowPc)
    requires KnowsState(s, Allowing(pc))
    ensures var s' := AdvanceAllow(c, s, me, now, pc); KnowsState(s', PcOf(s', me))
  {
  }

  lemma FailureKnows(c: Config, s: Shared, me: nat, now: int, pc: FailurePc)
    requires KnowsState(s, Failing(pc))
    ensures var s' := AdvanceFailure(c, s, me, now, pc); KnowsState(s', PcOf(s', me))
  {
  }

  /** What the thread that moves knows, it still knows after its access. */
  lemma AccessKnows(c: Config, s: Shared, a: Action)
    requires Enabled(s, a) && KnowsState(s, PcOf(s, a.thread))
    ensures KnowsState(Apply(c, s, a), PcOf(Apply(c, s, a), a.thread))
  {
    if a.Tick? {
      match PcOf(s, a.thread) {
        case Allowing(pc) => AllowKnows(c, s, a.thread, a.now, pc);
        case Succeeding(_) =>
        case Failing(pc) => FailureKnows(c, s, a.thread, a.now, pc);
      }
    }
  }

  lemma KnowsStep(c: Config, s: Shared, a: Action, s': Shared)
    requires Inv(s) && Knows(s) && Moves(c, s, a, s')
    ensures Knows(s')
  {
    var me := a.thread;
    assert KnowsState(s, PcOf(s, me));
    AccessKnows(c, s, a);
    StepAccess(c, s, a);
    forall t: nat ensures KnowsState(s', PcOf(s', t)) {
      assert KnowsState(s, PcOf(s, t)) && (HoldsLock(PcOf(s, t)) <==> s.mu == Some(t));
      assert t != me ==> PcOf(s', t) == PcOf(s, t);
    }
  }

  lemma KnowsStepAt(c: Config, r: Run, i: nat)
    requires i < |r.acts| && |r.states| == |r.acts| + 1 && StepAt(c, r, i) && Inv(r.states[i]) && Knows(r.states[i])
    ensures Knows(r.states[i + 1])
  {
    KnowsStep(c, r.states[i], r.acts[i], r.states[i + 1]);
  }

  lemma {:induction false} KnowsHolds(c: Config, r: Run, n: nat)
    requires IsRun(c, r) && r.states[0] == Start && n < |r.states|
    ensures Knows(r.states[n])
  {
    if n > 0 {
      KnowsHolds(c, r, n - 1);
      InvHolds(c, r, n - 1);
      KnowsStepAt(c, r, n - 1);
    }
  }

  /** A set flag means half-open, or somebody is in the middle of an update. */
  ghost predicate FlagInv(s: Shared) { FlagMeansHalfOpen(s) || !Settled(s) }

  /** The same, where `me` is the only thread that can be in the middle of an update. */
  ghost predicate FlagAccess(s: Shared, me: nat) { FlagMeansHalfOpen(s) || MidUpdate(PcOf(s, me)) }

  lemma HolderAlone(s: Shared, me: nat)
    requires Inv(s) && FlagInv(s) && (s.mu.None? || s.mu == Some(me))
    ensures FlagAccess(s, me)
  {
    if !FlagMeansHalfOpen(s) {
      var t: nat :| MidUpdate(PcOf(s, t));
      assert HoldsLock(PcOf(s, t)) <==> s.mu == Some(t);
    }
  }

  lemma AllowFlag(c: Config, s: Shared, me: nat, now: int, pc: AllowPc)
    requires FlagAccess(s, me) && KnowsState(s, PcOf(s, me)) && PcOf(s, me) == Allowing(pc)
    requires Enabled(s, Tick(me, now)) && !StrayTake(s, Tick(me, now))
    ensures FlagAccess(AdvanceAllow(c, s, me, now, pc), me)
  {
  }

  lemma SuccessFlag(s: Shared, me: nat, now: int, pc: SuccessPc)
    requires FlagAccess(s, me) && PcOf(s, me) == Succeeding(pc) && Enabled(s, Tick(me, now))
    ensures FlagAccess(AdvanceSuccess(s, me, pc), me)
  {
  }

  lemma FailureFlag(c: Config, s: Shared, me: nat, now: int, pc: FailurePc)
    requires FlagAccess(s, me) && KnowsState(s, PcOf(s, me)) && PcOf(s, me) == Failing(pc) && Enabled(s, Tick(me, now))
    ensures FlagAccess(AdvanceFailure(c, s, me, now, pc), me)
  {
  }

  lemma FlagStepInside(c: Config, s: Shared, a: Action)
    requires Inv(s) && Knows(s) && FlagInv(s) && Enabled(s, a) && !StrayTake(s, a)
    requires s.mu.None? || s.mu == Some(a.thread)
    ensures FlagInv(Apply(c, s, a))
  {
    var s', me := Apply(c, s, a), a.thread;
    HolderAlone(s, me);
    assert KnowsState(s, PcOf(s, me));
    if a.Tick? {
      match PcOf(s, me) {
        case Allowing(pc) => AllowFlag(c, s, me, a.now, pc);
        case Succeeding(pc) => SuccessFlag(s, me, a.now, pc);
        case Failing(pc) => FailureFlag(c, s, me, a.now, pc);
      }
    }
    assert FlagMeansHalfOpen(s') || MidUpdate(PcOf(s', me));
  }

  lemma FlagStep(c: Config, s: Shared, a: Action)
    requires Inv(s) && Knows(s) && FlagInv(s) && Enabled(s, a) && !StrayTake(s, a)
    ensures FlagInv(Apply(c, s, a))
  {
    var s', me := Apply(c, s, a), a.thread;
    if s.mu.None? || s.mu == Some(me) {
      FlagStepInside(c, s, a);
    } else {
      StepAccess(c, s, a);
      assert HoldsLock(PcOf(s, me)) <==> s.mu == Some(me);
      if !FlagMeansHalfOpen(s') {
        var t: nat :| MidUpdate(PcOf(s, t));
        assert t != me && PcOf(s', t) == PcOf(s, t);
      }
    }
  }

  /** From a state in which the flag means half-open it goes on to do so without stray takes. */
  lemma {:induction false} FlagHolds(c: Config, r: Run, m: nat, n: nat)
    requires IsRun(c, r) && r.states[0] == Start && m <= n <= |r.acts| && FlagInv(r.states[m])
    requires forall i :: m <= i < n ==> !StrayTake(r.states[i], r.acts[i])
    ensures FlagInv(r.states[n])
    decreases n
  {
    if n > m {
      FlagHolds(c, r, m, n - 1);
      InvHolds(c, r, n - 1);
      KnowsHolds(c, r, n - 1);
      assert StepAt(c, r, n - 1);
      FlagStep(c, r.states[n - 1], r.acts[n - 1]);
    }
  }

  /** A stray take leaves the flag set outside half-open, with nobody in the middle of an update. */
  lemma StrayTakeShows(c: Config, s: Shared, a: Action)
    requires Inv(s) && Enabled(s, a) && StrayTake(s, a)
    ensures Settled(Apply(c, s, a)) && !FlagMeansHalfOpen(Apply(c, s, a))
  {
    var s' := Apply(c, s, a);
    InvStep(c, s, a);
    assert HoldsLock(PcOf(s', a.thread)) <==> s'.mu == Some(a.thread);
    forall t: nat ensures !MidUpdate(PcOf(s', t)) {
      assert HoldsLock(PcOf(s', t)) <==> s'.mu == Some(t);
    }
  }

  /** In every run, whenever nobody is in the middle of an update a set flag means half-open,
      if and only if the run has no stray take. */
  lemma FlagMeansHalfOpenExactlyWithoutStrayTakes(c: Config, r: Run)
    requires IsRun(c, r) && r.states[0] == Start
    ensures (forall i :: 0 <= i < |r.states| && Settled(r.states[i]) ==> FlagMeansHalfOpen(r.states[i]))
       <==> (forall i :: 0 <= i < |r.acts| ==> !StrayTake(r.states[i], r.acts[i]))
  {
    if forall i :: 0 <= i < |r.acts| ==> !StrayTake(r.states[i], r.acts[i]) {
      forall i | 0 <= i < |r.states| && Settled(r.states[i]) ensures FlagMeansHalfOpen(r.states[i]) {
        FlagHolds(c, r, 0, i);
      }
    } else {
      var i :| 0 <= i < |r.acts| && StrayTake(r.states[i], r.acts[i]);
      InvHolds(c, r, i);
      assert StepAt(c, r, i);
      StrayTakeShows(c, r.states[i], r.acts[i]);
    }
  }

  // ---------------------------------------------------------------------
  // What the fine grain does not give
  // ---------------------------------------------------------------------

  ghost predicate Reachable(c: Config, s: Shared) {
    exists r :: IsRun(c, r) && r.states[0] == Start && r.states[|r.acts|] == s
  }

  lemma StartReachable(c: Config)
    ensures Reachable(c, Start)
  {
    var r := Run([Start], []);
    assert IsRun(c, r) && r.states[|r.acts|] == Start;
  }

  lemma Go(c: Config, s: Shared, a: Action) returns (s': Shared)
    requires Reachable(c, s) && Enabled(s, a)
    ensures Reachable(c, s') && s' == Apply(c, s, a)
  {
    s' := Apply(c, s, a);
    var r :| IsRun(c, r) && r.states[0] == Start && r.states[|r.acts|] == s;
    var r' := Run(r.states + [s'], r.acts + [a]);
    forall i: nat | i < |r'.acts| ensures StepAt(c, r', i) {
      assert i < |r.acts| ==> StepAt(c, r, i);
    }
    assert IsRun(c, r') && r'.states[0] == Start && r'.states[|r'.acts|] == s';
  }

  /** Thread `t`, standing at `pc`, runs its next access. */
  lemma Run1(c: Config, s: Shared, t: nat, now: int, pc: Pc) returns (s': Shared)
    requires Reachable(c, s) && PcOf(s, t) == pc && Enabled(s, Tick(t, now))
    ensures Reachable(c, s') && s' == Advance(c, s, t, now, pc)
  {
    s' := Go(c, s, Tick(t, now));
  }

  /** No lock held, and only thread 0 has ever made a call. */
  ghost predicate Quiet(s: Shared) {
    s.mu.None? && s.pcs.Keys <= {0} && AtRest(PcOf(s, 0))
  }

  /** Thread 0 holds the lock and stands at `pc`; the others have made no call. */
  ghost predicate Locked(s: Shared, pc: Pc, others: set<nat>) {
    s.mu == Some(0) && s.pcs.Keys <= {0} + others && PcOf(s, 0) == pc
  }

  lemma {:induction false} FailuresBelow(c: Config, n: nat) returns (s: Shared)
    requires c.Valid() && n < c.threshold
    ensures Reachable(c, s) && Quiet(s) && s.state.CircuitClosed? && s.failures == n && !s.probe
  {
    if n == 0 {
      StartReachable(c);
      s := Start;
    } else {
      s := FailuresBelow(c, n - 1);
      s := Go(c, s, Begin(0, DoFailure));
      s := Run1(c, s, 0, 0, Failing(FailureLoad));
      s := Run1(c, s, 0, 0, Failing(FailureAdd));
    }
  }

  lemma TripEnters(c: Config, start: Shared) returns (s: Shared)
    requires Reachable(c, start) && Quiet(start)
    requires start.state.CircuitClosed? && start.failures == c.threshold - 1 && !start.probe
    ensures Reachable(c, s) && Locked(s, Failing(TripCheck), {}) && s.state.CircuitClosed? && !s.probe
  {
    s := Go(c, start, Begin(0, DoFailure));
    s := Run1(c, s, 0, 0, Failing(FailureLoad));
    s := Run1(c, s, 0, 0, Failing(FailureAdd));
    s := Run1(c, s, 0, 0, Failing(TripLock));
  }

  lemma TripOnce(c: Config, start: Shared) returns (s: Shared)
    requires Reachable(c, start) && Quiet(start)
    requires start.state.CircuitClosed? && start.failures == c.threshold - 1 && !start.probe
    ensures Reachable(c, s) && Quiet(s) && s.state.CircuitOpen? && s.openedAt == 0 && !s.probe
  {
    s := TripEnters(c, start);
    s := Run1(c, s, 0, 0, Failing(TripCheck));
    s := Run1(c, s, 0, 0, Failing(TripState));
    s := Run1(c, s, 0, 0, Failing(TripOpenedAt));
    s := Run1(c, s, 0, 0, Failing(FailureUnlock));
  }

  lemma ProbeEnters(c: Config, start: Shared) returns (s: Shared)
    requires c.Valid() && Reachable(c, start) && Quiet(start)
    requires start.state.CircuitOpen? && start.openedAt == 0 && !start.probe
    ensures Reachable(c, s) && Locked(s, Allowing(AllowRecheck), {}) && s.state.CircuitOpen? && !s.probe
  {
    s := Go(c, start, Begin(0, DoAllow));
    s := Run1(c, s, 0, 0, Allowing(AllowLoad));
    s := Run1(c, s, 0, 0, Allowing(AllowOpenedAt));
    s := Run1(c, s, 0, c.resetTimeout, Allowing(AllowTime(0)));
    s := Run1(c, s, 0, 0, Allowing(AllowLock));
  }

  lemma ProbeOnce(c: Config) returns (s: Shared)
    requires c.Valid()
    ensures Reachable(c, s) && Quiet(s) && s.state.CircuitHalfOpen? && s.probe
  {
    s := FailuresBelow(c, c.threshold - 1);
    s := TripOnce(c, s);
    s := ProbeEnters(c, s);
    s := ProbeTaken(c, s);
  }

  lemma ProbeTaken(c: Config, start: Shared) returns (s: Shared)
    requires Reachable(c, start) && Locked(start, Allowing(AllowRecheck), {}) && start.state.CircuitOpen? && !start.probe
    ensures Reachable(c, s) && Quiet(s) && s.state.CircuitHalfOpen? && s.probe
  {
    s := Run1(c, start, 0, 0, Allowing(AllowRecheck));
    s := Run1(c, s, 0, 0, Allowing(OpenProbe));
    s := Run1(c, s, 0, 0, Allowing(OpenTake));
    s := Run1(c, s, 0, 0, Allowing(OpenToHalf));
    s := Run1(c, s, 0, 0, Allowing(AllowUnlock(true)));
  }

  /** Thread 1 has read half-open at line 81 and not yet looked at the probe flag. */
  ghost predicate Straggler(s: Shared) {
    && s.mu.None? && s.pcs.Keys <= {0, 1} && AtRest(PcOf(s, 0)) && PcOf(s, 1) == Allowing(HalfProbe)
  }

  lemma StragglerAppears(c: Config) returns (s: Shared)
    requires c.Valid()
    ensures Reachable(c, s) && Straggler(s) && s.state.CircuitHalfOpen? && s.probe
  {
    s := ProbeOnce(c);
    s := Go(c, s, Begin(1, DoAllow));
    s := Run1(c, s, 1, 0, Allowing(AllowLoad));
  }

  lemma RecordEnters(c: Config, start: Shared, op: Op) returns (s: Shared)
    requires Reachable(c, start) && Straggler(start) && start.state.CircuitHalfOpen? && op != DoAllow
    ensures Reachable(c, s) && Locked(s, if op == DoSuccess then Succeeding(SuccessState) else Failing(FailureState), {1})
    ensures PcOf(s, 1) == Allowing(HalfProbe)
  {
    s := Go(c, start, Begin(0, op));
    s := Run1(c, s, 0, 0, if op == DoSuccess then Succeeding(SuccessLoad) else Failing(FailureLoad));
    s := Run1(c, s, 0, 0, if op == DoSuccess then Succeeding(SuccessLock) else Failing(FailureLock));
  }

  lemma SuccessFirst(c: Config, start: Shared) returns (s: Shared)
    requires Reachable(c, start) && Straggler(start) && start.state.CircuitHalfOpen?
    ensures Reachable(c, s) && Straggler(s) && !s.probe && s.state.CircuitClosed?
  {
    s := RecordEnters(c, start, DoSuccess);
    s := Run1(c, s, 0, 0, Succeeding(SuccessState));
    s := Run1(c, s, 0, 0, Succeeding(SuccessFailures));
    s := Run1(c, s, 0, 0, Succeeding(SuccessClear));
    s := Run1(c, s, 0, 0, Succeeding(SuccessUnlock));
  }

  lemma FailureReopens(c: Config, start: Shared) returns (s: Shared)
    requires Reachable(c, start) && Locked(start, Failing(FailureState), {1}) && PcOf(start, 1) == Allowing(HalfProbe)
    ensures Reachable(c, s) && Straggler(s) && !s.probe && s.state.CircuitOpen?
  {
    s := Run1(c, start, 0, 0, Failing(FailureState));
    s := Run1(c, s, 0, 0, Failing(FailureOpenedAt));
    s := Run1(c, s, 0, 0, Failing(FailureClear));
    s := Run1(c, s, 0, 0, Failing(FailureUnlock));
  }

  lemma FailureFirst(c: Config, start: Shared) returns (s: Shared)
    requires Reachable(c, start) && Straggler(start) && start.state.CircuitHalfOpen?
    ensures Reachable(c, s) && Straggler(s) && !s.probe && s.state.CircuitOpen?
  {
    s := RecordEnters(c, start, DoFailure);
    s := FailureReopens(c, s);
  }

  ghost predicate NobodyCalls(s: Shared) { forall t: nat :: AtRest(PcOf(s, t)) }

  lemma StragglerTakes(c: Config, start: Shared) returns (s: Shared)
    requires Reachable(c, start) && Straggler(start) && !start.probe
    ensures Reachable(c, s) && s.state == start.state && s.probe
    ensures NobodyCalls(s)
  {
    s := Run1(c, start, 1, 0, Allowing(HalfProbe));
    s := Run1(c, s, 1, 0, Allowing(HalfLock));
    s := Run1(c, s, 1, 0, Allowing(HalfProbeAgain));
    s := Run1(c, s, 1, 0, Allowing(HalfTake));
    s := Run1(c, s, 1, 0, Allowing(AllowUnlock(true)));
  }

  /** The flag may stay set in the closed state: an Allow that read half-open at line 81
      takes the probe after RecordSuccess has cleared it. */
  lemma ClosedWithProbeIsReachable(c: Config) returns (s: Shared)
    requires c.Valid()
    ensures Reachable(c, s) && s.state.CircuitClosed? && s.probe && NobodyCalls(s)
  {
    s := StragglerAppears(c);
    s := SuccessFirst(c, s);
    s := StragglerTakes(c, s);
  }

  /** Program counters that calls reach when they start on an open breaker whose flag is set. */
  predicate Harmless(pc: Pc) {
    match pc
    case Allowing(a) =>
      || a.AllowLoad? || a.AllowOpenedAt? || a.AllowTime? || a.AllowLock?
      || a.AllowRecheck? || a.OpenProbe? || a == AllowUnlock(false)
    case Succeeding(s) => s.SuccessLoad? || s.SuccessReset?
    case Failing(f) => f.FailureLoad?
    case _ => true
  }

  ghost predicate Wedged(s: Shared) {
    s.state.CircuitOpen? && s.probe && forall t: nat :: Harmless(PcOf(s, t))
  }

  lemma WedgedStep(c: Config, s: Shared, a: Action)
    requires Wedged(s) && Enabled(s, a)
    ensures Wedged(Apply(c, s, a))
    ensures forall t: nat :: PcOf(Apply(c, s, a), t).Admitted? ==> PcOf(s, t).Admitted?
  {
    var s' := Apply(c, s, a);
    assert Harmless(PcOf(s, a.thread));
    forall t: nat
      ensures Harmless(PcOf(s', t))
      ensures PcOf(s', t).Admitted? ==> PcOf(s, t).Admitted?
    {
      assert t != a.thread ==> PcOf(s', t) == PcOf(s, t);
      assert Harmless(PcOf(s, t));
    }
  }

  /** An open breaker whose flag is set while no call is in progress stays open whatever
      is called afterwards, at whatever time, and admits nobody. */
  lemma {:induction false} WedgedForever(c: Config, r: Run, i: nat)
    requires IsRun(c, r) && Wedged(r.states[0]) && i < |r.states|
    ensures Wedged(r.states[i])
    ensures forall t: nat :: PcOf(r.states[i], t).Admitted? ==> PcOf(r.states[0], t).Admitted?
  {
    if i > 0 {
      WedgedForever(c, r, i - 1);
      assert StepAt(c, r, i - 1);
      WedgedStep(c, r.states[i - 1], r.acts[i - 1]);
    }
  }

  /** The wedge is reached when the straggler takes the probe after RecordFailure. */
  lemma WedgeIsReachable(c: Config) returns (s: Shared)
    requires c.Valid()
    ensures Reachable(c, s) && Wedged(s)
  {
    s := StragglerAppears(c);
    s := FailureFirst(c, s);
    s := StragglerTakes(c, s);
  }
}
