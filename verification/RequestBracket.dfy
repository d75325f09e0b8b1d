/** The circuit breaker composed with the bracket every S3 request puts around its
    call: ask Allow, make the call, then record success, record failure, or (for
    client errors) record nothing. Any number of admitted requests overlap. */
module RequestBracket {
  import opened Breaker

  datatype ErrorKind =
    | NotFound | PreconditionFailed | RetentionConflict | ChecksumMismatch
    | Throttled | VersionMismatch | AmbiguousTimeout | Network

  predicate IsClientError(k: ErrorKind) {
    k.NotFound? || k.PreconditionFailed? || k.RetentionConflict? || k.ChecksumMismatch?
  }

  /** How an admitted request ends. `NotSent` is the object-lock rejection that Put
      makes after Allow and before the call. */
  datatype Outcome = Succeeded | Failed(kind: ErrorKind) | NotSent

  predicate Records(o: Outcome) {
    o.Succeeded? || (o.Failed? && !IsClientError(o.kind))
  }

  datatype Action = Request(now: int) | Finish(outcome: Outcome, now: int)

  datatype System = System(phase: Phase, inFlight: nat)

  const Start := System(Closed(0), 0)

  predicate Enabled(s: System, a: Action) {
    a.Finish? ==> s.inFlight > 0
  }

  function Apply(c: Config, s: System, a: Action): System
    requires Enabled(s, a)
  {
    match a
    case Request(now) =>
      System(Next(c, s.phase, Allow(now)), if Admits(c, s.phase, now) then s.inFlight + 1 else s.inFlight)
    case Finish(o, now) =>
      System(if !Records(o) then s.phase
             else if o.Succeeded? then Next(c, s.phase, Success)
             else Next(c, s.phase, Failure(now)),
             s.inFlight - 1)
  }

  ghost predicate Legal(c: Config, s: System, run: seq<Action>)
    decreases |run|
  {
    run == [] || (Enabled(s, run[0]) && Legal(c, Apply(c, s, run[0]), run[1..]))
  }

  ghost function Exec(c: Config, s: System, run: seq<Action>): System
    requires Legal(c, s, run)
    decreases |run|
  {
    if run == [] then s else Exec(c, Apply(c, s, run[0]), run[1..])
  }

  lemma {:induction false} Concat(c: Config, s: System, r1: seq<Action>, r2: seq<Action>)
    requires Legal(c, s, r1) && Legal(c, Exec(c, s, r1), r2)
    ensures Legal(c, s, r1 + r2) && Exec(c, s, r1 + r2) == Exec(c, Exec(c, s, r1), r2)
    decreases |r1|
  {
    if r1 == [] {
      assert r1 + r2 == r2;
    } else {
      assert (r1 + r2)[1..] == r1[1..] + r2;
      Concat(c, Apply(c, s, r1[0]), r1[1..], r2);
    }
  }

  ghost predicate AllRecord(run: seq<Action>) {
    forall i :: 0 <= i < |run| && run[i].Finish? ==> Records(run[i].outcome)
  }

  ghost predicate NoneRecord(run: seq<Action>) {
    forall i :: 0 <= i < |run| && run[i].Finish? ==> !Records(run[i].outcome)
  }

  ghost predicate CanClose(c: Config, s: System) {
    exists run :: Legal(c, s, run) && Exec(c, s, run).phase.Closed?
  }

  /** Requests let through along a run. */
  ghost function AdmittedIn(c: Config, s: System, run: seq<Action>): nat
    requires Legal(c, s, run)
    decreases |run|
  {
    if run == [] then 0
    else (if run[0].Request? && Admits(c, s.phase, run[0].now) then 1 else 0)
         + AdmittedIn(c, Apply(c, s, run[0]), run[1..])
  }

  /** A half-open breaker refuses every request, and stays half-open, until some request
      that was admitted earlier records its outcome. */
  lemma {:induction false} HalfOpenRefusesUntilRecorded(c: Config, s: System, run: seq<Action>)
    requires s.phase.HalfOpen? && Legal(c, s, run) && NoneRecord(run)
    ensures Exec(c, s, run).phase.HalfOpen? && Exec(c, s, run).inFlight <= s.inFlight
    ensures AdmittedIn(c, s, run) == 0
    decreases |run|
  {
    if run != [] {
      assert run[0].Finish? ==> !Records(run[0].outcome);
      HalfOpenRefusesUntilRecorded(c, Apply(c, s, run[0]), run[1..]);
    }
  }

  /** Half-open with nobody in flight is a trap: no run of any kind changes it. */
  lemma {:induction false} LostProbeIsForever(c: Config, run: seq<Action>)
    requires Legal(c, System(HalfOpen, 0), run)
    ensures Exec(c, System(HalfOpen, 0), run) == System(HalfOpen, 0)
    ensures AdmittedIn(c, System(HalfOpen, 0), run) == 0
  {
    if run != [] {
      assert run[0].Request?;
      LostProbeIsForever(c, run[1..]);
    }
  }

  lemma OneAction(c: Config, s: System, a: Action)
    requires Enabled(s, a)
    ensures Legal(c, s, [a]) && Exec(c, s, [a]) == Apply(c, s, a)
  {
    var s1, rest: seq<Action> := Apply(c, s, a), [a][1..];
    assert rest == [];
    assert Legal(c, s1, rest) && Exec(c, s1, rest) == s1;
  }

  lemma TwoActions(c: Config, s: System, a: Action, b: Action)
    requires Enabled(s, a) && Enabled(Apply(c, s, a), b)
    ensures Legal(c, s, [a, b]) && Exec(c, s, [a, b]) == Apply(c, Apply(c, s, a), b)
  {
    OneAction(c, s, a);
    OneAction(c, Apply(c, s, a), b);
    Concat(c, s, [a], [b]);
    assert [a] + [b] == [a, b];
  }

  /** A shortest way back to closed that uses only recorded outcomes. */
  lemma WayBack(c: Config, s: System) returns (run: seq<Action>)
    requires c.Valid() && !(s.phase.HalfOpen? && s.inFlight == 0)
    ensures Legal(c, s, run) && AllRecord(run) && Exec(c, s, run).phase.Closed?
  {
    match s.phase
    case Closed(_) => run := [];
    case HalfOpen =>
      run := [Finish(Succeeded, 0)];
      OneAction(c, s, run[0]);
    case Open(at) =>
      var probe := Request(at + c.resetTimeout);
      var done := Finish(Succeeded, 0);
      TwoActions(c, s, probe, done);
      run := [probe, done];
  }

  /** From any state the breaker can get back to closed if and only if it is not
      half-open with nobody in flight. */
  lemma ClosableIff(c: Config, s: System)
    requires c.Valid()
    ensures CanClose(c, s) <==> !(s.phase.HalfOpen? && s.inFlight == 0)
  {
    if s.phase.HalfOpen? && s.inFlight == 0 {
      forall run | Legal(c, s, run) ensures !Exec(c, s, run).phase.Closed? {
        LostProbeIsForever(c, run);
      }
    } else {
      var run := WayBack(c, s);
    }
  }

  lemma {:induction false} ProbeStaysInFlight(c: Config, s: System, run: seq<Action>)
    requires Legal(c, s, run) && AllRecord(run)
    requires s.phase.HalfOpen? ==> s.inFlight > 0
    ensures Exec(c, s, run).phase.HalfOpen? ==> Exec(c, s, run).inFlight > 0
    decreases |run|
  {
    if run != [] {
      assert run[0].Finish? ==> Records(run[0].outcome);
      ProbeStaysInFlight(c, Apply(c, s, run[0]), run[1..]);
    }
  }

  /** When every request so far ended in success or a server error, some continuation
      of the same kind closes the breaker. */
  lemma RecordedOutcomesKeepItClosable(c: Config, run: seq<Action>) returns (more: seq<Action>)
    requires c.Valid() && Legal(c, Start, run) && AllRecord(run)
    ensures AllRecord(more) && Legal(c, Start, run + more)
    ensures Exec(c, Start, run + more).phase.Closed?
  {
    ProbeStaysInFlight(c, Start, run);
    more := WayBack(c, Exec(c, Start, run));
    Concat(c, Start, run, more);
  }

  lemma {:induction false} FailuresInARow(c: Config, n: nat) returns (run: seq<Action>)
    requires c.Valid() && n <= c.threshold
    ensures Legal(c, Start, run)
    ensures Exec(c, Start, run) == System(if n < c.threshold then Closed(n) else Open(0), 0)
  {
    if n == 0 {
      run := [];
    } else {
      var before := FailuresInARow(c, n - 1);
      var s := Exec(c, Start, before);
      var ask, fail := Request(0), Finish(Failed(Throttled), 0);
      TwoActions(c, s, ask, fail);
      Concat(c, Start, before, [ask, fail]);
      run := before + [ask, fail];
    }
  }

  /** For every configuration the trap is reached by a probe that ends in a client error,
      and from then on no continuation closes the breaker or admits a request. */
  lemma ClientErrorOnProbeTrapsBreaker(c: Config) returns (run: seq<Action>)
    requires c.Valid()
    ensures Legal(c, Start, run) && Exec(c, Start, run) == System(HalfOpen, 0)
    ensures !CanClose(c, Exec(c, Start, run))
  {
    var tripping := FailuresInARow(c, c.threshold);
    var s := Exec(c, Start, tripping);
    var probe, missing := Request(c.resetTimeout), Finish(Failed(NotFound), c.resetTimeout);
    TwoActions(c, s, probe, missing);
    Concat(c, Start, tripping, [probe, missing]);
    run := tripping + [probe, missing];
    ClosableIff(c, Exec(c, Start, run));
  }

  /** What the outcome of a lone probe does: success closes the breaker, the errors that speak
      of the server reopen it, and exactly the others, among them a request never sent, trap it. */
  lemma ProbeOutcomeDecides(c: Config, o: Outcome, now: int)
    requires c.Valid()
    ensures var s := Apply(c, System(HalfOpen, 1), Finish(o, now));
            && s.inFlight == 0
            && (s.phase == Closed(0) <==> o == Succeeded)
            && (s.phase == Open(now) <==> o in {Failed(Throttled), Failed(VersionMismatch), Failed(AmbiguousTimeout), Failed(Network)})
            && (!CanClose(c, s) <==>
                  o in {NotSent, Failed(NotFound), Failed(PreconditionFailed), Failed(RetentionConflict), Failed(ChecksumMismatch)})
  {
    ClosableIff(c, Apply(c, System(HalfOpen, 1), Finish(o, now)));
  }
}
