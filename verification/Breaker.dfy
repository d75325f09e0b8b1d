/** The S3 circuit breaker with each of its methods taken as one atomic step.
    The class keeps the four mutable fields of the source; its methods are
    proved to refine a three-phase machine and, through it, to admit requests as
    the history of calls alone says. */
module Breaker {

  const DEFAULT_THRESHOLD := 10
  const DEFAULT_RESET := 30_000_000_000  // nanoseconds

  datatype Config = Config(threshold: int, resetTimeout: int)
  {
    ghost predicate Valid() { threshold >= 1 && resetTimeout > 0 }
  }

  /** The reference machine: it has no probe flag, and a failure count only while closed. */
  datatype Phase = Closed(run: nat) | Open(at: int) | HalfOpen

  datatype Event = Allow(now: int) | Success | Failure(now: int)

  function Next(c: Config, p: Phase, e: Event): Phase {
    match (p, e)
    case (Closed(_), Success) => Closed(0)
    case (Closed(r), Failure(now)) => if r + 1 >= c.threshold then Open(now) else Closed(r + 1)
    case (Open(at), Allow(now)) => if now - at < c.resetTimeout then p else HalfOpen
    case (HalfOpen, Success) => Closed(0)
    case (HalfOpen, Failure(now)) => Open(now)
    case _ => p
  }

  /** Whether the reference machine lets a request through at time `now`. */
  predicate Admits(c: Config, p: Phase, now: int) {
    match p
    case Closed(_) => true
    case Open(at) => now - at >= c.resetTimeout
    case HalfOpen => false
  }

  datatype CircuitState = CircuitClosed | CircuitOpen | CircuitHalfOpen

  class CircuitBreaker {
    const config: Config
    var state: CircuitState
    var failures: int
    var openedAt: int
    var probeInFlight: bool
    ghost var log: seq<Event>     // every call so far
    ghost var phases: seq<Phase>  // the reference machine's phases before, between and after them

    /** The probe flag is set exactly when half-open, and a closed breaker is below threshold. */
    ghost predicate Consistent()
      reads this
    {
      && config.Valid()
      && (probeInFlight <==> state == CircuitHalfOpen)
      && (state == CircuitClosed ==> 0 <= failures < config.threshold)
    }

    ghost function View(): Phase
      requires Consistent()
      reads this
    {
      match state
      case CircuitClosed => Closed(failures)
      case CircuitOpen => Open(openedAt)
      case CircuitHalfOpen => HalfOpen
    }

    ghost predicate Valid()
      reads this
    {
      Consistent() && Trace(config, log, phases) && View() == phases[|log|]
    }

    constructor (threshold: int, resetTimeout: int)
      ensures Valid() && View() == Closed(0) && log == []
      ensures config.threshold == (if threshold < 1 then DEFAULT_THRESHOLD else threshold)
      ensures config.resetTimeout == (if resetTimeout <= 0 then DEFAULT_RESET else resetTimeout)
    {
      config := Config(if threshold < 1 then DEFAULT_THRESHOLD else threshold,
                       if resetTimeout <= 0 then DEFAULT_RESET else resetTimeout);
      state, failures, openedAt, probeInFlight, log := CircuitClosed, 0, 0, false, [];
      phases := [Closed(0)];
    }

    /** Admits everything while closed, nothing after an opening until the reset timeout is over,
        then the first request, and then nothing until its outcome is recorded. */
    method AllowRequest(now: int) returns (admitted: bool)
      requires Valid()
      modifies this`state, this`probeInFlight, this`log, this`phases
      ensures Valid() && log == old(log) + [Allow(now)]
      ensures forall p: nat :: InClosed(config, old(log), p, |old(log)|) ==> admitted
      ensures forall q: nat :: InOpen(config, old(log), q, |old(log)|) ==> (admitted <==> now - old(log)[q].now >= config.resetTimeout)
      ensures forall k: nat :: InProbe(config, old(log), k, |old(log)|) ==> !admitted
      ensures admitted == Admits(config, old(View()), now)
      ensures View() == Next(config, old(View()), Allow(now))
    {
      TraceIsExec(config, log, phases);
      HistoryDecides(config, log);
      ghost var before := View();
      admitted := true;
      if state == CircuitOpen {
        if now - openedAt < config.resetTimeout || probeInFlight {
          admitted := false;
        } else {
          probeInFlight := true;
          state := CircuitHalfOpen;
        }
      } else if state == CircuitHalfOpen {
        admitted := !probeInFlight;
        probeInFlight := true;
      }
      Note(Allow(now), before);
    }

    /** The call `e`, which has just been made, goes into the log. */
    ghost method Note(e: Event, before: Phase)
      requires Consistent() && Trace(config, log, phases) && phases[|log|] == before && View() == Next(config, before, e)
      modifies this`log, this`phases
      ensures Valid() && log == old(log) + [e]
    {
      log, phases := log + [e], phases + [Next(config, before, e)];
    }

    method RecordSuccess()
      requires Valid()
      modifies this`state, this`failures, this`probeInFlight, this`log, this`phases
      ensures Valid() && log == old(log) + [Success]
      ensures View() == Next(config, old(View()), Success)
    {
      ghost var before := View();
      if state == CircuitHalfOpen {
        state := CircuitClosed;
        failures := 0;
        probeInFlight := false;
        Note(Success, before);
        return;
      }
      failures := 0;
      Note(Success, before);
    }

    method RecordFailure(now: int)
      requires Valid()
      modifies this
      ensures Valid() && log == old(log) + [Failure(now)]
      ensures View() == Next(config, old(View()), Failure(now))
    {
      ghost var before := View();
      if state == CircuitHalfOpen {
        state := CircuitOpen;
        openedAt := now;
        probeInFlight := false;
        Note(Failure(now), before);
        return;
      }
      if state == CircuitClosed {
        failures := failures + 1;
        if failures >= config.threshold {
          state := CircuitOpen;
          openedAt := now;
        }
      }
      Note(Failure(now), before);
    }
  }

  // ---------------------------------------------------------------------
  // Laws about whole histories
  // ---------------------------------------------------------------------

  function Exec(c: Config, h: seq<Event>): Phase {
    if h == [] then Closed(0) else Next(c, Exec(c, h[..|h| - 1]), h[|h| - 1])
  }

  /** `phases` are those that the history leads through. */
  ghost predicate Trace(c: Config, h: seq<Event>, phases: seq<Phase>) {
    && |phases| == |h| + 1 && phases[0] == Closed(0)
    && forall i :: 0 <= i < |h| ==> phases[i + 1] == Next(c, phases[i], h[i])
  }

  lemma {:induction false} TraceIsExec(c: Config, h: seq<Event>, phases: seq<Phase>)
    requires Trace(c, h, phases)
    ensures phases[|h|] == Exec(c, h)
  {
    if h != [] { TraceIsExec(c, h[..|h| - 1], phases[..|h|]); }
  }

  /** Failures recorded at the end of a history, back to the latest success. */
  function Trailing(h: seq<Event>): nat {
    if h == [] then 0
    else match h[|h| - 1]
      case Success => 0
      case Failure(_) => Trailing(h[..|h| - 1]) + 1
      case Allow(_) => Trailing(h[..|h| - 1])
  }

  /** The time of the last recorded event that took the breaker into the open phase. */
  function LastOpening(c: Config, h: seq<Event>): int {
    if h == [] then 0
    else
      var p := h[..|h| - 1];
      if Exec(c, h).Open? && !Exec(c, p).Open? && h[|h| - 1].Failure? then h[|h| - 1].now
      else LastOpening(c, p)
  }

  /** Requests let through between positions `from` and the end of the history. */
  function Admitted(c: Config, h: seq<Event>, from: nat): nat
    requires from <= |h|
  {
    if |h| == from then 0
    else
      var p := h[..|h| - 1];
      var last := h[|h| - 1];
      Admitted(c, p, from) + if last.Allow? && Admits(c, Exec(c, p), last.now) then 1 else 0
  }

  /** While closed, the count is exactly the trailing run of failures, and it is below threshold. */
  lemma {:induction false} ClosedCountsTrailingFailures(c: Config, h: seq<Event>)
    requires c.Valid()
    ensures Exec(c, h).Closed? ==> Exec(c, h).run == Trailing(h) < c.threshold
  {
    if h != [] {
      ClosedCountsTrailingFailures(c, h[..|h| - 1]);
    }
  }

  /** The breaker leaves the closed phase at an event exactly when that event is a
      failure which brings the trailing run of failures up to the threshold. */
  lemma OpensExactlyAtThreshold(c: Config, h: seq<Event>, e: Event)
    requires c.Valid() && Exec(c, h).Closed?
    ensures !Exec(c, h + [e]).Closed? <==> e.Failure? && Trailing(h + [e]) == c.threshold
    ensures !Exec(c, h + [e]).Closed? ==> Exec(c, h + [e]) == Open(e.now)
  {
    ClosedCountsTrailingFailures(c, h);
    assert (h + [e])[..|h|] == h;
  }

  lemma {:induction false} OpenRemembersLastOpening(c: Config, h: seq<Event>)
    ensures Exec(c, h).Open? ==> Exec(c, h).at == LastOpening(c, h)
  {
    if h != [] {
      OpenRemembersLastOpening(c, h[..|h| - 1]);
    }
  }

  /** `h` ends inside a half-open episode whose first event is at `start`. */
  ghost predicate Episode(c: Config, h: seq<Event>, start: nat) {
    && start < |h|
    && !Exec(c, h[..start]).HalfOpen?
    && forall k :: start < k <= |h| ==> Exec(c, h[..k]).HalfOpen?
  }

  /** Every half-open episode, however long, admits exactly one request: its first
      event, which comes no earlier than the reset timeout after the breaker opened. */
  lemma {:induction false} EpisodeAdmitsExactlyOne(c: Config, h: seq<Event>, start: nat)
    requires Episode(c, h, start)
    ensures h[start].Allow?
    ensures h[start].now - LastOpening(c, h[..start]) >= c.resetTimeout
    ensures Admitted(c, h, start) == 1
  {
    var p := h[..|h| - 1];
    assert h[..|h|] == h;
    if start == |h| - 1 {
      OpenRemembersLastOpening(c, p);
      assert Admitted(c, p, start) == 0;
    } else {
      assert forall k :: start < k <= |p| ==> p[..k] == h[..k];
      assert p[..start] == h[..start];
      EpisodeAdmitsExactlyOne(c, p, start);
      assert h[..|p|] == p && Exec(c, p).HalfOpen?;
    }
  }

  // ---------------------------------------------------------------------
  // The phases, told from the history of calls alone
  // ---------------------------------------------------------------------

  /** Failures recorded between positions `p` and `n`, back to the latest success there. */
  function Fails(h: seq<Event>, p: nat, n: nat): nat
    requires n <= |h|
  {
    if n <= p then 0
    else match h[n - 1]
      case Success => 0
      case Failure(_) => Fails(h, p, n - 1) + 1
      case Allow(_) => Fails(h, p, n - 1)
  }

  /** A closed stretch begins at `p`: at the start, or after the success that ends a probe. */
  ghost predicate ClosedFrom(c: Config, h: seq<Event>, p: nat)
    requires p <= |h|
    decreases p, 0
  {
    p == 0 || (h[p - 1].Success? && exists k: nat :: k < p - 1 && ProbeAt(c, h, k) && OnlyAllows(h, k, p - 1))
  }

  /** The breaker opens at `q`: with the failure that brings a closed stretch to the threshold,
      or with the failure that ends a probe. */
  ghost predicate OpensAt(c: Config, h: seq<Event>, q: nat)
    requires q < |h|
    decreases q, 2
  {
    h[q].Failure? &&
    ((exists p: nat :: p <= q && ClosedFrom(c, h, p) && BelowUntil(c, h, p, q) && Fails(h, p, q + 1) >= c.threshold)
     || (exists k: nat :: k < q && ProbeAt(c, h, k) && OnlyAllows(h, k, q)))
  }

  /** The request at `k` is the probe: the first after an opening to come after the timeout. */
  ghost predicate ProbeAt(c: Config, h: seq<Event>, k: nat)
    requires k < |h|
    decreases k, 1
  {
    h[k].Allow? && exists q: nat :: q < k && OpensAt(c, h, q) && Early(c, h, q, k) && h[k].now - h[q].now >= c.resetTimeout
  }

  ghost predicate OnlyAllows(h: seq<Event>, k: nat, n: nat)
    requires n <= |h|
  {
    forall m :: k < m < n ==> h[m].Allow?
  }

  ghost predicate BelowUntil(c: Config, h: seq<Event>, p: nat, n: nat)
    requires n <= |h|
  {
    forall m: nat :: p <= m <= n ==> Fails(h, p, m) < c.threshold
  }

  /** Every request between `q` and `n` comes before the timeout. */
  ghost predicate Early(c: Config, h: seq<Event>, q: nat, n: nat)
    requires q < |h| && n <= |h| && h[q].Failure?
  {
    forall m :: q < m < n && h[m].Allow? ==> h[m].now - h[q].now < c.resetTimeout
  }

  /** After `n` calls: in the closed stretch from `p`, open since `q`, or probing since `k`. */
  ghost predicate InClosed(c: Config, h: seq<Event>, p: nat, n: nat)
    requires n <= |h|
  {
    p <= n && ClosedFrom(c, h, p) && BelowUntil(c, h, p, n)
  }

  ghost predicate InOpen(c: Config, h: seq<Event>, q: nat, n: nat)
    requires n <= |h|
  {
    q < n && OpensAt(c, h, q) && Early(c, h, q, n)
  }

  ghost predicate InProbe(c: Config, h: seq<Event>, k: nat, n: nat)
    requires n <= |h|
  {
    k < n && ProbeAt(c, h, k) && OnlyAllows(h, k, n)
  }

  lemma ExecAt(c: Config, h: seq<Event>, n: nat)
    requires 0 < n <= |h|
    ensures Exec(c, h[..n]) == Next(c, Exec(c, h[..n - 1]), h[n - 1])
  {
    assert h[..n][..n - 1] == h[..n - 1];
  }

  lemma ProbeBefore(c: Config, h: seq<Event>, p: nat) returns (k: nat)
    requires 0 < p <= |h| && ClosedFrom(c, h, p)
    ensures h[p - 1].Success? && InProbe(c, h, k, p - 1)
  {
    k :| k < p - 1 && ProbeAt(c, h, k) && OnlyAllows(h, k, p - 1);
  }

  lemma {:induction false} ClosedIs(c: Config, h: seq<Event>, p: nat, n: nat)
    requires c.Valid() && n <= |h| && InClosed(c, h, p, n)
    ensures Exec(c, h[..n]) == Closed(Fails(h, p, n))
    decreases n, 0
  {
    if n > p {
      assert Fails(h, p, n) < c.threshold;
      ClosedIs(c, h, p, n - 1);
      ExecAt(c, h, n);
    } else if p > 0 {
      var k := ProbeBefore(c, h, p);
      ProbeIs(c, h, k, p - 1);
      ExecAt(c, h, n);
    }
  }

  lemma {:induction false} OpeningIs(c: Config, h: seq<Event>, q: nat)
    requires c.Valid() && q < |h| && OpensAt(c, h, q)
    ensures Exec(c, h[..q + 1]) == Open(h[q].now)
    decreases q + 1, 1
  {
    ExecAt(c, h, q + 1);
    if p: nat :| p <= q && ClosedFrom(c, h, p) && BelowUntil(c, h, p, q) && Fails(h, p, q + 1) >= c.threshold {
      ClosedIs(c, h, p, q);
    } else {
      var k: nat :| k < q && ProbeAt(c, h, k) && OnlyAllows(h, k, q);
      ProbeIs(c, h, k, q);
    }
  }

  lemma {:induction false} OpenIs(c: Config, h: seq<Event>, q: nat, n: nat)
    requires c.Valid() && n <= |h| && InOpen(c, h, q, n)
    ensures Exec(c, h[..n]) == Open(h[q].now)
    decreases n, 2
  {
    if n == q + 1 {
      OpeningIs(c, h, q);
    } else {
      OpenIs(c, h, q, n - 1);
      ExecAt(c, h, n);
    }
  }

  lemma {:induction false} ProbeIs(c: Config, h: seq<Event>, k: nat, n: nat)
    requires c.Valid() && n <= |h| && InProbe(c, h, k, n)
    ensures Exec(c, h[..n]) == HalfOpen
    decreases n, 3
  {
    ExecAt(c, h, n);
    if n == k + 1 {
      var q: nat :| q < k && OpensAt(c, h, q) && Early(c, h, q, k) && h[k].now - h[q].now >= c.resetTimeout;
      OpenIs(c, h, q, k);
    } else {
      ProbeIs(c, h, k, n - 1);
    }
  }

  /** What the history says about the breaker's phase is so. */
  lemma HistoryDecides(c: Config, h: seq<Event>)
    requires c.Valid()
    ensures forall p: nat :: InClosed(c, h, p, |h|) ==> Exec(c, h) == Closed(Fails(h, p, |h|))
    ensures forall q: nat :: InOpen(c, h, q, |h|) ==> Exec(c, h) == Open(h[q].now)
    ensures forall k: nat :: InProbe(c, h, k, |h|) ==> Exec(c, h) == HalfOpen
  {
    assert h[..|h|] == h;
    forall p: nat | InClosed(c, h, p, |h|) ensures Exec(c, h) == Closed(Fails(h, p, |h|)) { ClosedIs(c, h, p, |h|); }
    forall q: nat | InOpen(c, h, q, |h|) ensures Exec(c, h) == Open(h[q].now) { OpenIs(c, h, q, |h|); }
    forall k: nat | InProbe(c, h, k, |h|) ensures Exec(c, h) == HalfOpen { ProbeIs(c, h, k, |h|); }
  }

  ghost predicate InSome(c: Config, h: seq<Event>, n: nat)
    requires n <= |h|
  {
    (exists p: nat :: InClosed(c, h, p, n)) || (exists q: nat :: InOpen(c, h, q, n)) || (exists k: nat :: InProbe(c, h, k, n))
  }

  lemma NextClosed(c: Config, h: seq<Event>, p: nat, n: nat)
    requires c.Valid() && n < |h| && InClosed(c, h, p, n)
    ensures InClosed(c, h, p, n + 1) || InOpen(c, h, n, n + 1)
  {
    if Fails(h, p, n + 1) >= c.threshold {
      assert Fails(h, p, n) < c.threshold;
      assert OpensAt(c, h, n);
    }
  }

  lemma NextOpen(c: Config, h: seq<Event>, q: nat, n: nat)
    requires n < |h| && InOpen(c, h, q, n)
    ensures InOpen(c, h, q, n + 1) || InProbe(c, h, n, n + 1)
  {
  }

  lemma NextProbe(c: Config, h: seq<Event>, k: nat, n: nat)
    requires c.Valid() && n < |h| && InProbe(c, h, k, n)
    ensures InProbe(c, h, k, n + 1) || InClosed(c, h, n + 1, n + 1) || InOpen(c, h, n, n + 1)
  {
    if h[n].Success? { assert ClosedFrom(c, h, n + 1); }
  }

  lemma NextInSome(c: Config, h: seq<Event>, n: nat)
    requires c.Valid() && n < |h| && InSome(c, h, n)
    ensures InSome(c, h, n + 1)
  {
    if p: nat :| InClosed(c, h, p, n) {
      NextClosed(c, h, p, n);
    } else if q: nat :| InOpen(c, h, q, n) {
      NextOpen(c, h, q, n);
    } else {
      var k: nat :| InProbe(c, h, k, n);
      NextProbe(c, h, k, n);
    }
  }

  /** Every history is in one of the three, so that it decides every request. */
  lemma {:induction false} HistoryCoversAll(c: Config, h: seq<Event>, n: nat)
    requires c.Valid() && n <= |h|
    ensures InSome(c, h, n)
  {
    if n == 0 {
      assert InClosed(c, h, 0, 0);
    } else {
      HistoryCoversAll(c, h, n - 1);
      NextInSome(c, h, n - 1);
    }
  }

  /** A breaker that never had as many failures in a row as the threshold has never opened. */
  lemma NeverTripped(c: Config, h: seq<Event>)
    requires c.Valid() && forall m: nat :: m <= |h| ==> Fails(h, 0, m) < c.threshold
    ensures InClosed(c, h, 0, |h|) && Exec(c, h).Closed?
  {
    HistoryDecides(c, h);
  }
}
