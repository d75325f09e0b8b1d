/** What the promote counters count, over every run without panics: each of them the steps of
    one kind since the process started, and together they balance. */
module PipelineCounts {
  import opened Prelude
  import opened Pipeline
  import opened PipelineShape
  import opened PipelineAlone

  // ---------------------------------------------------------------------
  // What is counted
  // ---------------------------------------------------------------------

  /** A leader reads its row; its upload is marked in the row; it finds the row durable, or the
      object by HEAD; it returns an error; it fails to mark what HEAD found. */
  datatype Kind = Starts | Marking | Skipping | Failing | MarkFailing

  /** Step `a` is of the kind. */
  ghost predicate Event(env: Env, s: State, a: Action, k: Kind) {
    && a.Tick? && a.id in s.calls && s.calls[a.id].pc.Promoting?
    && var p, x := s.calls[a.id].pc.p, At(s, s.calls[a.id].blob);
       match k
       case Starts => p.PStatus?
       case Marking => p.PMark? && a.outcome.Ok?
       case Skipping =>
         a.outcome.Ok? && ((p.PStatus? && x.status.Some? && x.status.value.commit == Durable) || (p.PHead? && Found(env, x, p.st)))
       case Failing => p == PDelete(false)
       case MarkFailing => p.PHeadMark? && !a.outcome.Ok?
  }

  ghost function One(b: bool): nat { if b then 1 else 0 }

  /** How many of the first `n` steps, since the last crash, are of the kind. */
  ghost function Events(env: Env, r: Run, n: nat, k: Kind): nat
    requires n <= |r.acts| < |r.states|
  {
    if n == 0 || r.acts[n - 1].Crash? then 0
    else Events(env, r, n - 1, k) + One(Event(env, r.states[n - 1], r.acts[n - 1], k))
  }

  function Counter(c: Counters, k: Kind): nat {
    match k
    case Starts => c.attempts
    case Marking => c.successes
    case Skipping => c.skipped
    case Failing => c.failures
    case MarkFailing => c.headSkipFailures
  }

  // ---------------------------------------------------------------------
  // Calls that are between an event and its counter
  // ---------------------------------------------------------------------

  /** `Marked`: its upload is marked and not yet counted as a success. `Failed`: counted as a
      failure and not yet returned. `Undecided`: tried, and not yet counted as anything else. */
  datatype Stage = Marked | Failed | Undecided

  predicate In(st: Stage, pc: Pc) {
    pc.Promoting? &&
    match st
    case Marked => pc.p.PReget? || pc.p.PReput?
    case Failed => (pc.p.PPublish? && !pc.p.own) || pc.p == PDelete(false)
    case Undecided => pc.p.PHead? || pc.p.PRead? || pc.p.PUpload? || pc.p.PMark? || pc.p.PReget? || pc.p.PReput?
  }

  ghost function Ids(calls: map<nat, Call>, st: Stage): set<nat> {
    set id | id in calls && In(st, calls[id].pc)
  }

  ghost predicate Exact(env: Env, r: Run, n: nat, k: Kind)
    requires n <= |r.acts| < |r.states|
  {
    var s := r.states[n];
    Counter(s.counters, k) + (if k.Marking? then |Ids(s.calls, Marked)| else 0)
    == Events(env, r, n, k) + (if k.Failing? then |Ids(s.calls, Failed)| else 0)
  }

  ghost predicate Balanced(s: State) {
    var c := s.counters;
    c.attempts + c.headSkipFailures == c.successes + c.failures + c.skipped + |Ids(s.calls, Undecided)|
  }

  // ---------------------------------------------------------------------
  // One step
  // ---------------------------------------------------------------------

  lemma SameRest(x: set<nat>, y: set<nat>, id: nat)
    requires forall i: nat :: i != id ==> (i in x <==> i in y)
    ensures x - {id} == y - {id}
  {
  }

  lemma SizeMinus(ids: set<nat>, id: nat)
    ensures |ids| == |ids - {id}| + One(id in ids)
  {
    if id in ids {
      assert ids == (ids - {id}) + {id};
    } else {
      assert ids == ids - {id};
    }
  }

  /** Call `id` moved or ended, and no other call did. */
  ghost predicate MovedOnly(calls: map<nat, Call>, calls': map<nat, Call>, id: nat) {
    && id in calls && calls'.Keys <= calls.Keys && calls.Keys <= calls'.Keys + {id}
    && (forall i :: i in calls' && i != id ==> calls'[i] == calls[i])
  }

  lemma IdsFollow(calls: map<nat, Call>, calls': map<nat, Call>, id: nat, st: Stage)
    requires MovedOnly(calls, calls', id)
    ensures |Ids(calls', st)| + One(In(st, calls[id].pc)) == |Ids(calls, st)| + One(id in calls' && In(st, calls'[id].pc))
  {
    var before, after := Ids(calls, st), Ids(calls', st);
    forall i: nat | i != id ensures i in before <==> i in after {
      assert i in calls.Keys ==> i in calls'.Keys + {id};
      assert i in calls'.Keys ==> i in calls.Keys;
    }
    SameRest(before, after, id);
    SizeMinus(before, id);
    SizeMinus(after, id);
  }

  lemma TickMoves(env: Env, s: State, id: nat, o: Outcome)
    requires TickAllowed(env, s, id, o)
    ensures MovedOnly(s.calls, TickStep(env, s, id, o).calls, id)
  {
    var s' := TickStep(env, s, id, o);
    TickShape(env, s, id, o);
    forall i | i in s.calls.Keys ensures i in s'.calls.Keys + {id} {
      if i != id { assert i in s.calls.Keys - {id}; }
    }
  }

  /** A promoter's step on its own blob: each counter moves with its events. */
  lemma LocalCount(env: Env, x: Blob, p: PromotePc, ack: Option<Bytes>, o: Outcome, k: Kind)
    requires Busy(p)
    ensures var l, pc := PromoteStep(env, x, p, ack, o), Promoting(p, ack);
            && l.go.Goto? && l.go.pc.Promoting?
            && Counter(l.count, k) + (if k.Marking? then One(In(Marked, l.go.pc)) else 0)
               == (match k
                   case Starts => One(p.PStatus?)
                   case Marking => One(p.PMark? && o.Ok?) + One(In(Marked, pc))
                   case Skipping => One(o.Ok? && ((p.PStatus? && x.status.Some? && x.status.value.commit == Durable) || (p.PHead? && Found(env, x, p.st))))
                   case Failing => One(In(Failed, l.go.pc))
                   case MarkFailing => One(p.PHeadMark? && !o.Ok?))
            && !In(Failed, pc)
  {
  }

  lemma LocalBalance(env: Env, x: Blob, p: PromotePc, ack: Option<Bytes>, o: Outcome)
    requires Busy(p)
    ensures var l := PromoteStep(env, x, p, ack, o);
            l.count.attempts + l.count.headSkipFailures + One(In(Undecided, Promoting(p, ack)))
            == l.count.successes + l.count.failures + l.count.skipped + One(l.go.Goto? && In(Undecided, l.go.pc))
  {
  }

  lemma OthersUncounted(env: Env, x: Blob, pc: Pc, o: Outcome)
    requires IsLocal(pc) && !pc.Promoting?
    ensures var l := LocalStep(env, x, pc, o);
            l.count == Zero && (l.go.Goto? && l.go.pc.Promoting? ==> l.go.pc.p.PJoin?)
  {
  }

  /** The other steps of a call count nothing, and move it between places that matter only by
      returning an error. */
  ghost predicate Shared(s: State, s': State, id: nat) {
    && id in s.calls && s'.counters == s.counters
    && (id in s'.calls ==> !In(Marked, s'.calls[id].pc) && !In(Undecided, s'.calls[id].pc))
    && !In(Marked, s.calls[id].pc) && !In(Undecided, s.calls[id].pc)
    && (In(Failed, s.calls[id].pc) <==>
          (id in s'.calls && In(Failed, s'.calls[id].pc)) || (s.calls[id].pc.Promoting? && s.calls[id].pc.p == PDelete(false)))
    && (s.calls[id].pc.Promoting? && s.calls[id].pc.p == PDelete(false) ==> id !in s'.calls)
  }

  lemma FlightShared(s: State, id: nat, b: BlobId, p: PromotePc, ack: Option<Bytes>, o: Outcome)
    requires id in s.calls && s.calls[id] == Call(b, Promoting(p, ack)) && !Busy(p)
    requires p.PWait? && !o.Cancel? ==> p.flight in s.promoteFlights && s.promoteFlights[p.flight].result.Some?
    ensures Shared(s, FlightStep(s, id, b, p, ack, o), id)
  {
  }

  lemma ReadShared(env: Env, s: State, id: nat, b: BlobId, r: ReadPc, o: Outcome)
    requires id in s.calls && s.calls[id] == Call(b, Reading(r))
    requires r.RWait? && !o.Cancel? ==> r.flight in s.restoreFlights && s.restoreFlights[r.flight].result.Some?
    ensures Shared(s, ReadStep(env, s, id, b, r, o), id)
  {
    var t, go := ReadFollows(env, s, id, b, r, o);
  }

  lemma TickShared(env: Env, s: State, id: nat, o: Outcome)
    requires TickAllowed(env, s, id, o) && !IsLocal(s.calls[id].pc)
    ensures Shared(s, TickStep(env, s, id, o), id)
  {
    var b, pc := s.calls[id].blob, s.calls[id].pc;
    if pc.Promoting? {
      FlightShared(s, id, b, pc.p, pc.ackOnSuccess, o);
    } else {
      ReadShared(env, s, id, b, pc.r, o);
    }
  }

  lemma LocalCounters(env: Env, s: State, id: nat, o: Outcome)
    requires TickAllowed(env, s, id, o) && IsLocal(s.calls[id].pc) && !o.Panic?
    ensures TickStep(env, s, id, o).counters == Add(s.counters, LocalStep(env, At(s, s.calls[id].blob), s.calls[id].pc, o).count)
  {
  }

  /** How a step moves a counter and the calls beside it. */
  ghost predicate Moves(env: Env, s: State, a: Action, s': State, k: Kind) {
    && Counter(s'.counters, k) + (if k.Marking? then |Ids(s'.calls, Marked)| else 0) + (if k.Failing? then |Ids(s.calls, Failed)| else 0)
       == Counter(s.counters, k) + One(Event(env, s, a, k)) + (if k.Marking? then |Ids(s.calls, Marked)| else 0)
          + (if k.Failing? then |Ids(s'.calls, Failed)| else 0)
  }

  /** The counters after a step of a call are those before plus `count`, and the call went to `go`. */
  ghost predicate Tallies(s: State, s': State, id: nat, count: Counters, go: Then) {
    && id in s.calls && s'.counters == Add(s.counters, count) && MovedOnly(s.calls, s'.calls, id)
    && (if go.Goto? then id in s'.calls && s'.calls[id].pc == go.pc else id !in s'.calls)
  }

  lemma LocalTallies(env: Env, s: State, id: nat, o: Outcome)
    requires TickAllowed(env, s, id, o) && IsLocal(s.calls[id].pc) && !o.Panic?
    ensures var l := LocalStep(env, At(s, s.calls[id].blob), s.calls[id].pc, o);
            Tallies(s, TickStep(env, s, id, o), id, l.count, l.go)
  {
    TickMoves(env, s, id, o);
    LocalCounters(env, s, id, o);
    TickLocalIs(env, s, id, o);
  }

  lemma PromoterMoves(env: Env, s: State, s': State, id: nat, o: Outcome, k: Kind)
    requires id in s.calls && s.calls[id].pc.Promoting? && Busy(s.calls[id].pc.p)
    requires var l := PromoteStep(env, At(s, s.calls[id].blob), s.calls[id].pc.p, s.calls[id].pc.ackOnSuccess, o);
             Tallies(s, s', id, l.count, l.go)
    ensures Moves(env, s, Tick(id, o), s', k)
  {
    IdsFollow(s.calls, s'.calls, id, Marked);
    IdsFollow(s.calls, s'.calls, id, Failed);
    LocalCount(env, At(s, s.calls[id].blob), s.calls[id].pc.p, s.calls[id].pc.ackOnSuccess, o, k);
  }

  lemma OtherMoves(env: Env, s: State, s': State, id: nat, o: Outcome, k: Kind)
    requires id in s.calls && IsLocal(s.calls[id].pc) && !s.calls[id].pc.Promoting?
    requires var l := LocalStep(env, At(s, s.calls[id].blob), s.calls[id].pc, o);
             Tallies(s, s', id, l.count, l.go)
    ensures Moves(env, s, Tick(id, o), s', k)
  {
    IdsFollow(s.calls, s'.calls, id, Marked);
    IdsFollow(s.calls, s'.calls, id, Failed);
    OthersUncounted(env, At(s, s.calls[id].blob), s.calls[id].pc, o);
  }

  lemma TickLocalMoves(env: Env, s: State, id: nat, o: Outcome, k: Kind)
    requires TickAllowed(env, s, id, o) && IsLocal(s.calls[id].pc) && !o.Panic?
    ensures Moves(env, s, Tick(id, o), TickStep(env, s, id, o), k)
  {
    LocalTallies(env, s, id, o);
    if s.calls[id].pc.Promoting? {
      PromoterMoves(env, s, TickStep(env, s, id, o), id, o, k);
    } else {
      OtherMoves(env, s, TickStep(env, s, id, o), id, o, k);
    }
  }

  lemma TickSharedMoves(env: Env, s: State, id: nat, o: Outcome, k: Kind)
    requires TickAllowed(env, s, id, o) && !IsLocal(s.calls[id].pc)
    ensures Moves(env, s, Tick(id, o), TickStep(env, s, id, o), k)
  {
    var s' := TickStep(env, s, id, o);
    TickMoves(env, s, id, o);
    TickShared(env, s, id, o);
    IdsFollow(s.calls, s'.calls, id, Marked);
    IdsFollow(s.calls, s'.calls, id, Failed);
  }

  lemma StillMoves(env: Env, s: State, a: Action, k: Kind)
    requires Enabled(env, s, a) && !a.Tick? && !a.Crash? && s.next !in s.calls
    ensures Moves(env, s, a, Apply(env, s, a), k)
  {
    StillIds(env, s, a, Marked);
    StillIds(env, s, a, Failed);
  }

  lemma StillIds(env: Env, s: State, a: Action, st: Stage)
    requires Enabled(env, s, a) && !a.Tick? && !a.Crash? && s.next !in s.calls
    ensures Ids(Apply(env, s, a).calls, st) == Ids(s.calls, st) && Apply(env, s, a).counters == s.counters
  {
  }

  lemma StepMoves(env: Env, s: State, a: Action, k: Kind)
    requires !env.panics && Enabled(env, s, a) && !a.Crash? && s.next !in s.calls
    ensures Moves(env, s, a, Apply(env, s, a), k)
  {
    if !a.Tick? {
      StillMoves(env, s, a, k);
    } else if IsLocal(s.calls[a.id].pc) {
      TickLocalMoves(env, s, a.id, a.outcome, k);
    } else {
      TickSharedMoves(env, s, a.id, a.outcome, k);
    }
  }

  // ---------------------------------------------------------------------
  // Every run
  // ---------------------------------------------------------------------

  lemma FreshStart(env: Env, s: State, st: Stage)
    requires s.calls == map[] && s.counters == Zero
    ensures Ids(s.calls, st) == {}
  {
  }

  lemma ExactStep(env: Env, r: Run, n: nat, k: Kind)
    requires !env.panics && n < |r.acts| && |r.states| == |r.acts| + 1 && StepAt(env, r, n) && r.states[n].next !in r.states[n].calls
    requires Exact(env, r, n, k)
    ensures Exact(env, r, n + 1, k)
  {
    if r.acts[n].Crash? {
      FreshStart(env, r.states[n + 1], Marked);
      FreshStart(env, r.states[n + 1], Failed);
    } else {
      StepMoves(env, r.states[n], r.acts[n], k);
    }
  }

  lemma {:induction false} ExactHolds(env: Env, r: Run, n: nat, k: Kind)
    requires !env.panics && IsRun(env, r) && n <= |r.acts|
    ensures Exact(env, r, n, k)
  {
    if n == 0 {
      FreshStart(env, Start, Marked);
      FreshStart(env, Start, Failed);
    } else {
      ExactHolds(env, r, n - 1, k);
      LeaderHolds(env, r, n - 1);
      assert StepAt(env, r, n - 1) && LeaderAt(r.states[n - 1], r.states[n - 1].next);
      ExactStep(env, r, n - 1, k);
    }
  }

  ghost predicate NoPromotes(s: State) { forall id :: id in s.calls ==> !s.calls[id].pc.Promoting? }

  lemma NobodyIn(s: State, st: Stage)
    requires NoPromotes(s)
    ensures Ids(s.calls, st) == {}
  {
  }

  /** In every run without panics, whenever no promote is in flight: attempts counts the leaders
      that began, successes the uploads that were marked in their row, skipped the rows found
      durable and the objects found by HEAD, and failures the leaders that returned an error,
      each since the process started. */
  lemma EachCounterCountsItsEvents(env: Env, r: Run, n: nat, k: Kind)
    requires !env.panics && IsRun(env, r) && n <= |r.acts| && NoPromotes(r.states[n])
    ensures Counter(r.states[n].counters, k) == Events(env, r, n, k)
  {
    ExactHolds(env, r, n, k);
    NobodyIn(r.states[n], Marked);
    NobodyIn(r.states[n], Failed);
  }

  lemma BalanceTick(env: Env, s: State, id: nat, o: Outcome)
    requires !o.Panic? && Balanced(s) && TickAllowed(env, s, id, o)
    ensures Balanced(TickStep(env, s, id, o))
  {
    var b, pc, s' := s.calls[id].blob, s.calls[id].pc, TickStep(env, s, id, o);
    TickMoves(env, s, id, o);
    IdsFollow(s.calls, s'.calls, id, Undecided);
    if !IsLocal(pc) {
      TickShared(env, s, id, o);
    } else {
      LocalCounters(env, s, id, o);
      TickLocalIs(env, s, id, o);
      if pc.Promoting? { LocalBalance(env, At(s, b), pc.p, pc.ackOnSuccess, o); } else { OthersUncounted(env, At(s, b), pc, o); }
    }
  }

  lemma BalanceStep(env: Env, s: State, a: Action)
    requires !env.panics && Balanced(s) && Enabled(env, s, a) && s.next !in s.calls
    ensures Balanced(Apply(env, s, a))
  {
    if a.Tick? {
      BalanceTick(env, s, a.id, a.outcome);
    } else if a.Crash? {
      FreshStart(env, Apply(env, s, a), Undecided);
    } else {
      StillIds(env, s, a, Undecided);
    }
  }

  lemma BalanceFresh(s: State)
    requires s.calls == map[] && s.counters == Zero
    ensures Balanced(s)
  {
    assert Ids(s.calls, Undecided) == {};
  }

  lemma BalanceAt(env: Env, r: Run, i: nat)
    requires !env.panics && i < |r.acts| && |r.states| == |r.acts| + 1 && StepAt(env, r, i)
    requires LeaderInv(r.states[i]) && Balanced(r.states[i])
    ensures Balanced(r.states[i + 1])
  {
    assert LeaderAt(r.states[i], r.states[i].next);
    BalanceStep(env, r.states[i], r.acts[i]);
  }

  lemma {:induction false} BalanceHolds(env: Env, r: Run, n: nat)
    requires !env.panics && IsRun(env, r) && n <= |r.acts|
    ensures Balanced(r.states[n])
  {
    if n == 0 {
      BalanceFresh(r.states[0]);
    } else {
      BalanceHolds(env, r, n - 1);
      LeaderHolds(env, r, n - 1);
      BalanceAt(env, r, n - 1);
    }
  }

  /** While no promote is in flight, successes, failures and skips together are the attempts
      plus the HEAD-skips whose MarkDurable failed (those were counted twice). */
  lemma CountersBalanceAtRest(env: Env, r: Run, n: nat)
    requires !env.panics && IsRun(env, r) && n <= |r.acts| && NoPromotes(r.states[n])
    ensures var c := r.states[n].counters;
            c.successes + c.failures + c.skipped == c.attempts + c.headSkipFailures
  {
    BalanceHolds(env, r, n);
    NobodyIn(r.states[n], Undecided);
  }
}
