/** PromotionJob.runOnce: a batch of `n` placements, fed through a channel to `par` workers
    whose results one loop adds up. A placement is named by its position in the batch. */
module PromotionPool {

  /** `par` is the parallelism after both clamps, so between one and the batch length. */
  datatype Batch = Batch(n: nat, par: nat)
  {
    ghost predicate Valid() { 1 <= par <= n }
  }

  datatype Outcome = Outcome(item: nat, ok: bool)

  datatype WorkerPc = Idle | Checking(item: nat) | Promoting(item: nat) | Sending(res: Outcome) | Gone

  datatype MainPc = Feeding | Collecting | Finished

  datatype State = State(
    main: MainPc, fed: nat,
    workCh: seq<nat>, workClosed: bool,
    workers: seq<WorkerPc>,
    resultCh: seq<Outcome>, resultClosed: bool,
    seen: seq<Outcome>,             // results taken so far
    promoted: nat, failed: nat,
    cancelled: bool)

  function Start(b: Batch): State {
    State(Feeding, 0, [], false, seq(b.par, _ => Idle), [], false, [], 0, 0, false)
  }

  datatype Action =
    | Main                       // runOnce itself feeds, closes, collects or ends
    | Work(w: nat, ok: bool)     // worker `w` moves; `ok` is Promote's outcome
    | CloseResults               // the waiting goroutine
    | Cancel

  /** Channel sends wait for room, receives for an element or the close. */
  ghost predicate Enabled(b: Batch, s: State, a: Action) {
    match a
    case Main =>
      (match s.main
       case Feeding => s.fed < b.n ==> |s.workCh| < b.n
       case Collecting => s.resultCh != [] || s.resultClosed
       case Finished => false)
    case Work(w, _) => w < |s.workers| && WorkerMoves(b, s, w)
    case CloseResults =>
      !s.main.Feeding? && !s.resultClosed && forall w :: 0 <= w < |s.workers| ==> s.workers[w].Gone?
    case Cancel => !s.cancelled
  }

  ghost predicate WorkerMoves(b: Batch, s: State, w: nat)
    requires w < |s.workers|
  {
    match s.workers[w]
    case Idle => s.workCh != [] || s.workClosed
    case Sending(_) => |s.resultCh| < b.n
    case Gone => false
    case _ => true
  }

  function MainStep(b: Batch, s: State): State {
    match s.main
    case Feeding =>
      if s.fed < b.n then s.(workCh := s.workCh + [s.fed], fed := s.fed + 1)
      else s.(workClosed := true, main := Collecting)
    case Collecting =>
      if s.resultCh == [] then s.(main := Finished)
      else
        var res := s.resultCh[0];
        s.(resultCh := s.resultCh[1..], seen := s.seen + [res],
           promoted := if res.ok then s.promoted + 1 else s.promoted,
           failed := if res.ok then s.failed else s.failed + 1)
    case Finished => s
  }

  function NextPc(s: State, pc: WorkerPc, ok: bool): WorkerPc {
    match pc
    case Idle => if s.workCh != [] then Checking(s.workCh[0]) else Gone
    case Checking(item) => if s.cancelled then Sending(Outcome(item, false)) else Promoting(item)
    case Promoting(item) => Sending(Outcome(item, ok))
    case Sending(_) => Idle
    case Gone => Gone
  }

  function WorkStep(s: State, w: nat, ok: bool): State
    requires w < |s.workers|
  {
    var pc := s.workers[w];
    s.(workers := s.workers[w := NextPc(s, pc, ok)],
       workCh := if pc.Idle? && s.workCh != [] then s.workCh[1..] else s.workCh,
       resultCh := if pc.Sending? then s.resultCh + [pc.res] else s.resultCh)
  }

  ghost function Apply(b: Batch, s: State, a: Action): State
    requires Enabled(b, s, a)
  {
    match a
    case Main => MainStep(b, s)
    case Work(w, ok) => WorkStep(s, w, ok)
    case CloseResults => s.(resultClosed := true)
    case Cancel => s.(cancelled := true)
  }

  datatype Run = Run(states: seq<State>, acts: seq<Action>)

  ghost predicate StepAt(b: Batch, r: Run, i: nat)
    requires i < |r.acts| && |r.states| == |r.acts| + 1
  {
    Enabled(b, r.states[i], r.acts[i]) && r.states[i + 1] == Apply(b, r.states[i], r.acts[i])
  }

  ghost predicate IsRun(b: Batch, r: Run) {
    && |r.states| == |r.acts| + 1 && r.states[0] == Start(b)
    && forall i: nat :: i < |r.acts| ==> StepAt(b, r, i)
  }

  // ---------------------------------------------------------------------
  // Counting where each placement is
  // ---------------------------------------------------------------------

  function One(yes: bool): nat { if yes then 1 else 0 }

  function InWork(ch: seq<nat>, k: nat): nat {
    if ch == [] then 0 else One(ch[0] == k) + InWork(ch[1..], k)
  }

  function Has(pc: WorkerPc, k: nat): bool {
    match pc
    case Checking(item) => item == k
    case Promoting(item) => item == k
    case Sending(res) => res.item == k
    case _ => false
  }

  function AtWorkers(ws: seq<WorkerPc>, k: nat): nat {
    if ws == [] then 0 else AtWorkers(ws[..|ws| - 1], k) + One(Has(ws[|ws| - 1], k))
  }

  function InResults(ch: seq<Outcome>, k: nat): nat {
    if ch == [] then 0 else One(ch[0].item == k) + InResults(ch[1..], k)
  }

  lemma {:induction false} AtWorkersUpdate(ws: seq<WorkerPc>, w: nat, pc: WorkerPc, k: nat)
    requires w < |ws|
    ensures AtWorkers(ws[w := pc], k) == AtWorkers(ws, k) - One(Has(ws[w], k)) + One(Has(pc, k))
  {
    var n := |ws| - 1;
    if w == n {
      assert ws[w := pc][..n] == ws[..n];
    } else {
      assert ws[w := pc][..n] == ws[..n][w := pc];
      AtWorkersUpdate(ws[..n], w, pc, k);
    }
  }

  lemma {:induction false} InResultsAppend(ch: seq<Outcome>, res: Outcome, k: nat)
    ensures InResults(ch + [res], k) == InResults(ch, k) + One(res.item == k)
  {
    if ch != [] {
      assert (ch + [res])[1..] == ch[1..] + [res];
      InResultsAppend(ch[1..], res, k);
    }
  }

  lemma {:induction false} InWorkAppend(ch: seq<nat>, item: nat, k: nat)
    ensures InWork(ch + [item], k) == InWork(ch, k) + One(item == k)
  {
    if ch != [] {
      assert (ch + [item])[1..] == ch[1..] + [item];
      InWorkAppend(ch[1..], item, k);
    }
  }

  lemma {:induction false} IdleHasNone(n: nat, k: nat)
    ensures AtWorkers(seq(n, _ => Idle), k) == 0
  {
    if n > 0 {
      assert seq(n, _ => Idle)[..n - 1] == seq(n - 1, _ => Idle);
      IdleHasNone(n - 1, k);
    }
  }

  /** Each placement fed so far is in exactly one place. */
  ghost predicate Placed(s: State, k: nat) {
    InWork(s.workCh, k) + AtWorkers(s.workers, k) + InResults(s.resultCh, k) + InResults(s.seen, k) == One(k < s.fed)
  }

  lemma FeedPlaces(b: Batch, s: State, k: nat)
    requires Placed(s, k) && s.main.Feeding?
    ensures Placed(MainStep(b, s), k)
  {
    InWorkAppend(s.workCh, s.fed, k);
  }

  lemma CollectPlaces(b: Batch, s: State, k: nat)
    requires Placed(s, k) && !s.main.Feeding?
    ensures Placed(MainStep(b, s), k)
  {
    if s.main.Collecting? && s.resultCh != [] {
      InResultsAppend(s.seen, s.resultCh[0], k);
    }
  }

  lemma MainPlaces(b: Batch, s: State, k: nat)
    requires Placed(s, k)
    ensures Placed(MainStep(b, s), k)
  {
    if s.main.Feeding? { FeedPlaces(b, s, k); } else { CollectPlaces(b, s, k); }
  }

  lemma WorkPlaces(s: State, w: nat, ok: bool, k: nat)
    requires w < |s.workers| && Placed(s, k)
    ensures Placed(WorkStep(s, w, ok), k)
  {
    var pc := s.workers[w];
    AtWorkersUpdate(s.workers, w, NextPc(s, pc, ok), k);
    if pc.Sending? { InResultsAppend(s.resultCh, pc.res, k); }
  }

  // ---------------------------------------------------------------------
  // Invariant
  // ---------------------------------------------------------------------

  function Busy(ws: seq<WorkerPc>): nat {
    if ws == [] then 0 else Busy(ws[..|ws| - 1]) + One(!ws[|ws| - 1].Idle? && !ws[|ws| - 1].Gone?)
  }

  lemma {:induction false} BusyUpdate(ws: seq<WorkerPc>, w: nat, pc: WorkerPc)
    requires w < |ws|
    ensures Busy(ws[w := pc]) == Busy(ws) - One(!ws[w].Idle? && !ws[w].Gone?) + One(!pc.Idle? && !pc.Gone?)
    ensures !ws[w].Idle? && !ws[w].Gone? ==> Busy(ws) >= 1
  {
    var n := |ws| - 1;
    if w == n {
      assert ws[w := pc][..n] == ws[..n];
    } else {
      assert ws[w := pc][..n] == ws[..n][w := pc];
      BusyUpdate(ws[..n], w, pc);
    }
  }

  lemma {:induction false} NoneBusy(n: nat)
    ensures Busy(seq(n, _ => Idle)) == 0
  {
    if n > 0 {
      assert seq(n, _ => Idle)[..n - 1] == seq(n - 1, _ => Idle);
      NoneBusy(n - 1);
    }
  }

  function Oks(rs: seq<Outcome>): nat {
    if rs == [] then 0 else Oks(rs[..|rs| - 1]) + One(rs[|rs| - 1].ok)
  }

  ghost predicate AllGone(s: State) { forall w :: 0 <= w < |s.workers| ==> s.workers[w].Gone? }

  ghost predicate Inv(b: Batch, s: State) {
    && |s.workers| == b.par && s.fed <= b.n
    && s.fed == |s.workCh| + Busy(s.workers) + |s.resultCh| + |s.seen|
    && (s.workClosed <==> !s.main.Feeding?) && (s.workClosed ==> s.fed == b.n)
    && (forall w :: 0 <= w < |s.workers| && s.workers[w].Gone? ==> s.workClosed && s.workCh == [])
    && (s.resultClosed ==> AllGone(s) && s.workClosed)
    && (s.main.Finished? ==> s.resultClosed && s.resultCh == [])
    && s.promoted == Oks(s.seen) && s.promoted + s.failed == |s.seen|
  }

  lemma MainInv(b: Batch, s: State)
    requires Inv(b, s) && Enabled(b, s, Main)
    ensures Inv(b, MainStep(b, s))
  {
    match s.main {
      case Feeding =>
      case Collecting =>
        if s.resultCh != [] { assert (s.seen + [s.resultCh[0]])[..|s.seen|] == s.seen; }
    }
  }

  lemma WorkInv(b: Batch, s: State, w: nat, ok: bool)
    requires Inv(b, s) && w < |s.workers| && WorkerMoves(b, s, w)
    ensures Inv(b, WorkStep(s, w, ok))
  {
    BusyUpdate(s.workers, w, NextPc(s, s.workers[w], ok));
    assert !s.resultClosed;
  }

  lemma StepInv(b: Batch, s: State, a: Action)
    requires Inv(b, s) && Enabled(b, s, a)
    ensures Inv(b, Apply(b, s, a)) && forall k: nat :: Placed(s, k) ==> Placed(Apply(b, s, a), k)
  {
    match a {
      case Main =>
        MainInv(b, s);
        forall k: nat | Placed(s, k) ensures Placed(MainStep(b, s), k) { MainPlaces(b, s, k); }
      case Work(w, ok) =>
        WorkInv(b, s, w, ok);
        forall k: nat | Placed(s, k) ensures Placed(WorkStep(s, w, ok), k) { WorkPlaces(s, w, ok, k); }
      case _ =>
    }
  }

  lemma {:induction false} InvHolds(b: Batch, r: Run, n: nat)
    requires b.Valid() && IsRun(b, r) && n <= |r.acts|
    ensures Inv(b, r.states[n]) && forall k: nat :: Placed(r.states[n], k)
  {
    if n == 0 {
      NoneBusy(b.par);
      forall k: nat ensures Placed(Start(b), k) { IdleHasNone(b.par, k); }
    } else {
      InvHolds(b, r, n - 1);
      assert StepAt(b, r, n - 1);
      StepInv(b, r.states[n - 1], r.acts[n - 1]);
    }
  }

  // ---------------------------------------------------------------------
  // What it means
  // ---------------------------------------------------------------------

  /** When runOnce has collected, every placement has exactly one result, the workers are
      gone, and the two counters split the batch into successes and failures. */
  lemma EveryPlacementGetsOneResult(b: Batch, r: Run)
    requires b.Valid() && IsRun(b, r) && r.states[|r.acts|].main.Finished?
    ensures var s := r.states[|r.acts|];
            && AllGone(s) && |s.seen| == b.n && (forall k: nat :: InResults(s.seen, k) == One(k < b.n))
            && s.promoted == Oks(s.seen) && s.promoted + s.failed == b.n
  {
    var s := r.states[|r.acts|];
    InvHolds(b, r, |r.acts|);
    assert s.workers[0].Gone?;
    GoneHaveNothing(s.workers);
    forall k: nat ensures InResults(s.seen, k) == One(k < b.n) { assert Placed(s, k); GoneHaveNone(s.workers, k); }
  }

  lemma {:induction false} GoneHaveNone(ws: seq<WorkerPc>, k: nat)
    requires forall w :: 0 <= w < |ws| ==> ws[w].Gone?
    ensures AtWorkers(ws, k) == 0
  {
    if ws != [] { GoneHaveNone(ws[..|ws| - 1], k); }
  }

  lemma {:induction false} GoneHaveNothing(ws: seq<WorkerPc>)
    requires forall w :: 0 <= w < |ws| ==> ws[w].Gone?
    ensures Busy(ws) == 0
  {
    if ws != [] { GoneHaveNothing(ws[..|ws| - 1]); }
  }

  /** The channels are long enough: no send of a reachable state waits. */
  lemma SendsNeverBlock(b: Batch, r: Run, w: nat)
    requires b.Valid() && IsRun(b, r)
    ensures var s := r.states[|r.acts|];
            && (s.main.Feeding? && s.fed < b.n ==> |s.workCh| < b.n)
            && (w < |s.workers| && s.workers[w].Sending? ==> |s.resultCh| < b.n)
  {
    var s := r.states[|r.acts|];
    InvHolds(b, r, |r.acts|);
    if w < |s.workers| { BusyUpdate(s.workers, w, Idle); }
  }

  /** Until runOnce is done, some goroutine can move. */
  lemma NeverStuck(b: Batch, r: Run) returns (a: Action)
    requires b.Valid() && IsRun(b, r) && !r.states[|r.acts|].main.Finished?
    ensures !a.Cancel? && Enabled(b, r.states[|r.acts|], a)
  {
    var s := r.states[|r.acts|];
    InvHolds(b, r, |r.acts|);
    SendsNeverBlock(b, r, 0);
    if s.main.Feeding? || s.resultCh != [] || s.resultClosed {
      a := Main;
    } else if w :| 0 <= w < |s.workers| && !s.workers[w].Gone? {
      SendsNeverBlock(b, r, w);
      a := Work(w, true);
    } else {
      a := CloseResults;
    }
  }

  // ---------------------------------------------------------------------
  // The results are what Promote said
  // ---------------------------------------------------------------------

  /** Step `a` settles a placement as `x`: its Promote returns, or its worker finds the batch
      cancelled and does not promote it. */
  ghost predicate Settles(s: State, a: Action, x: Outcome) {
    && a.Work? && a.w < |s.workers|
    && ((s.workers[a.w] == Promoting(x.item) && a.ok == x.ok)
        || (s.workers[a.w] == Checking(x.item) && s.cancelled && !x.ok))
  }

  ghost function Settled(r: Run, n: nat, x: Outcome): nat
    requires n <= |r.acts| < |r.states|
  {
    if n == 0 then 0 else Settled(r, n - 1, x) + One(Settles(r.states[n - 1], r.acts[n - 1], x))
  }

  /** How often Promote was called for placement `k`. */
  ghost function Promotes(r: Run, n: nat, k: nat): nat
    requires n <= |r.acts| < |r.states|
  {
    if n == 0 then 0
    else
      var s, a := r.states[n - 1], r.acts[n - 1];
      Promotes(r, n - 1, k) + One(a.Work? && a.w < |s.workers| && s.workers[a.w] == Promoting(k))
  }

  function Sends(ws: seq<WorkerPc>, x: Outcome): nat {
    if ws == [] then 0 else Sends(ws[..|ws| - 1], x) + One(ws[|ws| - 1] == Sending(x))
  }

  function Lists(ch: seq<Outcome>, x: Outcome): nat {
    if ch == [] then 0 else One(ch[0] == x) + Lists(ch[1..], x)
  }

  lemma {:induction false} SendsUpdate(ws: seq<WorkerPc>, w: nat, pc: WorkerPc, x: Outcome)
    requires w < |ws|
    ensures Sends(ws[w := pc], x) + One(ws[w] == Sending(x)) == Sends(ws, x) + One(pc == Sending(x))
  {
    var n := |ws| - 1;
    if w == n {
      assert ws[w := pc][..n] == ws[..n];
    } else {
      assert ws[w := pc][..n] == ws[..n][w := pc];
      SendsUpdate(ws[..n], w, pc, x);
    }
  }

  lemma {:induction false} ListsAppend(ch: seq<Outcome>, res: Outcome, x: Outcome)
    ensures Lists(ch + [res], x) == Lists(ch, x) + One(res == x)
  {
    if ch != [] {
      assert (ch + [res])[1..] == ch[1..] + [res];
      ListsAppend(ch[1..], res, x);
    }
  }

  lemma {:induction false} NoneSends(ws: seq<WorkerPc>, x: Outcome)
    requires forall w :: 0 <= w < |ws| ==> !ws[w].Sending?
    ensures Sends(ws, x) == 0
  {
    if ws != [] { NoneSends(ws[..|ws| - 1], x); }
  }

  /** The results `x` that are on their way or taken. */
  function Results(s: State, x: Outcome): nat {
    Sends(s.workers, x) + Lists(s.resultCh, x) + Lists(s.seen, x)
  }

  lemma MainSettles(b: Batch, s: State, x: Outcome)
    ensures Results(MainStep(b, s), x) == Results(s, x)
  {
    if s.main.Collecting? && s.resultCh != [] { ListsAppend(s.seen, s.resultCh[0], x); }
  }

  lemma WorkSettles(s: State, w: nat, ok: bool, x: Outcome)
    requires w < |s.workers|
    ensures Results(WorkStep(s, w, ok), x) == Results(s, x) + One(Settles(s, Work(w, ok), x))
  {
    SendsUpdate(s.workers, w, NextPc(s, s.workers[w], ok), x);
    if s.workers[w].Sending? { ListsAppend(s.resultCh, s.workers[w].res, x); }
  }

  lemma StepSettles(b: Batch, s: State, a: Action, x: Outcome)
    requires Enabled(b, s, a)
    ensures Results(Apply(b, s, a), x) == Results(s, x) + One(Settles(s, a, x))
  {
    match a {
      case Main => MainSettles(b, s, x);
      case Work(w, ok) => WorkSettles(s, w, ok, x);
      case _ =>
    }
  }

  lemma {:induction false} ResultsSettled(b: Batch, r: Run, n: nat, x: Outcome)
    requires IsRun(b, r) && n <= |r.acts|
    ensures Results(r.states[n], x) == Settled(r, n, x)
  {
    if n == 0 {
      NoneSends(r.states[0].workers, x);
    } else {
      ResultsSettled(b, r, n - 1, x);
      assert StepAt(b, r, n - 1);
      StepSettles(b, r.states[n - 1], r.acts[n - 1], x);
    }
  }

  lemma {:induction false} ItemsSplit(ch: seq<Outcome>, k: nat)
    ensures InResults(ch, k) == Lists(ch, Outcome(k, true)) + Lists(ch, Outcome(k, false))
  {
    if ch != [] { ItemsSplit(ch[1..], k); }
  }

  /** When runOnce has collected, placement `k` is reported promoted exactly if its Promote
      returned no error, and failed exactly if its Promote returned one or its worker found the
      batch cancelled; each placement is settled once. */
  lemma ResultsAreWhatPromoteSaid(b: Batch, r: Run, k: nat, ok: bool)
    requires b.Valid() && IsRun(b, r) && r.states[|r.acts|].main.Finished? && k < b.n
    ensures Outcome(k, ok) in r.states[|r.acts|].seen <==> Settled(r, |r.acts|, Outcome(k, ok)) == 1
    ensures Settled(r, |r.acts|, Outcome(k, true)) + Settled(r, |r.acts|, Outcome(k, false)) == 1
  {
    var s := r.states[|r.acts|];
    EveryPlacementGetsOneResult(b, r);
    assert InResults(s.seen, k) == 1;
    ItemsSplit(s.seen, k);
    InvHolds(b, r, |r.acts|);
    forall x: Outcome ensures Lists(s.seen, x) == Settled(r, |r.acts|, x) {
      NoneSends(s.workers, x);
      ResultsSettled(b, r, |r.acts|, x);
    }
    ListsIn(s.seen, Outcome(k, ok));
  }

  lemma {:induction false} ListsIn(ch: seq<Outcome>, x: Outcome)
    ensures x in ch <==> Lists(ch, x) > 0
  {
    if ch != [] { ListsIn(ch[1..], x); }
  }

  ghost predicate NeverCancelled(r: Run) { forall i :: 0 <= i < |r.acts| ==> !r.acts[i].Cancel? }

  lemma {:induction false} NotCancelled(b: Batch, r: Run, n: nat)
    requires IsRun(b, r) && NeverCancelled(r) && n <= |r.acts|
    ensures !r.states[n].cancelled
  {
    if n > 0 {
      NotCancelled(b, r, n - 1);
      assert StepAt(b, r, n - 1);
    }
  }

  lemma {:induction false} SettledByPromote(b: Batch, r: Run, n: nat, k: nat)
    requires IsRun(b, r) && NeverCancelled(r) && n <= |r.acts|
    ensures Promotes(r, n, k) == Settled(r, n, Outcome(k, true)) + Settled(r, n, Outcome(k, false))
  {
    if n > 0 {
      SettledByPromote(b, r, n - 1, k);
      NotCancelled(b, r, n - 1);
    }
  }

  /** A batch that is not cancelled promotes every placement exactly once. */
  lemma EachIsPromotedOnce(b: Batch, r: Run, k: nat)
    requires b.Valid() && IsRun(b, r) && r.states[|r.acts|].main.Finished? && NeverCancelled(r) && k < b.n
    ensures Promotes(r, |r.acts|, k) == 1
  {
    ResultsAreWhatPromoteSaid(b, r, k, true);
    SettledByPromote(b, r, |r.acts|, k);
  }

  /** The queue holds the last placements fed, in the order of the batch. */
  ghost predicate Queued(s: State) {
    |s.workCh| <= s.fed && forall i :: 0 <= i < |s.workCh| ==> s.workCh[i] == s.fed - |s.workCh| + i
  }

  lemma StepQueued(b: Batch, s: State, a: Action)
    requires Enabled(b, s, a) && Queued(s)
    ensures Queued(Apply(b, s, a))
  {
  }

  lemma {:induction false} QueuedHolds(b: Batch, r: Run, n: nat)
    requires IsRun(b, r) && n <= |r.acts|
    ensures Queued(r.states[n])
  {
    if n > 0 {
      QueuedHolds(b, r, n - 1);
      assert StepAt(b, r, n - 1);
      StepQueued(b, r.states[n - 1], r.acts[n - 1]);
    }
  }

  /** Workers take the placements in the order of the batch. */
  lemma TakenInOrder(b: Batch, r: Run, w: nat, ok: bool)
    requires IsRun(b, r)
    requires var s := r.states[|r.acts|]; w < |s.workers| && s.workers[w].Idle? && s.workCh != []
    ensures var s := r.states[|r.acts|];
            var pc := WorkStep(s, w, ok).workers[w];
            pc.Checking? && pc.item == s.fed - |s.workCh|
  {
    QueuedHolds(b, r, |r.acts|);
  }

  // ---------------------------------------------------------------------
  // Every run is finite
  // ---------------------------------------------------------------------

  function PcWork(pc: WorkerPc): nat {
    match pc
    case Idle => 1
    case Checking(_) => 5
    case Promoting(_) => 4
    case Sending(_) => 3
    case Gone => 0
  }

  function PcsWork(ws: seq<WorkerPc>): nat {
    if ws == [] then 0 else PcsWork(ws[..|ws| - 1]) + PcWork(ws[|ws| - 1])
  }

  lemma {:induction false} PcsWorkUpdate(ws: seq<WorkerPc>, w: nat, pc: WorkerPc)
    requires w < |ws|
    ensures PcsWork(ws[w := pc]) == PcsWork(ws) - PcWork(ws[w]) + PcWork(pc)
  {
    var n := |ws| - 1;
    if w == n {
      assert ws[w := pc][..n] == ws[..n];
    } else {
      assert ws[w := pc][..n] == ws[..n][w := pc];
      PcsWorkUpdate(ws[..n], w, pc);
    }
  }

  lemma {:induction false} IdleWork(n: nat)
    ensures PcsWork(seq(n, _ => Idle)) == n
  {
    if n > 0 {
      assert seq(n, _ => Idle)[..n - 1] == seq(n - 1, _ => Idle);
      IdleWork(n - 1);
    }
  }

  function ToDo(b: Batch, s: State): int {
    6 * (b.n - s.fed) + 5 * |s.workCh| + PcsWork(s.workers) + |s.resultCh|
    + One(!s.resultClosed) + One(!s.cancelled) + (if s.main.Feeding? then 2 else One(s.main.Collecting?))
  }

  lemma StepWorks(b: Batch, s: State, a: Action)
    requires Inv(b, s) && Enabled(b, s, a)
    ensures ToDo(b, Apply(b, s, a)) < ToDo(b, s)
  {
    if a.Work? { PcsWorkUpdate(s.workers, a.w, NextPc(s, s.workers[a.w], a.ok)); }
  }

  lemma {:induction false} WorkDone(b: Batch, r: Run, n: nat)
    requires b.Valid() && IsRun(b, r) && n <= |r.acts|
    ensures n + ToDo(b, r.states[n]) <= ToDo(b, Start(b))
  {
    if n > 0 {
      WorkDone(b, r, n - 1);
      InvHolds(b, r, n - 1);
      assert StepAt(b, r, n - 1);
      StepWorks(b, r.states[n - 1], r.acts[n - 1]);
    }
  }

  /** No batch runs forever, so by `NeverStuck` every batch finishes. */
  lemma BatchesAreFinite(b: Batch, r: Run)
    requires b.Valid() && IsRun(b, r)
    ensures |r.acts| <= 6 * b.n + b.par + 4
  {
    WorkDone(b, r, |r.acts|);
    InvHolds(b, r, |r.acts|);
    IdleWork(b.par);
  }
}
