/** Multipart promotion ends: every run is finite, never stops early, and succeeds when
    nothing fails. */
module MultipartProgress {
  import opened Prelude
  import opened Multipart
  import opened MultipartSafety

  // ---------------------------------------------------------------------
  // Every run is finite
  // ---------------------------------------------------------------------

  function ReaderWork(pc: ReaderPc): nat {
    match pc
    case Top => 2
    case Reading => 1
    case Sending(_) => 9
    case ReaderDone => 0
  }

  function WorkerWork(pc: WorkerPc): nat {
    match pc
    case Idle => 1
    case Checking(_) => 5
    case Uploading(_) => 4
    case Reporting(_) => 3
    case Exited => 0
  }

  function CollectorWork(pc: CollectorPc): nat {
    match pc
    case Creating => 4
    case Collecting => 3
    case Draining => 2
    case Closing(_) => 1
    case Returned(_) => 0
  }

  function WorkersWork(ws: seq<WorkerPc>): nat {
    if ws == [] then 0 else WorkersWork(ws[..|ws| - 1]) + WorkerWork(ws[|ws| - 1])
  }

  lemma {:induction false} WorkersWorkUpdate(ws: seq<WorkerPc>, w: nat, pc: WorkerPc)
    requires w < |ws|
    ensures WorkersWork(ws[w := pc]) == WorkersWork(ws) - WorkerWork(ws[w]) + WorkerWork(pc)
  {
    var n := |ws| - 1;
    if w == n {
      assert ws[w := pc][..n] == ws[..n];
    } else {
      assert ws[w := pc][..n] == ws[..n][w := pc];
      WorkersWorkUpdate(ws[..n], w, pc);
    }
  }

  /** An upper bound on the steps still to come. */
  function ToDo(s: State): nat {
    10 * |s.rest| + ReaderWork(s.reader) + 5 * |s.partCh| + WorkersWork(s.workers) + |s.resultCh|
    + CollectorWork(s.collector) + (if s.workersDone then 0 else 1) + (if s.cancelled then 0 else 1)
  }

  lemma ReadWorks(j: Job, s: State, ok: bool)
    requires j.Valid() && ReaderInv(j, s) && !s.reader.ReaderDone?
    ensures ToDo(ReadStep(j, s, ok)) < ToDo(s)
  {
  }

  lemma WorkWorks(j: Job, s: State, w: nat, up: Upload)
    requires w < |s.workers| && WorkerMoves(j, s, w)
    ensures ToDo(WorkStep(s, w, up)) < ToDo(s)
  {
    WorkersWorkUpdate(s.workers, w, NextPc(s, s.workers[w], up));
  }

  lemma ReceiveWorks(s: State)
    requires s.resultCh != [] && (s.collector.Collecting? || s.collector.Draining?)
    ensures ToDo(Receive(s)) < ToDo(s)
  {
  }

  lemma FinalizeWorks(j: Job, s: State, reply: Reply)
    requires s.collector.Draining?
    ensures ToDo(Finalize(j, s, reply)) < ToDo(s)
  {
  }

  lemma CollectWorks(j: Job, s: State, reply: Reply)
    requires CollectorMoves(s)
    ensures ToDo(CollectStep(j, s, reply)) < ToDo(s)
  {
    match s.collector {
      case Collecting => ReceiveWorks(s);
      case Draining => if s.resultCh != [] { ReceiveWorks(s); } else { FinalizeWorks(j, s, reply); }
      case _ =>
    }
  }

  lemma StepWorks(j: Job, s: State, a: Action)
    requires j.Valid() && Inv(j, s) && Enabled(j, s, a)
    ensures ToDo(Apply(j, s, a)) < ToDo(s)
  {
    match a {
      case Read(ok) => ReadWorks(j, s, ok);
      case Work(w, up) => WorkWorks(j, s, w, up);
      case Collect(reply) => CollectWorks(j, s, reply);
      case _ =>
    }
  }

  lemma {:induction false} IdleWork(n: nat)
    ensures WorkersWork(seq(n, _ => Idle)) == n
  {
    if n > 0 {
      assert seq(n, _ => Idle)[..n - 1] == seq(n - 1, _ => Idle);
      IdleWork(n - 1);
    }
  }

  lemma {:induction false} WorkDone(j: Job, r: Run, n: nat)
    requires j.Valid() && IsRun(j, r) && n <= |r.acts|
    ensures n + ToDo(r.states[n]) <= ToDo(Start(j))
  {
    if n > 0 {
      WorkDone(j, r, n - 1);
      InvHolds(j, r, n - 1);
      assert StepAt(j, r, n - 1);
      StepWorks(j, r.states[n - 1], r.acts[n - 1]);
    }
  }

  /** No interleaving runs forever, whatever fails or is cancelled. */
  lemma RunsAreFinite(j: Job, r: Run)
    requires j.Valid() && IsRun(j, r)
    ensures |r.acts| <= 10 * |j.body| + j.par + 8
  {
    WorkDone(j, r, |r.acts|);
    IdleWork(j.par);
  }

  // ---------------------------------------------------------------------
  // No run stops early
  // ---------------------------------------------------------------------

  /** A step in which nothing goes wrong. */
  predicate Clean(a: Action) {
    match a
    case Read(ok) => ok
    case Work(_, up) => up.Done?
    case Collect(reply) => reply.Fine?
    case Cancel => false
    case _ => true
  }

  /** Until promoteMultipart has returned there is always a next step. */
  lemma NeverStuck(j: Job, s: State) returns (a: Action)
    requires j.Valid() && Inv(j, s) && !s.collector.Returned?
    ensures Clean(a) && Enabled(j, s, a)
  {
    if !s.collector.Collecting? || s.resultCh != [] {
      a := Collect(Fine);
    } else if w :| 0 <= w < |s.workers| && !s.workers[w].Exited? {
      a := if WorkerMoves(j, s, w) then Work(w, Done) else Read(true);
    } else {
      a := if s.workersDone then SeeDone else AllExited;
    }
  }

  // ---------------------------------------------------------------------
  // Without faults it succeeds
  // ---------------------------------------------------------------------

  ghost predicate Flawless(s: State) {
    !Failing(s) && !s.readErr && (s.cancelled ==> s.collector == Returned(true))
  }

  lemma WorkStaysFlawless(j: Job, s: State, w: nat)
    requires Inv(j, s) && Flawless(s) && w < |s.workers| && WorkerMoves(j, s, w)
    ensures Flawless(WorkStep(s, w, Done))
  {
    assert !s.workersDone && !s.cancelled;
    var s' := WorkStep(s, w, Done);
    forall v | 0 <= v < |s'.workers| && s'.workers[v].Reporting? ensures !s'.workers[v].result.failed {
      if v != w { assert s'.workers[v] == s.workers[v]; }
    }
    forall i | 0 <= i < |s'.resultCh| ensures !s'.resultCh[i].failed {
      if i < |s.resultCh| { assert s'.resultCh[i] == s.resultCh[i]; }
    }
  }

  lemma CollectStaysFlawless(j: Job, s: State)
    requires j.Valid() && j.recorded == Sha(j.body) && Inv(j, s) && Flawless(s) && CollectorMoves(s)
    ensures Flawless(CollectStep(j, s, Fine))
  {
    if s.collector.Draining? && s.resultCh == [] { FinalizeStaysFlawless(j, s); }
  }

  lemma FinalizeStaysFlawless(j: Job, s: State)
    requires j.Valid() && j.recorded == Sha(j.body) && Inv(j, s) && Flawless(s) && s.collector.Draining? && s.resultCh == []
    ensures Flawless(Finalize(j, s, Fine))
  {
    WholeBody(j, s);
  }

  lemma StepStaysFlawless(j: Job, s: State, a: Action)
    requires j.Valid() && j.recorded == Sha(j.body) && Inv(j, s) && Flawless(s) && Enabled(j, s, a) && Clean(a)
    ensures Flawless(Apply(j, s, a))
  {
    match a {
      case Work(w, up) => WorkStaysFlawless(j, s, w);
      case Collect(_) => CollectStaysFlawless(j, s);
      case Read(ok) =>
      case _ =>
    }
  }

  lemma {:induction false} StaysFlawless(j: Job, r: Run, n: nat)
    requires j.Valid() && j.recorded == Sha(j.body) && IsRun(j, r) && n <= |r.acts|
    requires forall i :: 0 <= i < |r.acts| ==> Clean(r.acts[i])
    ensures Flawless(r.states[n])
  {
    if n > 0 {
      StaysFlawless(j, r, n - 1);
      InvHolds(j, r, n - 1);
      assert StepAt(j, r, n - 1);
      StepStaysFlawless(j, r.states[n - 1], r.acts[n - 1]);
    }
  }

  /** If nothing fails and nobody cancels, a run that cannot go on has promoted the body. */
  lemma FaultlessRunSucceeds(j: Job, r: Run)
    requires j.Valid() && j.recorded == Sha(j.body) && IsRun(j, r)
    requires forall i :: 0 <= i < |r.acts| ==> Clean(r.acts[i])
    requires forall a :: Clean(a) ==> !Enabled(j, r.states[|r.acts|], a)
    ensures r.states[|r.acts|].collector == Returned(true)
    ensures r.states[|r.acts|].stored == Some(j.body)
  {
    var s := r.states[|r.acts|];
    InvHolds(j, r, |r.acts|);
    StaysFlawless(j, r, |r.acts|);
    if !s.collector.Returned? { var a := NeverStuck(j, s); }
  }
}
