/** When a multipart promotion returns early, do its goroutines end? The collector's return
    cancels the context, but a worker whose result finds the channel full waits for ever.
    That happens on some run exactly when there are more parts than the channel can take. */
module MultipartLeaks {
  import opened Prelude
  import opened Multipart
  import opened MultipartSafety
  import opened MultipartProgress

  /** How many parts `n` bytes make. */
  function Parts(n: nat, size: nat): nat
    requires size >= 1
  {
    if n == 0 then 0 else if n < size then 1 else 1 + Parts(n - size, size)
  }

  /** The number of parts is the body's size over the part size, rounded up. */
  lemma {:induction false} PartsRoundsUp(n: nat, size: nat)
    requires size >= 1
    ensures n <= Parts(n, size) * size < n + size
  {
    if n >= size { PartsRoundsUp(n - size, size); }
  }

  function Busy(ws: seq<WorkerPc>): nat {
    if ws == [] then 0
    else Busy(ws[..|ws| - 1]) + if ws[|ws| - 1].Idle? || ws[|ws| - 1].Exited? then 0 else 1
  }

  lemma {:induction false} BusyUpdate(ws: seq<WorkerPc>, w: nat, pc: WorkerPc)
    requires w < |ws|
    ensures Busy(ws[w := pc]) == Busy(ws) - (if ws[w].Idle? || ws[w].Exited? then 0 else 1)
                                          + (if pc.Idle? || pc.Exited? then 0 else 1)
    ensures !ws[w].Idle? && !ws[w].Exited? ==> Busy(ws) >= 1
  {
    var n := |ws| - 1;
    if w == n {
      assert ws[w := pc][..n] == ws[..n];
    } else {
      assert ws[w := pc][..n] == ws[..n][w := pc];
      BusyUpdate(ws[..n], w, pc);
    }
  }

  lemma {:induction false} NoneBusy(n: nat)
    ensures Busy(seq(n, _ => Idle)) == 0
  {
    if n > 0 {
      assert seq(n, _ => Idle)[..n - 1] == seq(n - 1, _ => Idle);
      NoneBusy(n - 1);
    }
  }

  /** Parts are conserved: each one sent is queued, at a worker, reported or received. */
  ghost predicate PartsKept(s: State) {
    s.sent == |s.partCh| + Busy(s.workers) + |s.resultCh| + s.received
  }

  /** What was read and what is left make up the parts of the body. */
  ghost predicate PartsLeft(j: Job, s: State)
    requires j.partSize >= 1
  {
    |s.read| + Parts(|s.rest|, j.partSize) == Parts(|j.body|, j.partSize)
  }

  /** Without a caller that cancels, the collector leaves early only on a received error. */
  ghost predicate Leaving(j: Job, s: State) {
    && (s.collector.Returned? && s.created ==> s.cancelled)
    && (!j.cancellable && s.cancelled ==> s.collector.Returned?)
    && (!j.cancellable && s.created && (s.collector.Closing? || s.collector.Returned?) ==> s.workersDone || s.received >= 1)
  }

  ghost predicate CountInv(j: Job, s: State)
    requires j.partSize >= 1
  {
    PartsKept(s) && PartsLeft(j, s) && Leaving(j, s)
  }

  lemma ReadPartLeaves(j: Job, s: State, ok: bool)
    requires j.Valid() && PartsLeft(j, s)
    ensures PartsLeft(j, ReadPart(j, s, ok))
  {
  }

  lemma ReadPartCounts(j: Job, s: State, ok: bool)
    requires j.Valid() && CountInv(j, s)
    ensures CountInv(j, ReadPart(j, s, ok))
  {
    ReadPartLeaves(j, s, ok);
  }

  lemma SendPartCounts(j: Job, s: State, last: bool)
    requires j.Valid() && CountInv(j, s)
    ensures CountInv(j, SendPart(s, last))
  {
  }

  lemma ReadCounts(j: Job, s: State, ok: bool)
    requires j.Valid() && ReaderInv(j, s) && CountInv(j, s) && !s.reader.ReaderDone?
    ensures CountInv(j, ReadStep(j, s, ok))
  {
    match s.reader {
      case Reading => ReadPartCounts(j, s, ok);
      case Sending(last) => SendPartCounts(j, s, last);
      case _ =>
    }
  }

  lemma WorkCounts(j: Job, s: State, w: nat, up: Upload)
    requires j.Valid() && CountInv(j, s) && w < |s.workers| && WorkerMoves(j, s, w)
    ensures CountInv(j, WorkStep(s, w, up))
  {
    BusyUpdate(s.workers, w, NextPc(s, s.workers[w], up));
  }

  lemma ReceiveCounts(j: Job, s: State)
    requires j.Valid() && CountInv(j, s) && s.resultCh != [] && (s.collector.Collecting? || s.collector.Draining?)
    ensures CountInv(j, Receive(s))
  {
  }

  lemma CollectCounts(j: Job, s: State, reply: Reply)
    requires j.Valid() && DoneInv(j, s) && CountInv(j, s) && CollectorMoves(s)
    ensures CountInv(j, CollectStep(j, s, reply))
  {
    match s.collector {
      case Collecting => ReceiveCounts(j, s);
      case Draining => if s.resultCh != [] { ReceiveCounts(j, s); }
      case _ =>
    }
  }

  lemma StepCounts(j: Job, s: State, a: Action)
    requires j.Valid() && Inv(j, s) && CountInv(j, s) && Enabled(j, s, a)
    ensures CountInv(j, Apply(j, s, a))
  {
    match a {
      case Read(ok) => ReadCounts(j, s, ok);
      case Work(w, up) => WorkCounts(j, s, w, up);
      case Collect(reply) => CollectCounts(j, s, reply);
      case _ =>
    }
  }

  lemma {:induction false} CountHolds(j: Job, r: Run, n: nat)
    requires j.Valid() && IsRun(j, r) && n <= |r.acts|
    ensures CountInv(j, r.states[n])
  {
    if n == 0 {
      NoneBusy(j.par);
    } else {
      CountHolds(j, r, n - 1);
      InvHolds(j, r, n - 1);
      assert StepAt(j, r, n - 1);
      StepCounts(j, r.states[n - 1], r.acts[n - 1]);
    }
  }

  ghost predicate Terminal(j: Job, s: State) { forall a :: !Enabled(j, s, a) }

  ghost predicate AllGone(s: State) {
    s.created ==> s.reader.ReaderDone? && forall w :: 0 <= w < |s.workers| ==> s.workers[w].Exited?
  }

  /** The comment's promise: however promoteMultipart ends, its goroutines end too. */
  ghost predicate NoLeak(j: Job) {
    forall s :: Reachable(j, s) && Terminal(j, s) ==> AllGone(s)
  }

  /** How many parts are safe: one per result slot, and one more if only a received error
      can make the collector leave early. */
  function SafeParts(j: Job): nat { j.par + if j.cancellable then 0 else 1 }

  lemma FewPartsNoLeak(j: Job, s: State)
    requires j.Valid() && Reachable(j, s) && Terminal(j, s) && Parts(|j.body|, j.partSize) <= SafeParts(j)
    ensures AllGone(s)
  {
    var r :| RunTo(j, r, s);
    InvHolds(j, r, |r.acts|);
    CountHolds(j, r, |r.acts|);
    if !s.collector.Returned? { var a := NeverStuck(j, s); }
    if s.created {
      assert !Enabled(j, s, Read(true)) && !Enabled(j, s, ReadCancel);
      forall w: nat | w < |s.workers| ensures s.workers[w].Exited? {
        assert !Enabled(j, s, Work(w, Done));
        BusyUpdate(s.workers, w, Idle);
      }
    }
  }

  // ---------------------------------------------------------------------
  // A run that leaves a worker behind
  // ---------------------------------------------------------------------

  lemma Go(j: Job, s: State, a: Action)
    requires Reachable(j, s) && Enabled(j, s, a)
    ensures Reachable(j, Apply(j, s, a))
  {
    var r :| RunTo(j, r, s);
    var r' := Run(r.states + [Apply(j, s, a)], r.acts + [a]);
    forall i: nat | i < |r'.acts| ensures StepAt(j, r', i) {
      if i < |r.acts| { assert StepAt(j, r, i); }
    }
    assert RunTo(j, r', Apply(j, s, a));
  }

  /** The reader and worker 0 are ready for the next part; `k` results wait in the channel. */
  ghost predicate Ready(j: Job, s: State, pc: CollectorPc, k: nat) {
    && Reachable(j, s) && s.created && !s.cancelled && s.collector == pc
    && s.reader == Top && s.sent == |s.read| && s.partCh == [] && |s.resultCh| == k
    && |s.workers| == j.par >= 1 && s.workers[0] == Idle
  }

  /** Worker 0 has the outcome of a part in hand. */
  ghost predicate Loaded(j: Job, s: State, pc: CollectorPc, k: nat, failed: bool) {
    && Reachable(j, s) && s.created && !s.cancelled && s.collector == pc
    && s.sent == |s.read| && s.partCh == [] && |s.resultCh| == k
    && |s.workers| == j.par >= 1 && s.workers[0].Reporting? && s.workers[0].result.failed == failed
  }

  /** The reader reads one part and queues it. */
  lemma Feed(j: Job, s: State, pc: CollectorPc, k: nat) returns (t: State)
    requires j.Valid() && Ready(j, s, pc, k) && s.rest != []
    ensures Reachable(j, t) && |t.partCh| == 1 && t.sent == |t.read|
    ensures t == s.(reader := t.reader, rest := t.rest, read := t.read, sent := t.sent, partCh := t.partCh, closed := t.closed,
                    readErr := t.readErr)
    ensures |s.rest| >= j.partSize ==> t.reader == Top && t.rest == s.rest[j.partSize..]
  {
    Go(j, s, Read(true));
    var s1 := s.(reader := Reading);
    Go(j, s1, Read(true));
    var s2 := ReadPart(j, s1, true);
    Go(j, s2, Read(true));
    t := SendPart(s2, s2.reader.last);
  }

  /** Worker 0 takes it and uploads it. */
  lemma Carry(j: Job, s: State, up: Upload) returns (t: State)
    requires j.Valid() && Reachable(j, s) && s.created && !s.cancelled && |s.partCh| == 1
    requires |s.workers| == j.par && s.workers[0] == Idle
    ensures Reachable(j, t) && t.partCh == [] && t == s.(workers := t.workers, partCh := [], staged := t.staged)
    ensures |t.workers| == j.par && t.workers[0] == Reporting(Result(s.partCh[0].num, up.Failed?))
  {
    Go(j, s, Work(0, Done));
    var s1 := WorkStep(s, 0, Done);
    Go(j, s1, Work(0, Done));
    var s2 := WorkStep(s1, 0, Done);
    Go(j, s2, Work(0, up));
    t := WorkStep(s2, 0, up);
  }

  lemma Load(j: Job, s: State, pc: CollectorPc, k: nat, up: Upload) returns (t: State)
    requires j.Valid() && Ready(j, s, pc, k) && Parts(|s.rest|, j.partSize) >= 1
    ensures Loaded(j, t, pc, k, up.Failed?)
    ensures Parts(|s.rest|, j.partSize) >= 2 ==>
              t.reader == Top && Parts(|t.rest|, j.partSize) == Parts(|s.rest|, j.partSize) - 1
  {
    var s1 := Feed(j, s, pc, k);
    t := Carry(j, s1, up);
  }

  /** ... and reports it, ready for another. */
  lemma Report(j: Job, s: State, pc: CollectorPc, k: nat, failed: bool) returns (t: State)
    requires j.Valid() && Loaded(j, s, pc, k, failed) && s.reader == Top && k < j.par
    ensures Ready(j, t, pc, k + 1) && t.rest == s.rest && t.resultCh == s.resultCh + [s.workers[0].result]
  {
    Go(j, s, Work(0, Done));
    t := WorkStep(s, 0, Done);
  }

  /** With the collector slow, worker 0 can fill the result channel. */
  lemma {:induction false} Fill(j: Job, s: State, pc: CollectorPc, k: nat) returns (t: State)
    requires j.Valid() && Ready(j, s, pc, k) && k <= j.par && Parts(|s.rest|, j.partSize) > j.par - k
    ensures Ready(j, t, pc, j.par) && Parts(|t.rest|, j.partSize) >= 1
    decreases j.par - k
  {
    if k == j.par {
      t := s;
    } else {
      var s1 := Load(j, s, pc, k, Done);
      var s2 := Report(j, s1, pc, k, false);
      t := Fill(j, s2, pc, k + 1);
    }
  }

  /** Where the run starts filling: at once if the caller can cancel, otherwise after one
      failed part has made the collector leave. */
  lemma Begin(j: Job) returns (t: State, pc: CollectorPc)
    requires j.Valid() && Parts(|j.body|, j.partSize) > SafeParts(j)
    ensures Ready(j, t, pc, 0) && Parts(|t.rest|, j.partSize) > j.par
    ensures pc == if j.cancellable then Collecting else Closing(false)
  {
    var s := Start(j);
    assert RunTo(j, Run([s], []), s);
    Go(j, s, Collect(Fine));
    t := s.(collector := Collecting, created := true);
    pc := Collecting;
    if !j.cancellable {
      var s1 := Load(j, t, pc, 0, Failed(None));
      var s2 := Report(j, s1, pc, 0, true);
      Go(j, s2, Collect(Fine));
      t := Receive(s2);
      pc := Closing(false);
    }
  }

  /** promoteMultipart has returned and worker 0 waits on a full channel. */
  ghost predicate Blocked(j: Job, s: State) {
    && s.collector.Returned? && |s.workers| == j.par >= 1 && s.created
    && |s.resultCh| == j.par && s.workers[0].Reporting?
  }

  ghost predicate Abandoned(j: Job, s: State) { Reachable(j, s) && Blocked(j, s) }

  lemma Abandon(j: Job) returns (t: State)
    requires j.Valid() && Parts(|j.body|, j.partSize) > SafeParts(j)
    ensures Abandoned(j, t)
  {
    var s, pc := Begin(j);
    s := Fill(j, s, pc, 0);
    s := Load(j, s, pc, j.par, Done);
    if j.cancellable {
      Go(j, s, Cancel);
      s := s.(cancelled := true);
      Go(j, s, SeeCancel);
      s := s.(collector := Closing(false));
    }
    Go(j, s, Collect(Fine));
    t := CollectStep(j, s, Fine);
  }

  lemma ReadStaysBlocked(j: Job, s: State, ok: bool)
    requires Blocked(j, s)
    ensures Blocked(j, ReadStep(j, s, ok))
  {
  }

  lemma WorkStaysBlocked(j: Job, s: State, w: nat, up: Upload)
    requires Blocked(j, s) && w < |s.workers| && WorkerMoves(j, s, w)
    ensures Blocked(j, WorkStep(s, w, up))
  {
    assert w != 0 && !s.workers[w].Reporting?;
  }

  lemma StaysAbandoned(j: Job, s: State, a: Action)
    requires Abandoned(j, s) && Enabled(j, s, a)
    ensures Abandoned(j, Apply(j, s, a))
  {
    Go(j, s, a);
    match a {
      case Read(ok) => ReadStaysBlocked(j, s, ok);
      case Work(w, up) => WorkStaysBlocked(j, s, w, up);
      case _ =>
    }
  }

  lemma {:induction false} AbandonedForever(j: Job, s: State) returns (t: State)
    requires j.Valid() && Abandoned(j, s)
    ensures Abandoned(j, t) && Terminal(j, t)
    decreases ToDo(s)
  {
    if Terminal(j, s) {
      t := s;
    } else {
      var a :| Enabled(j, s, a);
      var r :| RunTo(j, r, s);
      InvHolds(j, r, |r.acts|);
      StepWorks(j, s, a);
      StaysAbandoned(j, s, a);
      t := AbandonedForever(j, Apply(j, s, a));
    }
  }

  /** Every goroutine of every promotion ends, exactly when the body makes few enough parts. */
  lemma NoLeakExactlyForFewParts(j: Job)
    requires j.Valid()
    ensures NoLeak(j) <==> Parts(|j.body|, j.partSize) <= SafeParts(j)
  {
    if Parts(|j.body|, j.partSize) <= SafeParts(j) {
      forall s | Reachable(j, s) && Terminal(j, s) ensures AllGone(s) { FewPartsNoLeak(j, s); }
    } else {
      var s := Abandon(j);
      var t := AbandonedForever(j, s);
      assert !AllGone(t) by { assert !t.workers[0].Exited?; }
    }
  }
}
