/** What every interleaving of a multipart promotion keeps. */
module MultipartSafety {
  import opened Prelude
  import opened Multipart

  ghost predicate Holds(w: WorkerPc, k: nat) {
    match w
    case Checking(p) => p.num == k
    case Uploading(p) => p.num == k
    case Reporting(r) => r.num == k
    case _ => false
  }

  ghost predicate InParts(ch: seq<Part>, k: nat) { exists i :: 0 <= i < |ch| && ch[i].num == k }
  ghost predicate InResults(ch: seq<Result>, k: nat) { exists i :: 0 <= i < |ch| && ch[i].num == k }
  ghost predicate AtWorker(ws: seq<WorkerPc>, k: nat) { exists w :: 0 <= w < |ws| && Holds(ws[w], k) }

  /** No part that was sent is ever dropped. */
  ghost predicate Tracked(s: State, k: nat) {
    1 <= k <= s.sent ==>
      InParts(s.partCh, k) || AtWorker(s.workers, k) || InResults(s.resultCh, k) || k in s.results
  }

  /** A failed upload is on its way to the collector, or has made it give up. */
  ghost predicate Failing(s: State) {
    || (exists w :: 0 <= w < |s.workers| && s.workers[w].Reporting? && s.workers[w].result.failed)
    || (exists i :: 0 <= i < |s.resultCh| && s.resultCh[i].failed)
    || s.collector == Closing(false) || s.collector == Returned(false)
  }

  ghost predicate GoodPart(s: State, p: Part) { 1 <= p.num <= s.sent <= |s.read| && p.body == s.read[p.num - 1] }

  ghost predicate InRange(s: State, k: nat) { 1 <= k <= s.sent }

  ghost predicate StagedRight(s: State, k: nat) {
    1 <= k <= |s.read| && k in s.staged && s.staged[k] == s.read[k - 1]
  }

  ghost predicate GoodWorker(s: State, w: WorkerPc) {
    match w
    case Checking(p) => GoodPart(s, p)
    case Uploading(p) => GoodPart(s, p)
    case Reporting(r) => InRange(s, r.num)
    case Exited => s.closed && s.partCh == []
    case Idle => true
  }

  /** What was read and what is left make up the body; parts are sent in order. */
  ghost predicate ReaderInv(j: Job, s: State) {
    && Concat(s.read) + s.rest == j.body
    && (s.closed <==> s.reader.ReaderDone?)
    && s.sent <= |s.read|
    && match s.reader
       case Sending(last) => |s.read| == s.sent + 1 && (last ==> s.rest == [])
       case ReaderDone => !s.readErr ==> s.sent == |s.read| && s.rest == []
       case _ => |s.read| == s.sent
  }

  /** Every part in flight is one that was sent, with the bytes that were read for it. */
  ghost predicate FlightInv(s: State) {
    && (forall i :: 0 <= i < |s.partCh| ==> GoodPart(s, s.partCh[i]))
    && (forall w :: 0 <= w < |s.workers| ==> GoodWorker(s, s.workers[w]))
    && (forall i :: 0 <= i < |s.resultCh| ==> InRange(s, s.resultCh[i].num))
    && (forall k :: k in s.results ==> InRange(s, k))
  }

  ghost predicate TrackInv(s: State) { forall k: nat :: Tracked(s, k) }

  /** Unless an upload failed, everything reported is staged with the right bytes. */
  ghost predicate StageInv(s: State) {
    !Failing(s) ==>
      && (forall w :: 0 <= w < |s.workers| && s.workers[w].Reporting? ==> StagedRight(s, s.workers[w].result.num))
      && (forall i :: 0 <= i < |s.resultCh| ==> StagedRight(s, s.resultCh[i].num))
      && (forall k :: k in s.results ==> StagedRight(s, k))
  }

  ghost predicate DoneInv(j: Job, s: State) {
    && |s.workers| == j.par
    && (s.workersDone ==> s.closed && forall w :: 0 <= w < |s.workers| ==> s.workers[w].Exited?)
    && (s.collector.Draining? || s.collector == Closing(true) || s.collector == Returned(true) ==> s.workersDone)
    && (s.created ==> !s.collector.Creating?)
    && (!s.created ==> s.collector.Creating? || s.collector == Returned(false))
  }

  /** Success means the whole body under the recorded checksum and no abort; failure means
      exactly one abort once the upload exists. Nothing but the whole body is ever stored. */
  ghost predicate OutcomeInv(j: Job, s: State) {
    && (s.collector == Closing(true) || s.collector == Returned(true) ==>
          && s.listed == UpTo(|s.read|) && Concat(s.read) == j.body
          && s.stored == Some(j.body) && j.recorded == Sha(j.body))
    && (s.stored == None || (s.stored == Some(j.body) && j.recorded == Sha(j.body)))
    && (!s.collector.Closing? && !s.collector.Returned? ==> s.stored == None)
    && s.aborts == if s.collector == Returned(false) && s.created then 1 else 0
  }

  ghost predicate Inv(j: Job, s: State) {
    ReaderInv(j, s) && FlightInv(s) && TrackInv(s) && StageInv(s) && DoneInv(j, s) && OutcomeInv(j, s)
  }

  // ---------------------------------------------------------------------
  // The reader
  // ---------------------------------------------------------------------

  lemma ConcatAppend(parts: seq<Bytes>, b: Bytes)
    ensures Concat(parts + [b]) == Concat(parts) + b
  {
    assert (parts + [b])[..|parts|] == parts;
  }

  lemma ReadChunk(j: Job, s: State, n: nat)
    requires ReaderInv(j, s) && n <= |s.rest|
    ensures Concat(s.read + [s.rest[..n]]) + s.rest[n..] == j.body
  {
    ConcatAppend(s.read, s.rest[..n]);
    assert s.rest[..n] + s.rest[n..] == s.rest;
  }

  /** The reader only appends to what was read, and leaves all but the queue alone. */
  ghost predicate ReadShape(s: State, s': State) {
    && s' == s.(reader := s'.reader, readErr := s'.readErr, rest := s'.rest, read := s'.read, sent := s'.sent,
                partCh := s'.partCh, closed := s'.closed)
    && |s.read| <= |s'.read| && (forall k :: 0 <= k < |s.read| ==> s'.read[k] == s.read[k])
    && s.sent <= s'.sent
    && (|| (s'.partCh == s.partCh && s'.sent == s.sent)
        || (s'.sent == s.sent + 1 <= |s'.read| && !s.closed && s'.partCh == s.partCh + [Part(s.sent + 1, s'.read[s.sent])]))
  }

  lemma ReadPartKeeps(j: Job, s: State, ok: bool)
    requires ReaderInv(j, s) && s.reader.Reading?
    ensures ReaderInv(j, ReadPart(j, s, ok)) && ReadShape(s, ReadPart(j, s, ok))
  {
    ReadChunk(j, s, if |s.rest| < j.partSize then |s.rest| else j.partSize);
  }

  lemma SendPartKeeps(j: Job, s: State)
    requires ReaderInv(j, s) && s.reader.Sending?
    ensures ReaderInv(j, SendPart(s, s.reader.last)) && ReadShape(s, SendPart(s, s.reader.last))
  {
  }

  lemma ReadKeepsFlight(s: State, s': State)
    requires ReadShape(s, s') && FlightInv(s) && s.sent <= |s.read| && s'.sent <= |s'.read| && (s.closed ==> s'.closed)
    ensures FlightInv(s')
  {
    forall i | 0 <= i < |s'.partCh| ensures GoodPart(s', s'.partCh[i]) {
      if i < |s.partCh| { assert GoodPart(s, s.partCh[i]); }
    }
    forall w | 0 <= w < |s'.workers| ensures GoodWorker(s', s'.workers[w]) {
      assert GoodWorker(s, s.workers[w]);
    }
  }

  lemma ReadKeepsTrack(s: State, s': State)
    requires ReadShape(s, s') && TrackInv(s)
    ensures TrackInv(s')
  {
    forall k: nat ensures Tracked(s', k) {
      assert Tracked(s, k);
      if InParts(s.partCh, k) {
        var i :| 0 <= i < |s.partCh| && s.partCh[i].num == k;
        assert s'.partCh[i] == s.partCh[i];
      }
      if k == s.sent + 1 && s'.sent == k {
        assert s'.partCh[|s.partCh|].num == k;
      }
    }
  }

  lemma ReadKeepsStage(s: State, s': State)
    requires ReadShape(s, s') && StageInv(s)
    ensures StageInv(s')
  {
  }

  lemma ReadKeeps(j: Job, s: State, s': State)
    requires Inv(j, s) && s.created && !s.closed && ReadShape(s, s') && ReaderInv(j, s')
    ensures Inv(j, s')
  {
    ReadKeepsFlight(s, s');
    ReadKeepsTrack(s, s');
    ReadKeepsStage(s, s');
    assert DoneInv(j, s') && OutcomeInv(j, s');
  }

  lemma ReaderKeeps(j: Job, s: State, ok: bool)
    requires Inv(j, s) && s.created && !s.reader.ReaderDone?
    ensures Inv(j, ReadStep(j, s, ok)) && Inv(j, StopReading(s, true))
  {
    ReadKeeps(j, s, StopReading(s, true));
    match s.reader {
      case Top => ReadKeeps(j, s, s.(reader := Reading));
      case Reading =>
        ReadPartKeeps(j, s, ok);
        ReadKeeps(j, s, ReadPart(j, s, ok));
      case Sending(last) =>
        SendPartKeeps(j, s);
        ReadKeeps(j, s, SendPart(s, last));
    }
  }

  // ---------------------------------------------------------------------
  // The workers
  // ---------------------------------------------------------------------

  /** Worker `w` goes to `pc`; what the reader and the collector own stays. */
  ghost predicate WorkShape(s: State, s': State, w: nat, pc: WorkerPc) {
    && w < |s.workers|
    && s' == s.(workers := s.workers[w := pc], partCh := s'.partCh, resultCh := s'.resultCh, staged := s'.staged)
  }

  lemma OthersHold(s: State, s': State, w: nat, pc: WorkerPc, k: nat)
    requires WorkShape(s, s', w, pc) && AtWorker(s.workers, k)
    ensures AtWorker(s'.workers, k) || Holds(s.workers[w], k)
  {
    var v :| 0 <= v < |s.workers| && Holds(s.workers[v], k);
    if v != w { assert s'.workers[v] == s.workers[v]; }
  }

  lemma OthersFail(s: State, s': State, w: nat, pc: WorkerPc)
    requires WorkShape(s, s', w, pc) && Failing(s)
    requires s.workers[w].Reporting? && s.workers[w].result.failed ==>
               exists i :: 0 <= i < |s'.resultCh| && s'.resultCh[i] == s.workers[w].result
    requires forall i :: 0 <= i < |s.resultCh| ==> i < |s'.resultCh| && s'.resultCh[i] == s.resultCh[i]
    ensures Failing(s')
  {
    if v :| 0 <= v < |s.workers| && s.workers[v].Reporting? && s.workers[v].result.failed {
      if v != w { assert s'.workers[v] == s.workers[v]; }
    } else if i :| 0 <= i < |s.resultCh| && s.resultCh[i].failed {
      assert s'.resultCh[i].failed;
    }
  }

  lemma TakeKeeps(s: State, s': State, w: nat)
    requires FlightInv(s) && TrackInv(s) && StageInv(s)
    requires w < |s.workers| && s.workers[w].Idle? && s.partCh != []
    requires s' == s.(workers := s.workers[w := Checking(s.partCh[0])], partCh := s.partCh[1..])
    ensures FlightInv(s') && TrackInv(s') && StageInv(s')
  {
    var pc := Checking(s.partCh[0]);
    forall v | 0 <= v < |s'.workers| ensures GoodWorker(s', s'.workers[v]) {
      assert GoodWorker(s, s.workers[v]) && GoodPart(s, s.partCh[0]);
    }
    forall k: nat ensures Tracked(s', k) {
      assert Tracked(s, k);
      if AtWorker(s.workers, k) { OthersHold(s, s', w, pc, k); }
      if InParts(s.partCh, k) {
        var i :| 0 <= i < |s.partCh| && s.partCh[i].num == k;
        if i == 0 { assert Holds(s'.workers[w], k); } else { assert s'.partCh[i - 1].num == k; }
      }
    }
    if Failing(s) { OthersFail(s, s', w, pc); }
  }

  /** A worker that moves without touching the channels. */
  lemma MoveKeeps(s: State, s': State, w: nat, pc: WorkerPc)
    requires FlightInv(s) && TrackInv(s) && StageInv(s) && WorkShape(s, s', w, pc)
    requires s'.partCh == s.partCh && s'.resultCh == s.resultCh && !s.workers[w].Reporting?
    requires GoodWorker(s, pc) && forall k: nat :: Holds(s.workers[w], k) <==> Holds(pc, k)
    requires pc.Reporting? && !pc.result.failed ==> StagedRight(s', pc.result.num)
    requires (pc.Reporting? && pc.result.failed) || forall k :: StagedRight(s, k) ==> StagedRight(s', k)
    ensures FlightInv(s') && TrackInv(s') && StageInv(s')
  {
    forall v | 0 <= v < |s'.workers| ensures GoodWorker(s', s'.workers[v]) {
      assert GoodWorker(s, s.workers[v]);
    }
    forall k: nat ensures Tracked(s', k) {
      assert Tracked(s, k);
      if AtWorker(s.workers, k) { OthersHold(s, s', w, pc, k); }
      if Holds(s.workers[w], k) { assert Holds(s'.workers[w], k); }
    }
    if Failing(s) { OthersFail(s, s', w, pc); }
    if pc.Reporting? && pc.result.failed { assert s'.workers[w].result.failed; }
  }

  lemma ReportKeeps(s: State, s': State, w: nat)
    requires FlightInv(s) && TrackInv(s) && StageInv(s)
    requires w < |s.workers| && s.workers[w].Reporting?
    requires s' == s.(workers := s.workers[w := Idle], resultCh := s.resultCh + [s.workers[w].result])
    ensures FlightInv(s') && TrackInv(s') && StageInv(s')
  {
    var last := |s.resultCh|;
    assert s'.resultCh[last] == s.workers[w].result;
    assert GoodWorker(s, s.workers[w]);
    forall v | 0 <= v < |s'.workers| ensures GoodWorker(s', s'.workers[v]) {
      assert GoodWorker(s, s.workers[v]);
    }
    forall k: nat ensures Tracked(s', k) {
      assert Tracked(s, k);
      if AtWorker(s.workers, k) { OthersHold(s, s', w, Idle, k); }
      if InResults(s.resultCh, k) {
        var i :| 0 <= i < |s.resultCh| && s.resultCh[i].num == k;
        assert s'.resultCh[i].num == k;
      }
    }
    if Failing(s) { OthersFail(s, s', w, Idle); }
  }

  lemma WorkKeepsFlight(j: Job, s: State, w: nat, up: Upload)
    requires FlightInv(s) && TrackInv(s) && StageInv(s) && w < |s.workers| && WorkerMoves(j, s, w)
    ensures FlightInv(WorkStep(s, w, up)) && TrackInv(WorkStep(s, w, up)) && StageInv(WorkStep(s, w, up))
  {
    var s' := WorkStep(s, w, up);
    assert GoodWorker(s, s.workers[w]);
    var pc := NextPc(s, s.workers[w], up);
    if s.workers[w].Idle? && s.partCh != [] {
      TakeKeeps(s, s', w);
    } else if s.workers[w].Reporting? {
      ReportKeeps(s, s', w);
    } else {
      MoveKeeps(s, s', w, pc);
    }
  }

  lemma WorkKeepsRest(j: Job, s: State, s': State, w: nat, pc: WorkerPc)
    requires ReaderInv(j, s) && DoneInv(j, s) && OutcomeInv(j, s)
    requires WorkShape(s, s', w, pc) && !s.workers[w].Exited?
    ensures ReaderInv(j, s') && DoneInv(j, s') && OutcomeInv(j, s')
  {
    assert !s.workersDone;
  }

  lemma WorkKeeps(j: Job, s: State, w: nat, up: Upload)
    requires Inv(j, s) && w < |s.workers| && WorkerMoves(j, s, w)
    ensures Inv(j, WorkStep(s, w, up))
  {
    var s' := WorkStep(s, w, up);
    WorkKeepsFlight(j, s, w, up);
    WorkKeepsRest(j, s, s', w, NextPc(s, s.workers[w], up));
  }

  // ---------------------------------------------------------------------
  // The collector
  // ---------------------------------------------------------------------

  lemma ReceiveKeeps(s: State, s': State)
    requires FlightInv(s) && TrackInv(s) && StageInv(s) && s.resultCh != [] && s' == Receive(s)
    requires s.collector.Collecting? || s.collector.Draining?
    ensures FlightInv(s') && TrackInv(s') && StageInv(s')
  {
    var res := s.resultCh[0];
    forall v | 0 <= v < |s'.workers| ensures GoodWorker(s', s'.workers[v]) {
      assert GoodWorker(s, s.workers[v]);
    }
    forall k: nat ensures Tracked(s', k) {
      assert Tracked(s, k);
      if InResults(s.resultCh, k) {
        var i :| 0 <= i < |s.resultCh| && s.resultCh[i].num == k;
        if i > 0 { assert s'.resultCh[i - 1].num == k; }
      }
    }
    if Failing(s) && !res.failed {
      if i :| 0 <= i < |s.resultCh| && s.resultCh[i].failed { assert s'.resultCh[i - 1].failed; }
    }
  }

  lemma {:induction false} UpToSize(n: nat, all: set<nat>)
    requires forall k :: k in all <==> 1 <= k <= n
    ensures |all| == n
  {
    if n == 0 {
      assert all == {};
    } else {
      var fewer := all - {n};
      UpToSize(n - 1, fewer);
      assert all == fewer + {n};
    }
  }

  /** With the channels drained and the workers gone, the results are the parts sent. */
  lemma AllCollected(j: Job, s: State)
    requires j.Valid() && Inv(j, s) && s.workersDone && s.resultCh == []
    ensures Gapless(s.results) && |s.results| == s.sent
  {
    assert GoodWorker(s, s.workers[0]);
    forall k: nat ensures k in s.results <==> 1 <= k <= s.sent {
      assert Tracked(s, k);
    }
    UpToSize(s.sent, s.results);
  }

  /** Assembling the staged parts in order gives back what was read. */
  lemma {:induction false} AssembleRead(s: State, n: nat)
    requires n <= |s.read| && forall k: nat :: 1 <= k <= n ==> StagedRight(s, k)
    ensures Assemble(s.staged, UpTo(n)) == Some(Concat(s.read[..n]))
  {
    if n > 0 {
      AssembleRead(s, n - 1);
      assert UpTo(n)[..n - 1] == UpTo(n - 1);
      assert StagedRight(s, n);
      assert s.read[..n][..n - 1] == s.read[..n - 1];
    }
  }

  /** When everything was read and nothing failed, the staged parts are the body. */
  lemma WholeBody(j: Job, s: State)
    requires j.Valid() && Inv(j, s) && s.collector.Draining? && s.resultCh == [] && !s.readErr
    ensures Concat(s.read) == j.body && |s.results| == |s.read| && Gapless(s.results)
    ensures Assemble(s.staged, UpTo(|s.read|)) == Some(j.body)
  {
    AllCollected(j, s);
    assert s.reader.ReaderDone? && s.sent == |s.read| && !Failing(s);
    forall k: nat | 1 <= k <= |s.read| ensures StagedRight(s, k) { assert k in s.results; }
    AssembleRead(s, |s.read|);
    assert s.read[..|s.read|] == s.read;
  }

  lemma FinalizeOutcome(j: Job, s: State, reply: Reply)
    requires j.Valid() && Inv(j, s) && s.collector.Draining? && s.resultCh == []
    ensures OutcomeInv(j, Finalize(j, s, reply))
  {
    if !s.readErr { WholeBody(j, s); }
  }

  /** Steps that touch neither channels, workers, results nor staging. */
  ghost predicate Quiet(s: State, s': State) {
    s' == s.(collector := s'.collector, workersDone := s'.workersDone, cancelled := s'.cancelled,
             created := s'.created, aborts := s'.aborts, listed := s'.listed, stored := s'.stored)
  }

  lemma SameFlight(s: State, s': State)
    requires FlightInv(s) && TrackInv(s) && StageInv(s) && Quiet(s, s') && (Failing(s) ==> Failing(s'))
    ensures FlightInv(s') && TrackInv(s') && StageInv(s')
  {
    forall v | 0 <= v < |s'.workers| ensures GoodWorker(s', s'.workers[v]) {
      assert GoodWorker(s, s.workers[v]);
    }
    forall k: nat ensures Tracked(s', k) { assert Tracked(s, k); }
  }

  lemma CreateKeeps(j: Job, s: State, reply: Reply)
    requires Inv(j, s) && s.collector.Creating?
    ensures Inv(j, CollectStep(j, s, reply))
  {
    SameFlight(s, CollectStep(j, s, reply));
  }

  lemma ReturnKeeps(j: Job, s: State, reply: Reply)
    requires Inv(j, s) && s.collector.Closing?
    ensures Inv(j, CollectStep(j, s, reply))
  {
    SameFlight(s, CollectStep(j, s, reply));
  }

  lemma DrainKeeps(j: Job, s: State, reply: Reply)
    requires j.Valid() && Inv(j, s) && s.collector.Draining? && s.resultCh == []
    ensures Inv(j, Finalize(j, s, reply))
  {
    FinalizeOutcome(j, s, reply);
    SameFlight(s, Finalize(j, s, reply));
  }

  lemma CollectKeeps(j: Job, s: State, reply: Reply)
    requires j.Valid() && Inv(j, s) && CollectorMoves(s)
    ensures Inv(j, CollectStep(j, s, reply))
  {
    match s.collector {
      case Collecting => ReceiveKeeps(s, Receive(s));
      case Draining => if s.resultCh != [] { ReceiveKeeps(s, Receive(s)); } else { DrainKeeps(j, s, reply); }
      case Creating => CreateKeeps(j, s, reply);
      case Closing(_) => ReturnKeeps(j, s, reply);
    }
  }

  // ---------------------------------------------------------------------
  // Every run
  // ---------------------------------------------------------------------

  lemma QuietKeeps(j: Job, s: State, a: Action)
    requires j.Valid() && Inv(j, s) && Enabled(j, s, a)
    requires a.AllExited? || a.SeeDone? || a.SeeCancel? || a.Cancel?
    ensures Inv(j, Apply(j, s, a))
  {
    SameFlight(s, Apply(j, s, a));
    assert GoodWorker(s, s.workers[0]);
  }

  lemma StepInv(j: Job, s: State, a: Action)
    requires j.Valid() && Inv(j, s) && Enabled(j, s, a)
    ensures Inv(j, Apply(j, s, a))
  {
    match a {
      case Read(ok) => ReaderKeeps(j, s, ok);
      case ReadCancel => ReaderKeeps(j, s, true);
      case Work(w, up) => WorkKeeps(j, s, w, up);
      case Collect(reply) => CollectKeeps(j, s, reply);
      case _ => QuietKeeps(j, s, a);
    }
  }

  lemma InitInv(j: Job)
    ensures Inv(j, Start(j))
  {
  }

  lemma StepAtInv(j: Job, r: Run, i: nat)
    requires j.Valid() && i < |r.acts| && |r.states| == |r.acts| + 1 && StepAt(j, r, i) && Inv(j, r.states[i])
    ensures Inv(j, r.states[i + 1])
  {
    StepInv(j, r.states[i], r.acts[i]);
  }

  lemma {:induction false} InvAlong(j: Job, r: Run, n: nat)
    requires j.Valid() && IsRun(j, r) && Inv(j, r.states[0]) && n <= |r.acts|
    ensures Inv(j, r.states[n])
  {
    if n > 0 {
      InvAlong(j, r, n - 1);
      StepAtInv(j, r, n - 1);
    }
  }

  lemma InvHolds(j: Job, r: Run, n: nat)
    requires j.Valid() && IsRun(j, r) && n <= |r.acts|
    ensures Inv(j, r.states[n])
  {
    InitInv(j);
    InvAlong(j, r, n);
  }

  /** promoteMultipart answers success only for the body whose checksum was recorded, stored
      whole and in order from the contiguous list of its parts, and then never aborts. */
  lemma SuccessIsTheWholeBody(j: Job, s: State)
    requires j.Valid() && Reachable(j, s) && s.collector == Returned(true)
    ensures s.stored == Some(j.body) && j.recorded == Sha(j.body) && s.aborts == 0
    ensures s.listed == UpTo(|s.read|) && Concat(s.read) == j.body
  {
    var r :| RunTo(j, r, s);
    InvHolds(j, r, |r.acts|);
  }

  /** A failed promotion aborts its upload exactly once if there is one, and has stored nothing,
      or the whole body if the reply to the completion was lost. */
  lemma FailureAbortsOnce(j: Job, s: State)
    requires j.Valid() && Reachable(j, s) && s.collector == Returned(false)
    ensures s.aborts == if s.created then 1 else 0
    ensures s.stored == None || (s.stored == Some(j.body) && j.recorded == Sha(j.body))
  {
    var r :| RunTo(j, r, s);
    InvHolds(j, r, |r.acts|);
  }
}
