/** How a multipart promotion ends: what decides its result, how the body is cut into parts,
    and what still happens after a cancellation. */
module MultipartOutcome {
  import opened Prelude
  import opened Multipart
  import opened MultipartSafety

  // ---------------------------------------------------------------------
  // The completion
  // ---------------------------------------------------------------------

  /** Once every worker is gone and no result is left: the promotion succeeds exactly if the
      whole body was read, it has the recorded checksum and the completion is confirmed; and the
      body is in the store exactly if the completion was not refused. No part is ever missing. */
  lemma CompletionDecides(j: Job, s: State, reply: Reply)
    requires j.Valid() && Reachable(j, s) && s.collector.Draining? && s.resultCh == []
    ensures var s', whole := Apply(j, s, Collect(reply)), !s.readErr && j.recorded == Sha(j.body);
            && s'.collector == Closing(whole && reply.Fine?)
            && s'.stored == if whole && !reply.Refused? then Some(j.body) else None
  {
    var r :| RunTo(j, r, s);
    InvHolds(j, r, |r.acts|);
    if !s.readErr { WholeBody(j, s); }
  }

  // ---------------------------------------------------------------------
  // The parts
  // ---------------------------------------------------------------------

  /** Part `k` is full, or the short rest of the body, after which nothing more is read. */
  ghost predicate Sized(j: Job, s: State, k: nat)
    requires k < |s.read|
  {
    || |s.read[k]| == j.partSize
    || (0 < |s.read[k]| < j.partSize && k == |s.read| - 1 && s.rest == [] && (s.reader == Sending(true) || s.reader.ReaderDone?))
  }

  ghost predicate SizedInv(j: Job, s: State) { forall k: nat :: k < |s.read| ==> Sized(j, s, k) }

  lemma ReadPartSized(j: Job, s: State, ok: bool)
    requires j.Valid() && SizedInv(j, s) && s.reader.Reading?
    ensures SizedInv(j, ReadPart(j, s, ok))
  {
    var s' := ReadPart(j, s, ok);
    forall k: nat | k < |s'.read| ensures Sized(j, s', k) {
      if k < |s.read| { assert Sized(j, s, k); }
    }
  }

  /** The reader moves without reading, and not back from a short part. */
  lemma NothingRead(j: Job, s: State, s': State)
    requires SizedInv(j, s) && s'.read == s.read && s'.rest == s.rest
    requires s'.reader == s.reader || s'.reader.ReaderDone? || (s.reader != Sending(true) && !s.reader.ReaderDone?)
    ensures SizedInv(j, s')
  {
    forall k: nat | k < |s'.read| ensures Sized(j, s', k) { assert Sized(j, s, k); }
  }

  lemma ReadSized(j: Job, s: State, ok: bool)
    requires j.Valid() && SizedInv(j, s)
    ensures SizedInv(j, ReadStep(j, s, ok))
  {
    if s.reader.Reading? { ReadPartSized(j, s, ok); } else { NothingRead(j, s, ReadStep(j, s, ok)); }
  }

  /** The collector leaves the reader and the workers alone, and cancels nobody but at its return. */
  ghost predicate Collects(s: State, s': State) {
    && s'.read == s.read && s'.rest == s.rest && s'.reader == s.reader && s'.workers == s.workers
    && (s.cancelled ==> s'.cancelled)
  }

  lemma FinalizeCollects(j: Job, s: State, reply: Reply)
    ensures Collects(s, Finalize(j, s, reply))
  {
  }

  lemma ReceiveCollects(s: State)
    requires s.resultCh != []
    ensures Collects(s, Receive(s))
  {
  }

  lemma CollectorCollects(j: Job, s: State, reply: Reply)
    requires CollectorMoves(s)
    ensures Collects(s, CollectStep(j, s, reply))
  {
    match s.collector {
      case Collecting => ReceiveCollects(s);
      case Draining => if s.resultCh != [] { ReceiveCollects(s); } else { FinalizeCollects(j, s, reply); }
      case _ =>
    }
  }

  lemma StepSized(j: Job, s: State, a: Action)
    requires j.Valid() && SizedInv(j, s) && Enabled(j, s, a)
    ensures SizedInv(j, Apply(j, s, a))
  {
    match a {
      case Read(ok) => ReadSized(j, s, ok);
      case Collect(reply) =>
        CollectorCollects(j, s, reply);
        NothingRead(j, s, CollectStep(j, s, reply));
      case _ => NothingRead(j, s, Apply(j, s, a));
    }
  }

  lemma {:induction false} SizedHolds(j: Job, r: Run, n: nat)
    requires j.Valid() && IsRun(j, r) && n <= |r.acts|
    ensures SizedInv(j, r.states[n])
  {
    if n > 0 {
      SizedHolds(j, r, n - 1);
      assert StepAt(j, r, n - 1);
      StepSized(j, r.states[n - 1], r.acts[n - 1]);
    }
  }

  /** In every reachable state each part read is full but perhaps the last one of the body, and
      a short part is not followed by another read. */
  lemma PartsAreFull(j: Job, s: State)
    requires j.Valid() && Reachable(j, s)
    ensures forall k: nat :: k < |s.read| ==> 0 < |s.read[k]| <= j.partSize && (|s.read[k]| < j.partSize ==> k == |s.read| - 1 && s.rest == [])
    ensures s.reader.Top? || s.reader.Reading? ==> forall k: nat :: k < |s.read| ==> |s.read[k]| == j.partSize
  {
    var r :| RunTo(j, r, s);
    SizedHolds(j, r, |r.acts|);
    forall k: nat | k < |s.read|
      ensures 0 < |s.read[k]| <= j.partSize && (|s.read[k]| < j.partSize ==> k == |s.read| - 1 && s.rest == [])
      ensures s.reader.Top? || s.reader.Reading? ==> |s.read[k]| == j.partSize
    {
      assert Sized(j, s, k);
    }
  }

  // ---------------------------------------------------------------------
  // After a cancellation
  // ---------------------------------------------------------------------

  /** How many more parts a cancelled reader can read. */
  function Pending(pc: ReaderPc): nat { if pc.Reading? then 1 else 0 }

  /** From `s` on, nothing new was begun up to `s'`. */
  ghost predicate Stopped(s: State, s': State) {
    && s'.cancelled && |s'.read| + Pending(s'.reader) <= |s.read| + Pending(s.reader)
    && |s'.workers| == |s.workers|
    && forall w :: 0 <= w < |s.workers| && s'.workers[w].Uploading? ==> s'.workers[w] == s.workers[w]
  }

  lemma WorkStopped(s: State, s': State, w: nat, up: Upload)
    requires w < |s'.workers| && Stopped(s, s')
    ensures Stopped(s, WorkStep(s', w, up))
  {
  }

  /** A cancelled reader reads at most the part it is reading. */
  lemma ReadLess(j: Job, s: State, ok: bool)
    requires s.cancelled
    ensures var s' := ReadStep(j, s, ok);
            && |s'.read| + Pending(s'.reader) <= |s.read| + Pending(s.reader)
            && s'.workers == s.workers && s'.cancelled
  {
    match s.reader {
      case Reading => ReadPartLess(j, s, ok);
      case _ =>
    }
  }

  lemma ReadPartLess(j: Job, s: State, ok: bool)
    ensures var s' := ReadPart(j, s, ok);
            |s'.read| <= |s.read| + 1 && !s'.reader.Reading? && s'.workers == s.workers && s'.cancelled == s.cancelled
  {
  }

  lemma ReadStopped(j: Job, s: State, s': State, ok: bool)
    requires Stopped(s, s')
    ensures Stopped(s, ReadStep(j, s', ok))
  {
    ReadLess(j, s', ok);
  }

  lemma CollectStopped(j: Job, s: State, s': State, reply: Reply)
    requires CollectorMoves(s') && Stopped(s, s')
    ensures Stopped(s, CollectStep(j, s', reply))
  {
    CollectorCollects(j, s', reply);
  }

  lemma StepStopped(j: Job, s: State, s': State, a: Action)
    requires Enabled(j, s', a) && Stopped(s, s')
    ensures Stopped(s, Apply(j, s', a))
  {
    match a {
      case Read(ok) => ReadStopped(j, s, s', ok);
      case Work(w, up) => WorkStopped(s, s', w, up);
      case Collect(reply) => CollectStopped(j, s, s', reply);
      case _ =>
    }
  }

  /** In every run, once the context is cancelled no upload is begun, and at most the part that
      is being read is still read. */
  lemma {:induction false} CancelStopsTheWork(j: Job, r: Run, i: nat, n: nat)
    requires IsRun(j, r) && i <= n <= |r.acts| && r.states[i].cancelled
    ensures Stopped(r.states[i], r.states[n])
    decreases n
  {
    if i < n {
      CancelStopsTheWork(j, r, i, n - 1);
      assert StepAt(j, r, n - 1);
      StepStopped(j, r.states[i], r.states[n - 1], r.acts[n - 1]);
    }
  }
}
