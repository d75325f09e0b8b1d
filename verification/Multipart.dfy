/** promoteMultipart: one goroutine reads parts in order, `par` workers upload them, one
    collects the results, one waits for the workers. Every channel operation, upload and
    context check is one step; errors and cancellation strike anywhere. */
module Multipart {
  import opened Prelude

  /** `par` is the parallelism after the source's clamp to at least one, `recorded` the
      checksum in the status row; `cancellable` says whether the caller may cancel. */
  datatype Job = Job(body: Bytes, par: nat, partSize: nat, recorded: Sum, cancellable: bool)
  {
    ghost predicate Valid() { par >= 1 && partSize >= 1 }
  }

  datatype Part = Part(num: nat, body: Bytes)
  datatype Result = Result(num: nat, failed: bool)

  datatype ReaderPc = Top | Reading | Sending(last: bool) | ReaderDone

  datatype WorkerPc = Idle | Checking(part: Part) | Uploading(part: Part) | Reporting(result: Result) | Exited

  /** `Closing` is the return with its deferred abort still to run. */
  datatype CollectorPc = Creating | Collecting | Draining | Closing(ok: bool) | Returned(ok: bool)

  datatype State = State(
    reader: ReaderPc, readErr: bool, rest: Bytes,
    read: seq<Bytes>,           // parts read and hashed so far; part k is read[k - 1]
    sent: nat,                  // how many of them were handed to the workers
    partCh: seq<Part>, closed: bool,
    workers: seq<WorkerPc>,
    resultCh: seq<Result>,
    workersDone: bool,
    collector: CollectorPc,
    received: nat,              // results taken from the channel so far
    results: set<nat>,          // and the part numbers they carried
    cancelled: bool,
    staged: map<nat, Bytes>,    // parts in the store's staging area
    stored: Option<Bytes>,      // what CompleteMultipart assembled
    listed: seq<nat>,           // the part list it was given
    created: bool, aborts: nat)

  function Start(j: Job): State {
    State(Top, false, j.body, [], 0, [], false, seq(j.par, _ => Idle), [], false,
          Creating, 0, {}, false, map[], None, [], false, 0)
  }

  /** How an upload ends; a failed one may leave anything under its part number. */
  datatype Upload = Done | Failed(left: Option<Bytes>)

  /** How a call to create or complete the upload ends; `Lost` is a completion that reports an
      error although the object was published. */
  datatype Reply = Fine | Refused | Lost

  datatype Action =
    | Read(ok: bool)             // the reader goroutine moves; `ok` is false for a read error
    | ReadCancel                 // the reader's select picks the cancelled context
    | Work(w: nat, up: Upload)   // worker `w` moves
    | AllExited                  // the waiting goroutine closes workersDone
    | Collect(reply: Reply)      // the collector creates, receives, completes or returns
    | SeeDone                    // the collector's select picks workersDone
    | SeeCancel                  // the collector's select picks the cancelled context
    | Cancel                     // the caller's context is cancelled

  function Concat(parts: seq<Bytes>): Bytes {
    if parts == [] then [] else Concat(parts[..|parts| - 1]) + parts[|parts| - 1]
  }

  function UpTo(n: nat): (l: seq<nat>)
    ensures |l| == n && forall i :: 0 <= i < n ==> l[i] == i + 1
  {
    if n == 0 then [] else UpTo(n - 1) + [n]
  }

  /** The results cover the parts from 1 to their number without a gap. */
  predicate Gapless(results: set<nat>) {
    forall k :: 1 <= k <= |results| ==> k in results
  }

  /** CompleteMultipart in the store: the staged parts, in the order listed. */
  function Assemble(staged: map<nat, Bytes>, listed: seq<nat>): Option<Bytes> {
    if listed == [] then Some([])
    else
      var n := |listed| - 1;
      var front := Assemble(staged, listed[..n]);
      if front.None? || listed[n] !in staged then None else Some(front.value + staged[listed[n]])
  }

  // ---------------------------------------------------------------------
  // Steps
  // ---------------------------------------------------------------------

  ghost predicate WorkerMoves(j: Job, s: State, w: nat)
    requires w < |s.workers|
  {
    match s.workers[w]
    case Idle => s.partCh != [] || s.closed
    case Reporting(_) => |s.resultCh| < j.par
    case Exited => false
    case _ => true
  }

  ghost predicate CollectorMoves(s: State) {
    match s.collector
    case Collecting => s.resultCh != []
    case Returned(_) => false
    case _ => true
  }

  ghost predicate Enabled(j: Job, s: State, a: Action) {
    match a
    case Read(_) => s.created && !s.reader.ReaderDone? && (s.reader.Sending? ==> |s.partCh| < j.par)
    case ReadCancel => s.created && s.reader.Sending? && s.cancelled
    case Work(w, _) => s.created && w < |s.workers| && WorkerMoves(j, s, w)
    case AllExited => s.created && !s.workersDone && forall w :: 0 <= w < |s.workers| ==> s.workers[w].Exited?
    case Collect(_) => CollectorMoves(s)
    case SeeDone => s.collector.Collecting? && s.workersDone
    case SeeCancel => s.collector.Collecting? && s.cancelled
    case Cancel => j.cancellable && !s.cancelled
  }

  function StopReading(s: State, err: bool): State {
    s.(reader := ReaderDone, readErr := err, closed := true)
  }

  function ReadPart(j: Job, s: State, ok: bool): State {
    if !ok then StopReading(s, true)
    else if s.rest == [] then StopReading(s, false)
    else
      var n := if |s.rest| < j.partSize then |s.rest| else j.partSize;
      s.(reader := Sending(|s.rest| < j.partSize), read := s.read + [s.rest[..n]], rest := s.rest[n..])
  }

  function SendPart(s: State, last: bool): State {
    if s.sent >= |s.read| then s  // never: the part just read is still to be sent
    else
      var s1 := s.(partCh := s.partCh + [Part(s.sent + 1, s.read[s.sent])], sent := s.sent + 1);
      if last then StopReading(s1, false) else s1.(reader := Top)
  }

  function ReadStep(j: Job, s: State, ok: bool): State {
    match s.reader
    case Top => if s.cancelled then StopReading(s, true) else s.(reader := Reading)
    case Reading => ReadPart(j, s, ok)
    case Sending(last) => SendPart(s, last)
    case ReaderDone => s
  }

  function NextPc(s: State, pc: WorkerPc, up: Upload): WorkerPc {
    match pc
    case Idle => if s.partCh != [] then Checking(s.partCh[0]) else Exited
    case Checking(part) => if s.cancelled then Reporting(Result(part.num, true)) else Uploading(part)
    case Uploading(part) => Reporting(Result(part.num, up.Failed?))
    case Reporting(_) => Idle
    case Exited => Exited
  }

  function Stage(staged: map<nat, Bytes>, part: Part, up: Upload): map<nat, Bytes> {
    match up
    case Done => staged[part.num := part.body]
    case Failed(left) => if left.None? then staged else staged[part.num := left.value]
  }

  function WorkStep(s: State, w: nat, up: Upload): State
    requires w < |s.workers|
  {
    var pc := s.workers[w];
    s.(workers := s.workers[w := NextPc(s, pc, up)],
       partCh := if pc.Idle? && s.partCh != [] then s.partCh[1..] else s.partCh,
       resultCh := if pc.Reporting? then s.resultCh + [pc.result] else s.resultCh,
       staged := if pc.Uploading? then Stage(s.staged, pc.part, up) else s.staged)
  }

  /** Takes one result; an error makes promoteMultipart return. */
  function Receive(s: State): State
    requires s.resultCh != []
  {
    var res := s.resultCh[0];
    s.(resultCh := s.resultCh[1..], received := s.received + 1, results := s.results + {res.num},
       collector := if res.failed then Closing(false) else s.collector)
  }

  /** After the drain: check readErr, build the list, check the checksum, complete. */
  function Finalize(j: Job, s: State, reply: Reply): State {
    var listed := UpTo(|s.results|);
    var whole := Assemble(s.staged, listed);
    if s.readErr || !Gapless(s.results) || j.recorded != Sha(Concat(s.read)) || reply.Refused? || whole.None?
    then s.(collector := Closing(false))
    else s.(collector := Closing(reply.Fine?), listed := listed, stored := whole)
  }

  function CollectStep(j: Job, s: State, reply: Reply): State
    requires s.collector.Collecting? ==> s.resultCh != []
  {
    match s.collector
    case Creating => if reply.Fine? then s.(collector := Collecting, created := true) else s.(collector := Returned(false))
    case Collecting => Receive(s)
    case Draining => if s.resultCh != [] then Receive(s) else Finalize(j, s, reply)
    case Closing(done) =>
      s.(collector := Returned(done), aborts := if done then s.aborts else s.aborts + 1, cancelled := true)
    case Returned(_) => s
  }

  ghost function Apply(j: Job, s: State, a: Action): State
    requires Enabled(j, s, a)
  {
    match a
    case Read(ok) => ReadStep(j, s, ok)
    case ReadCancel => StopReading(s, true)
    case Work(w, up) => WorkStep(s, w, up)
    case AllExited => s.(workersDone := true)
    case Collect(reply) => CollectStep(j, s, reply)
    case SeeDone => s.(collector := Draining)
    case SeeCancel => s.(collector := Closing(false))
    case Cancel => s.(cancelled := true)
  }

  datatype Run = Run(states: seq<State>, acts: seq<Action>)

  ghost predicate StepAt(j: Job, r: Run, i: nat)
    requires i < |r.acts| && |r.states| == |r.acts| + 1
  {
    Enabled(j, r.states[i], r.acts[i]) && r.states[i + 1] == Apply(j, r.states[i], r.acts[i])
  }

  ghost predicate IsRun(j: Job, r: Run) {
    && |r.states| == |r.acts| + 1 && r.states[0] == Start(j)
    && forall i: nat :: i < |r.acts| ==> StepAt(j, r, i)
  }

  ghost predicate RunTo(j: Job, r: Run, s: State) {
    IsRun(j, r) && r.states[|r.acts|] == s
  }

  ghost predicate Reachable(j: Job, s: State) {
    exists r :: RunTo(j, r, s)
  }
}
