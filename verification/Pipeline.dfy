/** The blob pipeline as a step system. Write, Read with its background fill, Promote
    and Evict run concurrently in any number; each access to the cache, the status
    table, the durable store or a singleflight map is one step. Faults, cancellation,
    automatic eviction and process crashes happen at any point. */
module Pipeline {
  import opened Prelude

  /** When Write is called: at most once at a time and never for an acknowledged ID, or at
      any time with the same body, or with any body. */
  datatype Writes = Once | Same | Any

  /** What the surroundings may do. */
  datatype Env = Env(
    body: BlobId -> Bytes,  // the one body written under each blob ID
    writes: Writes,
    ttl: bool,              // cache entries expire, protected or not
    lossyPut: bool,         // a failed cache Put removes the old entry (DiskCache)
    lossyGet: bool,         // a cache Get that cannot open the body removes the entry (DiskCache)
    blindEvict: bool,       // Evict is called while no status row can be read
    panics: bool,           // a leader panics and recovers
    outsider: bool,         // someone else writes these keys in the durable store
    crashes: bool,          // the process dies and restarts
    volatileCache: bool,    // the cache does not survive a crash (MemoryCache)
    headErrs: bool,         // HEAD may fail although the object is there
    unreported: bool,       // the store reports no checksums on GET and HEAD
    maxRestoreBytes: nat)   // 0 means unlimited

  datatype Commit = Cached | Durable

  datatype Status = Status(commit: Commit, size: nat, sum: Sum)

  /** The size and checksum in the result of an upload. */
  datatype Report = Report(size: nat, sum: Sum)

  datatype CacheEntry = CacheEntry(body: Bytes, nonEvictable: bool)

  /** Everything the shared stores hold about one blob; `acked` collects the bodies whose
      Write returned without error. */
  datatype Blob = Blob(cache: Option<CacheEntry>, status: Option<Status>, versions: seq<Bytes>, acked: set<Bytes>)

  /** A singleflight call object: `result` is None until `done` is closed. */
  datatype Flight<R> = Flight(blob: BlobId, result: Option<R>)

  datatype Counters = Counters(attempts: nat, successes: nat, failures: nat, skipped: nat, headSkipFailures: nat)

  /** The bytes and the checksum a read hands out. */
  datatype Got = Got(body: Bytes, sum: Sum)

  datatype WritePc = WPut | WStatus

  datatype PromotePc =
    | PJoin | PWait(flight: nat) | PStatus
    | PHead(st: Status) | PHeadMark(st: Status) | PRead(st: Status) | PUpload(st: Status, body: Bytes)
    | PMark(st: Status, rep: Report) | PReget(st: Status) | PReput(st: Status, body: Bytes)
    | PPublish(shared: bool, own: bool) | PDelete(own: bool)

  /** `known` records that the blob was acknowledged before the read looked into the cache. */
  datatype ReadPc =
    | RGet | RHit(body: Bytes) | RJoin(known: bool) | RWait(flight: nat, known: bool) | RFetch(known: bool)
    | RPublish(shared: Option<Got>, own: Option<Got>) | RDelete(own: Option<Got>)

  datatype FillPc = FPut(body: Bytes, sum: Sum) | FStatus(body: Bytes, sum: Sum)

  datatype EvictPc = ECheck | EGo

  /** `ackOnSuccess` marks a Promote made inside a synchronous Write of that body. */
  datatype Pc =
    | Writing(w: WritePc, data: Bytes, sync: bool)
    | Promoting(p: PromotePc, ackOnSuccess: Option<Bytes>)
    | Reading(r: ReadPc)
    | Filling(f: FillPc)
    | Evicting(e: EvictPc)

  datatype Call = Call(blob: BlobId, pc: Pc)

  datatype State = State(
    blobs: map<BlobId, Blob>,
    calls: map<nat, Call>,
    next: nat,  // call identifiers are never reused
    promoting: map<BlobId, nat>, promoteFlights: map<nat, Flight<bool>>,
    restoring: map<BlobId, nat>, restoreFlights: map<nat, Flight<Option<Got>>>,
    counters: Counters)

  const NoBlob := Blob(None, None, [], {})
  const Zero := Counters(0, 0, 0, 0, 0)
  const Start := State(map[], map[], 0, map[], map[], map[], map[], Zero)

  function At(s: State, b: BlobId): Blob { if b in s.blobs then s.blobs[b] else NoBlob }

  function Last(v: seq<Bytes>): Bytes
    requires v != []
  {
    v[|v| - 1]
  }

  /** How one access turns out. `Lost` is an upload that reports an error although it was
      published. An upload that succeeds reports the size and checksum of the object, or, as
      `Reported`, anything else: a CompleteMultipart whose HEAD fails reports 0 and none. */
  datatype Outcome = Ok | Fail | Lost | Reported(rep: Report) | Cancel | Panic

  datatype Op = Write(data: Bytes, sync: bool) | Promote | Read | Evict

  datatype Action =
    | Begin(blob: BlobId, op: Op)
    | Tick(id: nat, outcome: Outcome)
    | AutoEvict(blob: BlobId)
    | Expire(blob: BlobId)
    | Outside(blob: BlobId, versions: seq<Bytes>)
    | Crash

  // ---------------------------------------------------------------------
  // restoreFromL2's handling of a stream from the durable store
  // ---------------------------------------------------------------------

  datatype Restored = Restored(body: Bytes, sum: Sum) | TooLarge | Mismatch

  /** Reads at most one byte over the limit, then checks the length and the checksum. */
  function Restore(stream: Bytes, reported: Sum, maxRestoreBytes: nat): (r: Restored)
    ensures r.Restored? ==> r.body == stream && r.sum == Sha(stream) && (reported.NoSum? || reported == r.sum)
    ensures r.Restored? && maxRestoreBytes > 0 ==> |r.body| <= maxRestoreBytes
    ensures r.TooLarge? <==> maxRestoreBytes > 0 && |stream| > maxRestoreBytes
    ensures r.Mismatch? <==> !r.TooLarge? && !reported.NoSum? && reported != Sha(stream)
  {
    var read := if maxRestoreBytes > 0 && |stream| > maxRestoreBytes + 1 then stream[..maxRestoreBytes + 1] else stream;
    if maxRestoreBytes > 0 && |read| > maxRestoreBytes then TooLarge
    else if reported.NoSum? then Restored(read, Sha(read))
    else if Sha(read) != reported then Mismatch
    else Restored(read, reported)
  }

  /** What a fetch of the current version hands to the callers. */
  function Fetched(env: Env, blob: Blob, o: Outcome): Option<Got> {
    if o != Ok || blob.versions == [] then None
    else
      var r := Restore(Last(blob.versions), if env.unreported then NoSum else Sha(Last(blob.versions)), env.maxRestoreBytes);
      if r.Restored? then Some(Got(r.body, r.sum)) else None
  }

  /** checkAlreadyDurable: the size must agree, and the checksum when both sides report one. */
  predicate AlreadyDurable(env: Env, blob: Blob, st: Status) {
    && blob.versions != []
    && |Last(blob.versions)| == st.size
    && (env.unreported || st.sum.NoSum? || Sha(Last(blob.versions)) == st.sum)
  }

  /** The durable store refuses a body that does not have the recorded length and checksum. */
  predicate Rejects(st: Status, body: Bytes) {
    (st.size > 0 && |body| != st.size) || (!st.sum.NoSum? && Sha(body) != st.sum)
  }

  // ---------------------------------------------------------------------
  // Steps of one call that touch only its own blob
  // ---------------------------------------------------------------------

  datatype Then = Goto(pc: Pc) | End

  /** The blob afterwards, where the call goes, and the counters it adds. */
  datatype Local = Local(blob: Blob, go: Then, count: Counters)

  function Quiet(blob: Blob, go: Then): Local { Local(blob, go, Zero) }

  function CachePut(env: Env, blob: Blob, body: Bytes, nonEvictable: bool, ok: bool): Blob {
    if ok then blob.(cache := Some(CacheEntry(body, nonEvictable)))
    else if env.lossyPut then blob.(cache := None)
    else blob
  }

  /** A cache Get that fails; the disk cache drops an entry whose body it cannot open. */
  function CacheGetFails(env: Env, blob: Blob): Blob {
    if env.lossyGet then blob.(cache := None) else blob
  }

  function MarkDurable(blob: Blob, size: nat, sum: Sum): Blob {
    if blob.status.None? then blob else blob.(status := Some(Status(Durable, size, sum)))
  }

  function WriteStep(env: Env, blob: Blob, w: WritePc, data: Bytes, sync: bool, o: Outcome): Local {
    match w
    case WPut =>
      Quiet(CachePut(env, blob, data, true, o.Ok?), if o.Ok? then Goto(Writing(WStatus, data, sync)) else End)
    case WStatus =>
      if !o.Ok? then Quiet(blob, End)
      else
        var written := blob.(status := Some(Status(Cached, |data|, Sha(data))));
        if sync then Quiet(written, Goto(Promoting(PJoin, Some(data))))
        else Quiet(written.(acked := blob.acked + {data}), End)
  }

  /** The steps of promoteLocked. A failing one goes on to publish the error. */
  function PromoteStep(env: Env, blob: Blob, p: PromotePc, ack: Option<Bytes>, o: Outcome): Local {
    var failed := Goto(Promoting(PPublish(false, false), ack));
    var succeeded := Goto(Promoting(PPublish(true, true), ack));
    var failure := Zero.(failures := 1);
    match p
    case PStatus =>
      var tried := Zero.(attempts := 1);
      if !o.Ok? || blob.status.None? then Local(blob, failed, tried.(failures := 1))
      else if blob.status.value.commit == Durable then Local(blob, succeeded, tried.(skipped := 1))
      else Local(blob, Goto(Promoting(PHead(blob.status.value), ack)), tried)
    case PHead(st) =>
      if AlreadyDurable(env, blob, st) && o.Ok? then
        Local(blob, Goto(Promoting(PHeadMark(st), ack)), Zero.(skipped := 1))
      else Quiet(blob, Goto(Promoting(PRead(st), ack)))
    case PHeadMark(st) =>
      if o.Ok? then Quiet(MarkDurable(blob, st.size, st.sum), succeeded)
      else Local(blob, failed, failure.(headSkipFailures := 1))
    case PRead(st) =>
      if !o.Ok? then Local(CacheGetFails(env, blob), failed, failure)
      else if blob.cache.None? then Local(blob, failed, failure)
      else Quiet(blob, Goto(Promoting(PUpload(st, blob.cache.value.body), ack)))
    case PUpload(st, body) =>
      var stored := blob.(versions := blob.versions + [body]);
      if (!o.Ok? && !o.Lost? && !o.Reported?) || Rejects(st, body) then Local(blob, failed, failure)
      else if o.Lost? then Local(stored, failed, failure)
      else
        var rep := if o.Reported? then o.rep else Report(|body|, Sha(body));
        Quiet(stored, Goto(Promoting(PMark(st, rep), ack)))
    case PMark(st, rep) =>
      if o.Ok? then Quiet(MarkDurable(blob, rep.size, rep.sum), Goto(Promoting(PReget(st), ack)))
      else Local(blob, failed, failure)
    case PReget(st) =>
      if !o.Ok? then Local(CacheGetFails(env, blob), succeeded, Zero.(successes := 1))
      else if blob.cache.None? then Local(blob, succeeded, Zero.(successes := 1))
      else Quiet(blob, Goto(Promoting(PReput(st, blob.cache.value.body), ack)))
    case PReput(st, body) =>
      Local(CachePut(env, blob, body, false, o.Ok?), succeeded, Zero.(successes := 1))
    case _ => Quiet(blob, End)
  }

  function FillStep(env: Env, blob: Blob, f: FillPc, o: Outcome): Local {
    match f
    case FPut(body, sum) =>
      if o.Cancel? then Quiet(blob, End)
      else Quiet(CachePut(env, blob, body, false, o.Ok?), Goto(Filling(FStatus(body, sum))))
    case FStatus(body, sum) =>
      Quiet(if o.Ok? then blob.(status := Some(Status(Durable, |body|, sum))) else blob, End)
  }

  function EvictStep(blob: Blob, e: EvictPc, o: Outcome): Local {
    match e
    case ECheck =>
      if o.Ok? && blob.status.Some? && blob.status.value.commit == Cached then Quiet(blob, End)
      else Quiet(blob, Goto(Evicting(EGo)))
    case EGo => Quiet(blob.(cache := None), End)
  }

  // ---------------------------------------------------------------------
  // The whole step relation
  // ---------------------------------------------------------------------

  predicate Busy(p: PromotePc) {
    p.PStatus? || p.PHead? || p.PHeadMark? || p.PRead? || p.PUpload? || p.PMark? || p.PReget? || p.PReput?
  }

  /** Steps that touch the call's own blob and nothing else shared. */
  predicate IsLocal(pc: Pc) {
    pc.Writing? || pc.Filling? || pc.Evicting? || (pc.Promoting? && Busy(pc.p))
  }

  function LocalStep(env: Env, blob: Blob, pc: Pc, o: Outcome): Local
    requires IsLocal(pc)
  {
    match pc
    case Writing(w, data, sync) => WriteStep(env, blob, w, data, sync, o)
    case Promoting(p, ack) => PromoteStep(env, blob, p, ack, o)
    case Filling(f) => FillStep(env, blob, f, o)
    case Evicting(e) => EvictStep(blob, e, o)
  }

  /** A Write that has not returned: it is writing, or promoting on behalf of a synchronous Write. */
  predicate IsWriter(pc: Pc) { pc.Writing? || (pc.Promoting? && pc.ackOnSuccess.Some?) }

  predicate WritesAt(s: State, id: nat, b: BlobId) {
    id in s.calls && s.calls[id].blob == b && IsWriter(s.calls[id].pc)
  }

  predicate WriteAllowed(env: Env, s: State, b: BlobId, data: Bytes) {
    match env.writes
    case Once => data == env.body(b) && At(s, b).acked == {} && forall id :: id in s.calls ==> !WritesAt(s, id, b)
    case Same => data == env.body(b)
    case Any => true
  }

  predicate BeginAllowed(env: Env, s: State, b: BlobId, op: Op) {
    match op
    case Write(data, _) => WriteAllowed(env, s, b, data)
    case Evict => env.blindEvict || At(s, b).status.Some?
    case _ => true
  }

  predicate TickAllowed(env: Env, s: State, id: nat, o: Outcome) {
    && id in s.calls
    && (o.Panic? ==> env.panics)
    && (o.Reported? ==> s.calls[id].pc.Promoting? && s.calls[id].pc.p.PUpload?)
    && var pc := s.calls[id].pc;
       match pc
       case Promoting(PWait(f), _) => o.Cancel? || (f in s.promoteFlights && s.promoteFlights[f].result.Some?)
       case Promoting(PHead(st), _) =>
         o.Ok? || o.Panic? || env.headErrs || !AlreadyDurable(env, At(s, s.calls[id].blob), st)
       case Reading(RWait(f, _)) => o.Cancel? || (f in s.restoreFlights && s.restoreFlights[f].result.Some?)
       case Evicting(ECheck) => env.blindEvict || o.Ok?
       case _ => true
  }

  predicate Enabled(env: Env, s: State, a: Action) {
    match a
    case Begin(b, op) => BeginAllowed(env, s, b, op)
    case Tick(id, o) => TickAllowed(env, s, id, o)
    case AutoEvict(b) => At(s, b).cache.Some? && !At(s, b).cache.value.nonEvictable
    case Expire(b) => env.ttl
    case Outside(b, _) => env.outsider
    case Crash => env.crashes
  }

  function FirstPc(op: Op): Pc {
    match op
    case Write(data, sync) => Writing(WPut, data, sync)
    case Promote => Promoting(PJoin, None)
    case Read => Reading(RGet)
    case Evict => Evicting(ECheck)
  }

  function Add(a: Counters, b: Counters): Counters {
    Counters(a.attempts + b.attempts, a.successes + b.successes, a.failures + b.failures,
             a.skipped + b.skipped, a.headSkipFailures + b.headSkipFailures)
  }

  function Follow(s: State, id: nat, b: BlobId, t: Then): State {
    match t
    case Goto(pc) => s.(calls := s.calls[id := Call(b, pc)])
    case End => s.(calls := s.calls - {id})
  }

  function SetBlob(s: State, b: BlobId, blob: Blob): State { s.(blobs := s.blobs[b := blob]) }

  function Ack(s: State, b: BlobId, data: Option<Bytes>, ok: bool): State {
    if data.None? || !ok then s
    else SetBlob(s, b, At(s, b).(acked := At(s, b).acked + {data.value}))
  }

  /** The singleflight steps of Promote: join or lead, wait, publish, delete. */
  function FlightStep(s: State, id: nat, b: BlobId, p: PromotePc, ack: Option<Bytes>, o: Outcome): State
    requires p.PWait? && !o.Cancel? ==> p.flight in s.promoteFlights && s.promoteFlights[p.flight].result.Some?
  {
    match p
    case PJoin =>
      if b in s.promoting then Follow(s, id, b, Goto(Promoting(PWait(s.promoting[b]), ack)))
      else
        Follow(s.(promoting := s.promoting[b := id], promoteFlights := s.promoteFlights[id := Flight(b, None)]),
               id, b, Goto(Promoting(PStatus, ack)))
    case PWait(f) =>
      Follow(if o.Cancel? then s else Ack(s, b, ack, s.promoteFlights[f].result.value), id, b, End)
    case PPublish(shared, own) =>
      Follow(s.(promoteFlights := s.promoteFlights[id := Flight(b, Some(shared))]), id, b, Goto(Promoting(PDelete(own), ack)))
    case PDelete(own) =>
      Follow(Ack(s.(promoting := s.promoting - {b}), b, ack, own), id, b, End)
    case _ => s
  }

  function Filler(got: Option<Got>): Then {
    if got.None? then End else Goto(Filling(FPut(got.value.body, got.value.sum)))
  }

  /** A hit, a miss (also when the disk cache cannot open the body), or an error. */
  function Lookup(env: Env, blob: Blob, o: Outcome): Then {
    if o.Ok? && blob.cache.Some? then Goto(Reading(RHit(blob.cache.value.body)))
    else if o.Ok? || env.lossyGet then Goto(Reading(RJoin(blob.acked != {})))
    else End
  }

  /** The steps of Read up to the point where it returns; a restored body is then filled in. */
  function ReadStep(env: Env, s: State, id: nat, b: BlobId, r: ReadPc, o: Outcome): State
    requires r.RWait? && !o.Cancel? ==> r.flight in s.restoreFlights && s.restoreFlights[r.flight].result.Some?
  {
    match r
    case RGet =>
      var blob := At(s, b);
      Follow(SetBlob(s, b, if o.Ok? then blob else CacheGetFails(env, blob)), id, b, Lookup(env, blob, o))
    case RHit(_) => Follow(s, id, b, End)
    case RJoin(known) =>
      if b in s.restoring then Follow(s, id, b, Goto(Reading(RWait(s.restoring[b], known))))
      else
        Follow(s.(restoring := s.restoring[b := id], restoreFlights := s.restoreFlights[id := Flight(b, None)]),
               id, b, Goto(Reading(RFetch(known))))
    case RWait(f, _) =>
      Follow(s, id, b, if o.Cancel? then End else Filler(s.restoreFlights[f].result.value))
    case RFetch(_) =>
      // A panicking leader shares the error but itself returns an empty body and no error.
      Follow(s, id, b, Goto(Reading(if o.Panic? then RPublish(None, Some(Got([], NoSum)))
                                    else RPublish(Fetched(env, At(s, b), o), Fetched(env, At(s, b), o)))))
    case RPublish(shared, own) =>
      Follow(s.(restoreFlights := s.restoreFlights[id := Flight(b, Some(shared))]), id, b, Goto(Reading(RDelete(own))))
    case RDelete(own) =>
      Follow(s.(restoring := s.restoring - {b}), id, b, Filler(own))
  }

  function TickStep(env: Env, s: State, id: nat, o: Outcome): State
    requires TickAllowed(env, s, id, o)
  {
    var b, pc := s.calls[id].blob, s.calls[id].pc;
    if IsLocal(pc) then
      if o.Panic? && pc.Promoting? then Follow(s, id, b, Goto(Promoting(PPublish(false, true), pc.ackOnSuccess)))
      else
        var l := LocalStep(env, At(s, b), pc, o);
        Follow(SetBlob(s, b, l.blob), id, b, l.go).(counters := Add(s.counters, l.count))
    else if pc.Promoting? then FlightStep(s, id, b, pc.p, pc.ackOnSuccess, o)
    else ReadStep(env, s, id, b, pc.r, o)
  }

  function Apply(env: Env, s: State, a: Action): State
    requires Enabled(env, s, a)
  {
    match a
    case Begin(b, op) => s.(calls := s.calls[s.next := Call(b, FirstPc(op))], next := s.next + 1)
    case Tick(id, o) => TickStep(env, s, id, o)
    case AutoEvict(b) => SetBlob(s, b, At(s, b).(cache := None))
    case Expire(b) => SetBlob(s, b, At(s, b).(cache := None))
    case Outside(b, versions) => SetBlob(s, b, At(s, b).(versions := versions))
    case Crash =>
      State(if env.volatileCache then map b | b in s.blobs :: s.blobs[b].(cache := None) else s.blobs,
            map[], s.next, map[], map[], map[], map[], Zero)
  }

  /** What a Read returns to its caller at this step, if it returns without error. */
  function Returned(env: Env, s: State, a: Action): Option<Got>
    requires Enabled(env, s, a)
  {
    if !a.Tick? || !s.calls[a.id].pc.Reading? then None
    else
      var b, r := s.calls[a.id].blob, s.calls[a.id].pc.r;
      match r
      case RHit(body) =>
        Some(Got(body, if a.outcome.Ok? && At(s, b).status.Some? then At(s, b).status.value.sum else NoSum))
      case RWait(f, _) => if a.outcome.Cancel? then None else s.restoreFlights[f].result.value
      case RDelete(own) => own
      case _ => None
  }

  // ---------------------------------------------------------------------
  // Runs
  // ---------------------------------------------------------------------

  datatype Run = Run(states: seq<State>, acts: seq<Action>)

  ghost predicate StepAt(env: Env, r: Run, i: nat)
    requires i < |r.acts| && |r.states| == |r.acts| + 1
  {
    Enabled(env, r.states[i], r.acts[i]) && r.states[i + 1] == Apply(env, r.states[i], r.acts[i])
  }

  ghost predicate IsRunFrom(env: Env, s0: State, r: Run) {
    && |r.states| == |r.acts| + 1 && r.states[0] == s0
    && forall i: nat :: i < |r.acts| ==> StepAt(env, r, i)
  }

  ghost predicate IsRun(env: Env, r: Run) { IsRunFrom(env, Start, r) }

  /** The actions `acts`, taken from `s0`, lead to `s`. */
  ghost predicate Leads(env: Env, s0: State, acts: seq<Action>, s: State) {
    exists r :: IsRunFrom(env, s0, r) && r.acts == acts && r.states[|r.acts|] == s
  }

  ghost predicate Reachable(env: Env, s: State) {
    exists r :: IsRun(env, r) && r.states[|r.acts|] == s
  }
}
