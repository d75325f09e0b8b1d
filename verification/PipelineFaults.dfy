/** What a failing access does: which stores it leaves alone, which calls it fails and which go
    on as if nothing were stored. */
module PipelineFaults {
  import opened Prelude
  import opened Pipeline
  import opened PipelineShape
  import opened PipelineAlone
  import opened PipelineReads

  /** The call is about to access the cache, the status table or the durable store. */
  predicate Accesses(pc: Pc) {
    (IsLocal(pc) && pc != Evicting(EGo)) || (pc.Reading? && (pc.r.RGet? || pc.r.RFetch?))
  }

  predicate Puts(pc: Pc) {
    || (pc.Writing? && pc.w.WPut?) || (pc.Filling? && pc.f.FPut?) || (pc.Promoting? && pc.p.PReput?)
  }

  predicate Gets(pc: Pc) { pc == Reading(RGet) || (pc.Promoting? && (pc.p.PRead? || pc.p.PReget?)) }

  /** The access fails, perhaps because the call was cancelled, or loses its answer. */
  predicate Fault(o: Outcome) { o.Fail? || o.Cancel? || o.Lost? }

  /** A fill first looks whether it is cancelled, and then touches nothing. */
  predicate CancelledFill(pc: Pc, o: Outcome) { pc.Filling? && pc.f.FPut? && o.Cancel? }

  /** The faults that cost a cache entry: the disk cache removes the old entry when it cannot
      replace it, and an entry whose body it cannot open. */
  predicate DropsEntry(env: Env, pc: Pc, o: Outcome) {
    (env.lossyPut && Puts(pc) && !CancelledFill(pc, o)) || (env.lossyGet && Gets(pc))
  }

  /** An upload that reports an error although the store took the body. */
  predicate LosesAnswer(pc: Pc, o: Outcome) {
    o.Lost? && pc.Promoting? && pc.p.PUpload? && (pc.p.st.size > 0 ==> |pc.p.body| == pc.p.st.size)
    && (pc.p.st.sum.NoSum? || Sha(pc.p.body) == pc.p.st.sum)
  }

  /** The blob after a failing access at `pc`. */
  function Damaged(env: Env, x: Blob, pc: Pc, o: Outcome): Blob {
    x.(cache := if DropsEntry(env, pc, o) then None else x.cache,
       versions := if LosesAnswer(pc, o) then x.versions + [pc.p.body] else x.versions)
  }

  lemma LocalDamage(env: Env, x: Blob, pc: Pc, o: Outcome)
    requires IsLocal(pc) && pc != Evicting(EGo) && Fault(o)
    ensures LocalStep(env, x, pc, o).blob == Damaged(env, x, pc, o)
  {
  }

  lemma ReadDamage(env: Env, s: State, id: nat, b: BlobId, r: ReadPc, o: Outcome)
    requires (r.RGet? || r.RFetch?) && Fault(o)
    ensures At(ReadStep(env, s, id, b, r, o), b) == Damaged(env, At(s, b), Reading(r), o)
  {
  }

  /** In any state: a failing access changes nothing but the cache entry it may cost and the
      version a lost answer leaves behind. No fault marks, acknowledges, protects or releases. */
  lemma FaultsKeepTheStores(env: Env, s: State, id: nat, o: Outcome, b: BlobId)
    requires TickAllowed(env, s, id, o) && Accesses(s.calls[id].pc) && Fault(o)
    ensures var pc := s.calls[id].pc;
            At(TickStep(env, s, id, o), b) == if b == s.calls[id].blob then Damaged(env, At(s, b), pc, o) else At(s, b)
  {
    TickShape(env, s, id, o);
    if IsLocal(s.calls[id].pc) {
      TickLocalIs(env, s, id, o);
      LocalDamage(env, At(s, s.calls[id].blob), s.calls[id].pc, o);
    } else {
      ReadDamage(env, s, id, s.calls[id].blob, s.calls[id].pc.r, o);
    }
  }

  // ---------------------------------------------------------------------
  // Which faults a call survives
  // ---------------------------------------------------------------------

  /** The faults that end the call with an error at once: all but those of the HEAD, of the
      re-put after the upload, of a fill, of the check before an eviction, of the fetch from the
      durable store and, with the disk cache, of a read's look into the cache. */
  predicate Fatal(env: Env, pc: Pc, o: Outcome) {
    match pc
    case Writing(_, _, _) => true
    case Promoting(p, _) => !p.PHead? && !p.PReget? && !p.PReput?
    case Reading(r) => r.RGet? && !env.lossyGet
    case Filling(_) => CancelledFill(pc, o)
    case Evicting(_) => false
  }

  /** The call has ended, or is a leader on its way to return an error to itself and its waiters. */
  predicate Failed(s: State, id: nat) {
    id in s.calls ==> s.calls[id].pc.Promoting? && s.calls[id].pc.p == PPublish(false, false)
  }

  /** Nothing is stored about the blob. */
  function Gone(x: Blob): Blob { NoBlob.(acked := x.acked) }

  lemma FatalLocal(env: Env, x: Blob, pc: Pc, o: Outcome)
    requires IsLocal(pc) && Fault(o) && Fatal(env, pc, o)
    ensures var go := LocalStep(env, x, pc, o).go;
            go.Goto? ==> go.pc.Promoting? && go.pc.p == PPublish(false, false)
  {
  }

  lemma SurvivesLocal(env: Env, x: Blob, pc: Pc, o: Outcome)
    requires IsLocal(pc) && pc != Evicting(EGo) && Fault(o) && !Fatal(env, pc, o)
    ensures LocalStep(env, x, pc, o).go == LocalStep(env, Gone(x), pc, Ok).go
  {
  }

  /** Where a call goes when it accesses a store. */
  function Goes(env: Env, x: Blob, pc: Pc, o: Outcome): Then
    requires Accesses(pc)
  {
    if IsLocal(pc) then LocalStep(env, x, pc, o).go
    else if pc.r.RGet? then Lookup(env, x, o)
    else Goto(Reading(RPublish(Fetched(env, x, o), Fetched(env, x, o))))
  }

  function Moved(calls: map<nat, Call>, id: nat, b: BlobId, go: Then): map<nat, Call> {
    if go.End? then calls - {id} else calls[id := Call(b, go.pc)]
  }

  lemma LocalGoes(env: Env, s: State, id: nat, o: Outcome, l: Local)
    requires TickAllowed(env, s, id, o) && IsLocal(s.calls[id].pc) && !o.Panic?
    requires l == LocalStep(env, At(s, s.calls[id].blob), s.calls[id].pc, o)
    ensures TickStep(env, s, id, o).calls == Moved(s.calls, id, s.calls[id].blob, l.go)
  {
  }

  lemma LookGoes(env: Env, s: State, id: nat, b: BlobId, o: Outcome)
    ensures ReadStep(env, s, id, b, RGet, o).calls == Moved(s.calls, id, b, Lookup(env, At(s, b), o))
  {
  }

  lemma FetchGoes(env: Env, s: State, id: nat, b: BlobId, known: bool, o: Outcome, got: Option<Got>)
    requires !o.Panic? && got == Fetched(env, At(s, b), o)
    ensures ReadStep(env, s, id, b, RFetch(known), o).calls == Moved(s.calls, id, b, Goto(Reading(RPublish(got, got))))
  {
  }

  lemma ReaderGoes(env: Env, s: State, id: nat, o: Outcome)
    requires TickAllowed(env, s, id, o) && s.calls[id].pc.Reading? && Accesses(s.calls[id].pc) && !o.Panic?
    ensures TickStep(env, s, id, o).calls
            == Moved(s.calls, id, s.calls[id].blob, Goes(env, At(s, s.calls[id].blob), s.calls[id].pc, o))
  {
    var b, r := s.calls[id].blob, s.calls[id].pc.r;
    if r.RGet? {
      LookGoes(env, s, id, b, o);
    } else {
      FetchGoes(env, s, id, b, r.known, o, Fetched(env, At(s, b), o));
    }
  }

  lemma AccessGoes(env: Env, s: State, id: nat, o: Outcome, go: Then)
    requires TickAllowed(env, s, id, o) && Accesses(s.calls[id].pc) && !o.Panic?
    requires go == Goes(env, At(s, s.calls[id].blob), s.calls[id].pc, o)
    ensures TickStep(env, s, id, o).calls == Moved(s.calls, id, s.calls[id].blob, go)
  {
    if IsLocal(s.calls[id].pc) {
      LocalGoes(env, s, id, o, LocalStep(env, At(s, s.calls[id].blob), s.calls[id].pc, o));
    } else {
      ReaderGoes(env, s, id, o);
    }
  }

  lemma FatalGoes(env: Env, x: Blob, pc: Pc, o: Outcome)
    requires Accesses(pc) && Fault(o) && Fatal(env, pc, o)
    ensures var go := Goes(env, x, pc, o);
            go.Goto? ==> go.pc.Promoting? && go.pc.p == PPublish(false, false)
  {
    if IsLocal(pc) { FatalLocal(env, x, pc, o); }
  }

  lemma SurvivorGoes(env: Env, x: Blob, pc: Pc, o: Outcome)
    requires Accesses(pc) && Fault(o) && !Fatal(env, pc, o)
    ensures Goes(env, x, pc, o) == Goes(env, Gone(x), pc, Ok)
  {
    if IsLocal(pc) { SurvivesLocal(env, x, pc, o); }
  }

  /** In any state: a fatal fault fails the call, and after any other the call goes on exactly
      as if nothing were stored about the blob. */
  lemma FaultsFailOrLookLikeAbsence(env: Env, s: State, id: nat, o: Outcome)
    requires TickAllowed(env, s, id, o) && Accesses(s.calls[id].pc) && Fault(o)
    ensures var t := SetBlob(s, s.calls[id].blob, Gone(At(s, s.calls[id].blob)));
            if Fatal(env, s.calls[id].pc, o) then Failed(TickStep(env, s, id, o), id)
            else TickAllowed(env, t, id, Ok) && TickStep(env, s, id, o).calls == TickStep(env, t, id, Ok).calls
  {
    var b, pc := s.calls[id].blob, s.calls[id].pc;
    AccessGoes(env, s, id, o, Goes(env, At(s, b), pc, o));
    if Fatal(env, pc, o) {
      FatalGoes(env, At(s, b), pc, o);
    } else {
      SurvivorGoes(env, At(s, b), pc, o);
      AccessGoes(env, SetBlob(s, b, Gone(At(s, b))), id, Ok, Goes(env, Gone(At(s, b)), pc, Ok));
    }
  }

  // ---------------------------------------------------------------------
  // A fill, among other calls
  // ---------------------------------------------------------------------

  /** In every run and whatever the surroundings: a fill that is not cancelled records its body
      as durable at its second step if that succeeds, whether or not the body could be cached. */
  lemma FillRecordsTheRow(env: Env, r: Run, id: nat, j: nat, k: nat, body: Bytes, sum: Sum)
    requires IsRun(env, r) && j < k < |r.acts| && id in r.states[j].calls && r.states[j].calls[id].pc == Filling(FPut(body, sum))
    requires r.acts[j].Tick? && r.acts[j].id == id && !r.acts[j].outcome.Cancel? && r.acts[k] == Tick(id, Ok)
    requires forall m :: j < m < k ==> Spares(r.acts[m], id)
    ensures At(r.states[k + 1], r.states[j].calls[id].blob).status == Some(Status(Durable, |body|, sum))
    ensures id !in r.states[k + 1].calls
  {
    assert StepAt(env, r, j) && StepAt(env, r, k);
    FillPutGoesOn(env, r.states[j], id, r.acts[j].outcome);
    CallStays(env, r, j + 1, k, id);
    TickLocalIs(env, r.states[k], id, Ok);
  }

  lemma FillPutGoesOn(env: Env, s: State, id: nat, o: Outcome)
    requires TickAllowed(env, s, id, o) && !o.Cancel? && s.calls[id].pc.Filling? && s.calls[id].pc.f.FPut?
    ensures id in TickStep(env, s, id, o).calls
    ensures TickStep(env, s, id, o).calls[id] == Call(s.calls[id].blob, Filling(FStatus(s.calls[id].pc.f.body, s.calls[id].pc.f.sum)))
  {
  }

  // ---------------------------------------------------------------------
  // Giving up
  // ---------------------------------------------------------------------

  predicate Waits(pc: Pc) { (pc.Promoting? && pc.p.PWait?) || (pc.Reading? && pc.r.RWait?) }

  /** In any state: a call that waits for another's result may be cancelled, and then leaves
      with an error and without a trace. */
  lemma WaitersMayLeave(env: Env, s: State, id: nat)
    requires id in s.calls && Waits(s.calls[id].pc)
    ensures Enabled(env, s, Tick(id, Cancel)) && ReplyAt(env, s, Tick(id, Cancel)) == Some(Said(false))
    ensures Apply(env, s, Tick(id, Cancel)) == s.(calls := s.calls - {id})
  {
  }
}
