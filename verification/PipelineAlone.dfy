/** What each operation does when it runs by itself and nothing fails: what it answers, what
    it leaves in the cache, the status table and the durable store, and what it counts. */
module PipelineAlone {
  import opened Prelude
  import opened Pipeline

  // ---------------------------------------------------------------------
  // What a call answers
  // ---------------------------------------------------------------------

  /** A body, or whether the call succeeded. */
  datatype Reply = Body(got: Got) | Said(ok: bool)

  /** Whether a call that ends at this step without a body ends without an error. */
  predicate EndsWell(s: State, id: nat, o: Outcome)
    requires id in s.calls
  {
    match s.calls[id].pc
    case Writing(WStatus, _, _) => o.Ok?
    case Promoting(PDelete(own), _) => own
    case Promoting(PWait(f), _) => !o.Cancel? && f in s.promoteFlights && s.promoteFlights[f].result == Some(true)
    case Evicting(EGo) => true
    case _ => false
  }

  /** What the call of a step answers at that step, if it does. */
  function ReplyAt(env: Env, s: State, a: Action): Option<Reply>
    requires Enabled(env, s, a)
  {
    if Returned(env, s, a).Some? then Some(Body(Returned(env, s, a).value))
    else if !a.Tick? || a.id in Apply(env, s, a).calls || s.calls[a.id].pc.Filling? then None
    else Some(Said(EndsWell(s, a.id, a.outcome)))
  }

  // ---------------------------------------------------------------------
  // One call by itself
  // ---------------------------------------------------------------------

  datatype Played = Played(s: State, reply: Option<Reply>)

  /** One call begun in `s`, and `n` of its steps, none of them faulty: where they lead, and
      what the call has answered. */
  ghost function Play(env: Env, s: State, b: BlobId, op: Op, n: nat): Option<Played> {
    if n == 0 then
      if Enabled(env, s, Begin(b, op)) then Some(Played(Apply(env, s, Begin(b, op)), None)) else None
    else
      var p := Play(env, s, b, op, n - 1);
      if p.None? || !Enabled(env, p.value.s, Tick(s.next, Ok)) then None
      else Some(Ticked(env, s.next, p.value))
  }

  ghost function Ticked(env: Env, id: nat, p: Played): Played
    requires Enabled(env, p.s, Tick(id, Ok))
  {
    Played(Apply(env, p.s, Tick(id, Ok)), if p.reply.Some? then p.reply else ReplyAt(env, p.s, Tick(id, Ok)))
  }

  /** The actions that are played. */
  function Acts(s: State, b: BlobId, op: Op, n: nat): seq<Action> {
    [Begin(b, op)] + seq(n, _ => Tick(s.next, Ok))
  }

  /** What is played is a run. */
  lemma {:induction false} PlayLeads(env: Env, s: State, b: BlobId, op: Op, n: nat)
    requires Play(env, s, b, op, n).Some?
    ensures Leads(env, s, Acts(s, b, op, n), Play(env, s, b, op, n).value.s)
  {
    if n == 0 {
      var r := Run([s], []);
      assert IsRunFrom(env, s, r) && r.acts == [] && r.states[|r.acts|] == s;
      ExtendRun(env, s, [], s, Begin(b, op));
      assert [] + [Begin(b, op)] == Acts(s, b, op, 0);
    } else {
      PlayLeads(env, s, b, op, n - 1);
      ExtendRun(env, s, Acts(s, b, op, n - 1), Play(env, s, b, op, n - 1).value.s, Tick(s.next, Ok));
      assert Acts(s, b, op, n - 1) + [Tick(s.next, Ok)] == Acts(s, b, op, n);
    }
  }

  lemma ExtendRun(env: Env, s0: State, acts: seq<Action>, s: State, a: Action)
    requires Leads(env, s0, acts, s) && Enabled(env, s, a)
    ensures Leads(env, s0, acts + [a], Apply(env, s, a))
  {
    var r :| IsRunFrom(env, s0, r) && r.acts == acts && r.states[|r.acts|] == s;
    var r' := Run(r.states + [Apply(env, s, a)], r.acts + [a]);
    forall i: nat | i < |r'.acts| ensures StepAt(env, r', i) {
      if i < |r.acts| { assert StepAt(env, r, i); }
    }
    assert IsRunFrom(env, s0, r') && r'.acts == acts + [a] && r'.states[|r'.acts|] == Apply(env, s, a);
  }

  /** How far one call on a blob has got: where it stands, what the blob is by now, whether it
      leads a promote or a restore, the counters by now and what it has answered. */
  datatype Here = Here(go: Then, blob: Blob, promotes: bool, restores: bool, count: Counters, reply: Option<Reply>)

  /** `t` is `s` but for that call. */
  ghost predicate Stands(s: State, t: State, b: BlobId, h: Here) {
    && t.next == s.next + 1
    && t.calls == (if h.go.Goto? then s.calls[s.next := Call(b, h.go.pc)] else s.calls)
    && t.promoting == (if h.promotes then s.promoting[b := s.next] else s.promoting)
    && t.restoring == (if h.restores then s.restoring[b := s.next] else s.restoring)
    && At(t, b) == h.blob && (forall b1 :: b1 != b ==> At(t, b1) == At(s, b1))
    && t.counters == h.count
  }

  /** The call waits for nobody, and has the lead where it needs it and only there. */
  predicate Free(h: Here) {
    h.go.Goto? && match h.go.pc
    case Promoting(p, _) => !p.PWait? && (h.promotes <==> !p.PJoin?) && !h.restores
    case Reading(r) => !r.RWait? && (h.restores <==> r.RFetch? || r.RPublish? || r.RDelete?) && !h.promotes
    case _ => true
  }

  /** The call has answered `answer`, unless it had answered before. */
  function Answer(h: Here, answer: Reply): Here {
    if h.reply.Some? then h else h.(reply := Some(answer))
  }

  function NextLocal(env: Env, h: Here): Here
    requires h.go.Goto? && IsLocal(h.go.pc)
  {
    var pc := h.go.pc;
    var l := LocalStep(env, h.blob, pc, Ok);
    var h' := h.(go := l.go, blob := l.blob, count := Add(h.count, l.count));
    if l.go.Goto? || pc.Filling? then h'
    else Answer(h', Said((pc.Writing? && pc.w.WStatus?) || (pc.Evicting? && pc.e.EGo?)))
  }

  function Acked(blob: Blob, ack: Option<Bytes>, ok: bool): Blob {
    if ok && ack.Some? then blob.(acked := blob.acked + {ack.value}) else blob
  }

  function NextFlight(h: Here): Here
    requires Free(h) && h.go.pc.Promoting? && !IsLocal(h.go.pc)
  {
    var ack := h.go.pc.ackOnSuccess;
    match h.go.pc.p
    case PJoin => h.(go := Goto(Promoting(PStatus, ack)), promotes := true)
    case PPublish(_, own) => h.(go := Goto(Promoting(PDelete(own), ack)))
    case PDelete(own) => Answer(h.(go := End, promotes := false, blob := Acked(h.blob, ack, own)), Said(own))
  }

  function NextRead(env: Env, h: Here): Here
    requires Free(h) && h.go.pc.Reading?
  {
    match h.go.pc.r
    case RGet =>
      if h.blob.cache.Some? then h.(go := Goto(Reading(RHit(h.blob.cache.value.body))))
      else h.(go := Goto(Reading(RJoin(h.blob.acked != {}))))
    case RHit(body) =>
      Answer(h.(go := End), Body(Got(body, if h.blob.status.Some? then h.blob.status.value.sum else NoSum)))
    case RJoin(known) => h.(go := Goto(Reading(RFetch(known))), restores := true)
    case RFetch(_) => h.(go := Goto(Reading(RPublish(Fetched(env, h.blob, Ok), Fetched(env, h.blob, Ok)))))
    case RPublish(_, own) => h.(go := Goto(Reading(RDelete(own))))
    case RDelete(own) =>
      if own.None? then Answer(h.(go := End, restores := false), Said(false))
      else Answer(h.(go := Goto(Filling(FPut(own.value.body, own.value.sum))), restores := false), Body(own.value))
  }

  /** One step of a call by itself. */
  function Next(env: Env, h: Here): Here
    requires Free(h)
  {
    if IsLocal(h.go.pc) then NextLocal(env, h)
    else if h.go.pc.Promoting? then NextFlight(h)
    else NextRead(env, h)
  }

  // ---------------------------------------------------------------------
  // The step system does what these steps do
  // ---------------------------------------------------------------------

  /** Nobody leads what the call is to lead. */
  ghost predicate Clear(s: State, b: BlobId, op: Op) {
    && s.next !in s.calls
    && (op.Read? ==> b !in s.restoring)
    && (op.Promote? || (op.Write? && op.sync) ==> b !in s.promoting)
  }

  /** Where a call of `op` can stand. */
  predicate Belongs(op: Op, pc: Pc) {
    match op
    case Write(data, sync) => (pc.Writing? && pc.sync == sync) || (sync && pc.Promoting?)
    case Promote => pc.Promoting?
    case Read => pc.Reading? || pc.Filling?
    case Evict => pc.Evicting?
  }

  lemma NextBelongs(env: Env, op: Op, h: Here)
    requires Free(h) && Belongs(op, h.go.pc)
    ensures Next(env, h).go.Goto? ==> Belongs(op, Next(env, h).go.pc)
  {
  }

  lemma Gone<K, V>(m: map<K, V>, k: K, v: V)
    requires k !in m
    ensures m[k := v] - {k} == m
  {
  }

  /** Moving the call and setting its blob. */
  lemma StandsAfter(s: State, t: State, u: State, b: BlobId, h: Here, h': Here)
    requires s.next !in s.calls && Stands(s, t, b, h) && h.go.Goto?
    requires u.next == t.next && u.calls == Follow(t, s.next, b, h'.go).calls
    requires u.promoting == (if h'.promotes then s.promoting[b := s.next] else s.promoting)
    requires u.restoring == (if h'.restores then s.restoring[b := s.next] else s.restoring)
    requires (u.blobs == t.blobs && h'.blob == h.blob) || u.blobs == t.blobs[b := h'.blob]
    requires u.counters == h'.count
    ensures Stands(s, u, b, h')
  {
    Gone(s.calls, s.next, Call(b, h.go.pc));
    forall b1 ensures At(u, b1) == if b1 == b then h'.blob else At(t, b1) {}
  }

  /** Ending the call and giving up its lead. */
  lemma StandsEnd(s: State, t: State, u: State, b: BlobId, h: Here, h': Here)
    requires s.next !in s.calls && Stands(s, t, b, h) && h.go.Goto? && h' == Here(End, h'.blob, false, false, h.count, h'.reply)
    requires u == t.(calls := t.calls - {s.next}, promoting := s.promoting, restoring := s.restoring, blobs := u.blobs)
    requires At(u, b) == h'.blob && forall b1 :: b1 != b ==> At(u, b1) == At(t, b1)
    ensures Stands(s, u, b, h')
  {
    Gone(s.calls, s.next, Call(b, h.go.pc));
  }

  lemma AckAt(t: State, b: BlobId, ack: Option<Bytes>, ok: bool)
    ensures var u := Ack(t, b, ack, ok);
            && u == t.(blobs := u.blobs) && At(u, b) == Acked(At(t, b), ack, ok)
            && forall b1 :: b1 != b ==> At(u, b1) == At(t, b1)
  {
  }

  lemma TickLocal(env: Env, t: State, id: nat, b: BlobId, pc: Pc)
    requires id in t.calls && t.calls[id] == Call(b, pc) && IsLocal(pc)
    ensures TickAllowed(env, t, id, Ok)
    ensures var l := LocalStep(env, At(t, b), pc, Ok);
            TickStep(env, t, id, Ok) == Follow(SetBlob(t, b, l.blob), id, b, l.go).(counters := Add(t.counters, l.count))
  {
  }

  /** A step of the call that does `l`. */
  lemma StepStands(s: State, t: State, u: State, b: BlobId, h: Here, l: Local, h': Here)
    requires s.next !in s.calls && Stands(s, t, b, h) && h.go.Goto?
    requires u == Follow(SetBlob(t, b, l.blob), s.next, b, l.go).(counters := Add(t.counters, l.count))
    requires h' == h.(go := l.go, blob := l.blob, count := Add(h.count, l.count), reply := h'.reply)
    ensures Stands(s, u, b, h')
  {
    StandsAfter(s, t, u, b, h, h');
  }

  lemma NextLocalIs(env: Env, h: Here, l: Local)
    requires h.go.Goto? && IsLocal(h.go.pc) && l == LocalStep(env, h.blob, h.go.pc, Ok)
    ensures var h' := NextLocal(env, h); h' == h.(go := l.go, blob := l.blob, count := Add(h.count, l.count), reply := h'.reply)
  {
  }

  lemma LocalStands(env: Env, s: State, t: State, b: BlobId, h: Here)
    requires s.next !in s.calls && Stands(s, t, b, h) && Free(h) && IsLocal(h.go.pc)
    ensures TickAllowed(env, t, s.next, Ok) && Stands(s, TickStep(env, t, s.next, Ok), b, NextLocal(env, h))
  {
    var l := LocalStep(env, h.blob, h.go.pc, Ok);
    TickLocal(env, t, s.next, b, h.go.pc);
    NextLocalIs(env, h, l);
    StepStands(s, t, TickStep(env, t, s.next, Ok), b, h, l, NextLocal(env, h));
  }

  lemma TickFlight(env: Env, t: State, id: nat, b: BlobId, p: PromotePc, ack: Option<Bytes>)
    requires id in t.calls && t.calls[id] == Call(b, Promoting(p, ack)) && !Busy(p) && !p.PWait?
    ensures TickAllowed(env, t, id, Ok) && TickStep(env, t, id, Ok) == FlightStep(t, id, b, p, ack, Ok)
  {
  }

  lemma JoinStands(s: State, t: State, b: BlobId, h: Here)
    requires s.next !in s.calls && b !in s.promoting
    requires Stands(s, t, b, h) && Free(h) && h.go.pc.Promoting? && h.go.pc.p.PJoin?
    ensures Stands(s, FlightStep(t, s.next, b, PJoin, h.go.pc.ackOnSuccess, Ok), b, NextFlight(h))
  {
    StandsAfter(s, t, FlightStep(t, s.next, b, PJoin, h.go.pc.ackOnSuccess, Ok), b, h, NextFlight(h));
  }

  lemma PublishStands(s: State, t: State, b: BlobId, h: Here)
    requires s.next !in s.calls && Stands(s, t, b, h) && Free(h) && h.go.pc.Promoting? && h.go.pc.p.PPublish?
    ensures Stands(s, FlightStep(t, s.next, b, h.go.pc.p, h.go.pc.ackOnSuccess, Ok), b, NextFlight(h))
  {
    StandsAfter(s, t, FlightStep(t, s.next, b, h.go.pc.p, h.go.pc.ackOnSuccess, Ok), b, h, NextFlight(h));
  }

  lemma UnledStands(s: State, t: State, t1: State, b: BlobId, h: Here, h': Here)
    requires s.next !in s.calls && Stands(s, t, b, h) && h.go.Goto? && h' == Here(End, h'.blob, false, false, h.count, h'.reply)
    requires t1 == t.(promoting := s.promoting, blobs := t1.blobs) && !h.restores
    requires At(t1, b) == h'.blob && forall b1 :: b1 != b ==> At(t1, b1) == At(t, b1)
    ensures Stands(s, Follow(t1, s.next, b, End), b, h')
  {
    StandsEnd(s, t, Follow(t1, s.next, b, End), b, h, h');
  }

  lemma DeleteStands(s: State, t: State, b: BlobId, h: Here)
    requires s.next !in s.calls && b !in s.promoting
    requires Stands(s, t, b, h) && Free(h) && h.go.pc.Promoting? && h.go.pc.p.PDelete?
    ensures Stands(s, FlightStep(t, s.next, b, h.go.pc.p, h.go.pc.ackOnSuccess, Ok), b, NextFlight(h))
  {
    var own, ack := h.go.pc.p.own, h.go.pc.ackOnSuccess;
    Gone(s.promoting, b, s.next);
    var t1 := t.(promoting := s.promoting);
    AckAt(t1, b, ack, own);
    UnledStands(s, t, Ack(t1, b, ack, own), b, h, NextFlight(h));
  }

  lemma FlightStands(env: Env, s: State, t: State, b: BlobId, h: Here)
    requires s.next !in s.calls && b !in s.promoting
    requires Stands(s, t, b, h) && Free(h) && !IsLocal(h.go.pc) && h.go.pc.Promoting?
    ensures TickAllowed(env, t, s.next, Ok) && Stands(s, TickStep(env, t, s.next, Ok), b, NextFlight(h))
  {
    TickFlight(env, t, s.next, b, h.go.pc.p, h.go.pc.ackOnSuccess);
    match h.go.pc.p {
      case PJoin => JoinStands(s, t, b, h);
      case PPublish(_, _) => PublishStands(s, t, b, h);
      case PDelete(_) => DeleteStands(s, t, b, h);
    }
  }

  lemma TickRead(env: Env, t: State, id: nat, b: BlobId, r: ReadPc)
    requires id in t.calls && t.calls[id] == Call(b, Reading(r)) && !r.RWait?
    ensures TickAllowed(env, t, id, Ok) && TickStep(env, t, id, Ok) == ReadStep(env, t, id, b, r, Ok)
  {
  }

  lemma LookupStands(env: Env, s: State, t: State, b: BlobId, h: Here)
    requires s.next !in s.calls && Stands(s, t, b, h) && Free(h) && h.go.pc == Reading(RGet)
    ensures Stands(s, ReadStep(env, t, s.next, b, RGet, Ok), b, NextRead(env, h))
  {
    StandsAfter(s, t, Follow(SetBlob(t, b, h.blob), s.next, b, Lookup(env, h.blob, Ok)), b, h, NextRead(env, h));
  }

  lemma HitStands(env: Env, s: State, t: State, b: BlobId, h: Here)
    requires s.next !in s.calls && Stands(s, t, b, h) && Free(h) && h.go.pc.Reading? && h.go.pc.r.RHit?
    ensures Stands(s, ReadStep(env, t, s.next, b, h.go.pc.r, Ok), b, NextRead(env, h))
  {
    StandsAfter(s, t, Follow(t, s.next, b, End), b, h, NextRead(env, h));
  }

  lemma FetchStands(env: Env, s: State, t: State, b: BlobId, h: Here)
    requires s.next !in s.calls && Stands(s, t, b, h) && Free(h) && h.go.pc.Reading?
    requires h.go.pc.r.RFetch? || h.go.pc.r.RPublish?
    ensures Stands(s, ReadStep(env, t, s.next, b, h.go.pc.r, Ok), b, NextRead(env, h))
  {
    StandsAfter(s, t, ReadStep(env, t, s.next, b, h.go.pc.r, Ok), b, h, NextRead(env, h));
  }

  lemma LeadStands(env: Env, s: State, t: State, b: BlobId, h: Here)
    requires s.next !in s.calls && b !in s.restoring && Stands(s, t, b, h) && Free(h) && h.go.pc.Reading? && h.go.pc.r.RJoin?
    ensures Stands(s, ReadStep(env, t, s.next, b, h.go.pc.r, Ok), b, NextRead(env, h))
  {
    StandsAfter(s, t, ReadStep(env, t, s.next, b, h.go.pc.r, Ok), b, h, NextRead(env, h));
  }

  lemma FillStands(s: State, t: State, b: BlobId, h: Here, go: Then, h': Here)
    requires s.next !in s.calls && Stands(s, t, b, h) && h.go.Goto? && !h.promotes
    requires h' == h.(go := go, restores := false, reply := h'.reply)
    ensures Stands(s, Follow(t.(restoring := s.restoring), s.next, b, go), b, h')
  {
    StandsAfter(s, t, Follow(t.(restoring := s.restoring), s.next, b, go), b, h, h');
  }

  lemma UnleadStands(env: Env, s: State, t: State, b: BlobId, h: Here)
    requires s.next !in s.calls && b !in s.restoring && Stands(s, t, b, h) && Free(h) && h.go.pc.Reading? && h.go.pc.r.RDelete?
    ensures Stands(s, ReadStep(env, t, s.next, b, h.go.pc.r, Ok), b, NextRead(env, h))
  {
    var own := h.go.pc.r.own;
    Gone(s.restoring, b, s.next);
    if own.None? {
      StandsEnd(s, t, Follow(t.(restoring := s.restoring), s.next, b, End), b, h, NextRead(env, h));
    } else {
      FillStands(s, t, b, h, Goto(Filling(FPut(own.value.body, own.value.sum))), NextRead(env, h));
    }
  }

  lemma ReadStands(env: Env, s: State, t: State, b: BlobId, h: Here)
    requires s.next !in s.calls && b !in s.restoring && Stands(s, t, b, h) && Free(h) && h.go.pc.Reading?
    ensures TickAllowed(env, t, s.next, Ok) && Stands(s, TickStep(env, t, s.next, Ok), b, NextRead(env, h))
  {
    var r := h.go.pc.r;
    TickRead(env, t, s.next, b, r);
    if r.RGet? {
      LookupStands(env, s, t, b, h);
    } else if r.RHit? {
      HitStands(env, s, t, b, h);
    } else if r.RFetch? || r.RPublish? {
      FetchStands(env, s, t, b, h);
    } else if r.RJoin? {
      LeadStands(env, s, t, b, h);
    } else {
      UnleadStands(env, s, t, b, h);
    }
  }

  lemma NextStands(env: Env, s: State, t: State, b: BlobId, op: Op, h: Here)
    requires Clear(s, b, op) && Stands(s, t, b, h) && Free(h) && Belongs(op, h.go.pc)
    ensures TickAllowed(env, t, s.next, Ok) && Stands(s, TickStep(env, t, s.next, Ok), b, Next(env, h))
  {
    if IsLocal(h.go.pc) {
      LocalStands(env, s, t, b, h);
    } else if h.go.pc.Promoting? {
      FlightStands(env, s, t, b, h);
    } else {
      ReadStands(env, s, t, b, h);
    }
  }

  /** What a step from `t` answers, when it leads to `t'` and nothing was answered before. */
  function NewReply(env: Env, t: State, id: nat, t': State): Option<Reply>
    requires TickAllowed(env, t, id, Ok)
  {
    if Returned(env, t, Tick(id, Ok)).Some? then Some(Body(Returned(env, t, Tick(id, Ok)).value))
    else if id in t'.calls || t.calls[id].pc.Filling? then None
    else Some(Said(EndsWell(t, id, Ok)))
  }

  lemma NewReplyIs(env: Env, s: State, t: State, t': State, b: BlobId, h: Here)
    requires s.next !in s.calls && Stands(s, t, b, h) && Free(h) && TickAllowed(env, t, s.next, Ok) && Stands(s, t', b, Next(env, h))
    ensures Next(env, h).reply == if h.reply.Some? then h.reply else NewReply(env, t, s.next, t')
  {
  }

  /** The step answers what `Next` says. */
  lemma NextReplies(env: Env, s: State, t: State, b: BlobId, h: Here)
    requires s.next !in s.calls && Stands(s, t, b, h) && Free(h) && TickAllowed(env, t, s.next, Ok)
    requires Stands(s, TickStep(env, t, s.next, Ok), b, Next(env, h))
    ensures Ticked(env, s.next, Played(t, h.reply)).reply == Next(env, h).reply
  {
    var t' := TickStep(env, t, s.next, Ok);
    assert t' == Apply(env, t, Tick(s.next, Ok));
    NewReplyIs(env, s, t, t', b, h);
  }

  // ---------------------------------------------------------------------
  // From the first step to the last
  // ---------------------------------------------------------------------

  /** The call has come from the beginning to `h` in `n` steps. */
  ghost predicate Came(env: Env, s: State, b: BlobId, op: Op, n: nat, h: Here) {
    var p := Play(env, s, b, op, n);
    p.Some? && p.value.reply == h.reply && Stands(s, p.value.s, b, h) && (h.go.Goto? ==> Belongs(op, h.go.pc))
  }

  lemma {:induction false} ComesOn(env: Env, s: State, b: BlobId, op: Op, n: nat, h: Here, h1: Here)
    requires Clear(s, b, op) && Came(env, s, b, op, n, h) && Free(h) && h1 == Next(env, h)
    ensures Came(env, s, b, op, n + 1, h1)
  {
    var t := Play(env, s, b, op, n).value.s;
    NextStands(env, s, t, b, op, h);
    NextReplies(env, s, t, b, h);
    NextBelongs(env, op, h);
  }

  ghost predicate NextAt(env: Env, hs: seq<Here>, i: nat)
    requires i + 1 < |hs|
  {
    Free(hs[i]) && hs[i + 1] == Next(env, hs[i])
  }

  /** The steps of a call by itself from `h` to `h'`. */
  ghost predicate Path(env: Env, hs: seq<Here>, h: Here, h': Here) {
    && hs != [] && hs[0] == h && hs[|hs| - 1] == h'
    && forall i: nat :: i + 1 < |hs| ==> NextAt(env, hs, i)
  }

  ghost predicate Gets(env: Env, h: Here, h': Here) { exists hs :: Path(env, hs, h, h') }

  lemma Before(env: Env, h: Here, h1: Here, h': Here)
    requires Free(h) && Next(env, h) == h1 && Gets(env, h1, h')
    ensures Gets(env, h, h')
  {
    var hs :| Path(env, hs, h1, h');
    LongerPath(env, h, hs, h1, h');
  }

  lemma LongerPath(env: Env, h: Here, hs: seq<Here>, h1: Here, h': Here)
    requires Free(h) && Next(env, h) == h1 && Path(env, hs, h1, h')
    ensures Path(env, [h] + hs, h, h')
  {
    var longer := [h] + hs;
    forall i: nat | i + 1 < |longer| ensures NextAt(env, longer, i) {
      if i > 0 { assert NextAt(env, hs, i - 1); }
    }
  }

  lemma Already(env: Env, h: Here)
    ensures Gets(env, h, h)
  {
    assert Path(env, [h], h, h);
  }

  lemma {:induction false} ComesAlong(env: Env, s: State, b: BlobId, op: Op, hs: seq<Here>, n: nat)
    requires Clear(s, b, op) && n < |hs| && Came(env, s, b, op, 0, hs[0]) && forall i: nat :: i + 1 < |hs| ==> NextAt(env, hs, i)
    ensures Came(env, s, b, op, n, hs[n])
  {
    if n > 0 {
      ComesAlong(env, s, b, op, hs, n - 1);
      assert NextAt(env, hs, n - 1);
      ComesOn(env, s, b, op, n - 1, hs[n - 1], hs[n]);
    }
  }

  /** A call `op` on `b` in state `s`, run by itself and without a fault: it ends, `blob` is what
      it leaves of the blob, every other blob and the calls and leaders of others stay as they
      were, the counters are `count` afterwards, and `reply` is what it answers. */
  ghost predicate Does(env: Env, s: State, b: BlobId, op: Op, blob: Blob, count: Counters, reply: Reply) {
    exists n: nat :: Came(env, s, b, op, n, Over(blob, count, reply))
  }

  function First(op: Op, x: Blob, c: Counters): Here { Here(Goto(FirstPc(op)), x, false, false, c, None) }

  function Over(blob: Blob, count: Counters, reply: Reply): Here { Here(End, blob, false, false, count, Some(reply)) }

  lemma Begins(env: Env, s: State, b: BlobId, op: Op, n: nat)
    requires BeginAllowed(env, s, b, op) && n == 0
    ensures Came(env, s, b, op, n, First(op, At(s, b), s.counters))
  {
  }

  lemma DoesIt(env: Env, s: State, b: BlobId, op: Op, blob: Blob, count: Counters, reply: Reply)
    requires Clear(s, b, op) && BeginAllowed(env, s, b, op) && Gets(env, First(op, At(s, b), s.counters), Over(blob, count, reply))
    ensures Does(env, s, b, op, blob, count, reply)
  {
    var hs :| Path(env, hs, First(op, At(s, b), s.counters), Over(blob, count, reply));
    Begins(env, s, b, op, 0);
    ComesAlong(env, s, b, op, hs, |hs| - 1);
  }

  /** What is done so is a run of the step system that answers at one of its steps. */
  lemma DoesLeads(env: Env, s: State, b: BlobId, op: Op, blob: Blob, count: Counters, reply: Reply) returns (n: nat, s': State)
    requires Does(env, s, b, op, blob, count, reply)
    ensures Leads(env, s, Acts(s, b, op, n), s') && s'.calls == s.calls && s'.counters == count
    ensures At(s', b) == blob && forall b1 :: b1 != b ==> At(s', b1) == At(s, b1)
    ensures Play(env, s, b, op, n) == Some(Played(s', Some(reply)))
  {
    n :| Came(env, s, b, op, n, Over(blob, count, reply));
    s' := Play(env, s, b, op, n).value.s;
    PlayLeads(env, s, b, op, n);
  }

  // ---------------------------------------------------------------------
  // Evict
  // ---------------------------------------------------------------------

  /** Evict refuses a CACHED blob and leaves it alone; any other blob leaves the cache, and
      nothing else of it changes. */
  lemma EvictAlone(env: Env, s: State, b: BlobId)
    requires Clear(s, b, Evict) && BeginAllowed(env, s, b, Evict)
    ensures var x := At(s, b);
            if x.status.Some? && x.status.value.commit == Cached then Does(env, s, b, Evict, x, s.counters, Said(false))
            else Does(env, s, b, Evict, x.(cache := None), s.counters, Said(true))
  {
    var x := At(s, b);
    if x.status.Some? && x.status.value.commit == Cached {
      EvictRefuses(env, x, s.counters);
      DoesIt(env, s, b, Evict, x, s.counters, Said(false));
    } else {
      EvictDrops(env, x, s.counters);
      DoesIt(env, s, b, Evict, x.(cache := None), s.counters, Said(true));
    }
  }

  lemma EvictRefuses(env: Env, x: Blob, c: Counters)
    requires x.status.Some? && x.status.value.commit == Cached
    ensures Gets(env, First(Evict, x, c), Over(x, c, Said(false)))
  {
    var h' := Over(x, c, Said(false));
    Already(env, h');
    Before(env, First(Evict, x, c), h', h');
  }

  lemma EvictDrops(env: Env, x: Blob, c: Counters)
    requires !(x.status.Some? && x.status.value.commit == Cached)
    ensures Gets(env, First(Evict, x, c), Over(x.(cache := None), c, Said(true)))
  {
    var h' := Over(x.(cache := None), c, Said(true));
    var h1 := First(Evict, x, c).(go := Goto(Evicting(EGo)));
    Already(env, h');
    Before(env, h1, h', h');
    Before(env, First(Evict, x, c), h1, h');
  }

  // ---------------------------------------------------------------------
  // Promote
  // ---------------------------------------------------------------------

  /** HEAD finds an object of the recorded size, and of the recorded checksum if both are known. */
  predicate Found(env: Env, x: Blob, st: Status) {
    && x.versions != [] && |Last(x.versions)| == st.size
    && (!env.unreported && !st.sum.NoSum? ==> Sha(Last(x.versions)) == st.sum)
  }

  /** The store accepts the cached body under the recorded size and checksum. */
  predicate Uploadable(x: Blob, st: Status) {
    && x.cache.Some?
    && (st.size > 0 ==> |x.cache.value.body| == st.size)
    && (!st.sum.NoSum? ==> Sha(x.cache.value.body) == st.sum)
  }

  /** The blob after its cached body was stored: a new version, a row that says so, and a cache
      entry that may be evicted. */
  function Uploaded(x: Blob): Blob
    requires x.cache.Some?
  {
    var body := x.cache.value.body;
    Blob(Some(CacheEntry(body, false)), Some(Status(Durable, |body|, Sha(body))), x.versions + [body], x.acked)
  }

  datatype Fate = Uploads | Marks | Skips | Fails

  /** What becomes of a Promote of a blob. */
  function FateOf(env: Env, x: Blob): Fate {
    if x.status.None? then Fails
    else if x.status.value.commit == Durable then Skips
    else if Found(env, x, x.status.value) then Marks
    else if Uploadable(x, x.status.value) then Uploads
    else Fails
  }

  /** What it makes of the blob: an object found by HEAD is only marked. */
  function Promoted(env: Env, x: Blob): Blob {
    match FateOf(env, x)
    case Uploads => Uploaded(x)
    case Marks => x.(status := Some(x.status.value.(commit := Durable)))
    case _ => x
  }

  /** What it adds to the counters: one attempt, and one success, skip or failure. */
  function Tallied(c: Counters, fate: Fate): Counters {
    var tried := c.(attempts := c.attempts + 1);
    match fate
    case Uploads => tried.(successes := c.successes + 1)
    case Fails => tried.(failures := c.failures + 1)
    case _ => tried.(skipped := c.skipped + 1)
  }

  function Tried(c: Counters): Counters { c.(attempts := c.attempts + 1) }

  /** The leader of a promote at step `p`. */
  function Lead(x: Blob, p: PromotePc, ack: Option<Bytes>, c: Counters): Here {
    Here(Goto(Promoting(p, ack)), x, true, false, c, None)
  }

  lemma FromPublish(env: Env, x: Blob, ok: bool, ack: Option<Bytes>, c: Counters)
    ensures Gets(env, Lead(x, PPublish(ok, ok), ack, c), Over(Acked(x, ack, ok), c, Said(ok)))
  {
    var h' := Over(Acked(x, ack, ok), c, Said(ok));
    Already(env, h');
    Before(env, Lead(x, PDelete(ok), ack, c), h', h');
    Before(env, Lead(x, PPublish(ok, ok), ack, c), Lead(x, PDelete(ok), ack, c), h');
  }

  lemma FromMark(env: Env, x: Blob, st: Status, rep: Report, ack: Option<Bytes>, c: Counters)
    requires x.cache.Some? && x.status.Some?
    ensures var y := x.(cache := Some(CacheEntry(x.cache.value.body, false)), status := Some(Status(Durable, rep.size, rep.sum)));
            Gets(env, Lead(x, PMark(st, rep), ack, c), Over(Acked(y, ack, true), c.(successes := c.successes + 1), Said(true)))
  {
    var body, c' := x.cache.value.body, c.(successes := c.successes + 1);
    var marked := x.(status := Some(Status(Durable, rep.size, rep.sum)));
    var y := marked.(cache := Some(CacheEntry(body, false)));
    var h' := Over(Acked(y, ack, true), c', Said(true));
    FromPublish(env, y, true, ack, c');
    Before(env, Lead(marked, PReput(st, body), ack, c), Lead(y, PPublish(true, true), ack, c'), h');
    Before(env, Lead(marked, PReget(st), ack, c), Lead(marked, PReput(st, body), ack, c), h');
    Before(env, Lead(x, PMark(st, rep), ack, c), Lead(marked, PReget(st), ack, c), h');
  }

  lemma FromReadUploads(env: Env, x: Blob, st: Status, ack: Option<Bytes>, c: Counters)
    requires x.status.Some? && Uploadable(x, st)
    ensures Gets(env, Lead(x, PRead(st), ack, c), Over(Acked(Uploaded(x), ack, true), c.(successes := c.successes + 1), Said(true)))
  {
    var body := x.cache.value.body;
    var stored, rep := x.(versions := x.versions + [body]), Report(|body|, Sha(body));
    var h' := Over(Acked(Uploaded(x), ack, true), c.(successes := c.successes + 1), Said(true));
    FromMark(env, stored, st, rep, ack, c);
    Before(env, Lead(x, PUpload(st, body), ack, c), Lead(stored, PMark(st, rep), ack, c), h');
    Before(env, Lead(x, PRead(st), ack, c), Lead(x, PUpload(st, body), ack, c), h');
  }

  lemma FromReadFails(env: Env, x: Blob, st: Status, ack: Option<Bytes>, c: Counters)
    requires !Uploadable(x, st)
    ensures Gets(env, Lead(x, PRead(st), ack, c), Over(x, c.(failures := c.failures + 1), Said(false)))
  {
    var c' := c.(failures := c.failures + 1);
    var h' := Over(x, c', Said(false));
    FromPublish(env, x, false, ack, c');
    if x.cache.None? {
      Before(env, Lead(x, PRead(st), ack, c), Lead(x, PPublish(false, false), ack, c'), h');
    } else {
      var body := x.cache.value.body;
      Before(env, Lead(x, PUpload(st, body), ack, c), Lead(x, PPublish(false, false), ack, c'), h');
      Before(env, Lead(x, PRead(st), ack, c), Lead(x, PUpload(st, body), ack, c), h');
    }
  }

  lemma FromHeadFound(env: Env, x: Blob, ack: Option<Bytes>, c: Counters)
    requires x.status.Some? && Found(env, x, x.status.value)
    ensures var st := x.status.value;
            Gets(env, Lead(x, PHead(st), ack, c),
                 Over(Acked(x.(status := Some(st.(commit := Durable))), ack, true), c.(skipped := c.skipped + 1), Said(true)))
  {
    var st, c' := x.status.value, c.(skipped := c.skipped + 1);
    var y := x.(status := Some(st.(commit := Durable)));
    var h' := Over(Acked(y, ack, true), c', Said(true));
    FromPublish(env, y, true, ack, c');
    Before(env, Lead(x, PHeadMark(st), ack, c'), Lead(y, PPublish(true, true), ack, c'), h');
    Before(env, Lead(x, PHead(st), ack, c), Lead(x, PHeadMark(st), ack, c'), h');
  }

  lemma FromHead(env: Env, x: Blob, ack: Option<Bytes>, c: Counters)
    requires x.status.Some? && x.status.value.commit == Cached
    ensures var fate := FateOf(env, x);
            Gets(env, Lead(x, PHead(x.status.value), ack, Tried(c)),
                 Over(Acked(Promoted(env, x), ack, fate != Fails), Tallied(c, fate), Said(fate != Fails)))
  {
    var st, fate, t := x.status.value, FateOf(env, x), Tried(c);
    var h' := Over(Acked(Promoted(env, x), ack, fate != Fails), Tallied(c, fate), Said(fate != Fails));
    if Found(env, x, st) {
      FromHeadFound(env, x, ack, t);
    } else {
      if Uploadable(x, st) { FromReadUploads(env, x, st, ack, t); } else { FromReadFails(env, x, st, ack, t); }
      Before(env, Lead(x, PHead(st), ack, t), Lead(x, PRead(st), ack, t), h');
    }
  }

  lemma FromStatus(env: Env, x: Blob, ack: Option<Bytes>, c: Counters)
    ensures var fate := FateOf(env, x);
            Gets(env, Lead(x, PStatus, ack, c), Over(Acked(Promoted(env, x), ack, fate != Fails), Tallied(c, fate), Said(fate != Fails)))
  {
    var fate, c', ok := FateOf(env, x), Tallied(c, FateOf(env, x)), FateOf(env, x) != Fails;
    var h' := Over(Acked(Promoted(env, x), ack, ok), c', Said(ok));
    if x.status.None? || x.status.value.commit == Durable {
      FromPublish(env, x, ok, ack, c');
      Before(env, Lead(x, PStatus, ack, c), Lead(x, PPublish(ok, ok), ack, c'), h');
    } else {
      FromHead(env, x, ack, c);
      Before(env, Lead(x, PStatus, ack, c), Lead(x, PHead(x.status.value), ack, Tried(c)), h');
    }
  }

  function Joining(x: Blob, ack: Option<Bytes>, c: Counters): Here {
    Here(Goto(Promoting(PJoin, ack)), x, false, false, c, None)
  }

  lemma FromJoin(env: Env, x: Blob, ack: Option<Bytes>, c: Counters)
    ensures var fate := FateOf(env, x);
            Gets(env, Joining(x, ack, c), Over(Acked(Promoted(env, x), ack, fate != Fails), Tallied(c, fate), Said(fate != Fails)))
  {
    var fate := FateOf(env, x);
    FromStatus(env, x, ack, c);
    Before(env, Joining(x, ack, c), Lead(x, PStatus, ack, c),
           Over(Acked(Promoted(env, x), ack, fate != Fails), Tallied(c, fate), Said(fate != Fails)));
  }

  /** A Promote by itself: without a row it fails; a durable row is left as it is; an object
      that HEAD finds is only marked, and the cache entry left as it was; otherwise the cached
      body becomes a new version, the row says so, and the entry may be evicted. */
  lemma PromoteAlone(env: Env, s: State, b: BlobId)
    requires Clear(s, b, Promote)
    ensures var fate := FateOf(env, At(s, b));
            Does(env, s, b, Promote, Promoted(env, At(s, b)), Tallied(s.counters, fate), Said(fate != Fails))
  {
    var fate := FateOf(env, At(s, b));
    FromJoin(env, At(s, b), None, s.counters);
    DoesIt(env, s, b, Promote, Promoted(env, At(s, b)), Tallied(s.counters, fate), Said(fate != Fails));
  }

  // ---------------------------------------------------------------------
  // Write
  // ---------------------------------------------------------------------

  /** The blob after the two stores of a Write: the body protected in the cache, and CACHED. */
  function Written(x: Blob, data: Bytes): Blob {
    Blob(Some(CacheEntry(data, true)), Some(Status(Cached, |data|, Sha(data))), x.versions, x.acked)
  }

  lemma FromWrite(env: Env, x: Blob, data: Bytes, sync: bool, c: Counters, h': Here)
    requires if sync then Gets(env, Joining(Written(x, data), Some(data), c), h')
             else h' == Over(Acked(Written(x, data), Some(data), true), c, Said(true))
    ensures Gets(env, First(Write(data, sync), x, c), h')
  {
    var cached := x.(cache := Some(CacheEntry(data, true)));
    var h1 := Here(Goto(Writing(WStatus, data, sync)), cached, false, false, c, None);
    if sync {
      Before(env, h1, Joining(Written(x, data), Some(data), c), h');
    } else {
      Already(env, h');
      Before(env, h1, h', h');
    }
    Before(env, First(Write(data, sync), x, c), h1, h');
  }

  /** A Write by itself protects its body in the cache, records it as CACHED and acknowledges it. */
  lemma WriteAlone(env: Env, s: State, b: BlobId, data: Bytes)
    requires Clear(s, b, Write(data, false)) && WriteAllowed(env, s, b, data)
    ensures var x := At(s, b);
            Does(env, s, b, Write(data, false),
                 Blob(Some(CacheEntry(data, true)), Some(Status(Cached, |data|, Sha(data))), x.versions, x.acked + {data}),
                 s.counters, Said(true))
  {
    FromWrite(env, At(s, b), data, false, s.counters, Over(Acked(Written(At(s, b), data), Some(data), true), s.counters, Said(true)));
    DoesIt(env, s, b, Write(data, false), Acked(Written(At(s, b), data), Some(data), true), s.counters, Said(true));
  }

  /** A synchronous Write by itself succeeds: an object of its size and checksum that HEAD finds
      is marked as durable, else the body becomes a new version; either way it is acknowledged. */
  lemma SyncWriteAlone(env: Env, s: State, b: BlobId, data: Bytes)
    requires Clear(s, b, Write(data, true)) && WriteAllowed(env, s, b, data)
    ensures var x, row := At(s, b), Status(Durable, |data|, Sha(data));
            var found := x.versions != [] && |Last(x.versions)| == |data| && (env.unreported || Last(x.versions) == data);
            Does(env, s, b, Write(data, true),
                 Blob(Some(CacheEntry(data, found)), Some(row), if found then x.versions else x.versions + [data], x.acked + {data}),
                 Tallied(s.counters, if found then Marks else Uploads), Said(true))
  {
    var y, c := Written(At(s, b), data), s.counters;
    var fate := FateOf(env, y);
    FromJoin(env, y, Some(data), c);
    FromWrite(env, At(s, b), data, true, c, Over(Acked(Promoted(env, y), Some(data), true), Tallied(c, fate), Said(true)));
    DoesIt(env, s, b, Write(data, true), Acked(Promoted(env, y), Some(data), true), Tallied(c, fate), Said(true));
  }

  // ---------------------------------------------------------------------
  // Read
  // ---------------------------------------------------------------------

  /** The durable store has an object within the restore limit. */
  predicate Restorable(env: Env, x: Blob) {
    x.versions != [] && (env.maxRestoreBytes > 0 ==> |Last(x.versions)| <= env.maxRestoreBytes)
  }

  /** The blob after the background fill: the restored body may be evicted, the row is durable. */
  function Filled(x: Blob): Blob
    requires x.versions != []
  {
    var body := Last(x.versions);
    x.(cache := Some(CacheEntry(body, false)), status := Some(Status(Durable, |body|, Sha(body))))
  }

  function RowSum(x: Blob): Sum { if x.status.Some? then x.status.value.sum else NoSum }

  lemma FromHit(env: Env, x: Blob, c: Counters)
    requires x.cache.Some?
    ensures Gets(env, First(Read, x, c), Over(x, c, Body(Got(x.cache.value.body, RowSum(x)))))
  {
    var h' := Over(x, c, Body(Got(x.cache.value.body, RowSum(x))));
    var h1 := First(Read, x, c).(go := Goto(Reading(RHit(x.cache.value.body))));
    Already(env, h');
    Before(env, h1, h', h');
    Before(env, First(Read, x, c), h1, h');
  }

  function Restoring(x: Blob, r: ReadPc, c: Counters): Here { Here(Goto(Reading(r)), x, false, true, c, None) }

  lemma FromDeleteFills(env: Env, x: Blob, c: Counters)
    requires x.versions != []
    ensures var own := Got(Last(x.versions), Sha(Last(x.versions)));
            Gets(env, Restoring(x, RDelete(Some(own)), c), Over(Filled(x), c, Body(own)))
  {
    var own := Got(Last(x.versions), Sha(Last(x.versions)));
    var h' := Over(Filled(x), c, Body(own));
    var cached := x.(cache := Some(CacheEntry(own.body, false)));
    var h1 := Here(Goto(Filling(FPut(own.body, own.sum))), x, false, false, c, Some(Body(own)));
    var h2 := Here(Goto(Filling(FStatus(own.body, own.sum))), cached, false, false, c, Some(Body(own)));
    Already(env, h');
    Before(env, h2, h', h');
    Before(env, h1, h2, h');
    Before(env, Restoring(x, RDelete(Some(own)), c), h1, h');
  }

  lemma FromDeleteFails(env: Env, x: Blob, c: Counters)
    ensures Gets(env, Restoring(x, RDelete(None), c), Over(x, c, Said(false)))
  {
    Already(env, Over(x, c, Said(false)));
    Before(env, Restoring(x, RDelete(None), c), Over(x, c, Said(false)), Over(x, c, Said(false)));
  }

  lemma FetchedIs(env: Env, x: Blob)
    ensures Fetched(env, x, Ok) == if Restorable(env, x) then Some(Got(Last(x.versions), Sha(Last(x.versions)))) else None
  {
  }

  lemma FromMiss(env: Env, x: Blob, c: Counters, h': Here)
    requires x.cache.None? && Gets(env, Restoring(x, RDelete(Fetched(env, x, Ok)), c), h')
    ensures Gets(env, First(Read, x, c), h')
  {
    var own, known := Fetched(env, x, Ok), x.acked != {};
    var h1 := First(Read, x, c).(go := Goto(Reading(RJoin(known))));
    Before(env, Restoring(x, RPublish(own, own), c), Restoring(x, RDelete(own), c), h');
    Before(env, Restoring(x, RFetch(known), c), Restoring(x, RPublish(own, own), c), h');
    Before(env, h1, Restoring(x, RFetch(known), c), h');
    Before(env, First(Read, x, c), h1, h');
  }

  /** A Read by itself returns the cached body with the row's checksum, and changes nothing. On a
      miss it returns the current version with its checksum, and fills the cache and the row,
      exactly when there is one within the restore limit; otherwise it fails and changes nothing. */
  lemma ReadAlone(env: Env, s: State, b: BlobId)
    requires Clear(s, b, Read)
    ensures var x, c := At(s, b), s.counters;
            if x.cache.Some? then Does(env, s, b, Read, x, c, Body(Got(x.cache.value.body, RowSum(x))))
            else if Restorable(env, x) then
              Does(env, s, b, Read, Filled(x), c, Body(Got(Last(x.versions), Sha(Last(x.versions)))))
            else Does(env, s, b, Read, x, c, Said(false))
  {
    var x, c := At(s, b), s.counters;
    FetchedIs(env, x);
    if x.cache.Some? {
      FromHit(env, x, c);
      DoesIt(env, s, b, Read, x, c, Body(Got(x.cache.value.body, RowSum(x))));
    } else if Restorable(env, x) {
      FromDeleteFills(env, x, c);
      FromMiss(env, x, c, Over(Filled(x), c, Body(Got(Last(x.versions), Sha(Last(x.versions))))));
      DoesIt(env, s, b, Read, Filled(x), c, Body(Got(Last(x.versions), Sha(Last(x.versions)))));
    } else {
      FromDeleteFails(env, x, c);
      FromMiss(env, x, c, Over(x, c, Said(false)));
      DoesIt(env, s, b, Read, x, c, Said(false));
    }
  }
}
