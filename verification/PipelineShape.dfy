/** What one step of a call leaves alone, and two invariants that need no assumption about
    the surroundings: one promoting leader per blob, and one writer when Writes come once. */
module PipelineShape {
  import opened Prelude
  import opened Pipeline

  /** Between winning LoadOrStore and deleting the entry. */
  predicate LeadsPromote(pc: Pc) {
    pc.Promoting? && (Busy(pc.p) || pc.p.PPublish? || pc.p.PDelete?)
  }

  /** Past a HEAD that did not find the object. */
  predicate AboutToUpload(pc: Pc) { pc.Promoting? && (pc.p.PRead? || pc.p.PUpload?) }

  /** Reached only after the row was found or made COMMITTED_DURABLE, unless a leader panics. */
  predicate AfterMark(pc: Pc) {
    pc.Promoting? && (pc.p.PReget? || pc.p.PReput? || (pc.p.PPublish? && pc.p.own) || (pc.p.PDelete? && pc.p.own))
  }

  /** Call `id` takes the lead, gives it up, or leaves the map of leaders alone. */
  ghost predicate LeadShape(s: State, s': State, id: nat, b: BlobId, pc: Pc) {
    || s'.promoting == s.promoting
    || (pc.Promoting? && pc.p.PJoin? && b !in s.promoting && s'.promoting == s.promoting[b := id])
    || (pc.Promoting? && pc.p.PDelete? && id !in s'.calls && s'.promoting == s.promoting - {b})
  }

  /** Where call `id` may stand after a step from `pc`. */
  ghost predicate RoleKept(s: State, s': State, id: nat, b: BlobId, pc: Pc) {
    id in s'.calls ==>
      && s'.calls[id].blob == b
      && (LeadsPromote(s'.calls[id].pc) ==> LeadsPromote(pc) || (b !in s.promoting && s'.promoting == s.promoting[b := id]))
      && (IsWriter(s'.calls[id].pc) ==> IsWriter(pc)) && (s'.calls[id].pc.Reading? ==> pc.Reading?)
      && (!IsLocal(pc) ==> !AboutToUpload(s'.calls[id].pc) && (AfterMark(s'.calls[id].pc) ==> AfterMark(pc)))
  }

  /** What a step of call `id`, standing at `pc` on blob `b`, leaves alone. */
  ghost predicate Shape(s: State, s': State, id: nat, b: BlobId, pc: Pc) {
    && id in s.calls && s.calls[id] == Call(b, pc) && s'.next == s.next
    && s'.calls.Keys <= s.calls.Keys && s.calls.Keys - {id} <= s'.calls.Keys
    && (forall i :: i in s'.calls && i != id ==> s'.calls[i] == s.calls[i])
    && (forall b1 :: b1 != b ==> At(s', b1) == At(s, b1))
    && LeadShape(s, s', id, b, pc) && RoleKept(s, s', id, b, pc)
    && (!pc.Reading? ==> s'.restoreFlights == s.restoreFlights)
    && (At(s', b).acked == At(s, b).acked || (IsWriter(pc) && id !in s'.calls))
    && (!IsLocal(pc) ==> At(s', b).versions == At(s, b).versions && At(s', b).status == At(s, b).status)
  }

  lemma ShapeFollow(s: State, t: State, u: State, id: nat, b: BlobId, pc: Pc, go: Then)
    requires id in s.calls && s.calls[id] == Call(b, pc)
    requires t.calls == s.calls && t.next == s.next && t.promoting == s.promoting
    requires forall b1 :: b1 != b ==> At(t, b1) == At(s, b1)
    requires u == Follow(t, id, b, go).(counters := u.counters)
    requires go.Goto? ==> (LeadsPromote(go.pc) ==> LeadsPromote(pc)) && (IsWriter(go.pc) ==> IsWriter(pc))
    requires (go.Goto? && go.pc.Reading? ==> pc.Reading?) && (!pc.Reading? ==> t.restoreFlights == s.restoreFlights)
    requires At(t, b).acked == At(s, b).acked || (IsWriter(pc) && go.End?)
    requires !IsLocal(pc) ==> At(t, b).versions == At(s, b).versions && At(t, b).status == At(s, b).status
    requires !IsLocal(pc) && go.Goto? ==> !AboutToUpload(go.pc) && (AfterMark(go.pc) ==> AfterMark(pc))
    ensures Shape(s, u, id, b, pc)
  {
    assert forall b1 :: At(u, b1) == At(t, b1);
  }

  lemma LocalKeepsRole(env: Env, x: Blob, pc: Pc, o: Outcome)
    requires IsLocal(pc)
    ensures var l := LocalStep(env, x, pc, o);
            && (l.go.Goto? ==> (LeadsPromote(l.go.pc) ==> LeadsPromote(pc)) && (IsWriter(l.go.pc) ==> IsWriter(pc)) && !l.go.pc.Reading?)
            && (l.blob.acked == x.acked || (IsWriter(pc) && l.go.End?))
  {
  }

  lemma ShapeLocal(env: Env, s: State, id: nat, o: Outcome)
    requires TickAllowed(env, s, id, o) && IsLocal(s.calls[id].pc)
    ensures Shape(s, TickStep(env, s, id, o), id, s.calls[id].blob, s.calls[id].pc)
  {
    var b, pc, u := s.calls[id].blob, s.calls[id].pc, TickStep(env, s, id, o);
    if o.Panic? && pc.Promoting? {
      ShapeFollow(s, s, u, id, b, pc, Goto(Promoting(PPublish(false, true), pc.ackOnSuccess)));
    } else {
      var l := LocalStep(env, At(s, b), pc, o);
      LocalKeepsRole(env, At(s, b), pc, o);
      ShapeFollow(s, SetBlob(s, b, l.blob), u, id, b, pc, l.go);
    }
  }

  /** Without a panic, a local step does what `LocalStep` says. */
  lemma TickLocalIs(env: Env, s: State, id: nat, o: Outcome)
    requires TickAllowed(env, s, id, o) && IsLocal(s.calls[id].pc) && !o.Panic?
    ensures var s', b := TickStep(env, s, id, o), s.calls[id].blob;
            var l := LocalStep(env, At(s, b), s.calls[id].pc, o);
            && At(s', b) == l.blob && (id in s'.calls <==> l.go.Goto?)
            && (l.go.Goto? ==> s'.calls == s.calls[id := Call(b, l.go.pc)])
  {
  }

  lemma ShapeJoin(s: State, id: nat, b: BlobId, ack: Option<Bytes>, o: Outcome)
    requires id in s.calls && s.calls[id] == Call(b, Promoting(PJoin, ack))
    ensures Shape(s, FlightStep(s, id, b, PJoin, ack, o), id, b, Promoting(PJoin, ack))
  {
    var u := FlightStep(s, id, b, PJoin, ack, o);
    if b in s.promoting {
      ShapeFollow(s, s, u, id, b, Promoting(PJoin, ack), Goto(Promoting(PWait(s.promoting[b]), ack)));
    } else {
      ShapeLead(s, u, id, b, ack);
    }
  }

  lemma ShapeLead(s: State, u: State, id: nat, b: BlobId, ack: Option<Bytes>)
    requires id in s.calls && s.calls[id] == Call(b, Promoting(PJoin, ack)) && b !in s.promoting
    requires u == s.(calls := s.calls[id := Call(b, Promoting(PStatus, ack))],
                     promoting := s.promoting[b := id], promoteFlights := u.promoteFlights)
    ensures Shape(s, u, id, b, Promoting(PJoin, ack))
  {
    assert forall b1 :: At(u, b1) == At(s, b1);
  }

  lemma AckShape(s: State, b: BlobId, ack: Option<Bytes>, ok: bool)
    ensures var t := Ack(s, b, ack, ok);
            && t == s.(blobs := t.blobs) && (forall b1 :: b1 != b ==> At(t, b1) == At(s, b1))
            && At(t, b) == At(s, b).(acked := At(t, b).acked) && (ack.None? ==> At(t, b) == At(s, b))
  {
  }

  lemma ShapeDelete(s: State, id: nat, b: BlobId, own: bool, ack: Option<Bytes>, o: Outcome)
    requires id in s.calls && s.calls[id] == Call(b, Promoting(PDelete(own), ack))
    ensures Shape(s, FlightStep(s, id, b, PDelete(own), ack, o), id, b, Promoting(PDelete(own), ack))
  {
    var u := FlightStep(s, id, b, PDelete(own), ack, o);
    var t := s.(promoting := s.promoting - {b});
    AckShape(t, b, ack, own);
    ShapeQuit(s, u, id, b, own, ack, Ack(t, b, ack, own).blobs);
  }

  lemma ShapeQuit(s: State, u: State, id: nat, b: BlobId, own: bool, ack: Option<Bytes>, blobs: map<BlobId, Blob>)
    requires id in s.calls && s.calls[id] == Call(b, Promoting(PDelete(own), ack))
    requires u == s.(calls := s.calls - {id}, promoting := s.promoting - {b}, blobs := blobs)
    requires forall b1 :: b1 != b ==> At(u, b1) == At(s, b1)
    requires At(u, b) == At(s, b).(acked := At(u, b).acked) && (ack.None? ==> At(u, b) == At(s, b))
    ensures Shape(s, u, id, b, Promoting(PDelete(own), ack))
  {
  }

  lemma ShapeWait(s: State, id: nat, b: BlobId, p: PromotePc, ack: Option<Bytes>, o: Outcome)
    requires id in s.calls && s.calls[id] == Call(b, Promoting(p, ack)) && (p.PWait? || p.PPublish?)
    requires p.PWait? && !o.Cancel? ==> p.flight in s.promoteFlights && s.promoteFlights[p.flight].result.Some?
    ensures Shape(s, FlightStep(s, id, b, p, ack, o), id, b, Promoting(p, ack))
  {
    var u := FlightStep(s, id, b, p, ack, o);
    match p {
      case PWait(f) =>
        var t := if o.Cancel? then s else Ack(s, b, ack, s.promoteFlights[f].result.value);
        if !o.Cancel? { AckShape(s, b, ack, s.promoteFlights[f].result.value); }
        ShapeFollow(s, t, u, id, b, Promoting(p, ack), End);
      case PPublish(shared, own) =>
        var t := s.(promoteFlights := s.promoteFlights[id := Flight(b, Some(shared))]);
        ShapeFollow(s, t, u, id, b, Promoting(p, ack), Goto(Promoting(PDelete(own), ack)));
    }
  }

  /** A read changes the restore flights and, with a disk cache that cannot open a body, its
      blob's cache entry. */
  ghost predicate ReadFrame(s: State, t: State, b: BlobId, go: Then) {
    && t == s.(restoring := t.restoring, restoreFlights := t.restoreFlights, blobs := t.blobs)
    && (forall b1 :: b1 != b ==> At(t, b1) == At(s, b1))
    && At(t, b) == At(s, b).(cache := At(t, b).cache)
    && (go.Goto? ==> go.pc.Reading? || go.pc.Filling?)
  }

  lemma ReadFollows(env: Env, s: State, id: nat, b: BlobId, r: ReadPc, o: Outcome) returns (t: State, go: Then)
    requires id in s.calls
    requires r.RWait? && !o.Cancel? ==> r.flight in s.restoreFlights && s.restoreFlights[r.flight].result.Some?
    ensures ReadStep(env, s, id, b, r, o) == Follow(t, id, b, go)
    ensures ReadFrame(s, t, b, go)
  {
    t := s;
    match r {
      case RGet =>
        t := SetBlob(s, b, if o.Ok? then At(s, b) else CacheGetFails(env, At(s, b)));
        go := Lookup(env, At(s, b), o);
      case RHit(_) => go := End;
      case RJoin(known) =>
        if b in s.restoring {
          go := Goto(Reading(RWait(s.restoring[b], known)));
        } else {
          t := s.(restoring := s.restoring[b := id], restoreFlights := s.restoreFlights[id := Flight(b, None)]);
          go := Goto(Reading(RFetch(known)));
        }
      case RWait(f, _) => go := if o.Cancel? then End else Filler(s.restoreFlights[f].result.value);
      case RFetch(_) =>
        go := Goto(Reading(if o.Panic? then RPublish(None, Some(Got([], NoSum)))
                           else RPublish(Fetched(env, At(s, b), o), Fetched(env, At(s, b), o))));
      case RPublish(shared, own) =>
        t := s.(restoreFlights := s.restoreFlights[id := Flight(b, Some(shared))]);
        go := Goto(Reading(RDelete(own)));
      case RDelete(own) =>
        t := s.(restoring := s.restoring - {b});
        go := Filler(own);
    }
  }

  lemma ShapeRead(env: Env, s: State, id: nat, b: BlobId, r: ReadPc, o: Outcome)
    requires id in s.calls && s.calls[id] == Call(b, Reading(r))
    requires r.RWait? && !o.Cancel? ==> r.flight in s.restoreFlights && s.restoreFlights[r.flight].result.Some?
    ensures Shape(s, ReadStep(env, s, id, b, r, o), id, b, Reading(r))
  {
    var t, go := ReadFollows(env, s, id, b, r, o);
    ShapeReadFrame(s, t, id, b, r, go);
  }

  lemma ShapeReadFrame(s: State, t: State, id: nat, b: BlobId, r: ReadPc, go: Then)
    requires id in s.calls && s.calls[id] == Call(b, Reading(r)) && ReadFrame(s, t, b, go)
    ensures Shape(s, Follow(t, id, b, go), id, b, Reading(r))
  {
    ShapeFollow(s, t, Follow(t, id, b, go), id, b, Reading(r), go);
  }

  lemma TickShape(env: Env, s: State, id: nat, o: Outcome)
    requires TickAllowed(env, s, id, o)
    ensures Shape(s, TickStep(env, s, id, o), id, s.calls[id].blob, s.calls[id].pc)
  {
    var b, pc := s.calls[id].blob, s.calls[id].pc;
    if IsLocal(pc) {
      ShapeLocal(env, s, id, o);
    } else if pc.Reading? {
      ShapeRead(env, s, id, b, pc.r, o);
    } else if pc.p.PJoin? {
      ShapeJoin(s, id, b, pc.ackOnSuccess, o);
    } else if pc.p.PDelete? {
      ShapeDelete(s, id, b, pc.p.own, pc.ackOnSuccess, o);
    } else {
      ShapeWait(s, id, b, pc.p, pc.ackOnSuccess, o);
    }
  }

  // ---------------------------------------------------------------------
  // One leader per blob
  // ---------------------------------------------------------------------

  ghost predicate LeaderAt(s: State, id: nat) {
    id in s.calls && LeadsPromote(s.calls[id].pc) ==>
      s.calls[id].blob in s.promoting && s.promoting[s.calls[id].blob] == id
  }

  ghost predicate LeaderInv(s: State) {
    forall id: nat :: LeaderAt(s, id) && (id in s.calls ==> id < s.next)
  }

  lemma LeaderTick(s: State, s': State, id: nat, b: BlobId, pc: Pc)
    requires LeaderInv(s) && Shape(s, s', id, b, pc)
    ensures LeaderInv(s')
  {
    assert LeaderAt(s, id);
    forall i: nat ensures LeaderAt(s', i) && (i in s'.calls ==> i < s'.next) {
      assert LeaderAt(s, i) && (i in s.calls ==> i < s.next);
    }
  }

  lemma LeaderStill(env: Env, s: State, a: Action)
    requires LeaderInv(s) && Enabled(env, s, a) && !a.Tick?
    ensures LeaderInv(Apply(env, s, a))
  {
    var s' := Apply(env, s, a);
    forall i: nat ensures LeaderAt(s', i) && (i in s'.calls ==> i < s'.next) {
      assert LeaderAt(s, i) && (i in s.calls ==> i < s.next);
    }
  }

  lemma LeaderStep(env: Env, s: State, a: Action)
    requires LeaderInv(s) && Enabled(env, s, a)
    ensures LeaderInv(Apply(env, s, a))
  {
    if a.Tick? {
      TickShape(env, s, a.id, a.outcome);
      LeaderTick(s, Apply(env, s, a), a.id, s.calls[a.id].blob, s.calls[a.id].pc);
    } else {
      LeaderStill(env, s, a);
    }
  }

  lemma {:induction false} LeaderHolds(env: Env, r: Run, i: nat)
    requires IsRun(env, r) && i < |r.states|
    ensures LeaderInv(r.states[i])
  {
    if i > 0 {
      LeaderHolds(env, r, i - 1);
      assert StepAt(env, r, i - 1);
      LeaderStep(env, r.states[i - 1], r.acts[i - 1]);
    }
  }

  /** In every run, whatever the surroundings do, at most one Promote per blob is past
      LoadOrStore and not yet past Delete. */
  lemma OnePromoterPerBlob(env: Env, r: Run, i: nat, x: nat, y: nat)
    requires IsRun(env, r) && i < |r.states|
    requires x in r.states[i].calls && LeadsPromote(r.states[i].calls[x].pc)
    requires y in r.states[i].calls && LeadsPromote(r.states[i].calls[y].pc)
    requires r.states[i].calls[x].blob == r.states[i].calls[y].blob
    ensures x == y
  {
    LeaderHolds(env, r, i);
    assert LeaderAt(r.states[i], x) && LeaderAt(r.states[i], y);
  }

  // ---------------------------------------------------------------------
  // One writer per blob
  // ---------------------------------------------------------------------

  ghost predicate LoneWriter(s: State, x: nat, y: nat, b: BlobId) {
    WritesAt(s, x, b) && WritesAt(s, y, b) ==> x == y
  }

  /** While a Write of a blob is under way, no other is, and none has been acknowledged. */
  ghost predicate WriterInv(s: State) {
    && (forall x: nat, y: nat, b :: LoneWriter(s, x, y, b))
    && (forall x: nat, b :: WritesAt(s, x, b) ==> At(s, b).acked == {} && x < s.next)
  }

  lemma WriterTick(s: State, s': State, id: nat, b: BlobId, pc: Pc)
    requires WriterInv(s) && Shape(s, s', id, b, pc)
    ensures WriterInv(s')
  {
    forall x: nat, y: nat, b1 ensures LoneWriter(s', x, y, b1) {
      assert LoneWriter(s, x, y, b1);
    }
    forall x: nat, b1 | WritesAt(s', x, b1) ensures At(s', b1).acked == {} && x < s'.next {
      assert WritesAt(s, x, b1);
      assert LoneWriter(s, x, id, b1);
    }
  }

  lemma WriterStill(env: Env, s: State, a: Action)
    requires env.writes.Once? && WriterInv(s) && LeaderInv(s) && Enabled(env, s, a) && !a.Tick?
    ensures WriterInv(Apply(env, s, a))
  {
    var s' := Apply(env, s, a);
    forall b1 ensures At(s', b1).acked == At(s, b1).acked {}
    forall x: nat, y: nat, b1 ensures LoneWriter(s', x, y, b1) {
      assert LoneWriter(s, x, y, b1) && LeaderAt(s, x) && LeaderAt(s, y);
    }
    forall x: nat, b1 | WritesAt(s', x, b1) ensures At(s', b1).acked == {} && x < s'.next {
      assert WritesAt(s, x, b1) || (a.Begin? && a.op.Write? && b1 == a.blob);
    }
  }

  lemma {:induction false} WriterHolds(env: Env, r: Run, i: nat)
    requires env.writes.Once? && IsRun(env, r) && i < |r.states|
    ensures WriterInv(r.states[i])
  {
    if i > 0 {
      var s, a := r.states[i - 1], r.acts[i - 1];
      WriterHolds(env, r, i - 1);
      LeaderHolds(env, r, i - 1);
      assert StepAt(env, r, i - 1);
      if a.Tick? {
        TickShape(env, s, a.id, a.outcome);
        WriterTick(s, r.states[i], a.id, s.calls[a.id].blob, s.calls[a.id].pc);
      } else {
        WriterStill(env, s, a);
      }
    }
  }
}
