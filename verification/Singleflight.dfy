/** The singleflight of restoreFromL2, with every shared access its own step: LoadOrStore,
    the separate writes of err, body and meta, close(done), Delete, and a waiter's reads.
    Promote's is the case without a body. */
module Singleflight {
  import opened Prelude

  datatype Err = Fault(code: nat) | Panicked | Cancelled

  datatype Reply = Good(body: Bytes, meta: Sum) | Bad(err: Err)

  /** The inflightCall record. */
  datatype Call = Call(err: Option<Err>, body: Bytes, meta: Sum, done: bool)
  {
    function Shared(): Reply { if err.Some? then Bad(err.value) else Good(body, meta) }
  }

  /** How the leader's work on the store ends. */
  datatype Outcome = Fetched(body: Bytes, meta: Sum) | Failed(code: nat) | Panic

  /** The deferred calls run in the order recover, close(done), Delete. */
  datatype Pc =
    | Enter
    | Fetch | SetErr(code: nat) | SetBody(got: Reply) | SetMeta(got: Reply) | Recover
    | Close(own: Reply) | Delete(own: Reply) | Led(own: Reply)
    | Wait(call: nat) | ReadErr(call: nat) | ReadBody(call: nat) | ReadMeta(call: nat, seen: Bytes)
    | Followed(call: nat, got: Reply) | GaveUp
  {
    /** Between LoadOrStore and Delete. */
    predicate Leads() {
      Fetch? || SetErr? || SetBody? || SetMeta? || Recover? || Close? || Delete?
    }
  }

  datatype State = State(inflight: map<BlobId, nat>, calls: map<nat, Call>, pcs: map<nat, Pc>)

  datatype Action =
    | Arrive(id: nat)               // a new call of restoreFromL2
    | Step(id: nat, o: Outcome)     // call `id` moves; `o` matters only at Fetch
    | GiveUp(id: nat)               // a waiter's select picks its own cancelled context

  /** `key(id)` is the blob that call `id` asks for. */
  type Keys = nat -> BlobId

  predicate Enabled(s: State, a: Action) {
    match a
    case Arrive(id) => id !in s.pcs
    case GiveUp(id) => id in s.pcs && s.pcs[id].Wait?
    case Step(id, _) =>
      && id in s.pcs
      && match s.pcs[id]
         case Wait(c) => c in s.calls && s.calls[c].done
         case ReadErr(c) => c in s.calls
         case ReadBody(c) => c in s.calls
         case ReadMeta(c, _) => c in s.calls
         case Led(_) => false
         case Followed(_, _) => false
         case GaveUp => false
         case _ => true
  }

  function Goto(s: State, id: nat, pc: Pc): State { s.(pcs := s.pcs[id := pc]) }

  function Note(s: State, id: nat, c: Call): State { s.(calls := s.calls[id := c]) }

  function LeaderStep(s: State, id: nat, b: BlobId, o: Outcome): State
    requires id in s.pcs && s.pcs[id].Leads()
  {
    var c := if id in s.calls then s.calls[id] else Call(None, [], NoSum, false);
    match s.pcs[id]
    case Fetch =>
      Goto(s, id, match o
                  case Fetched(body, meta) => SetBody(Good(body, meta))
                  case Failed(code) => SetErr(code)
                  case Panic => Recover)
    case SetErr(code) => Goto(Note(s, id, c.(err := Some(Fault(code)))), id, Close(Bad(Fault(code))))
    case SetBody(got) => Goto(Note(s, id, c.(body := if got.Good? then got.body else [])), id, SetMeta(got))
    case SetMeta(got) => Goto(Note(s, id, c.(meta := if got.Good? then got.meta else NoSum)), id, Close(got))
    // the recovered leader returns its zero results, with a nil error
    case Recover => Goto(Note(s, id, c.(err := Some(Panicked))), id, Close(Good([], NoSum)))
    case Close(own) => Goto(Note(s, id, c.(done := true)), id, Delete(own))
    case Delete(own) => Goto(s.(inflight := s.inflight - {b}), id, Led(own))
  }

  function WaiterStep(s: State, id: nat): State
    requires Enabled(s, Step(id, Panic)) && !s.pcs[id].Leads() && !s.pcs[id].Enter?
  {
    match s.pcs[id]
    case Wait(c) => Goto(s, id, ReadErr(c))
    case ReadErr(c) => Goto(s, id, if s.calls[c].err.Some? then Followed(c, Bad(s.calls[c].err.value)) else ReadBody(c))
    case ReadBody(c) => Goto(s, id, ReadMeta(c, s.calls[c].body))
    case ReadMeta(c, body) => Goto(s, id, Followed(c, Good(body, s.calls[c].meta)))
  }

  /** LoadOrStore. */
  function Join(s: State, id: nat, b: BlobId): State {
    if b in s.inflight then Goto(s, id, Wait(s.inflight[b]))
    else Goto(Note(s.(inflight := s.inflight[b := id]), id, Call(None, [], NoSum, false)), id, Fetch)
  }

  function Apply(key: Keys, s: State, a: Action): State
    requires Enabled(s, a)
  {
    match a
    case Arrive(id) => Goto(s, id, Enter)
    case GiveUp(id) => Goto(s, id, GaveUp)
    case Step(id, o) =>
      if s.pcs[id].Enter? then Join(s, id, key(id))
      else if s.pcs[id].Leads() then LeaderStep(s, id, key(id), o)
      else WaiterStep(s, id)
  }

  datatype Run = Run(states: seq<State>, acts: seq<Action>)

  ghost predicate StepAt(key: Keys, r: Run, i: nat)
    requires i < |r.acts| && |r.states| == |r.acts| + 1
  {
    Enabled(r.states[i], r.acts[i]) && r.states[i + 1] == Apply(key, r.states[i], r.acts[i])
  }

  ghost predicate IsRun(key: Keys, r: Run) {
    && |r.states| == |r.acts| + 1 && r.states[0] == State(map[], map[], map[])
    && forall i: nat :: i < |r.acts| ==> StepAt(key, r, i)
  }

  ghost predicate Reachable(key: Keys, s: State) {
    exists r :: IsRun(key, r) && r.states[|r.acts|] == s
  }

  // ---------------------------------------------------------------------
  // Invariant
  // ---------------------------------------------------------------------

  /** What a leader at `pc` has written so far. A panicking leader's own reply differs. */
  ghost predicate Written(pc: Pc, c: Call) {
    match pc
    case Fetch => c == Call(None, [], NoSum, false)
    case SetErr(_) => c == Call(None, [], NoSum, false)
    case SetBody(got) => got.Good? && c == Call(None, [], NoSum, false)
    case Recover => c == Call(None, [], NoSum, false)
    case SetMeta(got) => got.Good? && c == Call(None, got.body, NoSum, false)
    case Close(own) => !c.done && Agrees(own, c)
    case Delete(own) => c.done && Agrees(own, c)
    case Led(own) => c.done && Agrees(own, c)
    case _ => true
  }

  /** Leader and waiters get the same reply, except that a panic reaches only the waiters. */
  ghost predicate Agrees(own: Reply, c: Call) {
    own == if c.Shared() == Bad(Panicked) then Good([], NoSum) else c.Shared()
  }

  /** What a waiter at `pc` knows. */
  ghost predicate Seen(key: Keys, s: State, id: nat, pc: Pc) {
    match pc
    case Wait(c) => Leader(key, s, id, c)
    case ReadErr(c) => Leader(key, s, id, c) && s.calls[c].done
    case ReadBody(c) => Leader(key, s, id, c) && s.calls[c].done && s.calls[c].err.None?
    case ReadMeta(c, seen) =>
      Leader(key, s, id, c) && s.calls[c].done && s.calls[c].err.None? && seen == s.calls[c].body
    case Followed(c, got) => Leader(key, s, id, c) && s.calls[c].done && got == s.calls[c].Shared()
    case _ => true
  }

  ghost predicate Leader(key: Keys, s: State, id: nat, c: nat) {
    c in s.calls && c in s.pcs && (s.pcs[c].Leads() || s.pcs[c].Led?) && key(c) == key(id)
  }

  ghost predicate CallOk(key: Keys, s: State, id: nat) {
    id in s.pcs ==>
      && ((s.pcs[id].Leads() || s.pcs[id].Led?) <==> id in s.calls)
      && (s.pcs[id].Leads() ==> key(id) in s.inflight && s.inflight[key(id)] == id)
      && (id in s.calls ==> Written(s.pcs[id], s.calls[id]))
      && Seen(key, s, id, s.pcs[id])
  }

  ghost predicate Registered(key: Keys, s: State, b: BlobId) {
    b in s.inflight ==> s.inflight[b] in s.pcs && s.pcs[s.inflight[b]].Leads() && key(s.inflight[b]) == b
  }

  ghost predicate Inv(key: Keys, s: State) {
    && (forall id :: CallOk(key, s, id)) && (forall b :: Registered(key, s, b))
    && forall id :: id in s.calls ==> id in s.pcs
  }

  /** Call `id` moves: it writes only its own record, never once that is done, stays the
      leader it is, and registers or removes only itself. */
  ghost predicate Moves(key: Keys, s: State, s': State, id: nat) {
    && id in s'.pcs && s'.pcs == s.pcs[id := s'.pcs[id]]
    && (s'.calls == s.calls || (id in s'.calls && s'.calls == s.calls[id := s'.calls[id]]))
    && (id in s.calls && s.calls[id].done ==> s'.calls == s.calls)
    && (id in s.calls ==> s'.pcs[id].Leads() || s'.pcs[id].Led?)
    && (s'.inflight == s.inflight
        || (key(id) !in s.inflight && s'.inflight == s.inflight[key(id) := id])
        || (key(id) in s.inflight && s.inflight[key(id)] == id && s'.inflight == s.inflight - {key(id)}))
  }

  lemma LeaderStays(key: Keys, s: State, s': State, id: nat, other: nat, c: nat)
    requires Moves(key, s, s', id) && Leader(key, s, other, c)
    ensures Leader(key, s', other, c) && (s.calls[c].done ==> s'.calls[c] == s.calls[c])
  {
  }

  lemma OthersOk(key: Keys, s: State, s': State, id: nat, other: nat)
    requires Moves(key, s, s', id) && CallOk(key, s, other) && other != id
    ensures CallOk(key, s', other)
  {
    if other in s.pcs {
      match s.pcs[other] {
        case Wait(c) => LeaderStays(key, s, s', id, other, c);
        case ReadErr(c) => LeaderStays(key, s, s', id, other, c);
        case ReadBody(c) => LeaderStays(key, s, s', id, other, c);
        case ReadMeta(c, _) => LeaderStays(key, s, s', id, other, c);
        case Followed(c, _) => LeaderStays(key, s, s', id, other, c);
        case _ =>
      }
    }
  }

  lemma MoveInv(key: Keys, s: State, s': State, id: nat)
    requires Inv(key, s) && Moves(key, s, s', id) && CallOk(key, s', id)
    requires key(id) in s'.inflight && s'.inflight[key(id)] == id ==> s'.pcs[id].Leads()
    ensures Inv(key, s')
  {
    forall other ensures CallOk(key, s', other) {
      assert CallOk(key, s, other);
      if other != id { OthersOk(key, s, s', id, other); }
    }
    forall b ensures Registered(key, s', b) {
      assert Registered(key, s, b);
    }
  }

  lemma LeaderInv(key: Keys, s: State, id: nat, o: Outcome)
    requires Inv(key, s) && id in s.pcs && s.pcs[id].Leads()
    ensures Inv(key, LeaderStep(s, id, key(id), o))
  {
    assert CallOk(key, s, id);
    MoveInv(key, s, LeaderStep(s, id, key(id), o), id);
  }

  lemma WaiterInv(key: Keys, s: State, id: nat)
    requires Inv(key, s) && Enabled(s, Step(id, Panic)) && !s.pcs[id].Leads() && !s.pcs[id].Enter?
    ensures Inv(key, WaiterStep(s, id))
  {
    assert CallOk(key, s, id) && Registered(key, s, key(id));
    var s' := WaiterStep(s, id);
    LeaderStays(key, s, s', id, id, s.pcs[id].call);
    MoveInv(key, s, s', id);
  }

  lemma JoinInv(key: Keys, s: State, id: nat)
    requires Inv(key, s) && id in s.pcs && s.pcs[id].Enter?
    ensures Inv(key, Join(s, id, key(id)))
  {
    assert CallOk(key, s, id) && Registered(key, s, key(id));
    if key(id) in s.inflight { assert CallOk(key, s, s.inflight[key(id)]); }
    MoveInv(key, s, Join(s, id, key(id)), id);
  }

  lemma ArriveInv(key: Keys, s: State, id: nat, pc: Pc)
    requires Inv(key, s) && (id in s.pcs ==> s.pcs[id].Wait?) && (pc.Enter? || pc.GaveUp?)
    ensures Inv(key, Goto(s, id, pc))
  {
    assert CallOk(key, s, id) && Registered(key, s, key(id));
    MoveInv(key, s, Goto(s, id, pc), id);
  }

  lemma StepInv(key: Keys, s: State, a: Action)
    requires Inv(key, s) && Enabled(s, a)
    ensures Inv(key, Apply(key, s, a))
  {
    match a {
      case Arrive(id) => ArriveInv(key, s, id, Enter);
      case GiveUp(id) => ArriveInv(key, s, id, GaveUp);
      case Step(id, o) =>
        if s.pcs[id].Enter? { JoinInv(key, s, id); }
        else if s.pcs[id].Leads() { LeaderInv(key, s, id, o); }
        else { WaiterInv(key, s, id); }
    }
  }

  lemma {:induction false} InvHolds(key: Keys, r: Run, n: nat)
    requires IsRun(key, r) && n <= |r.acts|
    ensures Inv(key, r.states[n])
  {
    if n > 0 {
      InvHolds(key, r, n - 1);
      assert StepAt(key, r, n - 1);
      StepInv(key, r.states[n - 1], r.acts[n - 1]);
    }
  }

  // ---------------------------------------------------------------------
  // What it means
  // ---------------------------------------------------------------------

  /** At most one call per blob is between LoadOrStore and Delete. */
  lemma OneLeaderPerBlob(key: Keys, s: State, a: nat, b: nat)
    requires Reachable(key, s) && a in s.pcs && b in s.pcs
    requires s.pcs[a].Leads() && s.pcs[b].Leads() && key(a) == key(b)
    ensures a == b
  {
    var r :| IsRun(key, r) && r.states[|r.acts|] == s;
    InvHolds(key, r, |r.acts|);
    assert CallOk(key, s, a) && CallOk(key, s, b);
  }

  /** A waiter that did not give up answers with its leader's whole result, for the same
      blob; only a panic is told to the waiters and hidden from the leader's own caller. */
  lemma WaiterReturnsItsLeadersReply(key: Keys, s: State, id: nat)
    requires Reachable(key, s) && id in s.pcs && s.pcs[id].Followed?
    ensures var c := s.pcs[id].call;
            && c in s.pcs && (s.pcs[c].Delete? || s.pcs[c].Led?) && key(c) == key(id)
            && s.pcs[c].own == if s.pcs[id].got == Bad(Panicked) then Good([], NoSum) else s.pcs[id].got
  {
    var r :| IsRun(key, r) && r.states[|r.acts|] == s;
    InvHolds(key, r, |r.acts|);
    assert CallOk(key, s, id) && CallOk(key, s, s.pcs[id].call);
  }

  function Ahead(pc: Pc): nat {
    match pc
    case Fetch => 5
    case SetBody(_) => 4
    case SetErr(_) => 3
    case Recover => 3
    case SetMeta(_) => 3
    case Close(_) => 2
    case Delete(_) => 1
    case _ => 0
  }

  /** Nobody waits in vain: the leader of a blocked waiter is still on its way, can always
      move, gets nearer to its end by each move, and at its end the waiter can move. */
  lemma NoWaiterIsLeftWaiting(key: Keys, s: State, id: nat, o: Outcome)
    requires Reachable(key, s) && id in s.pcs && s.pcs[id].Wait? && !Enabled(s, Step(id, o))
    ensures var c := s.pcs[id].call;
            && c in s.pcs && s.pcs[c].Leads() && !s.pcs[c].Delete? && Enabled(s, Step(c, o))
            && Ahead(Apply(key, s, Step(c, o)).pcs[c]) < Ahead(s.pcs[c])
  {
    var r :| IsRun(key, r) && r.states[|r.acts|] == s;
    InvHolds(key, r, |r.acts|);
    assert CallOk(key, s, id) && CallOk(key, s, s.pcs[id].call);
  }

  // ---------------------------------------------------------------------
  // The replies come from the leader's fetch
  // ---------------------------------------------------------------------

  /** What a fetch that ends with `o` means for the waiters. */
  function Told(o: Outcome): Reply {
    match o
    case Fetched(body, meta) => Good(body, meta)
    case Failed(code) => Bad(Fault(code))
    case Panic => Bad(Panicked)
  }

  /** What it means for the leader's own caller: a recovered panic is an empty body, no error. */
  function Own(o: Outcome): Reply { if o.Panic? then Good([], NoSum) else Told(o) }

  /** Leader `id` has fetched with outcome `o` and is on its way to publish it. */
  ghost predicate Carries(s: State, id: nat, o: Outcome) {
    && id in s.pcs && id in s.calls
    && match s.pcs[id]
       case SetErr(code) => o == Failed(code)
       case SetBody(got) => o.Fetched? && got == Told(o)
       case SetMeta(got) => o.Fetched? && got == Told(o)
       case Recover => o.Panic?
       case Close(own) => own == Own(o) && s.calls[id].Shared() == Told(o)
       case Delete(own) => own == Own(o) && s.calls[id].Shared() == Told(o)
       case Led(own) => own == Own(o) && s.calls[id].Shared() == Told(o)
       case _ => false
  }

  lemma FetchCarries(key: Keys, s: State, id: nat, o: Outcome)
    requires Inv(key, s) && id in s.pcs && s.pcs[id].Fetch?
    ensures Carries(LeaderStep(s, id, key(id), o), id, o)
  {
    assert CallOk(key, s, id);
  }

  lemma LeaderCarries(key: Keys, s: State, id: nat, o: Outcome, o': Outcome)
    requires Inv(key, s) && Carries(s, id, o) && s.pcs[id].Leads()
    ensures Carries(LeaderStep(s, id, key(id), o'), id, o)
  {
    assert CallOk(key, s, id);
  }

  lemma StillCarries(key: Keys, s: State, a: Action, id: nat, o: Outcome)
    requires Inv(key, s) && Enabled(s, a) && Carries(s, id, o)
    ensures Carries(Apply(key, s, a), id, o)
  {
    assert CallOk(key, s, id) && CallOk(key, s, a.id);
    if a.Step? && a.id == id { LeaderCarries(key, s, id, o, a.o); }
  }

  lemma {:induction false} CarriesOn(key: Keys, r: Run, i: nat, n: nat, id: nat, o: Outcome)
    requires IsRun(key, r) && i < n <= |r.acts|
    requires r.acts[i] == Step(id, o) && id in r.states[i].pcs && r.states[i].pcs[id].Fetch?
    ensures Carries(r.states[n], id, o)
  {
    assert StepAt(key, r, n - 1);
    InvHolds(key, r, n - 1);
    if i == n - 1 {
      FetchCarries(key, r.states[i], id, o);
    } else {
      CarriesOn(key, r, i, n - 1, id, o);
      StillCarries(key, r.states[n - 1], r.acts[n - 1], id, o);
    }
  }

  /** In every run, once leader `id` has fetched with outcome `o`: it returns what it fetched,
      or its fault, or after a panic nothing and no error; and every waiter on it returns what
      it fetched, its fault, or that it panicked. */
  lemma EveryoneGetsWhatTheLeaderFetched(key: Keys, r: Run, i: nat, n: nat, id: nat, o: Outcome, other: nat)
    requires IsRun(key, r) && i < n <= |r.acts|
    requires r.acts[i] == Step(id, o) && id in r.states[i].pcs && r.states[i].pcs[id].Fetch?
    ensures id in r.states[n].pcs && (r.states[n].pcs[id].Led? ==> r.states[n].pcs[id].own == Own(o))
    ensures other in r.states[n].pcs && r.states[n].pcs[other].Followed? && r.states[n].pcs[other].call == id
            ==> r.states[n].pcs[other].got == Told(o)
  {
    CarriesOn(key, r, i, n, id, o);
    InvHolds(key, r, n);
    assert CallOk(key, r.states[n], other) && CallOk(key, r.states[n], id);
  }
}
