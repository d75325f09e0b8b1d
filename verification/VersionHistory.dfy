/** What a reader of the local provider sees, told from the history of its successful calls
    alone: the versions written and not removed since, oldest first. */
module VersionHistory {
  import opened Prelude
  import opened Versions
  import opened LocalProvider

  /** What a call that succeeded did. A Put or Delete wrote a version. */
  datatype Effect = Wrote(v: Version) | Removed(key: Key, vid: VersionId) | Purged(key: Key)

  /** The effect on the stacks, as the provider's contracts state it. */
  function Did(stacks: Stacks, e: Effect): Stacks {
    match e
    case Wrote(v) => stacks[v.key := Insert(StackOf(stacks, v.key), v)]
    case Removed(k, vid) => stacks[k := Remove(StackOf(stacks, k), vid)]
    case Purged(k) => PurgeStacks(stacks, k)
  }

  function After(history: seq<Effect>): Stacks {
    if history == [] then map[] else Did(After(history[..|history| - 1]), history[|history| - 1])
  }

  predicate Removes(e: Effect, v: Version) {
    match e
    case Wrote(_) => false
    case Removed(k, vid) => k == v.key && vid == v.vid
    case Purged(k) => Below(k, v.key)
  }

  /** The effect at `i` wrote a version of `k` that nothing later removed. */
  ghost predicate Survives(history: seq<Effect>, k: Key, i: nat) {
    && i < |history| && history[i].Wrote? && history[i].v.key == k
    && forall n :: i < n < |history| ==> !Removes(history[n], history[i].v)
  }

  /** Distinct version ids, and a clock that moves forward from write to write. */
  ghost predicate Clocked(history: seq<Effect>) {
    forall i, n :: 0 <= i < n < |history| && history[i].Wrote? && history[n].Wrote? ==>
      history[i].v.time < history[n].v.time && history[i].v.vid != history[n].v.vid
  }

  /** The surviving versions of `k`, in the order of their writing. */
  ghost function Survivors(history: seq<Effect>, k: Key, upto: nat): Stack
    requires upto <= |history|
  {
    if upto == 0 then []
    else if Survives(history, k, upto - 1) then Survivors(history, k, upto - 1) + [history[upto - 1].v]
    else Survivors(history, k, upto - 1)
  }

  lemma {:induction false} SurvivorsMembers(history: seq<Effect>, k: Key, upto: nat, x: Version)
    requires upto <= |history| && x in Survivors(history, k, upto)
    ensures exists i :: 0 <= i < upto && Survives(history, k, i) && history[i].v == x
  {
    if Survives(history, k, upto - 1) && x == history[upto - 1].v {
    } else {
      SurvivorsMembers(history, k, upto - 1, x);
    }
  }

  /** What removes none of a key's versions keeps them. */
  lemma {:induction false} OthersSpare(history: seq<Effect>, e: Effect, k: Key, upto: nat)
    requires upto <= |history| && forall v: Version :: v.key == k ==> !Removes(e, v)
    ensures Survivors(history + [e], k, upto) == Survivors(history, k, upto)
  {
    if upto > 0 {
      OthersSpare(history, e, k, upto - 1);
      LongerSurvives(history, e, k, upto - 1);
    }
  }

  /** A removal takes its version out and keeps the others in order. */
  lemma {:induction false} RemovalTakesOut(history: seq<Effect>, k: Key, vid: VersionId, upto: nat)
    requires upto <= |history|
    ensures Survivors(history + [Removed(k, vid)], k, upto) == Remove(Survivors(history, k, upto), vid)
  {
    if upto > 0 {
      RemovalTakesOut(history, k, vid, upto - 1);
      LongerSurvives(history, Removed(k, vid), k, upto - 1);
    }
  }

  lemma {:induction false} PurgeTakesAll(history: seq<Effect>, e: Effect, k: Key, upto: nat)
    requires upto <= |history| && e.Purged? && Below(e.key, k)
    ensures Survivors(history + [e], k, upto) == []
  {
    if upto > 0 {
      PurgeTakesAll(history, e, k, upto - 1);
      LongerSurvives(history, e, k, upto - 1);
    }
  }

  lemma LongerSurvives(history: seq<Effect>, e: Effect, k: Key, i: nat)
    requires i < |history|
    ensures Survives(history + [e], k, i) <==> Survives(history, k, i) && !Removes(e, history[i].v)
  {
    var longer := history + [e];
    assert longer[i] == history[i] && longer[|history|] == e;
    if Survives(history, k, i) && !Removes(e, history[i].v) {
      forall n | i < n < |longer| ensures !Removes(longer[n], longer[i].v) {
        if n < |history| { assert longer[n] == history[n]; }
      }
    }
    if Survives(longer, k, i) {
      forall n | i < n < |history| ensures !Removes(history[n], history[i].v) { assert longer[n] == history[n]; }
    }
  }

  lemma WriteAppends(history: seq<Effect>, v: Version)
    requires Clocked(history + [Wrote(v)])
    ensures Insert(Survivors(history, v.key, |history|), v) == Survivors(history, v.key, |history|) + [v]
  {
    var st := Survivors(history, v.key, |history|);
    if st != [] {
      SurvivorsMembers(history, v.key, |history|, st[|st| - 1]);
      var i :| 0 <= i < |history| && Survives(history, v.key, i) && history[i].v == st[|st| - 1];
      var longer := history + [Wrote(v)];
      assert longer[i] == history[i] && longer[|history|] == Wrote(v);
    }
  }

  lemma StepSurvives(history: seq<Effect>, e: Effect, k: Key, stacks: Stacks)
    requires Clocked(history + [e]) && StackOf(stacks, k) == Survivors(history, k, |history|)
    ensures StackOf(Did(stacks, e), k) == Survivors(history + [e], k, |history| + 1)
  {
    var longer := history + [e];
    assert longer[|history|] == e;
    match e {
      case Wrote(v) =>
        OthersSpare(history, e, k, |history|);
        if v.key == k {
          WriteAppends(history, v);
          assert Survives(longer, k, |history|);
        }
      case Removed(l, vid) =>
        if l == k { RemovalTakesOut(history, k, vid, |history|); } else { OthersSpare(history, e, k, |history|); }
      case Purged(l) =>
        if Below(l, k) { PurgeTakesAll(history, e, k, |history|); } else { OthersSpare(history, e, k, |history|); }
    }
  }

  /** Over every history with a forward clock, a key's stack is what survived of it. */
  lemma {:induction false} StackIsWhatSurvives(history: seq<Effect>, k: Key)
    requires Clocked(history)
    ensures StackOf(After(history), k) == Survivors(history, k, |history|)
  {
    if history != [] {
      var n := |history| - 1;
      var before, e := history[..n], history[n];
      assert history == before + [e];
      assert Clocked(before) by {
        forall i, m | 0 <= i < m < |before| && before[i].Wrote? && before[m].Wrote?
          ensures before[i].v.time < before[m].v.time && before[i].v.vid != before[m].v.vid
        {
          assert before[i] == history[i] && before[m] == history[m];
        }
      }
      StackIsWhatSurvives(before, k);
      StepSurvives(before, e, k, After(before));
    }
  }

  lemma {:induction false} TopIsLastSurvivor(history: seq<Effect>, k: Key, upto: nat)
    requires upto <= |history|
    ensures var st := Survivors(history, k, upto);
            if st == [] then forall i :: 0 <= i < upto ==> !Survives(history, k, i)
            else exists i :: 0 <= i < upto && Survives(history, k, i) && history[i].v == st[|st| - 1]
                   && forall n :: i < n < upto ==> !Survives(history, k, n)
  {
    if upto > 0 { TopIsLastSurvivor(history, k, upto - 1); }
  }

  ghost predicate LastSurvivor(history: seq<Effect>, k: Key, i: nat) {
    Survives(history, k, i) && forall n :: i < n < |history| ==> !Survives(history, k, n)
  }

  /** Head and Get answer with the last write of the key that was not removed since, or
      with NotFound if that was a Delete. */
  lemma ReaderSeesLastSurvivor(history: seq<Effect>, k: Key, i: nat)
    requires Clocked(history) && LastSurvivor(history, k, i)
    ensures Current(StackOf(After(history), k)) == if history[i].v.marker then None else Some(history[i].v)
  {
    StackIsWhatSurvives(history, k);
    TopIsLastSurvivor(history, k, |history|);
  }

  /** With nothing left of a key, it is not found. */
  lemma NothingLeftIsNotFound(history: seq<Effect>, k: Key)
    requires Clocked(history) && forall i: nat :: !Survives(history, k, i)
    ensures Current(StackOf(After(history), k)) == None
  {
    StackIsWhatSurvives(history, k);
    TopIsLastSurvivor(history, k, |history|);
  }

  // ---------------------------------------------------------------------
  // Any clock
  // ---------------------------------------------------------------------

  /** No two versions of a key have the same write time; the clock may go back. */
  ghost predicate DistinctTimes(history: seq<Effect>) {
    forall i, n :: 0 <= i < n < |history| && history[i].Wrote? && history[n].Wrote? && history[i].v.key == history[n].v.key ==>
      history[i].v.time != history[n].v.time
  }

  ghost predicate IsSurvivor(history: seq<Effect>, k: Key, x: Version) {
    exists i: nat :: Survives(history, k, i) && history[i].v == x
  }

  /** A stack holds exactly the survivors, in the order of their write times. */
  ghost predicate HoldsSurvivors(history: seq<Effect>, k: Key, st: Stack) {
    Ordered(st) && forall x :: x in st <==> IsSurvivor(history, k, x)
  }

  /** What survives a longer history: the old survivors not removed now, and a new write. */
  lemma SurvivorStep(history: seq<Effect>, e: Effect, k: Key, x: Version)
    ensures IsSurvivor(history + [e], k, x)
       <==> (IsSurvivor(history, k, x) && !Removes(e, x)) || (e.Wrote? && e.v == x && x.key == k)
  {
    var longer, n := history + [e], |history|;
    assert longer[n] == e;
    if IsSurvivor(history, k, x) && !Removes(e, x) {
      var i: nat :| Survives(history, k, i) && history[i].v == x;
      LongerSurvives(history, e, k, i);
      assert Survives(longer, k, i) && longer[i].v == x;
    }
    if e.Wrote? && e.v == x && x.key == k { assert Survives(longer, k, n) && longer[n].v == x; }
    if IsSurvivor(longer, k, x) {
      var i: nat :| Survives(longer, k, i) && longer[i].v == x;
      if i < n {
        LongerSurvives(history, e, k, i);
        assert Survives(history, k, i) && history[i].v == x;
      }
    }
  }

  lemma WriteHolds(history: seq<Effect>, v: Version, st: Stack)
    requires DistinctTimes(history + [Wrote(v)]) && HoldsSurvivors(history, v.key, st)
    ensures HoldsSurvivors(history + [Wrote(v)], v.key, Insert(st, v))
  {
    var longer, n := history + [Wrote(v)], |history|;
    forall i | 0 <= i < |st| ensures st[i].time != v.time {
      assert st[i] in st;
      var m: nat :| Survives(history, v.key, m) && history[m].v == st[i];
      assert longer[m] == history[m] && longer[n] == Wrote(v);
    }
    InsertOrdered(st, v);
    forall x ensures x in Insert(st, v) <==> IsSurvivor(longer, v.key, x) {
      InsertMembers(st, v, x);
      SurvivorStep(history, Wrote(v), v.key, x);
    }
  }

  lemma RemovalHolds(history: seq<Effect>, k: Key, vid: VersionId, st: Stack)
    requires HoldsSurvivors(history, k, st)
    ensures HoldsSurvivors(history + [Removed(k, vid)], k, Remove(st, vid))
  {
    RemoveOrdered(st, vid);
    forall x ensures x in Remove(st, vid) <==> IsSurvivor(history + [Removed(k, vid)], k, x) {
      RemoveMembers(st, vid, x);
      SurvivorStep(history, Removed(k, vid), k, x);
    }
  }

  lemma PurgeHolds(history: seq<Effect>, e: Effect, k: Key)
    requires e.Purged? && Below(e.key, k)
    ensures HoldsSurvivors(history + [e], k, [])
  {
    forall x ensures !IsSurvivor(history + [e], k, x) { SurvivorStep(history, e, k, x); }
  }

  lemma OtherHolds(history: seq<Effect>, e: Effect, k: Key, st: Stack)
    requires HoldsSurvivors(history, k, st)
    requires match e case Wrote(v) => v.key != k case Removed(l, _) => l != k case Purged(l) => !Below(l, k)
    ensures HoldsSurvivors(history + [e], k, st)
  {
    forall x ensures x in st <==> IsSurvivor(history + [e], k, x) { SurvivorStep(history, e, k, x); }
  }

  lemma StepHolds(history: seq<Effect>, e: Effect, k: Key, stacks: Stacks)
    requires DistinctTimes(history + [e]) && HoldsSurvivors(history, k, StackOf(stacks, k))
    ensures HoldsSurvivors(history + [e], k, StackOf(Did(stacks, e), k))
  {
    match e {
      case Wrote(v) => if v.key == k { WriteHolds(history, v, StackOf(stacks, k)); } else { OtherHolds(history, e, k, StackOf(stacks, k)); }
      case Removed(l, vid) => if l == k { RemovalHolds(history, k, vid, StackOf(stacks, k)); } else { OtherHolds(history, e, k, StackOf(stacks, k)); }
      case Purged(l) => if Below(l, k) { PurgeHolds(history, e, k); } else { OtherHolds(history, e, k, StackOf(stacks, k)); }
    }
  }

  lemma {:induction false} StackHoldsSurvivors(history: seq<Effect>, k: Key)
    requires DistinctTimes(history)
    ensures HoldsSurvivors(history, k, StackOf(After(history), k))
  {
    if history == [] {
      forall x ensures !IsSurvivor(history, k, x) {}
    } else {
      var n := |history| - 1;
      var before, e := history[..n], history[n];
      assert history == before + [e];
      assert DistinctTimes(before) by {
        forall i, m | 0 <= i < m < |before| && before[i].Wrote? && before[m].Wrote? && before[i].v.key == before[m].v.key
          ensures before[i].v.time != before[m].v.time
        {
          assert before[i] == history[i] && before[m] == history[m];
        }
      }
      StackHoldsSurvivors(before, k);
      StepHolds(before, e, k, After(before));
    }
  }

  /** Over every history, whatever the clock did, Head and Get answer with a version exactly when
      it was a Put that survives and no surviving write of the key, Put or Delete, has a later time. */
  lemma ReaderSeesLatestTime(history: seq<Effect>, k: Key, v: Version)
    requires DistinctTimes(history)
    ensures Current(StackOf(After(history), k)) == Some(v)
       <==> IsSurvivor(history, k, v) && !v.marker && forall x :: IsSurvivor(history, k, x) ==> x.time <= v.time
  {
    var st := StackOf(After(history), k);
    StackHoldsSurvivors(history, k);
    if st != [] {
      var top := st[|st| - 1];
      assert top in st && IsSurvivor(history, k, top);
      forall x | x in st ensures x.time < top.time || x == top {
        var i :| 0 <= i < |st| && st[i] == x;
      }
    }
    assert v in st <==> IsSurvivor(history, k, v);
  }
}
