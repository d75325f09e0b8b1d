/** Version stacks, the reference for the local provider's directory of sidecar files. */
module Versions {
  import opened Prelude

  datatype Key = Key(name: string)
  datatype VersionId = VersionId(text: string)

  /** What a sidecar file records of one version; a delete marker has no checksum. */
  datatype Version = Version(key: Key, vid: VersionId, size: nat, sum: Sum, time: nat, marker: bool)

  type Stack = seq<Version>

  ghost predicate Ordered(st: Stack) {
    forall i, k :: 0 <= i < k < |st| ==> st[i].time < st[k].time
  }

  /** A version enters at the place of its write time: on top, if the clock moved forward. */
  function Insert(st: Stack, v: Version): (r: Stack)
    ensures |r| == |st| + 1
  {
    if st == [] || st[|st| - 1].time < v.time then st + [v]
    else Insert(st[..|st| - 1], v) + [st[|st| - 1]]
  }

  function Remove(st: Stack, vid: VersionId): Stack {
    if st == [] then []
    else
      var top := st[|st| - 1];
      if top.vid == vid then Remove(st[..|st| - 1], vid) else Remove(st[..|st| - 1], vid) + [top]
  }

  /** What Head and Get see: the newest version, unless it is a delete marker. */
  function Current(st: Stack): Option<Version> {
    if st == [] || st[|st| - 1].marker then None else Some(st[|st| - 1])
  }

  predicate Has(st: Stack, vid: VersionId) {
    exists i :: 0 <= i < |st| && st[i].vid == vid
  }

  lemma {:induction false} InsertMembers(st: Stack, v: Version, x: Version)
    ensures x in Insert(st, v) <==> x == v || x in st
  {
    if st != [] && st[|st| - 1].time >= v.time {
      InsertMembers(st[..|st| - 1], v, x);
      assert st == st[..|st| - 1] + [st[|st| - 1]];
    }
  }

  lemma {:induction false} InsertOrdered(st: Stack, v: Version)
    requires Ordered(st) && forall i :: 0 <= i < |st| ==> st[i].time != v.time
    ensures Ordered(Insert(st, v))
  {
    if st != [] && st[|st| - 1].time >= v.time {
      var below := st[..|st| - 1];
      InsertOrdered(below, v);
      forall i | 0 <= i < |Insert(below, v)| ensures Insert(below, v)[i].time < st[|st| - 1].time {
        InsertMembers(below, v, Insert(below, v)[i]);
      }
    }
  }

  lemma {:induction false} RemoveMembers(st: Stack, vid: VersionId, x: Version)
    ensures x in Remove(st, vid) <==> x in st && x.vid != vid
  {
    if st != [] {
      RemoveMembers(st[..|st| - 1], vid, x);
      assert st == st[..|st| - 1] + [st[|st| - 1]];
    }
  }

  lemma {:induction false} RemoveOrdered(st: Stack, vid: VersionId)
    requires Ordered(st)
    ensures Ordered(Remove(st, vid))
  {
    if st != [] {
      var below := st[..|st| - 1];
      RemoveOrdered(below, vid);
      forall i | 0 <= i < |Remove(below, vid)| ensures Remove(below, vid)[i].time < st[|st| - 1].time {
        RemoveMembers(below, vid, Remove(below, vid)[i]);
      }
    }
  }

  lemma {:induction false} RemoveAbsent(st: Stack, vid: VersionId)
    requires !Has(st, vid)
    ensures Remove(st, vid) == st
  {
    if st != [] { RemoveAbsent(st[..|st| - 1], vid); }
  }

  // ---------------------------------------------------------------------
  // Laws of the stack
  // ---------------------------------------------------------------------

  /** Removing the version just written gives back the stack, whatever the clock did. */
  lemma {:induction false} RemoveUndoesInsert(st: Stack, v: Version)
    requires !Has(st, v.vid)
    ensures Remove(Insert(st, v), v.vid) == st
  {
    var r := Insert(st, v);
    if st == [] || st[|st| - 1].time < v.time {
      assert r[..|st|] == st;
      RemoveAbsent(st, v.vid);
    } else {
      var below := st[..|st| - 1];
      assert r[..|st|] == Insert(below, v);
      RemoveUndoesInsert(below, v);
    }
  }

  /** Removing the newest version shows the one below it. */
  lemma RemovingTopShowsBelow(st: Stack)
    requires Ordered(st) && st != [] && !Has(st[..|st| - 1], st[|st| - 1].vid)
    ensures Remove(st, st[|st| - 1].vid) == st[..|st| - 1]
  {
    RemoveAbsent(st[..|st| - 1], st[|st| - 1].vid);
  }

  lemma SameTop(a: Stack, b: Stack)
    requires Ordered(a) && Ordered(b) && a != [] && b != []
    requires a[|a| - 1] in b && b[|b| - 1] in a
    ensures a[|a| - 1] == b[|b| - 1]
  {
    var i :| 0 <= i < |b| && b[i] == a[|a| - 1];
    var k :| 0 <= k < |a| && a[k] == b[|b| - 1];
  }

  lemma WithoutTop(a: Stack, y: Version)
    requires Ordered(a) && a != []
    ensures y in a[..|a| - 1] <==> y in a && y != a[|a| - 1]
  {
    assert a == a[..|a| - 1] + [a[|a| - 1]];
  }

  /** Two ordered stacks of the same versions are the same stack. */
  lemma {:induction false} OrderedUnique(a: Stack, b: Stack)
    requires Ordered(a) && Ordered(b) && forall x :: x in a <==> x in b
    ensures a == b
    decreases |a| + |b|, if a == [] then 1 else 0
  {
    if a == [] {
      if b != [] { OrderedUnique(b, a); }
    } else {
      var top := a[|a| - 1];
      assert top in b;
      SameTop(a, b);
      var a', b' := a[..|a| - 1], b[..|b| - 1];
      forall y ensures y in a' <==> y in b' {
        WithoutTop(a, y);
        WithoutTop(b, y);
      }
      OrderedUnique(a', b');
      assert a == a' + [top] && b == b' + [top];
    }
  }
}
