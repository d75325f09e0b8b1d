/** The local provider: one directory per key, in it one sidecar file and one body file per
    version in no order, every call under the provider's lock. It refines a map from key to
    stack, except that a directory whose name ends in .json is taken for a sidecar. */
module LocalProvider {
  import opened Prelude
  import opened Versions

  datatype Ref = Ref(key: Key, vid: VersionId)

  datatype Error = InvalidKey | PreconditionFailed | ChecksumMismatch | NotFound | InvalidRange | Io

  datatype Result<+T> = Ok(value: T) | Err(error: Error)

  datatype PutRequest = PutRequest(key: Key, body: Bytes, expectedLength: int, sum: Sum, ifNoneMatch: bool)

  /** Where a call's file operations fail, if they do; a failing MkdirAll may have made the
      directories down to `reached`. */
  datatype Fault = NoFault | MkdirFails(reached: Option<Key>) | CopyFails | RenameFails | SidecarFails

  type Dir = map<Ref, Version>
  type Bodies = map<Ref, Bytes>
  type Stacks = map<Key, Stack>

  // ---------------------------------------------------------------------
  // Keys
  // ---------------------------------------------------------------------

  /** strings.Split(key, "/"). */
  function Segments(s: string): seq<string> {
    if s == [] then [""]
    else
      var rest := Segments(s[1..]);
      if s[0] == '/' then [""] + rest
      else if rest == [] then [[s[0]]]
      else [[s[0]] + rest[0]] + rest[1..]
  }

  predicate ValidKey(k: Key) {
    && k.name != "" && '\\' !in k.name && '\0' !in k.name && k.name != "_multipart"
    && forall i :: 0 <= i < |Segments(k.name)| ==> Segments(k.name)[i] !in [".", "..", ""]
  }

  /** `l` is `k` itself or lies in a directory below it. */
  predicate Below(k: Key, l: Key) {
    l == k || k.name + "/" <= l.name
  }

  // ---------------------------------------------------------------------
  // Paths
  // ---------------------------------------------------------------------

  /** filepath.Join: from directory `at`, walk along the segments; "." and an empty segment stay,
      ".." goes up. */
  function Resolve(at: seq<string>, segs: seq<string>): seq<string>
    decreases |segs|
  {
    if segs == [] then at
    else if segs[0] == "" || segs[0] == "." then Resolve(at, segs[1..])
    else if segs[0] == ".." then Resolve(if at == [] then [] else at[..|at| - 1], segs[1..])
    else Resolve(at + [segs[0]], segs[1..])
  }

  predicate PlainSegments(segs: seq<string>) { forall i :: 0 <= i < |segs| ==> segs[i] !in [".", "..", ""] }

  lemma {:induction false} ResolveShrinks(at: seq<string>, segs: seq<string>)
    ensures |Resolve(at, segs)| <= |at| + |segs|
    ensures !PlainSegments(segs) ==> |Resolve(at, segs)| < |at| + |segs|
    decreases |segs|
  {
    if segs != [] {
      var at' := if segs[0] == "" || segs[0] == "." then at else if segs[0] == ".." then (if at == [] then [] else at[..|at| - 1]) else at + [segs[0]];
      ResolveShrinks(at', segs[1..]);
      if PlainSegments(segs[1..]) && segs[0] !in [".", "..", ""] {
        forall i | 0 <= i < |segs| ensures segs[i] !in [".", "..", ""] { if i > 0 { assert segs[i] == segs[1..][i - 1]; } }
      }
    }
  }

  lemma {:induction false} ResolvePlain(at: seq<string>, segs: seq<string>)
    requires PlainSegments(segs)
    ensures Resolve(at, segs) == at + segs
    decreases |segs|
  {
    if segs != [] {
      assert segs[0] !in [".", "..", ""];
      ResolvePlain(at + [segs[0]], segs[1..]);
      assert (at + [segs[0]]) + segs[1..] == at + segs;
    }
  }

  /** The segments joined by slashes again. */
  function Joined(segs: seq<string>): string
    requires segs != []
  {
    if |segs| == 1 then segs[0] else segs[0] + "/" + Joined(segs[1..])
  }

  lemma {:induction false} JoinSegments(s: string)
    ensures Segments(s) != [] && Joined(Segments(s)) == s
  {
    if s != [] {
      var rest := Segments(s[1..]);
      JoinSegments(s[1..]);
      assert s == [s[0]] + s[1..];
      if s[0] == '/' {
        assert ([""] + rest)[1..] == rest;
        assert Joined([""] + rest) == "/" + Joined(rest);
      } else {
        var head := [s[0]] + rest[0];
        assert ([head] + rest[1..])[1..] == rest[1..];
        if |rest| > 1 {
          assert Joined(rest) == rest[0] + "/" + Joined(rest[1..]);
          assert Joined([head] + rest[1..]) == [s[0]] + (rest[0] + "/" + Joined(rest[1..]));
        }
      }
    }
  }

  /** The segments of a path with one character more in front. */
  function Longer(x: char, rest: seq<string>): seq<string>
    requires rest != []
  {
    if x == '/' then [""] + rest else [[x] + rest[0]] + rest[1..]
  }

  lemma {:induction false} SegmentsCons(x: char, s: string)
    ensures Segments(s) != [] && Segments([x] + s) == Longer(x, Segments(s))
  {
    JoinSegments(s);
    assert ([x] + s)[1..] == s;
  }

  lemma MoreSegments(x: char, rest: seq<string>, more: seq<string>)
    requires rest != []
    ensures Longer(x, rest + more) == Longer(x, rest) + more
  {
    assert (rest + more)[0] == rest[0] && (rest + more)[1..] == rest[1..] + more;
  }

  lemma {:induction false} SegmentsOfPath(a: string, b: string)
    ensures Segments(a + "/" + b) == Segments(a) + Segments(b)
  {
    if a == [] {
      assert a + "/" + b == ['/'] + b && (['/'] + b)[1..] == b;
    } else {
      var t := a[1..];
      SegmentsOfPath(t, b);
      JoinSegments(t);
      assert a == [a[0]] + t;
      assert a + "/" + b == [a[0]] + (t + "/" + b);
      SegmentsCons(a[0], t);
      SegmentsCons(a[0], t + "/" + b);
      MoreSegments(a[0], Segments(t), Segments(b));
    }
  }

  /** A valid key's path stays below the root and spells out its segments, wherever the root is;
      of the keys the provider could name at all, no others do. */
  lemma ValidKeysStayBelowRoot(root: seq<string>, k: Key)
    ensures ValidKey(k) ==> Resolve(root, Segments(k.name)) == root + Segments(k.name)
    ensures Resolve(root, Segments(k.name)) == root + Segments(k.name) ==> PlainSegments(Segments(k.name))
  {
    if PlainSegments(Segments(k.name)) { ResolvePlain(root, Segments(k.name)); }
    ResolveShrinks(root, Segments(k.name));
  }

  /** Two valid keys never share a directory. */
  lemma ValidKeysHaveOwnDirectories(root: seq<string>, k: Key, l: Key)
    requires ValidKey(k) && ValidKey(l) && Resolve(root, Segments(k.name)) == Resolve(root, Segments(l.name))
    ensures k == l
  {
    ValidKeysStayBelowRoot(root, k);
    ValidKeysStayBelowRoot(root, l);
    assert (root + Segments(k.name))[|root|..] == Segments(k.name);
    assert (root + Segments(l.name))[|root|..] == Segments(l.name);
    JoinSegments(k.name);
    JoinSegments(l.name);
  }

  /** `l` lies below `k` exactly if the path of `k` is a prefix of the path of `l`. */
  lemma BelowIsPathPrefix(k: Key, l: Key)
    ensures Below(k, l) <==> Segments(k.name) <= Segments(l.name)
  {
    if k.name + "/" <= l.name {
      var b := l.name[|k.name| + 1..];
      assert l.name == (k.name + "/") + b;
      SegmentsOfPath(k.name, b);
    }
    if Segments(k.name) <= Segments(l.name) { PathPrefixIsBelow(k, l, Segments(k.name), Segments(l.name)); }
  }

  lemma PathPrefixIsBelow(k: Key, l: Key, sk: seq<string>, sl: seq<string>)
    requires sk == Segments(k.name) && sl == Segments(l.name) && sk <= sl
    ensures Below(k, l)
  {
    JoinSegments(k.name);
    JoinSegments(l.name);
    if |sk| == |sl| {
      assert sk == sl;
    } else {
      assert sl == sk + sl[|sk|..];
      JoinedConcat(sk, sl[|sk|..]);
    }
  }

  lemma {:induction false} JoinedConcat(a: seq<string>, b: seq<string>)
    requires a != [] && b != []
    ensures Joined(a + b) == Joined(a) + "/" + Joined(b)
  {
    assert (a + b)[1..] == a[1..] + b;
    if |a| == 1 {
      assert a[1..] + b == b;
    } else {
      JoinedConcat(a[1..], b);
    }
  }

  // ---------------------------------------------------------------------
  // Directories
  // ---------------------------------------------------------------------

  /** The directories MkdirAll makes for a key: its own and those above it. */
  function Lineage(k: Key): set<Key> {
    {k} + set i | 0 <= i < |k.name| && k.name[i] == '/' :: Key(k.name[..i])
  }

  /** With a directory there are all those above it, and none is nameless. */
  ghost predicate Rooted(dirs: set<Key>) {
    forall d :: d in dirs ==> d.name != "" && Lineage(d) <= dirs
  }

  /** `d` lies directly below `k` and looks like a sidecar. */
  predicate JsonChild(k: Key, d: Key) {
    && k.name + "/" <= d.name
    && var last := d.name[|k.name| + 1..];
       SlashFree(last) && |last| >= 5 && last[|last| - 5..] == ".json"
  }

  predicate Deceives(dirs: set<Key>, k: Key) { exists d :: d in dirs && JsonChild(k, d) }

  lemma JsonParent(dirs: set<Key>, k: Key)
    requires Rooted(dirs) && Deceives(dirs, k)
    ensures k in dirs
  {
    var d :| d in dirs && JsonChild(k, d);
    var n := |k.name|;
    assert d.name[..n + 1] == k.name + "/";
    assert d.name[n] == '/' && d.name[..n] == k.name;
    assert Key(d.name[..n]) in Lineage(d);
  }

  /** The directories made for a key are those whose path leads to it. */
  lemma LineageIsThePath(k: Key, d: Key)
    ensures d in Lineage(k) <==> Segments(d.name) <= Segments(k.name)
  {
    BelowIsPathPrefix(d, k);
    var n := |d.name|;
    if d.name + "/" <= k.name {
      assert k.name[..n + 1] == d.name + "/";
      assert k.name[n] == '/' && k.name[..n] == d.name;
    }
  }

  lemma JsonName(k: Key, d: Key) returns (x: string)
    requires JsonChild(k, d)
    ensures SlashFree(x) && d.name == k.name + "/" + x + ".json"
  {
    var last := d.name[|k.name| + 1..];
    x := last[..|last| - 5];
    assert d.name == (k.name + "/") + last;
    assert last == x + ".json";
    forall i | 0 <= i < |x| ensures x[i] != '/' { assert last[i] == x[i]; }
  }

  ghost predicate JsonDir(dirs: set<Key>, k: Key, x: string) { SlashFree(x) && Key(k.name + "/" + x + ".json") in dirs }

  /** A key is taken for stored exactly if there is a directory k/x.json. */
  lemma DeceivedByJsonDirs(dirs: set<Key>, k: Key)
    ensures Deceives(dirs, k) <==> exists x :: JsonDir(dirs, k, x)
  {
    if d :| d in dirs && JsonChild(k, d) {
      var x := JsonName(k, d);
      assert JsonDir(dirs, k, x);
    }
    if x :| JsonDir(dirs, k, x) { IsJsonChild(k, x); }
  }

  lemma LineageOf(k: Key, d: Key)
    requires d in Lineage(k)
    ensures Lineage(d) <= Lineage(k)
  {
    forall e | e in Lineage(d) ensures e in Lineage(k) {
      if e != d && d != k {
        var i :| 0 <= i < |k.name| && k.name[i] == '/' && d == Key(k.name[..i]);
        var j :| 0 <= j < |d.name| && d.name[j] == '/' && e == Key(d.name[..j]);
        assert d.name[..j] == k.name[..j];
      }
    }
  }

  lemma LeadingSlash(s: string)
    requires s != "" && s[0] == '/'
    ensures |Segments(s)| > 0 && Segments(s)[0] == ""
  {
  }

  lemma Named(k: Key, d: Key)
    requires ValidKey(k) && d in Lineage(k)
    ensures d.name != ""
  {
    if k.name[0] == '/' { LeadingSlash(k.name); }
  }

  /** MkdirAll makes a directory and those above it; one that fails stops on the way down. */
  function Made(k: Key, fault: Fault): set<Key> {
    if !fault.MkdirFails? then Lineage(k)
    else if fault.reached.Some? && fault.reached.value in Lineage(k) then Lineage(fault.reached.value)
    else {}
  }

  lemma MkdirRooted(dirs: set<Key>, k: Key, fault: Fault)
    requires Rooted(dirs) && ValidKey(k)
    ensures Rooted(dirs + Made(k, fault))
  {
    forall d | d in Made(k, fault) ensures d.name != "" && Lineage(d) <= Made(k, fault) {
      var last := if fault.MkdirFails? then fault.reached.value else k;
      LineageOf(k, last);
      LineageOf(last, d);
      Named(k, d);
    }
  }

  lemma BelowLineage(k: Key, e: Key, d: Key)
    requires Below(k, e) && e in Lineage(d)
    ensures Below(k, d)
  {
    if e != d {
      var i :| 0 <= i < |d.name| && d.name[i] == '/' && e == Key(d.name[..i]);
      if e == k {
        assert d.name[..i + 1] == k.name + "/";
      } else {
        assert e.name[..|k.name| + 1] == k.name + "/";
        assert d.name[..|k.name| + 1] == k.name + "/";
      }
    }
  }

  /** Removing a directory with all below it leaves none without its parents. */
  lemma PurgeRooted(dirs: set<Key>, k: Key)
    requires Rooted(dirs)
    ensures Rooted(PurgeDirs(dirs, k))
  {
    forall d, e | d in dirs && !Below(k, d) && e in Lineage(d) ensures e in dirs && !Below(k, e) {
      if Below(k, e) { BelowLineage(k, e, d); }
    }
  }

  // ---------------------------------------------------------------------
  // Files and stacks
  // ---------------------------------------------------------------------

  function StackOf(stacks: Stacks, k: Key): Stack { if k in stacks then stacks[k] else [] }

  ghost predicate OnDisk(dir: Dir, bodies: Bodies, k: Key, v: Version) {
    var ref := Ref(k, v.vid);
    && v.key == k && ref in dir && dir[ref] == v
    && (!v.marker ==> ref in bodies && v.size == |bodies[ref]| && v.sum == Sha(bodies[ref]))
  }

  ghost predicate KeyTied(dir: Dir, bodies: Bodies, k: Key, st: Stack) {
    && Ordered(st)
    && (forall i :: 0 <= i < |st| ==> OnDisk(dir, bodies, k, st[i]))
    && (forall vid :: Ref(k, vid) in dir ==> Has(st, vid))
  }

  /** The files are those of the stacks, key by key. A body without a sidecar is ignored. */
  ghost predicate Tied(dir: Dir, bodies: Bodies, stacks: Stacks) {
    forall k :: KeyTied(dir, bodies, k, StackOf(stacks, k))
  }

  /** Files of other keys keep a key's stack. */
  lemma OtherKey(dir: Dir, bodies: Bodies, dir': Dir, bodies': Bodies, k: Key, st: Stack)
    requires KeyTied(dir, bodies, k, st)
    requires forall vid :: Ref(k, vid) in dir' <==> Ref(k, vid) in dir
    requires forall vid :: Ref(k, vid) in dir ==> dir'[Ref(k, vid)] == dir[Ref(k, vid)]
    requires forall vid :: Ref(k, vid) in bodies && Ref(k, vid) in dir ==>
               Ref(k, vid) in bodies' && bodies'[Ref(k, vid)] == bodies[Ref(k, vid)]
    ensures KeyTied(dir', bodies', k, st)
  {
    forall i | 0 <= i < |st| ensures OnDisk(dir', bodies', k, st[i]) {
      assert OnDisk(dir, bodies, k, st[i]);
    }
  }

  lemma WriteTied(dir: Dir, bodies: Bodies, bodies': Bodies, stacks: Stacks, v: Version)
    requires Tied(dir, bodies, stacks)
    requires Ref(v.key, v.vid) !in dir
    requires forall i :: 0 <= i < |StackOf(stacks, v.key)| ==> StackOf(stacks, v.key)[i].time != v.time
    requires if v.marker then bodies' == bodies
             else v.sum.Sha? && v.size == |v.sum.of| && bodies' == bodies[Ref(v.key, v.vid) := v.sum.of]
    ensures Tied(dir[Ref(v.key, v.vid) := v], bodies', stacks[v.key := Insert(StackOf(stacks, v.key), v)])
  {
    var ref := Ref(v.key, v.vid);
    var dir' := dir[ref := v];
    var st := StackOf(stacks, ref.key);
    var stacks' := stacks[ref.key := Insert(st, v)];
    forall k ensures KeyTied(dir', bodies', k, StackOf(stacks', k)) {
      assert KeyTied(dir, bodies, k, StackOf(stacks, k));
      if k != ref.key {
        OtherKey(dir, bodies, dir', bodies', k, StackOf(stacks, k));
      } else {
        InsertOrdered(st, v);
        WriteOnDisk(dir, bodies, dir', bodies', st, v);
        WriteHas(dir, bodies, dir', st, v);
      }
    }
  }

  lemma WriteOnDisk(dir: Dir, bodies: Bodies, dir': Dir, bodies': Bodies, st: Stack, v: Version)
    requires KeyTied(dir, bodies, v.key, st)
    requires Ref(v.key, v.vid) !in dir && dir' == dir[Ref(v.key, v.vid) := v]
    requires if v.marker then bodies' == bodies
             else v.sum.Sha? && v.size == |v.sum.of| && bodies' == bodies[Ref(v.key, v.vid) := v.sum.of]
    ensures forall i :: 0 <= i < |Insert(st, v)| ==> OnDisk(dir', bodies', v.key, Insert(st, v)[i])
  {
    var st' := Insert(st, v);
    forall i | 0 <= i < |st'| ensures OnDisk(dir', bodies', v.key, st'[i]) {
      InsertMembers(st, v, st'[i]);
      if st'[i] != v {
        var n :| 0 <= n < |st| && st[n] == st'[i];
        assert OnDisk(dir, bodies, v.key, st[n]);
      }
    }
  }

  lemma WriteHas(dir: Dir, bodies: Bodies, dir': Dir, st: Stack, v: Version)
    requires KeyTied(dir, bodies, v.key, st) && dir' == dir[Ref(v.key, v.vid) := v]
    ensures forall vid :: Ref(v.key, vid) in dir' ==> Has(Insert(st, v), vid)
  {
    forall vid | Ref(v.key, vid) in dir' ensures Has(Insert(st, v), vid) {
      var x := v;
      if vid != v.vid {
        var n :| 0 <= n < |st| && st[n].vid == vid;
        x := st[n];
      }
      InsertMembers(st, v, x);
      var m :| 0 <= m < |Insert(st, v)| && Insert(st, v)[m] == x;
    }
  }

  lemma RemoveTied(dir: Dir, bodies: Bodies, bodies': Bodies, stacks: Stacks, ref: Ref)
    requires Tied(dir, bodies, stacks)
    requires bodies' == bodies || bodies' == bodies - {ref}
    ensures Tied(dir - {ref}, bodies', stacks[ref.key := Remove(StackOf(stacks, ref.key), ref.vid)])
  {
    var dir' := dir - {ref};
    var st := StackOf(stacks, ref.key);
    var stacks' := stacks[ref.key := Remove(st, ref.vid)];
    forall k ensures KeyTied(dir', bodies', k, StackOf(stacks', k)) {
      assert KeyTied(dir, bodies, k, StackOf(stacks, k));
      if k != ref.key {
        OtherKey(dir, bodies, dir', bodies', k, StackOf(stacks, k));
      } else {
        RemoveOrdered(st, ref.vid);
        RemoveOnDisk(dir, bodies, bodies', st, ref);
        RemoveHas(dir, bodies, st, ref);
      }
    }
  }

  lemma RemoveOnDisk(dir: Dir, bodies: Bodies, bodies': Bodies, st: Stack, ref: Ref)
    requires KeyTied(dir, bodies, ref.key, st) && (bodies' == bodies || bodies' == bodies - {ref})
    ensures forall i :: 0 <= i < |Remove(st, ref.vid)| ==> OnDisk(dir - {ref}, bodies', ref.key, Remove(st, ref.vid)[i])
  {
    var st' := Remove(st, ref.vid);
    forall i | 0 <= i < |st'| ensures OnDisk(dir - {ref}, bodies', ref.key, st'[i]) {
      RemoveMembers(st, ref.vid, st'[i]);
      var n :| 0 <= n < |st| && st[n] == st'[i];
      assert OnDisk(dir, bodies, ref.key, st[n]);
    }
  }

  lemma RemoveHas(dir: Dir, bodies: Bodies, st: Stack, ref: Ref)
    requires KeyTied(dir, bodies, ref.key, st)
    ensures forall vid :: Ref(ref.key, vid) in dir - {ref} ==> Has(Remove(st, ref.vid), vid)
  {
    var st' := Remove(st, ref.vid);
    forall vid | Ref(ref.key, vid) in dir - {ref} ensures Has(st', vid) {
      var n :| 0 <= n < |st| && st[n].vid == vid;
      RemoveMembers(st, ref.vid, st[n]);
      var m :| 0 <= m < |st'| && st'[m] == st[n];
    }
  }

  /** RemoveAll on a key's directory takes the keys below it along. */
  function PurgeDir(dir: Dir, k: Key): Dir { map ref | ref in dir && !Below(k, ref.key) :: dir[ref] }
  function PurgeBodies(bodies: Bodies, k: Key): Bodies { map ref | ref in bodies && !Below(k, ref.key) :: bodies[ref] }
  function PurgeDirs(dirs: set<Key>, k: Key): set<Key> { set d | d in dirs && !Below(k, d) }
  function PurgeStacks(stacks: Stacks, k: Key): Stacks { map l | l in stacks && !Below(k, l) :: stacks[l] }

  lemma PurgeTied(dir: Dir, bodies: Bodies, stacks: Stacks, k: Key)
    requires Tied(dir, bodies, stacks)
    ensures Tied(PurgeDir(dir, k), PurgeBodies(bodies, k), PurgeStacks(stacks, k))
  {
    forall l ensures KeyTied(PurgeDir(dir, k), PurgeBodies(bodies, k), l, StackOf(PurgeStacks(stacks, k), l)) {
      assert KeyTied(dir, bodies, l, StackOf(stacks, l));
      if !Below(k, l) {
        OtherKey(dir, bodies, PurgeDir(dir, k), PurgeBodies(bodies, k), l, StackOf(stacks, l));
      }
    }
  }

  /** Purge leaves every other key alone exactly when no stored key lies below it. */
  lemma PurgeSparesOthersExactlyWithoutSubkeys(stacks: Stacks, k: Key)
    ensures (forall l :: l != k ==> StackOf(PurgeStacks(stacks, k), l) == StackOf(stacks, l))
       <==> (forall l :: l != k && StackOf(stacks, l) != [] ==> !Below(k, l))
    ensures StackOf(PurgeStacks(stacks, k), k) == []
  {
    if l :| l != k && StackOf(stacks, l) != [] && Below(k, l) {
      assert StackOf(PurgeStacks(stacks, k), l) != StackOf(stacks, l);
    }
  }

  // ---------------------------------------------------------------------
  // The provider
  // ---------------------------------------------------------------------

  datatype ByteRange = ByteRange(start: int, end: int)

  /** The last byte a range asks for that is there. */
  function LastByte(body: Bytes, end: int): int { if 0 <= end < |body| then end else |body| - 1 }

  /** The bytes a ranged Get answers, from the start of the range to its end, or to the last byte
      if that is negative or too large; a range without bytes is refused. */
  function Slice(body: Bytes, range: Option<ByteRange>): (r: Result<Bytes>)
    ensures range.None? ==> r == Ok(body)
    ensures range.Some? ==>
              var start, last := range.value.start, LastByte(body, range.value.end);
              if 0 <= start <= last then
                r.Ok? && |r.value| == last - start + 1 && forall i :: start <= i <= last ==> r.value[i - start] == body[i]
              else r == Err(InvalidRange)
  {
    if range.None? then Ok(body)
    else
      var start := range.value.start;
      var end := if range.value.end < 0 || range.value.end >= |body| then |body| - 1 else range.value.end;
      if start < 0 || start > end then Err(InvalidRange) else Ok(body[start..end + 1])
  }

  /** What hasAnyVersionLocked answers. */
  predicate SeemsStored(stacks: Stacks, dirs: set<Key>, k: Key) {
    StackOf(stacks, k) != [] || Deceives(dirs, k)
  }

  /** What Put refuses, in the order it checks; `stored` is what hasAnyVersionLocked says. */
  function PutRefusal(req: PutRequest, stored: bool, fault: Fault): Option<Error> {
    if !ValidKey(req.key) then Some(InvalidKey)
    else if req.ifNoneMatch && stored then Some(PreconditionFailed)
    else if fault.MkdirFails? then Some(Io)
    else if fault == CopyFails then Some(Io)
    else if req.expectedLength > 0 && |req.body| != req.expectedLength then Some(ChecksumMismatch)
    else if req.sum != NoSum && req.sum != Sha(req.body) then Some(ChecksumMismatch)
    else if fault == RenameFails || fault == SidecarFails then Some(Io)
    else None
  }

  /** The directories a Put leaves, whatever becomes of it. */
  function PutDirs(dirs: set<Key>, req: PutRequest, stored: bool, fault: Fault): set<Key> {
    if !ValidKey(req.key) || (req.ifNoneMatch && stored) then dirs
    else dirs + Made(req.key, fault)
  }

  lemma IsJsonChild(k: Key, x: string)
    requires SlashFree(x)
    ensures JsonChild(k, Key(k.name + "/" + x + ".json"))
  {
    var name := k.name + "/" + x + ".json";
    assert name[..|k.name| + 1] == k.name + "/";
    assert name[|k.name| + 1..] == x + ".json";
    assert (x + ".json")[|x|..] == ".json";
  }

  /** A key with a directory k/x.json below it and no version of its own takes no Put that
      asks for a new key, and a Delete of it succeeds. */
  lemma JsonSubkeyDeceives(stacks: Stacks, dirs: set<Key>, k: Key, x: string, req: PutRequest)
    requires SlashFree(x) && Key(k.name + "/" + x + ".json") in dirs && StackOf(stacks, k) == []
    requires ValidKey(k) && req.key == k && req.ifNoneMatch
    ensures SeemsStored(stacks, dirs, k)
    ensures PutRefusal(req, SeemsStored(stacks, dirs, k), NoFault) == Some(PreconditionFailed)
    ensures PutRefusal(req, StackOf(stacks, k) != [], NoFault) != Some(PreconditionFailed)
  {
    IsJsonChild(k, x);
  }

  /** A sidecar of the key is one of its versions. */
  lemma SidecarIsVersion(dir: Dir, bodies: Bodies, k: Key, st: Stack, vid: VersionId)
    requires KeyTied(dir, bodies, k, st) && Ref(k, vid) in dir
    ensures dir[Ref(k, vid)] in st && dir[Ref(k, vid)].vid == vid && dir[Ref(k, vid)].key == k
  {
    var i :| 0 <= i < |st| && st[i].vid == vid;
    assert OnDisk(dir, bodies, k, st[i]);
  }

  lemma LoadOne(dir: Dir, bodies: Bodies, st: Stack, out: Stack, todo: set<Ref>, ref: Ref)
    requires KeyTied(dir, bodies, ref.key, st) && ref in todo && ref in dir && Ordered(out)
    requires forall x :: x in out <==> Ref(ref.key, x.vid) in dir && dir[Ref(ref.key, x.vid)] == x && Ref(ref.key, x.vid) !in todo
    ensures Ordered(Insert(out, dir[ref]))
    ensures forall x :: x in Insert(out, dir[ref]) <==>
              Ref(ref.key, x.vid) in dir && dir[Ref(ref.key, x.vid)] == x && Ref(ref.key, x.vid) !in todo - {ref}
  {
    var k, v := ref.key, dir[ref];
    SidecarIsVersion(dir, bodies, k, st, ref.vid);
    forall i | 0 <= i < |out| ensures out[i].time != v.time {
      assert out[i] in out;
      SidecarIsVersion(dir, bodies, k, st, out[i].vid);
      assert out[i] in st && v in st && out[i] != v;
    }
    InsertOrdered(out, v);
    forall x ensures x in Insert(out, v) <==> Ref(k, x.vid) in dir && dir[Ref(k, x.vid)] == x && Ref(k, x.vid) !in todo - {ref} {
      InsertMembers(out, v, x);
    }
  }

  lemma SameVersions(dir: Dir, bodies: Bodies, k: Key, st: Stack, out: Stack)
    requires KeyTied(dir, bodies, k, st) && Ordered(out)
    requires forall x :: x in out <==> Ref(k, x.vid) in dir && dir[Ref(k, x.vid)] == x
    ensures out == st
  {
    forall x ensures x in out <==> x in st {
      if x in st {
        var i :| 0 <= i < |st| && st[i] == x;
        assert OnDisk(dir, bodies, k, st[i]);
      }
      if x in out { SidecarIsVersion(dir, bodies, k, st, x.vid); }
    }
    OrderedUnique(out, st);
  }

  /** What Get answers for a version with bytes: a range of the bytes of its checksum. */
  function Answer(v: Version, range: Option<ByteRange>): Result<(Bytes, Version)> {
    if v.sum.NoSum? then Err(NotFound)
    else
      match Slice(v.sum.of, range)
      case Ok(part) => Ok((part, v))
      case Err(e) => Err(e)
  }

  lemma ReadsSidecar(dir: Dir, bodies: Bodies, k: Key, st: Stack, vid: VersionId)
    requires KeyTied(dir, bodies, k, st)
    ensures Ref(k, vid) in dir <==> Has(st, vid)
    ensures forall v :: v in st && v.vid == vid ==> Ref(k, vid) in dir && dir[Ref(k, vid)] == v
    ensures Ref(k, vid) in dir && !dir[Ref(k, vid)].marker ==>
              Ref(k, vid) in bodies && dir[Ref(k, vid)].key == k && dir[Ref(k, vid)].vid == vid
              && dir[Ref(k, vid)].sum == Sha(bodies[Ref(k, vid)])
  {
    forall v | v in st && v.vid == vid ensures Ref(k, vid) in dir && dir[Ref(k, vid)] == v {
      var i :| 0 <= i < |st| && st[i] == v;
      assert OnDisk(dir, bodies, k, st[i]);
    }
    if Has(st, vid) {
      var i :| 0 <= i < |st| && st[i].vid == vid;
      assert OnDisk(dir, bodies, k, st[i]);
    }
  }

  /** A key that seems stored has a directory. */
  lemma HasDirectory(dir: Dir, bodies: Bodies, dirs: set<Key>, stacks: Stacks, k: Key)
    requires Tied(dir, bodies, stacks) && Rooted(dirs) && forall ref :: ref in dir ==> ref.key in dirs
    requires SeemsStored(stacks, dirs, k)
    ensures k in dirs
  {
    var st := StackOf(stacks, k);
    assert KeyTied(dir, bodies, k, st);
    if st != [] {
      assert OnDisk(dir, bodies, k, st[0]);
    } else {
      JsonParent(dirs, k);
    }
  }

  class Provider {
    var dir: Dir
    var bodies: Bodies
    var dirs: set<Key>
    ghost var stacks: Stacks

    /** The files are those of the stacks, and every sidecar is in its key's directory. */
    ghost predicate Valid()
      reads this
    {
      Tied(dir, bodies, stacks) && Rooted(dirs) && forall ref :: ref in dir ==> ref.key in dirs
    }

    constructor ()
      ensures Valid() && stacks == map[] && dirs == {}
    {
      dir, bodies, dirs, stacks := map[], map[], {}, map[];
    }

    /** A version id no file has, and a write time no version of the key has. */
    ghost predicate Fresh(k: Key, vid: VersionId, now: nat)
      reads this
    {
      && Ref(k, vid) !in dir && Ref(k, vid) !in bodies
      && forall i :: 0 <= i < |StackOf(stacks, k)| ==> StackOf(stacks, k)[i].time != now
    }

    /** Looks for a name ending in .json in the key's directory, file or not. */
    method HasAnyVersion(k: Key) returns (found: bool)
      requires Valid()
      ensures found <==> StackOf(stacks, k) != [] || Deceives(dirs, k)
    {
      ghost var st := StackOf(stacks, k);
      assert KeyTied(dir, bodies, k, st);
      assert st == [] || OnDisk(dir, bodies, k, st[0]);
      var todo := dir.Keys;
      while todo != {}
        invariant todo <= dir.Keys && forall ref :: ref in dir && ref !in todo ==> ref.key != k
        decreases todo
      {
        var ref :| ref in todo;
        if ref.key == k {
          assert Ref(k, ref.vid) in dir;
          return true;
        }
        todo := todo - {ref};
      }
      var left := dirs;
      while left != {}
        invariant left <= dirs && forall d :: d in dirs && d !in left ==> !JsonChild(k, d)
        decreases left
      {
        var d :| d in left;
        if JsonChild(k, d) { return true; }
        left := left - {d};
      }
      return false;
    }

    method MkdirAll(k: Key, fault: Fault)
      requires Valid() && ValidKey(k)
      modifies this`dirs
      ensures Valid() && dirs == old(dirs) + Made(k, fault)
    {
      MkdirRooted(dirs, k, fault);
      dirs := dirs + Made(k, fault);
    }

    /** Loads the sidecars in whatever order the directory gives them and sorts by time. */
    method ListVersions(k: Key) returns (out: Stack)
      requires Valid()
      ensures out == StackOf(stacks, k)
    {
      ghost var st := StackOf(stacks, k);
      assert KeyTied(dir, bodies, k, st);
      out := [];
      var todo := dir.Keys;
      while todo != {}
        invariant todo <= dir.Keys && Ordered(out)
        invariant forall x :: x in out <==> Ref(k, x.vid) in dir && dir[Ref(k, x.vid)] == x && Ref(k, x.vid) !in todo
        decreases todo
      {
        var ref :| ref in todo;
        if ref.key == k {
          LoadOne(dir, bodies, st, out, todo, ref);
          out := Insert(out, dir[ref]);
        }
        todo := todo - {ref};
      }
      SameVersions(dir, bodies, k, st, out);
    }

    /** Put makes the directories, writes the body, publishes it by rename, then writes the sidecar. */
    method Put(req: PutRequest, vid: VersionId, now: nat, fault: Fault) returns (r: Result<Version>)
      requires Valid() && Fresh(req.key, vid, now)
      modifies this
      ensures Valid()
      ensures r.Ok? ==> (req.expectedLength > 0 ==> |req.body| == req.expectedLength) && (req.sum != NoSum ==> req.sum == Sha(req.body))
      ensures r.Ok? ==> ValidKey(req.key) && (req.ifNoneMatch ==> old(StackOf(stacks, req.key)) == [] && !Deceives(old(dirs), req.key))
      ensures r.Ok? && (forall i :: 0 <= i < |old(StackOf(stacks, req.key))| ==> old(StackOf(stacks, req.key))[i].time < now) ==>
                Current(StackOf(stacks, req.key)) == Some(Version(req.key, vid, |req.body|, Sha(req.body), now, false))
      ensures r.Err? ==>
                match r.error
                case InvalidKey => !ValidKey(req.key)
                case PreconditionFailed => req.ifNoneMatch && old(SeemsStored(stacks, dirs, req.key))
                case ChecksumMismatch => (req.expectedLength > 0 && |req.body| != req.expectedLength) || (req.sum.Sha? && req.sum.of != req.body)
                case Io => fault != NoFault
                case _ => false
      ensures r.Ok? || r == Err(ChecksumMismatch) ==> req.key in dirs
      ensures dirs == PutDirs(old(dirs), req, old(SeemsStored(stacks, dirs, req.key)), fault)
      ensures var refusal := PutRefusal(req, old(SeemsStored(stacks, dirs, req.key)), fault);
              if refusal.Some? then r == Err(refusal.value) && stacks == old(stacks)
              else
                var v := Version(req.key, vid, |req.body|, Sha(req.body), now, false);
                r == Ok(v) && stacks == old(stacks)[req.key := Insert(old(StackOf(stacks, req.key)), v)]
    {
      if !ValidKey(req.key) { return Err(InvalidKey); }
      if req.ifNoneMatch {
        var exists_ := HasAnyVersion(req.key);
        if exists_ { return Err(PreconditionFailed); }
      }
      MkdirAll(req.key, fault);
      if fault.MkdirFails? { return Err(Io); }
      if fault == CopyFails { return Err(Io); }
      if req.expectedLength > 0 && |req.body| != req.expectedLength { return Err(ChecksumMismatch); }
      if req.sum != NoSum && req.sum != Sha(req.body) { return Err(ChecksumMismatch); }
      r := Publish(req, vid, now, fault);
    }

    /** Put's second half: the body is renamed into place, then the sidecar is written. */
    method Publish(req: PutRequest, vid: VersionId, now: nat, fault: Fault) returns (r: Result<Version>)
      requires Valid() && Fresh(req.key, vid, now) && req.key in dirs
      modifies this
      ensures Valid() && dirs == old(dirs)
      ensures if fault == RenameFails || fault == SidecarFails then r == Err(Io) && stacks == old(stacks)
              else
                var v := Version(req.key, vid, |req.body|, Sha(req.body), now, false);
                r == Ok(v) && stacks == old(stacks)[req.key := Insert(old(StackOf(stacks, req.key)), v)]
    {
      if fault == RenameFails { return Err(Io); }
      var ref := Ref(req.key, vid);
      ghost var before := bodies;
      bodies := bodies[ref := req.body];
      if fault == SidecarFails {
        bodies := bodies - {ref};
        assert bodies == before;
        return Err(Io);
      }
      var v := Version(req.key, vid, |req.body|, Sha(req.body), now, false);
      WriteTied(dir, before, bodies, stacks, v);
      dir := dir[ref := v];
      stacks := stacks[req.key := Insert(StackOf(stacks, req.key), v)];
      return Ok(v);
    }

    method Head(k: Key) returns (r: Result<Version>)
      requires Valid()
      ensures r == if !ValidKey(k) then Err(InvalidKey)
                   else if Current(StackOf(stacks, k)).Some? then Ok(Current(StackOf(stacks, k)).value)
                   else Err(NotFound)
    {
      if !ValidKey(k) { return Err(InvalidKey); }
      var versions := ListVersions(k);
      if versions == [] || versions[|versions| - 1].marker { return Err(NotFound); }
      return Ok(versions[|versions| - 1]);
    }

    /** Get of the newest version, or of the one named; the bytes are those of the Put. */
    method Get(k: Key, vid: Option<VersionId>, range: Option<ByteRange>) returns (r: Result<(Bytes, Version)>)
      requires Valid()
      ensures !ValidKey(k) ==> r == Err(InvalidKey)
      ensures ValidKey(k) && vid.None? ==>
                r == var c := Current(StackOf(stacks, k));
                     if c.None? then Err(NotFound) else Answer(c.value, range)
      ensures ValidKey(k) && vid.Some? ==>
                && (!Has(StackOf(stacks, k), vid.value) ==> r == Err(NotFound))
                && forall v :: v in StackOf(stacks, k) && v.vid == vid.value ==>
                     r == if v.marker then Err(NotFound) else Answer(v, range)
    {
      if !ValidKey(k) { return Err(InvalidKey); }
      ghost var st := StackOf(stacks, k);
      assert KeyTied(dir, bodies, k, st);
      var sc: Version;
      if vid.Some? {
        ReadsSidecar(dir, bodies, k, st, vid.value);
        if Ref(k, vid.value) !in dir { return Err(NotFound); }
        sc := dir[Ref(k, vid.value)];
      } else {
        var versions := ListVersions(k);
        if versions == [] || versions[|versions| - 1].marker { return Err(NotFound); }
        sc := versions[|versions| - 1];
        assert OnDisk(dir, bodies, k, st[|st| - 1]);
      }
      if sc.marker { return Err(NotFound); }  // a marker has no body file
      var part := Slice(bodies[Ref(sc.key, sc.vid)], range);
      if part.Err? { return Err(part.error); }
      return Ok((part.value, sc));
    }

    /** Delete adds a marker, hiding what is below without touching it. */
    method Delete(k: Key, vid: VersionId, now: nat, sidecarFails: bool) returns (r: Result<()>)
      requires Valid() && Fresh(k, vid, now)
      modifies this
      ensures Valid() && bodies == old(bodies) && dirs == old(dirs)
      ensures r == if !ValidKey(k) then Err(InvalidKey)
                   else if !old(SeemsStored(stacks, dirs, k)) then Err(NotFound)
                   else if sidecarFails then Err(Io) else Ok(())
      ensures stacks == if r.Err? then old(stacks)
                        else old(stacks)[k := Insert(old(StackOf(stacks, k)), Version(k, vid, 0, NoSum, now, true))]
    {
      if !ValidKey(k) { return Err(InvalidKey); }
      var any := HasAnyVersion(k);
      if !any { return Err(NotFound); }
      if sidecarFails { return Err(Io); }
      HasDirectory(dir, bodies, dirs, stacks, k);
      var v := Version(k, vid, 0, NoSum, now, true);
      WriteTied(dir, bodies, bodies, stacks, v);
      dir := dir[Ref(k, vid) := v];
      stacks := stacks[k := Insert(StackOf(stacks, k), v)];
      return Ok(());
    }

    /** DeleteVersion is silent about a version that is not there. Once the sidecar is gone
        so is the version, even if removing the body then fails. */
    method DeleteVersion(k: Key, vid: VersionId, sidecarFails: bool, bodyFails: bool) returns (r: Result<()>)
      requires Valid()
      modifies this
      ensures Valid() && dirs == old(dirs)
      ensures r == if !ValidKey(k) then Err(InvalidKey) else if sidecarFails || bodyFails then Err(Io) else Ok(())
      ensures stacks == if !ValidKey(k) || sidecarFails then old(stacks)
                        else old(stacks)[k := Remove(old(StackOf(stacks, k)), vid)]
    {
      if !ValidKey(k) { return Err(InvalidKey); }
      if sidecarFails { return Err(Io); }
      var ref := Ref(k, vid);
      RemoveTied(dir, bodies, if bodyFails then bodies else bodies - {ref}, stacks, ref);
      dir := dir - {ref};
      stacks := stacks[k := Remove(StackOf(stacks, k), vid)];
      if bodyFails { return Err(Io); }
      bodies := bodies - {ref};
      return Ok(());
    }

    /** PurgeAllVersions empties the key, and every key below it. */
    method Purge(k: Key) returns (r: Result<()>)
      requires Valid()
      modifies this
      ensures Valid()
      ensures if ValidKey(k) then r == Ok(()) && stacks == PurgeStacks(old(stacks), k) && dirs == PurgeDirs(old(dirs), k)
              else r == Err(InvalidKey) && stacks == old(stacks) && dirs == old(dirs)
    {
      if !ValidKey(k) { return Err(InvalidKey); }
      PurgeTied(dir, bodies, stacks, k);
      PurgeRooted(dirs, k);
      dir, bodies, stacks := PurgeDir(dir, k), PurgeBodies(bodies, k), PurgeStacks(stacks, k);
      dirs := PurgeDirs(dirs, k);
      return Ok(());
    }
  }
}
