/** ListMultipartUploads and ListObjects of the local provider, and the worker's loop that
    counts the uploads page by page. Uploads are sorted by (key, uploadID) but the cursor is
    the string "key/uploadID", and the two orders differ on some keys. */
module Listings {
  import opened Paging
  import opened Prelude
  import V = Versions
  import P = LocalProvider

  datatype Upload = Upload(key: string, id: string)

  predicate PairLess(u: Upload, v: Upload) {
    if u.key != v.key then Less(u.key, v.key) else Less(u.id, v.id)
  }

  function Cursor(u: Upload): string { u.key + "/" + u.id }

  /** `k` is a proper prefix of `l`, which goes on with a character below the slash. */
  predicate Clash(k: string, l: string) {
    |k| < |l| && l[..|k|] == k && l[|k|] < '/'
  }

  // ---------------------------------------------------------------------
  // The two orders
  // ---------------------------------------------------------------------

  lemma PairOrder()
    ensures StrictOrder(PairLess)
  {
    forall u ensures !PairLess(u, u) { LessIrreflexive(u.id); }
    forall u, v ensures u == v || PairLess(u, v) || PairLess(v, u) {
      LessTotal(u.key, v.key);
      LessTotal(u.id, v.id);
    }
    forall u, v, w | PairLess(u, v) && PairLess(v, w) ensures PairLess(u, w) { PairTransitive(u, v, w); }
  }

  lemma PairTransitive(u: Upload, v: Upload, w: Upload)
    requires PairLess(u, v) && PairLess(v, w)
    ensures PairLess(u, w)
  {
    if u.key == v.key == w.key {
      LessTransitive(u.id, v.id, w.id);
    } else if u.key != v.key && v.key != w.key {
      LessTransitive(u.key, v.key, w.key);
      LessIrreflexive(u.key);
    }
  }

  lemma LessCons(x: char, a: string, y: char, b: string)
    ensures Less([x] + a, [y] + b) <==> x < y || (x == y && Less(a, b))
  {
    assert ([x] + a)[1..] == a && ([y] + b)[1..] == b;
  }

  lemma {:induction false} LessCommonPrefix(p: string, a: string, b: string)
    ensures Less(p + a, p + b) <==> Less(a, b)
  {
    if p == [] {
      assert p + a == a && p + b == b;
    } else {
      var q := p[1..];
      assert p + a == [p[0]] + (q + a) && p + b == [p[0]] + (q + b);
      LessCons(p[0], q + a, p[0], q + b);
      LessCommonPrefix(q, a, b);
    }
  }

  lemma ClashCons(x: char, k: string, y: char, l: string)
    ensures Clash([x] + k, [y] + l) <==> x == y && Clash(k, l)
  {
    var k', l' := [x] + k, [y] + l;
    assert l'[1..] == l && k'[1..] == k;
    if |k| < |l| {
      assert l'[..|k'|] == [y] + l[..|k|];
      assert l[..|k|] == l'[..|k'|][1..];
    }
  }

  lemma {:induction false} KeysDecide(k: string, i: string, l: string, j: string)
    requires Less(k, l) && SlashFree(l)
    ensures Less(k + ("/" + i), l + ("/" + j)) <==> !Clash(k, l)
  {
    var m := l[1..];
    assert l == [l[0]] + m && l + ("/" + j) == [l[0]] + (m + ("/" + j));
    if k == [] {
      assert k + ("/" + i) == ['/'] + i;
      LessCons('/', i, l[0], m + ("/" + j));
    } else {
      var n := k[1..];
      assert k == [k[0]] + n && k + ("/" + i) == [k[0]] + (n + ("/" + i));
      LessCons(k[0], n + ("/" + i), l[0], m + ("/" + j));
      LessCons(k[0], n, l[0], m);
      ClashCons(k[0], n, l[0], m);
      if k[0] == l[0] { KeysDecide(n, i, m, j); }
    }
  }

  /** The pair order and the cursor order agree on two uploads unless their keys clash. */
  lemma OrdersAgreeUnlessClash(u: Upload, v: Upload)
    requires PairLess(u, v) && SlashFree(v.key)
    ensures Less(Cursor(u), Cursor(v)) <==> !Clash(u.key, v.key)
  {
    assert Cursor(u) == u.key + ("/" + u.id) && Cursor(v) == v.key + ("/" + v.id);
    if u.key == v.key {
      LessCommonPrefix(u.key, "/" + u.id, "/" + v.id);
      LessCommonPrefix("/", u.id, v.id);
    } else {
      KeysDecide(u.key, u.id, v.key, v.id);
    }
  }

  // ---------------------------------------------------------------------
  // When is following the cursors complete?
  // ---------------------------------------------------------------------

  /** Following NextCursor from the start with pages of `max` lists each upload once. */
  ghost predicate ListsAllOnce(uploads: seq<Upload>, max: nat) {
    multiset(Follow(Sort(uploads, PairLess), Cursor, "", max)) == multiset(uploads)
  }

  ghost predicate Under(uploads: seq<Upload>, keys: set<string>) {
    Distinct(uploads) && forall i :: 0 <= i < |uploads| ==> uploads[i].key in keys && uploads[i].id != ""
  }

  ghost predicate NoClash(keys: set<string>) {
    forall k, l :: k in keys && l in keys ==> !Clash(k, l)
  }

  lemma NoClashListsAll(uploads: seq<Upload>, keys: set<string>, max: nat)
    requires Under(uploads, keys) && NoClash(keys) && forall k :: k in keys ==> SlashFree(k)
    ensures ListsAllOnce(uploads, max)
    ensures Follow(Sort(uploads, PairLess), Cursor, "", max) == Sort(uploads, PairLess)
  {
    PairOrder();
    Sorts(uploads, PairLess);
    var l := Sort(uploads, PairLess);
    forall i | 0 <= i < |l| ensures l[i].key in keys {
      assert l[i] in multiset(l);
      assert l[i] in uploads;
    }
    forall i, k | 0 <= i < k < |l| ensures Less(Cursor(l[i]), Cursor(l[k])) {
      OrdersAgreeUnlessClash(l[i], l[k]);
    }
    FollowsWhole(l, Cursor, "", max);
    forall i | 0 <= i < |l| ensures Less("", Cursor(l[i])) {}
    AllAbove(l, Cursor, "");
  }

  /** `n` uploads under one key, in order. */
  function Many(key: string, n: nat): (l: seq<Upload>)
    ensures |l| == n && forall i :: 0 <= i < n ==> l[i] == Upload(key, Zeros(i + 1))
  {
    seq(n, i requires 0 <= i < n => Upload(key, Zeros(i + 1)))
  }

  function Zeros(n: nat): (s: string)
    ensures |s| == n
  {
    if n == 0 then "" else "0" + Zeros(n - 1)
  }

  lemma {:induction false} ZerosIncrease(m: nat, n: nat)
    requires m < n
    ensures Less(Zeros(m), Zeros(n))
  {
    if m > 0 { ZerosIncrease(m - 1, n - 1); }
  }

  lemma {:induction false} NoneAbove<T>(l: seq<T>, cur: T -> string, c: string)
    requires forall i :: 0 <= i < |l| ==> !Less(c, cur(l[i]))
    ensures After(l, cur, c) == []
  {
    if l != [] { NoneAbove(l[1..], cur, c); }
  }

  lemma InPairOrder(k: string, l: string, max: nat)
    requires Less(k, l)
    ensures SortedBy(Many(k, max) + [Upload(l, "0")], PairLess)
  {
    var uploads := Many(k, max) + [Upload(l, "0")];
    forall i, m | 0 <= i < m < |uploads| ensures PairLess(uploads[i], uploads[m]) {
      if m < max { InKeyOrder(k, i, m); } else { KeysInOrder(k, Zeros(i + 1), l, "0"); }
    }
  }

  lemma InKeyOrder(k: string, i: nat, m: nat)
    requires i < m
    ensures PairLess(Upload(k, Zeros(i + 1)), Upload(k, Zeros(m + 1)))
  {
    ZerosIncrease(i + 1, m + 1);
  }

  lemma KeysInOrder(k: string, i: string, l: string, j: string)
    requires Less(k, l)
    ensures PairLess(Upload(k, i), Upload(l, j))
  {
    LessIrreflexive(k);
  }

  /** Nothing is above the cursor that the first page gives out. */
  lemma NothingLeft(k: string, l: string, max: nat)
    requires max >= 1 && Less(k, l) && Clash(k, l) && SlashFree(l)
    ensures var uploads := Many(k, max) + [Upload(l, "0")];
            After(uploads, Cursor, Cursor(uploads[max - 1])) == []
  {
    var uploads := Many(k, max) + [Upload(l, "0")];
    var last := uploads[max - 1];
    forall i | 0 <= i < |uploads| ensures !Less(Cursor(last), Cursor(uploads[i])) {
      if i == max {
        OrdersAgreeUnlessClash(last, Upload(l, "0"));
      } else if i == max - 1 {
        LessIrreflexive(Cursor(last));
      } else {
        NotAfterLast(k, i, max);
      }
    }
    NoneAbove(uploads, Cursor, Cursor(last));
  }

  lemma SortedDistinct(l: seq<Upload>)
    requires SortedBy(l, PairLess)
    ensures Distinct(l)
  {
    PairOrder();
    forall i, k | 0 <= i < k < |l| ensures l[i] != l[k] { assert PairLess(l[i], l[k]); }
  }

  lemma OnePage<T>(l: seq<T>, cur: T -> string, max: nat)
    requires 1 <= max < |l| && After(l, cur, "") == l && After(l, cur, cur(l[max - 1])) == []
    ensures Follow(l, cur, "", max) == l[..max]
  {
    assert Follow(l, cur, cur(l[max - 1]), max) == [];
  }

  /** A full page under `k` hides the upload under `l` that follows it. */
  lemma ClashHidesUploads(k: string, l: string, max: nat)
    requires max >= 1 && Clash(k, l) && SlashFree(l)
    ensures var uploads := Many(k, max) + [Upload(l, "0")];
            Distinct(uploads) && !ListsAllOnce(uploads, max)
  {
    var uploads := Many(k, max) + [Upload(l, "0")];
    PrefixLess(k, l);
    InPairOrder(k, l, max);
    SortedDistinct(uploads);
    SortedStays(uploads, PairLess);
    AllAbove(uploads, Cursor, "");
    NothingLeft(k, l, max);
    OnePage(uploads, Cursor, max);
    assert |multiset(uploads[..max])| != |multiset(uploads)|;
  }

  lemma NotAfterLast(k: string, i: nat, max: nat)
    requires i < max - 1
    ensures !Less(Cursor(Upload(k, Zeros(max))), Cursor(Upload(k, Zeros(i + 1))))
  {
    ZerosIncrease(i + 1, max);
    var u, v := Upload(k, Zeros(i + 1)), Upload(k, Zeros(max));
    assert Cursor(u) == k + ("/" + u.id) && Cursor(v) == k + ("/" + v.id);
    LessCommonPrefix(k, "/" + u.id, "/" + v.id);
    LessCommonPrefix("/", u.id, v.id);
    LessAsymmetric(Cursor(u), Cursor(v));
  }

  lemma {:induction false} PrefixLess(k: string, l: string)
    requires |k| < |l| && l[..|k|] == k
    ensures Less(k, l)
  {
    if k != [] {
      assert l[1..][..|k| - 1] == l[..|k|][1..];
      PrefixLess(k[1..], l[1..]);
    }
  }

  /** Whatever the page size, paging is complete for all uploads under a set of slash-free
      keys exactly when no two of the keys clash. */
  lemma PagingIsCompleteExactlyWithoutClash(keys: set<string>, max: nat)
    requires max >= 1 && forall k :: k in keys ==> SlashFree(k)
    ensures (forall uploads :: Under(uploads, keys) ==> ListsAllOnce(uploads, max)) <==> NoClash(keys)
  {
    if NoClash(keys) {
      forall uploads | Under(uploads, keys) ensures ListsAllOnce(uploads, max) {
        NoClashListsAll(uploads, keys, max);
      }
    } else {
      var k, l :| k in keys && l in keys && Clash(k, l);
      ClashHidesUploads(k, l, max);
      assert Under(Many(k, max) + [Upload(l, "0")], keys);
    }
  }

  /** Two ordinary keys for which the second page comes back empty. */
  lemma HyphenHidesAnUpload()
    ensures !ListsAllOnce([Upload("a", "1"), Upload("a-b", "2")], 1)
  {
    var u, v := Upload("a", "1"), Upload("a-b", "2");
    var l := [u, v];
    assert PairLess(u, v) by { assert Less(u.key, v.key) by { assert u.key[1..] == "" && v.key[1..] == "-b"; } }
    SortedStays(l, PairLess);
    AllAbove(l, Cursor, "");
    assert Clash(u.key, v.key);
    OrdersAgreeUnlessClash(u, v);
    LessIrreflexive(Cursor(u));
    NoneAbove(l, Cursor, Cursor(u));
    assert Follow(l, Cursor, "", 1) == [u] + Follow(l, Cursor, Cursor(u), 1) == [u];
    assert |multiset([u])| != |multiset(l)|;
  }

  // ---------------------------------------------------------------------
  // The loops
  // ---------------------------------------------------------------------

  /** A key's directory under _multipart with the upload directories in it. */
  datatype KeyDir = KeyDir(key: string, ids: seq<string>)

  function Keyed(key: string, ids: seq<string>): seq<Upload> {
    seq(|ids|, i requires 0 <= i < |ids| => Upload(key, ids[i]))
  }

  /** The uploads whose key starts with `prefix`, in directory order. */
  function Found(dirs: seq<KeyDir>, prefix: string): seq<Upload> {
    if dirs == [] then []
    else
      var n := |dirs| - 1;
      if prefix <= dirs[n].key then Found(dirs[..n], prefix) + Keyed(dirs[n].key, dirs[n].ids)
      else Found(dirs[..n], prefix)
  }

  /** An upload directory `u.id` stands under a key directory `u.key` that starts with `prefix`. */
  predicate Present(dirs: seq<KeyDir>, prefix: string, u: Upload) {
    prefix <= u.key && exists i :: 0 <= i < |dirs| && dirs[i].key == u.key && u.id in dirs[i].ids
  }

  /** How often it stands there. */
  function Times(dirs: seq<KeyDir>, u: Upload): nat {
    if dirs == [] then 0
    else
      var n := |dirs| - 1;
      Times(dirs[..n], u) + if dirs[n].key == u.key then multiset(dirs[n].ids)[u.id] else 0
  }

  /** The number of upload directories. */
  function TotalUploads(dirs: seq<KeyDir>): nat {
    if dirs == [] then 0 else TotalUploads(dirs[..|dirs| - 1]) + |dirs[|dirs| - 1].ids|
  }

  lemma {:induction false} KeyedTimes(key: string, ids: seq<string>, u: Upload)
    ensures multiset(Keyed(key, ids))[u] == if key == u.key then multiset(ids)[u.id] else 0
  {
    if ids == [] {
      assert Keyed(key, ids) == [];
    } else {
      var n := |ids| - 1;
      KeyedTimes(key, ids[..n], u);
      assert Keyed(key, ids) == Keyed(key, ids[..n]) + [Upload(key, ids[n])];
      assert ids == ids[..n] + [ids[n]];
    }
  }

  /** Every upload directory under the prefix is found, as often as it stands there. */
  lemma {:induction false} FoundTimes(dirs: seq<KeyDir>, prefix: string, u: Upload)
    ensures multiset(Found(dirs, prefix))[u] == if prefix <= u.key then Times(dirs, u) else 0
  {
    if dirs != [] {
      var n := |dirs| - 1;
      FoundTimes(dirs[..n], prefix, u);
      KeyedTimes(dirs[n].key, dirs[n].ids, u);
    }
  }

  lemma {:induction false} TimesPresent(dirs: seq<KeyDir>, u: Upload)
    ensures Times(dirs, u) > 0 <==> exists i :: 0 <= i < |dirs| && dirs[i].key == u.key && u.id in dirs[i].ids
  {
    if dirs != [] {
      var n := |dirs| - 1;
      TimesPresent(dirs[..n], u);
      assert u.id in dirs[n].ids <==> u.id in multiset(dirs[n].ids);
      forall i | 0 <= i < n ensures dirs[..n][i] == dirs[i] {}
    }
  }

  lemma FoundPresent(dirs: seq<KeyDir>, prefix: string, u: Upload)
    ensures u in Found(dirs, prefix) <==> Present(dirs, prefix, u)
  {
    FoundTimes(dirs, prefix, u);
    TimesPresent(dirs, u);
    assert u in Found(dirs, prefix) <==> u in multiset(Found(dirs, prefix));
  }

  lemma {:induction false} FoundTotal(dirs: seq<KeyDir>)
    ensures |Found(dirs, "")| == TotalUploads(dirs)
  {
    if dirs != [] { FoundTotal(dirs[..|dirs| - 1]); }
  }

  /** What ReadDir returns: different, slash-free key directories, and in each of them different
      upload directories with a name. */
  ghost predicate UploadDirs(dirs: seq<KeyDir>) {
    && (forall i :: 0 <= i < |dirs| ==> SlashFree(dirs[i].key) && Distinct(dirs[i].ids) && "" !in dirs[i].ids)
    && (forall i, k :: 0 <= i < k < |dirs| ==> dirs[i].key != dirs[k].key)
  }

  ghost function KeysOf(dirs: seq<KeyDir>): set<string> { set i | 0 <= i < |dirs| :: dirs[i].key }

  lemma {:induction false} FoundDistinct(dirs: seq<KeyDir>, prefix: string)
    requires UploadDirs(dirs)
    ensures Distinct(Found(dirs, prefix))
  {
    if dirs != [] {
      var n := |dirs| - 1;
      var before, last := Found(dirs[..n], prefix), Keyed(dirs[n].key, dirs[n].ids);
      FoundDistinct(dirs[..n], prefix);
      forall i | 0 <= i < |before| ensures before[i].key != dirs[n].key {
        FoundPresent(dirs[..n], prefix, before[i]);
        assert before[i] in before;
      }
    }
  }

  lemma FoundUnder(dirs: seq<KeyDir>, prefix: string)
    requires UploadDirs(dirs)
    ensures Under(Found(dirs, prefix), KeysOf(dirs)) && forall k :: k in KeysOf(dirs) ==> SlashFree(k)
  {
    var found := Found(dirs, prefix);
    FoundDistinct(dirs, prefix);
    forall i | 0 <= i < |found| ensures found[i].key in KeysOf(dirs) && found[i].id != "" {
      assert found[i] in found;
      FoundPresent(dirs, prefix, found[i]);
    }
  }

  /** What a caller sees who follows the cursors through the uploads. */
  function ListedUploads(dirs: seq<KeyDir>, prefix: string, max: nat): seq<Upload> {
    Follow(Sort(Found(dirs, prefix), PairLess), Cursor, "", max)
  }

  /** For keys that do not clash, following the cursors shows exactly the upload directories under
      the prefix, each as often as it stands there, for every page size. */
  lemma UploadsListedExactly(dirs: seq<KeyDir>, prefix: string, max: nat, u: Upload)
    requires UploadDirs(dirs) && NoClash(KeysOf(dirs))
    ensures multiset(ListedUploads(dirs, prefix, max))[u] == if prefix <= u.key then Times(dirs, u) else 0
    ensures u in ListedUploads(dirs, prefix, max) <==> Present(dirs, prefix, u)
  {
    FoundUnder(dirs, prefix);
    NoClashListsAll(Found(dirs, prefix), KeysOf(dirs), max);
    FoundTimes(dirs, prefix, u);
    FoundPresent(dirs, prefix, u);
    var listed := ListedUploads(dirs, prefix, max);
    assert u in listed <==> u in multiset(listed);
    assert u in Found(dirs, prefix) <==> u in multiset(Found(dirs, prefix));
  }

  method Collect(dirs: seq<KeyDir>, prefix: string) returns (uploads: seq<Upload>)
    ensures uploads == Found(dirs, prefix)
  {
    uploads := [];
    for d := 0 to |dirs|
      invariant uploads == Found(dirs[..d], prefix)
    {
      assert dirs[..d + 1][..d] == dirs[..d];
      if prefix <= dirs[d].key {
        ghost var before := uploads;
        for i := 0 to |dirs[d].ids|
          invariant uploads == before + Keyed(dirs[d].key, dirs[d].ids[..i])
        {
          uploads := uploads + [Upload(dirs[d].key, dirs[d].ids[i])];
          assert Keyed(dirs[d].key, dirs[d].ids[..i + 1]) == Keyed(dirs[d].key, dirs[d].ids[..i]) + [Upload(dirs[d].key, dirs[d].ids[i])];
        }
        assert dirs[d].ids[..|dirs[d].ids|] == dirs[d].ids;
      }
    }
    assert dirs[..|dirs|] == dirs;
  }

  lemma {:induction false} AfterAppend<T>(l: seq<T>, x: T, cur: T -> string, c: string)
    ensures After(l + [x], cur, c) == After(l, cur, c) + if Less(c, cur(x)) then [x] else []
  {
    if l != [] {
      assert (l + [x])[1..] == l[1..] + [x];
      AfterAppend(l[1..], x, cur, c);
    }
  }

  method FilterAbove(uploads: seq<Upload>, cursor: string) returns (filtered: seq<Upload>)
    ensures filtered == After(uploads, Cursor, cursor)
  {
    filtered := [];
    for i := 0 to |uploads|
      invariant filtered == After(uploads[..i], Cursor, cursor)
    {
      AfterAppend(uploads[..i], uploads[i], Cursor, cursor);
      assert uploads[..i + 1] == uploads[..i] + [uploads[i]];
      if Less(cursor, Cursor(uploads[i])) { filtered := filtered + [uploads[i]]; }
    }
    assert uploads[..|uploads|] == uploads;
  }

  /** The uploads sorted, those up to the cursor left out; an empty cursor leaves out none. */
  method SortedAbove(found: seq<Upload>, cursor: string) returns (uploads: seq<Upload>)
    ensures uploads == After(Sort(found, PairLess), Cursor, cursor)
  {
    uploads := Sort(found, PairLess);
    AllAbove(uploads, Cursor, "");
    if cursor != "" {
      uploads := FilterAbove(uploads, cursor);
    }
  }

  lemma {:induction false} SortMembers<T>(l: seq<T>, less: (T, T) -> bool)
    ensures multiset(Sort(l, less)) == multiset(l)
  {
    if l != [] {
      SortMembers(l[1..], less);
      InsertMembers(l[0], Sort(l[1..], less), less);
      assert l == [l[0]] + l[1..];
    }
  }

  lemma UploadsAbove(dirs: seq<KeyDir>, prefix: string, cursor: string, uploads: seq<Upload>)
    requires uploads == After(Sort(Found(dirs, prefix), PairLess), Cursor, cursor)
    ensures forall u :: u in uploads <==> Present(dirs, prefix, u) && Less(cursor, Cursor(u))
  {
    var found := Found(dirs, prefix);
    SortMembers(found, PairLess);
    forall u ensures u in uploads <==> Present(dirs, prefix, u) && Less(cursor, Cursor(u)) {
      AfterMembers(Sort(found, PairLess), Cursor, cursor, u);
      FoundPresent(dirs, prefix, u);
      assert u in Sort(found, PairLess) <==> u in multiset(Sort(found, PairLess));
      assert u in found <==> u in multiset(found);
    }
  }

  /** ListMultipartUploads; a limit that is not positive is no limit. */
  method ListUploads(dirs: seq<KeyDir>, prefix: string, cursor: string, maxKeys: int)
    returns (page: seq<Upload>, next: string)
    ensures (page, next) == Page(Sort(Found(dirs, prefix), PairLess), Cursor, cursor, if maxKeys > 0 then maxKeys else 0)
    ensures next != "" ==> maxKeys > 0 && |page| == maxKeys && next == Cursor(page[maxKeys - 1])
    ensures forall u :: u in page ==> Present(dirs, prefix, u) && Less(cursor, Cursor(u))
    ensures next == "" ==> forall u :: Present(dirs, prefix, u) && Less(cursor, Cursor(u)) ==> u in page
  {
    var found := Collect(dirs, prefix);
    var uploads := SortedAbove(found, cursor);
    UploadsAbove(dirs, prefix, cursor, uploads);
    if maxKeys > 0 && |uploads| > maxKeys {
      return uploads[..maxKeys], Cursor(uploads[maxKeys - 1]);
    }
    return uploads, "";
  }

  /** For keys that do not clash the purge loop sees every upload directory once. */
  lemma CountIsExact(dirs: seq<KeyDir>)
    requires UploadDirs(dirs) && NoClash(KeysOf(dirs))
    ensures |ListedUploads(dirs, "", 1000)| == TotalUploads(dirs)
  {
    FoundUnder(dirs, "");
    NoClashListsAll(Found(dirs, ""), KeysOf(dirs), 1000);
    FoundTotal(dirs);
    assert |multiset(ListedUploads(dirs, "", 1000))| == |multiset(Found(dirs, ""))|;
  }

  /** PurgeJob's loop: add up the pages until there is no next cursor. */
  method CountUploads(dirs: seq<KeyDir>) returns (total: nat)
    ensures total == |ListedUploads(dirs, "", 1000)|
    ensures UploadDirs(dirs) && NoClash(KeysOf(dirs)) ==> total == TotalUploads(dirs)
  {
    if UploadDirs(dirs) && NoClash(KeysOf(dirs)) { CountIsExact(dirs); }
    ghost var all := Sort(Found(dirs, ""), PairLess);
    var cursor := "";
    total := 0;
    while true
      invariant total + |Follow(all, Cursor, cursor, 1000)| == |Follow(all, Cursor, "", 1000)|
      decreases |After(all, Cursor, cursor)|
    {
      var page, next := ListUploads(dirs, "", cursor, 1000);
      total := total + |page|;
      if next == "" { return; }
      AfterMembers(all, Cursor, cursor, page[999]);
      AfterShrinks(all, Cursor, cursor, page[999]);
      cursor := next;
    }
  }

  // ---------------------------------------------------------------------
  // ListObjects
  // ---------------------------------------------------------------------

  /** A directory entry of the root. */
  datatype Entry = Entry(name: string, isDir: bool)

  /** What ReadDir of the root returns: a directory for every key or first path segment, and
      maybe others that hold no version, such as _multipart. */
  ghost predicate RootListing(dirs: set<V.Key>, entries: seq<Entry>) {
    && (forall i :: 0 <= i < |entries| ==> entries[i].name != "" && SlashFree(entries[i].name))
    && (forall i, k :: 0 <= i < k < |entries| ==> entries[i].name != entries[k].name)
    && (forall d :: d in dirs && SlashFree(d.name) ==> Entry(d.name, true) in entries)
  }

  /** Some version is no delete marker. */
  predicate Live(st: V.Stack) { exists i :: 0 <= i < |st| && !st[i].marker }

  method LatestNonDeleteMarker(versions: V.Stack) returns (latest: Option<V.Version>)
    ensures latest.Some? <==> Live(versions)
    ensures latest.Some? ==> exists i :: 0 <= i < |versions| && latest.value == versions[i] && !versions[i].marker
                                       && forall k :: i < k < |versions| ==> versions[k].marker
  {
    var i := |versions|;
    while i > 0
      invariant 0 <= i <= |versions| && forall k :: i <= k < |versions| ==> versions[k].marker
    {
      i := i - 1;
      if !versions[i].marker { return Some(versions[i]); }
    }
    return None;
  }

  predicate Shown(stacks: P.Stacks, e: Entry, prefix: string) {
    e.isDir && prefix <= e.name && Live(P.StackOf(stacks, V.Key(e.name)))
  }

  function Names(stacks: P.Stacks, entries: seq<Entry>, prefix: string): seq<string> {
    if entries == [] then []
    else
      var n := |entries| - 1;
      var rest := Names(stacks, entries[..n], prefix);
      if Shown(stacks, entries[n], prefix) then rest + [entries[n].name] else rest
  }

  function Itself(key: string): string { key }

  function Clamp(maxKeys: int): nat { if maxKeys <= 0 || maxKeys > 1000 then 1000 else maxKeys }

  /** Skipping before sorting is the same as skipping after it. */
  lemma {:induction false} SkipThenInsert(x: string, l: seq<string>, c: string)
    ensures After(Insert(x, l, Less), Itself, c)
         == if Less(c, x) then Insert(x, After(l, Itself, c), Less) else After(l, Itself, c)
  {
    if l != [] {
      if Less(x, l[0]) {
        if Less(c, x) { LessTransitive(c, x, l[0]); }
      } else {
        SkipThenInsert(x, l[1..], c);
      }
    }
  }

  lemma {:induction false} SkipThenSort(l: seq<string>, c: string)
    ensures After(Sort(l, Less), Itself, c) == Sort(After(l, Itself, c), Less)
  {
    if l != [] {
      SkipThenSort(l[1..], c);
      SkipThenInsert(l[0], Sort(l[1..], Less), c);
    }
  }

  lemma NextName(stacks: P.Stacks, entries: seq<Entry>, prefix: string, cursor: string, i: nat)
    requires i < |entries|
    ensures After(Names(stacks, entries[..i + 1], prefix), Itself, cursor)
         == After(Names(stacks, entries[..i], prefix), Itself, cursor)
            + if Shown(stacks, entries[i], prefix) && Less(cursor, entries[i].name) then [entries[i].name] else []
  {
    assert entries[..i + 1][..i] == entries[..i];
    AfterAppend(Names(stacks, entries[..i], prefix), entries[i].name, Itself, cursor);
  }

  /** ListObjects' loop: the keys above the cursor that are to be shown, in directory order. */
  method CollectKeys(p: P.Provider, entries: seq<Entry>, prefix: string, cursor: string) returns (keys: seq<string>)
    requires p.Valid() && RootListing(p.dirs, entries)
    ensures keys == After(Names(p.stacks, entries, prefix), Itself, cursor)
  {
    keys := [];
    for i := 0 to |entries|
      invariant keys == After(Names(p.stacks, entries[..i], prefix), Itself, cursor)
    {
      var e := entries[i];
      NextName(p.stacks, entries, prefix, cursor, i);
      assert cursor == "" ==> Less(cursor, e.name);
      if e.isDir && prefix <= e.name && (cursor == "" || Less(cursor, e.name)) {
        var versions := p.ListVersions(V.Key(e.name));
        var latest := LatestNonDeleteMarker(versions);
        if latest.Some? { keys := keys + [e.name]; }
      }
    }
    assert entries[..|entries|] == entries;
  }

  method ListObjects(p: P.Provider, entries: seq<Entry>, prefix: string, cursor: string, maxKeys: int)
    returns (page: seq<string>, next: string, truncated: bool)
    requires p.Valid() && RootListing(p.dirs, entries)
    ensures (page, next) == Page(Sort(Names(p.stacks, entries, prefix), Less), Itself, cursor, Clamp(maxKeys))
    ensures truncated <==> next != ""
    ensures if truncated then |page| == (if 0 < maxKeys < 1000 then maxKeys else 1000) && next == page[|page| - 1]
            else |page| <= if 0 < maxKeys < 1000 then maxKeys else 1000
  {
    var metas := CollectKeys(p, entries, prefix, cursor);
    SkipThenSort(Names(p.stacks, entries, prefix), cursor);
    metas := Sort(metas, Less);
    var max := if maxKeys <= 0 then 1000 else maxKeys;
    if max > 1000 { max := 1000; }
    truncated := max < |metas|;
    if !truncated { return metas, "", false; }
    page, next := metas[..max], metas[max - 1];
    AfterMembers(Sort(Names(p.stacks, entries, prefix), Less), Itself, cursor, next);
  }

  /** What a caller sees who follows ListObjects' cursors. */
  function ListedObjects(stacks: P.Stacks, entries: seq<Entry>, prefix: string, maxKeys: int): seq<string> {
    Follow(Sort(Names(stacks, entries, prefix), Less), Itself, "", Clamp(maxKeys))
  }

  lemma {:induction false} NamesMembers(stacks: P.Stacks, entries: seq<Entry>, prefix: string, name: string)
    ensures name in Names(stacks, entries, prefix) <==> exists i :: 0 <= i < |entries| && entries[i].name == name && Shown(stacks, entries[i], prefix)
  {
    if entries != [] {
      var n := |entries| - 1;
      NamesMembers(stacks, entries[..n], prefix, name);
      forall i | 0 <= i < n ensures entries[..n][i] == entries[i] {}
    }
  }

  lemma {:induction false} NamesDistinct(stacks: P.Stacks, entries: seq<Entry>, prefix: string)
    requires forall i, k :: 0 <= i < k < |entries| ==> entries[i].name != entries[k].name
    ensures Distinct(Names(stacks, entries, prefix))
  {
    if entries != [] {
      var n := |entries| - 1;
      NamesDistinct(stacks, entries[..n], prefix);
      NamesMembers(stacks, entries[..n], prefix, entries[n].name);
    }
  }

  /** Following the cursors lists each shown key exactly once, in order, for every page size. */
  lemma ObjectPagingIsComplete(stacks: P.Stacks, dirs: set<V.Key>, entries: seq<Entry>, prefix: string, maxKeys: int)
    requires RootListing(dirs, entries)
    ensures ListedObjects(stacks, entries, prefix, maxKeys) == Sort(Names(stacks, entries, prefix), Less)
    ensures multiset(ListedObjects(stacks, entries, prefix, maxKeys)) == multiset(Names(stacks, entries, prefix))
    ensures Distinct(Names(stacks, entries, prefix))
  {
    var names := Names(stacks, entries, prefix);
    NamesDistinct(stacks, entries, prefix);
    StringOrder();
    Sorts(names, Less);
    var l := Sort(names, Less);
    FollowsWhole(l, Itself, "", Clamp(maxKeys));
    forall i | 0 <= i < |l| ensures Less("", l[i]) {
      assert l[i] in multiset(l);
      NamesMembers(stacks, entries, prefix, l[i]);
    }
    AllAbove(l, Itself, "");
  }

  /** A key is listed exactly when it has no slash, starts with the prefix, and some version of
      it is no delete marker. */
  lemma ListedExactly(stacks: P.Stacks, dirs: set<V.Key>, entries: seq<Entry>, prefix: string, maxKeys: int, name: string)
    requires RootListing(dirs, entries) && forall k :: P.StackOf(stacks, k) != [] ==> k in dirs
    ensures name in ListedObjects(stacks, entries, prefix, maxKeys)
       <==> SlashFree(name) && prefix <= name && Live(P.StackOf(stacks, V.Key(name)))
  {
    ObjectPagingIsComplete(stacks, dirs, entries, prefix, maxKeys);
    var listed := ListedObjects(stacks, entries, prefix, maxKeys);
    assert name in listed <==> name in multiset(listed);
    NamesMembers(stacks, entries, prefix, name);
    if SlashFree(name) && prefix <= name && Live(P.StackOf(stacks, V.Key(name))) {
      assert Entry(name, true) in entries;
      var i :| 0 <= i < |entries| && entries[i] == Entry(name, true);
      assert Shown(stacks, entries[i], prefix);
    }
  }

  ghost predicate Wanted(stacks: P.Stacks, prefix: string, name: string) {
    prefix <= name && Live(P.StackOf(stacks, V.Key(name)))
  }

  /** Every live key under the prefix is listed if and only if none of them has a slash. */
  lemma AllLiveKeysListedExactlyWithoutSlashes(stacks: P.Stacks, dirs: set<V.Key>, entries: seq<Entry>, prefix: string, maxKeys: int)
    requires RootListing(dirs, entries) && forall k :: P.StackOf(stacks, k) != [] ==> k in dirs
    ensures (forall name :: Wanted(stacks, prefix, name) ==> name in ListedObjects(stacks, entries, prefix, maxKeys))
       <==> (forall name :: Wanted(stacks, prefix, name) ==> SlashFree(name))
  {
    forall name ensures Wanted(stacks, prefix, name) ==>
      (name in ListedObjects(stacks, entries, prefix, maxKeys) <==> SlashFree(name))
    {
      ListedExactly(stacks, dirs, entries, prefix, maxKeys, name);
    }
  }
}
