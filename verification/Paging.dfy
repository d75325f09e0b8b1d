/** Cursor paging over a list: skip what is not above the cursor, return a page, and hand
    out the last item's cursor when there is more. */
module Paging {

  /** The order of strings, character by character. */
  predicate Less(a: string, b: string) {
    b != [] && (a == [] || a[0] < b[0] || (a[0] == b[0] && Less(a[1..], b[1..])))
  }

  lemma {:induction false} LessIrreflexive(a: string)
    ensures !Less(a, a)
  {
    if a != [] { LessIrreflexive(a[1..]); }
  }

  lemma {:induction false} LessTransitive(a: string, b: string, c: string)
    requires Less(a, b) && Less(b, c)
    ensures Less(a, c)
  {
    if a != [] && a[0] == b[0] && b[0] == c[0] { LessTransitive(a[1..], b[1..], c[1..]); }
  }

  lemma {:induction false} LessTotal(a: string, b: string)
    ensures a == b || Less(a, b) || Less(b, a)
  {
    if a != [] && b != [] && a[0] == b[0] {
      LessTotal(a[1..], b[1..]);
      assert a == [a[0]] + a[1..] && b == [b[0]] + b[1..];
    }
  }

  lemma LessAsymmetric(a: string, b: string)
    requires Less(a, b)
    ensures !Less(b, a)
  {
    if Less(b, a) {
      LessTransitive(a, b, a);
      LessIrreflexive(a);
    }
  }

  // ---------------------------------------------------------------------
  // Paging
  // ---------------------------------------------------------------------

  /** The items above the cursor, in list order. The empty cursor is below every item's. */
  function After<T>(l: seq<T>, cur: T -> string, c: string): seq<T> {
    if l == [] then []
    else if Less(c, cur(l[0])) then [l[0]] + After(l[1..], cur, c)
    else After(l[1..], cur, c)
  }

  /** An item is on or below the cursor it gave out, and so is all that was skipped before. */
  lemma {:induction false} AfterShrinks<T>(l: seq<T>, cur: T -> string, c: string, x: T)
    requires Less(c, cur(x))
    ensures |After(l, cur, cur(x))| <= |After(l, cur, c)|
    ensures x in l ==> |After(l, cur, cur(x))| < |After(l, cur, c)|
  {
    if l != [] {
      AfterShrinks(l[1..], cur, c, x);
      if Less(cur(x), cur(l[0])) { LessTransitive(c, cur(x), cur(l[0])); }
      LessIrreflexive(cur(x));
    }
  }

  lemma {:induction false} AfterMembers<T>(l: seq<T>, cur: T -> string, c: string, x: T)
    ensures x in After(l, cur, c) <==> x in l && Less(c, cur(x))
  {
    if l != [] { AfterMembers(l[1..], cur, c, x); }
  }

  /** Everything a caller sees who follows the cursors; `max` 0 is no limit. */
  function Follow<T>(l: seq<T>, cur: T -> string, c: string, max: nat): seq<T>
    decreases |After(l, cur, c)|
  {
    var rest := After(l, cur, c);
    if max == 0 || |rest| <= max then rest
    else
      AfterMembers(l, cur, c, rest[max - 1]);
      AfterShrinks(l, cur, c, rest[max - 1]);
      rest[..max] + Follow(l, cur, cur(rest[max - 1]), max)
  }

  ghost predicate Increasing<T>(l: seq<T>, cur: T -> string) {
    forall i, k :: 0 <= i < k < |l| ==> Less(cur(l[i]), cur(l[k]))
  }

  lemma {:induction false} AllAbove<T>(l: seq<T>, cur: T -> string, c: string)
    requires forall i :: 0 <= i < |l| ==> Less(c, cur(l[i]))
    ensures After(l, cur, c) == l
  {
    if l != [] { AllAbove(l[1..], cur, c); }
  }

  lemma {:induction false} AfterAt<T>(l: seq<T>, cur: T -> string, i: nat)
    requires Increasing(l, cur) && i < |l|
    ensures After(l, cur, cur(l[i])) == l[i + 1..]
  {
    if i == 0 {
      LessIrreflexive(cur(l[0]));
      AllAbove(l[1..], cur, cur(l[0]));
    } else {
      LessAsymmetric(cur(l[0]), cur(l[i]));
      AfterAt(l[1..], cur, i - 1);
    }
  }

  /** When the list is in cursor order, each page resumes where the last one ended. */
  lemma {:induction false} ResumesAt<T>(l: seq<T>, cur: T -> string, c: string, i: nat)
    requires Increasing(l, cur) && i < |After(l, cur, c)|
    ensures After(l, cur, cur(After(l, cur, c)[i])) == After(l, cur, c)[i + 1..]
  {
    if Less(c, cur(l[0])) {
      forall k | 0 <= k < |l| ensures Less(c, cur(l[k])) {
        if k > 0 { LessTransitive(c, cur(l[0]), cur(l[k])); }
      }
      AllAbove(l, cur, c);
      AfterAt(l, cur, i);
    } else {
      var x := After(l, cur, c)[i];
      ResumesAt(l[1..], cur, c, i);
      AfterMembers(l[1..], cur, c, x);
      var k :| 0 <= k < |l[1..]| && l[1..][k] == x;
      LessAsymmetric(cur(l[0]), cur(l[k + 1]));
    }
  }

  /** A list in cursor order is listed whole, in order, each item once, for any page size. */
  lemma {:induction false} FollowsWhole<T>(l: seq<T>, cur: T -> string, c: string, max: nat)
    requires Increasing(l, cur)
    ensures Follow(l, cur, c, max) == After(l, cur, c)
    decreases |After(l, cur, c)|
  {
    var rest := After(l, cur, c);
    if max != 0 && |rest| > max {
      var x := rest[max - 1];
      AfterMembers(l, cur, c, x);
      AfterShrinks(l, cur, c, x);
      FollowsWhole(l, cur, cur(x), max);
      ResumesAt(l, cur, c, max - 1);
    }
  }

  /** One page and the cursor for the next, empty when there is none. */
  function Page<T>(l: seq<T>, cur: T -> string, c: string, max: nat): (seq<T>, string) {
    var rest := After(l, cur, c);
    if max == 0 || |rest| <= max then (rest, "") else (rest[..max], cur(rest[max - 1]))
  }

  /** A caller who follows the cursors sees the pages one after another, up to the one without
      a cursor. */
  lemma FollowIsThePages<T>(l: seq<T>, cur: T -> string, c: string, max: nat)
    ensures var (page, next) := Page(l, cur, c, max);
            Follow(l, cur, c, max) == if next == "" then page else page + Follow(l, cur, next, max)
    ensures var (page, next) := Page(l, cur, c, max);
            (max > 0 ==> |page| <= max) && (next != "" ==> page != [] && next == cur(page[|page| - 1]))
  {
    var rest := After(l, cur, c);
    if max != 0 && |rest| > max { AfterMembers(l, cur, c, rest[max - 1]); }
  }

  // ---------------------------------------------------------------------
  // Sorting
  // ---------------------------------------------------------------------

  function Insert<T>(x: T, l: seq<T>, less: (T, T) -> bool): seq<T> {
    if l == [] || less(x, l[0]) then [x] + l else [l[0]] + Insert(x, l[1..], less)
  }

  /** What sort.Slice does to items no two of which are equal. */
  function Sort<T>(l: seq<T>, less: (T, T) -> bool): seq<T> {
    if l == [] then [] else Insert(l[0], Sort(l[1..], less), less)
  }

  ghost predicate StrictOrder<T(!new)>(less: (T, T) -> bool) {
    && (forall a :: !less(a, a))
    && (forall a, b :: a == b || less(a, b) || less(b, a))
    && (forall a, b, c :: less(a, b) && less(b, c) ==> less(a, c))
  }

  ghost predicate SortedBy<T(!new)>(l: seq<T>, less: (T, T) -> bool) {
    forall i, k :: 0 <= i < k < |l| ==> less(l[i], l[k])
  }

  ghost predicate Distinct<T>(l: seq<T>) {
    forall i, k :: 0 <= i < k < |l| ==> l[i] != l[k]
  }

  lemma {:induction false} InsertMembers<T>(x: T, l: seq<T>, less: (T, T) -> bool)
    ensures multiset(Insert(x, l, less)) == multiset(l) + multiset{x}
  {
    if l != [] && !less(x, l[0]) {
      InsertMembers(x, l[1..], less);
      assert l == [l[0]] + l[1..];
    }
  }

  lemma {:induction false} InsertSorted<T(!new)>(x: T, l: seq<T>, less: (T, T) -> bool)
    requires StrictOrder(less) && SortedBy(l, less) && x !in l
    ensures SortedBy(Insert(x, l, less), less)
  {
    if l != [] && !less(x, l[0]) {
      InsertSorted(x, l[1..], less);
      var rest := Insert(x, l[1..], less);
      InsertMembers(x, l[1..], less);
      forall k | 0 <= k < |rest| ensures less(l[0], rest[k]) {
        assert rest[k] in multiset(rest);
        assert rest[k] == x || rest[k] in l[1..];
      }
    }
  }

  lemma {:induction false} Sorts<T(!new)>(l: seq<T>, less: (T, T) -> bool)
    requires StrictOrder(less) && Distinct(l)
    ensures multiset(Sort(l, less)) == multiset(l) && SortedBy(Sort(l, less), less)
  {
    if l != [] {
      Sorts(l[1..], less);
      assert l == [l[0]] + l[1..];
      var rest := Sort(l[1..], less);
      assert l[0] !in multiset(rest);
      InsertSorted(l[0], rest, less);
      InsertMembers(l[0], rest, less);
    }
  }

  lemma {:induction false} SortedStays<T(!new)>(l: seq<T>, less: (T, T) -> bool)
    requires SortedBy(l, less)
    ensures Sort(l, less) == l
  {
    if l != [] {
      SortedStays(l[1..], less);
      if |l| > 1 { assert less(l[0], l[1]); }
    }
  }

  lemma StringOrder()
    ensures StrictOrder(Less)
  {
    forall a ensures !Less(a, a) { LessIrreflexive(a); }
    forall a, b ensures a == b || Less(a, b) || Less(b, a) { LessTotal(a, b); }
    forall a, b, c | Less(a, b) && Less(b, c) ensures Less(a, c) { LessTransitive(a, b, c); }
  }
}
