/** The loops that turn the collected results into the list given to CompleteMultipart. */
module MultipartList {
  import opened Prelude
  import opened Multipart
  import opened MultipartSafety

  /** A gapless set of part numbers is everything from 1 to its size. */
  lemma GaplessIsUpTo(results: set<nat>)
    requires Gapless(results) && forall k :: k in results ==> k >= 1
    ensures forall k :: k in results <==> 1 <= k <= |results|
  {
    var low := set k | k in results && k <= |results|;
    UpToSize(|results|, low);
    if k :| k in results && k > |results| {
      assert low + {k} <= results;
      SmallerSubset(low + {k}, results);
    }
  }

  lemma {:induction false} SmallerSubset<T>(a: set<T>, b: set<T>)
    requires a <= b
    ensures |a| <= |b|
  {
    if a != {} {
      var x :| x in a;
      SmallerSubset(a - {x}, b - {x});
    }
  }

  /** Finds the largest part number, then walks up to it and stops at the first gap. */
  method CompletedParts(results: set<nat>) returns (list: Option<seq<nat>>)
    requires forall k :: k in results ==> k >= 1
    ensures list == if Gapless(results) then Some(UpTo(|results|)) else None
  {
    var maxPart, todo := 0, results;
    while todo != {}
      invariant todo <= results && (maxPart == 0 || maxPart in results)
      invariant forall k :: k in results && k !in todo ==> k <= maxPart
      decreases todo
    {
      var k :| k in todo;
      if k > maxPart { maxPart := k; }
      todo := todo - {k};
    }
    var completed, i := [], 1;
    while i <= maxPart
      invariant 1 <= i <= maxPart + 1 && completed == UpTo(i - 1)
      invariant forall k :: 1 <= k < i ==> k in results
    {
      if i !in results {
        if Gapless(results) { GaplessIsUpTo(results); }
        return None;
      }
      completed := completed + [i];
      i := i + 1;
    }
    UpToSize(maxPart, results);
    return Some(completed);
  }
}
