/**
 Sorted listings under a strict total order, and what a page of a listing needs:
 when the first rows of a list of candidates are the first rows of everything.
 */
module Ordering {
  import opened Common

  /** The order is irreflexive and transitive and tells any two elements of the set apart. */
  ghost predicate StrictOrder<T(!new)>(less: (T, T) -> bool, s: set<T>) {
    && (forall x :: x in s ==> !less(x, x))
    && (forall x, y, z :: x in s && y in s && z in s && less(x, y) && less(y, z) ==> less(x, z))
    && (forall x, y :: x in s && y in s && x != y ==> less(x, y) || less(y, x))
  }

  ghost predicate Sorted<T(!new)>(less: (T, T) -> bool, xs: seq<T>) {
    forall i, j :: 0 <= i < j < |xs| ==> less(xs[i], xs[j])
  }

  ghost function Members<T>(xs: seq<T>): set<T> {
    set x | x in xs
  }

  /** xs lists the set in order. */
  ghost predicate Lists<T(!new)>(less: (T, T) -> bool, xs: seq<T>, s: set<T>) {
    Sorted(less, xs) && Members(xs) == s
  }

  lemma SubOrder<T(!new)>(less: (T, T) -> bool, s: set<T>, part: set<T>)
    requires StrictOrder(less, s) && part <= s
    ensures StrictOrder(less, part)
  {
  }

  lemma Asymmetric<T(!new)>(less: (T, T) -> bool, s: set<T>, x: T, y: T)
    requires StrictOrder(less, s) && x in s && y in s
    ensures !(less(x, y) && less(y, x))
  {
  }

  lemma {:induction false} ListLength<T(!new)>(less: (T, T) -> bool, xs: seq<T>, s: set<T>)
    requires StrictOrder(less, s) && Lists(less, xs, s)
    ensures |xs| == |s|
    decreases |xs|
  {
    if xs == [] {
      assert s == {};
    } else {
      var n := |xs| - 1;
      var rest := Members(xs[..n]);
      assert xs == xs[..n] + [xs[n]];
      forall i | 0 <= i < n
        ensures xs[i] != xs[n]
      {
        assert xs[i] in s && less(xs[i], xs[n]);
      }
      assert s == rest + {xs[n]};
      SubOrder(less, s, rest);
      ListLength(less, xs[..n], rest);
    }
  }

  /** A set has one sorted listing. */
  lemma {:induction false} ListingIsUnique<T(!new)>(less: (T, T) -> bool, xs: seq<T>, ys: seq<T>, s: set<T>)
    requires StrictOrder(less, s) && Lists(less, xs, s) && Lists(less, ys, s)
    ensures xs == ys
    decreases |xs|
  {
    ListLength(less, xs, s);
    ListLength(less, ys, s);
    if xs != [] {
      var n := |xs| - 1;
      LastIsGreatest(less, xs, ys, s);
      assert xs == xs[..n] + [xs[n]] && ys == ys[..n] + [ys[n]];
      var rest := s - {xs[n]};
      SubOrder(less, s, rest);
      WithoutLast(less, xs, s);
      WithoutLast(less, ys, s);
      ListingIsUnique(less, xs[..n], ys[..n], rest);
    }
  }

  lemma LastIsGreatest<T(!new)>(less: (T, T) -> bool, xs: seq<T>, ys: seq<T>, s: set<T>)
    requires StrictOrder(less, s) && Lists(less, xs, s) && Lists(less, ys, s) && |xs| == |ys| > 0
    ensures xs[|xs| - 1] == ys[|ys| - 1]
  {
    var x, y := xs[|xs| - 1], ys[|ys| - 1];
    assert x in s && y in s;
    assert x in ys && y in xs;
    var i :| 0 <= i < |ys| && ys[i] == x;
    var k :| 0 <= k < |xs| && xs[k] == y;
    assert i < |ys| - 1 ==> less(x, y);
    assert k < |xs| - 1 ==> less(y, x);
    Asymmetric(less, s, x, y);
  }

  lemma WithoutLast<T(!new)>(less: (T, T) -> bool, xs: seq<T>, s: set<T>)
    requires StrictOrder(less, s) && Lists(less, xs, s) && xs != []
    ensures Lists(less, xs[..|xs| - 1], s - {xs[|xs| - 1]})
  {
    var n := |xs| - 1;
    assert xs == xs[..n] + [xs[n]];
    forall x | x in xs[..n]
      ensures x != xs[n]
    {
      var i :| 0 <= i < n && xs[i] == x;
      assert less(xs[i], xs[n]) && xs[n] in s;
    }
  }

  /** Two listings one after the other list the union when the first precedes the second throughout. */
  lemma ListsConcat<T(!new)>(less: (T, T) -> bool, xs: seq<T>, ys: seq<T>, a: set<T>, b: set<T>)
    requires Lists(less, xs, a) && Lists(less, ys, b)
    requires forall x, y :: x in a && y in b ==> less(x, y)
    ensures Lists(less, xs + ys, a + b)
  {
    forall i, j | 0 <= i < j < |xs + ys|
      ensures less((xs + ys)[i], (xs + ys)[j])
    {
      if i < |xs| <= j {
        assert xs[i] in a && ys[j - |xs|] in b;
      }
    }
  }

  // ---- the listing itself ----

  function Insert<T>(less: (T, T) -> bool, x: T, xs: seq<T>): seq<T> {
    if xs == [] then [x]
    else if less(xs[0], x) then [xs[0]] + Insert(less, x, xs[1..])
    else [x] + xs
  }

  lemma {:induction false} InsertLists<T(!new)>(less: (T, T) -> bool, x: T, xs: seq<T>, s: set<T>)
    requires x !in s && StrictOrder(less, s + {x}) && Lists(less, xs, s)
    ensures Lists(less, Insert(less, x, xs), s + {x})
    decreases |xs|
  {
    if xs == [] {
      assert s == {};
      assert Members([x]) == {x};
    } else {
      var rest := Members(xs[1..]);
      assert xs == [xs[0]] + xs[1..];
      assert s == rest + {xs[0]};
      assert xs[0] in s && xs[0] != x;
      if less(xs[0], x) {
        FirstIsLeast(less, xs, s);
        SubOrder(less, s + {x}, rest + {x});
        InsertLists(less, x, xs[1..], rest);
        var tail := Insert(less, x, xs[1..]);
        assert Members([xs[0]]) == {xs[0]};
        ListsConcat(less, [xs[0]], tail, {xs[0]}, rest + {x});
        assert {xs[0]} + (rest + {x}) == s + {x};
      } else {
        assert Members([x]) == {x};
        forall y | y in s
          ensures less(x, y)
        {
          var i :| 0 <= i < |xs| && xs[i] == y;
          assert less(x, xs[0]);
        }
        ListsConcat(less, [x], xs, {x}, s);
        assert {x} + s == s + {x};
      }
    }
  }

  lemma FirstIsLeast<T(!new)>(less: (T, T) -> bool, xs: seq<T>, s: set<T>)
    requires Lists(less, xs, s) && StrictOrder(less, s) && xs != []
    ensures Lists(less, xs[1..], Members(xs[1..])) && forall y :: y in Members(xs[1..]) ==> less(xs[0], y)
    ensures xs[0] !in Members(xs[1..])
  {
    forall y | y in Members(xs[1..])
      ensures less(xs[0], y)
    {
      var i :| 0 <= i < |xs[1..]| && xs[1..][i] == y;
      assert xs[i + 1] == y;
    }
    assert xs[0] in s;
  }

  /** The sorted listing of a set. */
  ghost function Listing<T(!new)>(less: (T, T) -> bool, s: set<T>): seq<T> {
    if s == {} then [] else
      var x :| x in s;
      Insert(less, x, Listing(less, s - {x}))
  }

  lemma {:induction false} ListingLists<T(!new)>(less: (T, T) -> bool, s: set<T>)
    requires StrictOrder(less, s)
    ensures Lists(less, Listing(less, s), s)
    decreases s
  {
    if s != {} {
      var x :| x in s && Listing(less, s) == Insert(less, x, Listing(less, s - {x}));
      SubOrder(less, s, s - {x});
      ListingLists(less, s - {x});
      assert s - {x} + {x} == s;
      InsertLists(less, x, Listing(less, s - {x}), s - {x});
    }
  }

  lemma ListedIs<T(!new)>(less: (T, T) -> bool, xs: seq<T>, s: set<T>)
    requires StrictOrder(less, s) && Lists(less, xs, s)
    ensures xs == Listing(less, s) && |xs| == |s|
  {
    ListingLists(less, s);
    ListingIsUnique(less, xs, Listing(less, s), s);
    ListLength(less, xs, s);
  }

  /** The elements of a set in some order. */
  method ListElements<T(==)>(s: set<T>) returns (r: seq<T>)
    ensures Members(r) == s
    ensures forall i, j :: 0 <= i < j < |r| ==> r[i] != r[j]
  {
    r := [];
    var todo := s;
    while todo != {}
      invariant todo <= s && Members(r) == s - todo
      invariant forall i, j :: 0 <= i < j < |r| ==> r[i] != r[j]
      decreases todo
    {
      var x :| x in todo;
      assert x !in r;
      assert Members(r + [x]) == Members(r) + {x};
      r, todo := r + [x], todo - {x};
    }
  }

  /** sort.Slice on a list without repetitions: inserts the elements one by one. */
  method SortSlice<T(!new, ==)>(less: (T, T) -> bool, xs: seq<T>) returns (r: seq<T>)
    requires StrictOrder(less, Members(xs))
    requires forall i, j :: 0 <= i < j < |xs| ==> xs[i] != xs[j]
    ensures r == Listing(less, Members(xs)) && Lists(less, r, Members(xs)) && |r| == |xs|
  {
    r := [];
    for i := 0 to |xs|
      invariant Lists(less, r, Members(xs[..i])) && |r| == i
    {
      assert xs[..i + 1] == xs[..i] + [xs[i]];
      assert Members(xs[..i + 1]) == Members(xs[..i]) + {xs[i]};
      assert xs[i] !in xs[..i];
      SubOrder(less, Members(xs), Members(xs[..i + 1]));
      InsertLists(less, xs[i], r, Members(xs[..i]));
      r := Insert(less, xs[i], r);
      ListLength(less, r, Members(xs[..i + 1]));
      DistinctCount(xs, i + 1);
    }
    assert xs[..|xs|] == xs;
    ListedIs(less, r, Members(xs));
  }

  lemma {:induction false} DistinctCount<T>(xs: seq<T>, n: nat)
    requires n <= |xs| && forall i, j :: 0 <= i < j < |xs| ==> xs[i] != xs[j]
    ensures |Members(xs[..n])| == n
    decreases n
  {
    if n == 0 {
      assert Members(xs[..0]) == {};
    } else {
      assert xs[..n] == xs[..n - 1] + [xs[n - 1]];
      assert Members(xs[..n]) == Members(xs[..n - 1]) + {xs[n - 1]};
      assert xs[n - 1] !in xs[..n - 1];
      DistinctCount(xs, n - 1);
    }
  }

  // ---- pages of candidates ----

  function Least(a: int, b: int): int {
    if a < b then a else b
  }

  function Take<T>(xs: seq<T>, n: nat): seq<T> {
    xs[..Least(n, |xs|)]
  }

  /** xs[lo..hi], both ends clamped to the list. */
  function Slice<T>(xs: seq<T>, lo: nat, hi: nat): seq<T>
    requires lo <= hi
  {
    xs[Least(lo, |xs|)..Least(hi, |xs|)]
  }

  /** At least n elements of the set precede x. */
  ghost predicate Preceded<T(!new)>(less: (T, T) -> bool, candidates: set<T>, x: T, n: nat) {
    |(set c | c in candidates && less(c, x))| >= n
  }

  lemma OrderOfIndices<T(!new)>(less: (T, T) -> bool, xs: seq<T>, s: set<T>, i: nat, k: nat)
    requires StrictOrder(less, s) && Lists(less, xs, s) && i < |xs| && k < |xs|
    ensures less(xs[k], xs[i]) ==> k < i
  {
    assert xs[i] in s && xs[k] in s;
    Asymmetric(less, s, xs[i], xs[k]);
    assert i < k ==> less(xs[i], xs[k]);
  }

  /** An element of a listing is preceded by exactly the elements before it. */
  lemma PrecedingElements<T(!new)>(less: (T, T) -> bool, xs: seq<T>, s: set<T>, i: nat)
    requires StrictOrder(less, s) && Lists(less, xs, s) && i < |xs|
    ensures (set c | c in s && less(c, xs[i])) == Members(xs[..i])
    ensures |Members(xs[..i])| == i
  {
    forall c | c in s && less(c, xs[i])
      ensures c in xs[..i]
    {
      var k :| 0 <= k < |xs| && xs[k] == c;
      OrderOfIndices(less, xs, s, i, k);
      assert xs[..i][k] == c;
    }
    forall c | c in xs[..i]
      ensures c in s && less(c, xs[i])
    {
      var k :| 0 <= k < i && xs[k] == c;
    }
    forall a, b | 0 <= a < b < |xs|
      ensures xs[a] != xs[b]
    {
      assert less(xs[a], xs[b]) && xs[a] in s;
    }
    DistinctCount(xs, i);
  }

  /**
   The first n rows of the candidates are the first n rows of everything exactly
   when every row that is not a candidate is preceded by n candidates.
   */
  lemma FirstRowsAgree<T(!new)>(less: (T, T) -> bool, all: set<T>, full: seq<T>, candidates: set<T>, listed: seq<T>, n: nat)
    requires StrictOrder(less, all) && candidates <= all
    requires Lists(less, full, all) && Lists(less, listed, candidates)
    ensures Take(full, n) == Take(listed, n) <==> forall x :: x in all - candidates ==> Preceded(less, candidates, x, n)
  {
    SubOrder(less, all, candidates);
    if forall x :: x in all - candidates ==> Preceded(less, candidates, x, n) {
      EnoughCandidates(less, all, full, candidates, listed, n);
    }
    if Take(full, n) == Take(listed, n) {
      forall x | x in all - candidates
        ensures Preceded(less, candidates, x, n)
      {
        MissingIsLate(less, all, full, candidates, listed, n, x);
      }
    }
  }

  lemma EnoughCandidates<T(!new)>(less: (T, T) -> bool, all: set<T>, full: seq<T>, candidates: set<T>,
                           listed: seq<T>, n: nat)
    requires StrictOrder(less, all) && StrictOrder(less, candidates) && candidates <= all
    requires Lists(less, full, all) && Lists(less, listed, candidates)
    requires forall x :: x in all - candidates ==> Preceded(less, candidates, x, n)
    ensures Take(full, n) == Take(listed, n)
  {
    var k := Least(n, |full|);
    forall i | 0 <= i < k
      ensures full[i] in candidates
    {
      assert full[i] in all;
      var before := set c | c in candidates && less(c, full[i]);
      PrecedingElements(less, full, all, i);
      SubsetIsSmaller(before, Members(full[..i]));
      assert !Preceded(less, candidates, full[i], n);
    }
    var head := full[..k];
    var rest := candidates - Members(head);
    var tail := Filtered(full[k..], rest);
    TailListing(less, all, full, candidates, k);
    ListingIsUnique(less, head + tail, listed, candidates);
    ListLength(less, full, all);
    ListLength(less, listed, candidates);
    SubsetIsSmaller(candidates, all);
    assert (head + tail)[..k] == head;
  }

  function Filtered<T(==)>(xs: seq<T>, keep: set<T>): seq<T> {
    if xs == [] then [] else (if xs[0] in keep then [xs[0]] else []) + Filtered(xs[1..], keep)
  }

  lemma {:induction false} FilteredLists<T(!new)>(less: (T, T) -> bool, xs: seq<T>, keep: set<T>)
    requires Sorted(less, xs)
    ensures Lists(less, Filtered(xs, keep), Members(xs) * keep)
    decreases |xs|
  {
    if xs != [] {
      FilteredLists(less, xs[1..], keep);
      assert xs == [xs[0]] + xs[1..];
      var tail := Filtered(xs[1..], keep);
      if xs[0] in keep {
        forall y | y in Members(xs[1..])
          ensures less(xs[0], y)
        {
          var i :| 0 <= i < |xs[1..]| && xs[1..][i] == y;
          assert xs[i + 1] == y;
        }
        assert Members([xs[0]]) == {xs[0]};
        ListsConcat(less, [xs[0]], tail, {xs[0]}, Members(xs[1..]) * keep);
        assert {xs[0]} + Members(xs[1..]) * keep == Members(xs) * keep;
      } else {
        assert Members(xs[1..]) * keep == Members(xs) * keep;
        assert [] + tail == tail;
      }
    }
  }

  lemma TailListing<T(!new)>(less: (T, T) -> bool, all: set<T>, full: seq<T>, candidates: set<T>, k: nat)
    requires StrictOrder(less, all) && candidates <= all && Lists(less, full, all) && k <= |full|
    requires forall i :: 0 <= i < k ==> full[i] in candidates
    ensures Lists(less, full[..k] + Filtered(full[k..], candidates - Members(full[..k])), candidates)
  {
    hide StrictOrder, Sorted;
    var head, tail, rest := full[..k], full[k..], candidates - Members(full[..k]);
    assert full == head + tail;
    SortedParts(less, full, k);
    FilteredLists(less, tail, rest);
    assert Members(full) == Members(head) + Members(tail);
    assert Members(tail) * rest == rest;
    assert Lists(less, head, Members(head));
    ListsConcat(less, head, Filtered(tail, rest), Members(head), rest);
    assert Members(head) + rest == candidates;
  }

  lemma SortedParts<T(!new)>(less: (T, T) -> bool, xs: seq<T>, k: nat)
    requires Sorted(less, xs) && k <= |xs|
    ensures Sorted(less, xs[..k]) && Sorted(less, xs[k..])
    ensures forall x, y :: x in Members(xs[..k]) && y in Members(xs[k..]) ==> less(x, y)
  {
    assert forall i :: 0 <= i < |xs| - k ==> xs[k..][i] == xs[k + i];
    forall x, y | x in Members(xs[..k]) && y in Members(xs[k..])
      ensures less(x, y)
    {
      var i :| 0 <= i < k && xs[i] == x;
      var j :| 0 <= j < |xs[k..]| && xs[k..][j] == y;
      assert less(xs[i], xs[k + j]);
    }
  }

  lemma MissingIsLate<T(!new)>(less: (T, T) -> bool, all: set<T>, full: seq<T>, candidates: set<T>, listed: seq<T>,
                        n: nat, x: T)
    requires StrictOrder(less, all) && candidates <= all
    requires Lists(less, full, all) && Lists(less, listed, candidates)
    requires Take(full, n) == Take(listed, n) && x in all - candidates
    ensures Preceded(less, candidates, x, n)
  {
    assert x in full;
    var i :| 0 <= i < |full| && full[i] == x;
    var k := Least(n, |full|);
    forall j | 0 <= j < k
      ensures full[j] in candidates
    {
      assert full[j] == Take(full, n)[j] == Take(listed, n)[j] == listed[j];
    }
    assert k <= i;
    PrecedingElements(less, full, all, i);
    var head := Members(full[..k]);
    assert head <= (set c | c in candidates && less(c, x)) by {
      forall c | c in full[..k]
        ensures c in candidates && less(c, x)
      {
        var j :| 0 <= j < k && full[j] == c;
      }
    }
    PrecedingElements(less, full, all, k);
    SubsetIsSmaller(head, set c | c in candidates && less(c, x));
  }

  lemma DistinctRowsPrecede<T(!new)>(less: (T, T) -> bool, before: seq<T>, candidates: set<T>, x: T)
    requires forall i :: 0 <= i < |before| ==> before[i] in candidates && less(before[i], x)
    requires forall i, j :: 0 <= i < j < |before| ==> before[i] != before[j]
    ensures Preceded(less, candidates, x, |before|)
  {
    DistinctCount(before, |before|);
    assert before[..|before|] == before;
    SubsetIsSmaller(Members(before), set c | c in candidates && less(c, x));
  }

  /** Equal heads give equal pages inside them. */
  lemma PagesAgree<T>(xs: seq<T>, ys: seq<T>, lo: nat, hi: nat)
    requires lo <= hi && Take(xs, hi) == Take(ys, hi)
    ensures Slice(xs, lo, hi) == Slice(ys, lo, hi)
  {
    assert Slice(xs, lo, hi) == Take(xs, hi)[Least(lo, |Take(xs, hi)|)..];
    assert Slice(ys, lo, hi) == Take(ys, hi)[Least(lo, |Take(ys, hi)|)..];
  }

  /**
   A page of the candidates is that page of everything exactly when the page lies past
   the end of everything, or every row that is not a candidate comes after the page.
   */
  lemma WhenThePageIsExact<T(!new)>(less: (T, T) -> bool, all: set<T>, full: seq<T>, candidates: set<T>,
                             listed: seq<T>, lo: nat, hi: nat)
    requires StrictOrder(less, all) && candidates <= all && lo < hi
    requires Lists(less, full, all) && Lists(less, listed, candidates)
    ensures Slice(full, lo, hi) == Slice(listed, lo, hi)
            <==> |full| <= lo || forall x :: x in all - candidates ==> Preceded(less, candidates, x, hi)
  {
    hide StrictOrder, Lists, Preceded;
    FirstRowsAgree(less, all, full, candidates, listed, hi);
    if Take(full, hi) == Take(listed, hi) {
      PagesAgree(full, listed, lo, hi);
    }
    SubOrder(less, all, candidates);
    ListLength(less, full, all);
    ListLength(less, listed, candidates);
    SubsetIsSmaller(candidates, all);
    if |full| > lo && Slice(full, lo, hi) == Slice(listed, lo, hi) {
      assert full[lo] == Slice(full, lo, hi)[0] == Slice(listed, lo, hi)[0] == listed[lo];
      EqualRowEqualHead(less, all, full, candidates, listed, lo);
      assert Take(full, hi) == full[..lo] + Slice(full, lo, hi);
      assert Take(listed, hi) == listed[..lo] + Slice(listed, lo, hi);
    }
  }

  /** Lists of a set and of a part of it that agree at one place agree before it. */
  lemma EqualRowEqualHead<T(!new)>(less: (T, T) -> bool, all: set<T>, full: seq<T>, candidates: set<T>,
                            listed: seq<T>, k: nat)
    requires StrictOrder(less, all) && StrictOrder(less, candidates) && candidates <= all
    requires Lists(less, full, all) && Lists(less, listed, candidates)
    requires k < |full| && k < |listed| && full[k] == listed[k]
    ensures full[..k] == listed[..k]
  {
    hide StrictOrder;
    PrecedingElements(less, full, all, k);
    PrecedingElements(less, listed, candidates, k);
    var head, part := Members(full[..k]), Members(listed[..k]);
    assert part <= head;
    EqualSizes(part, head);
    SubOrder(less, all, head);
    assert Sorted(less, full[..k]) && Sorted(less, listed[..k]);
    ListingIsUnique(less, full[..k], listed[..k], head);
  }

  function Pages<T>(xs: seq<T>, size: nat, pages: nat): seq<T> {
    if pages == 0 then [] else Pages(xs, size, pages - 1) + Slice(xs, (pages - 1) * size, pages * size)
  }

  /** The pages taken together list every row once and in order. */
  lemma {:induction false} PagesCoverTheList<T>(xs: seq<T>, size: nat, pages: nat)
    ensures Pages(xs, size, pages) == Take(xs, pages * size)
    decreases pages
  {
    if pages > 0 {
      PagesCoverTheList(xs, size, pages - 1);
      assert pages * size == (pages - 1) * size + size;
      var lo, hi := Least((pages - 1) * size, |xs|), Least(pages * size, |xs|);
      assert xs[..hi] == xs[..lo] + xs[lo..hi];
    }
  }
}
