/** Vectors that are scanned with an iterator and erased in place. */
module Vectors {
  import opened Sequences

  lemma EraseMiddle<T>(front: seq<T>, x: T, back: seq<T>)
    ensures Erase(front + ([x] + back), |front|) == front + back
  {
  }

  function SetOf<T(==)>(s: seq<T>): set<T> { set x <- s }

  /** The elements of the first `k` of `s` that belong to `keep`, in their order. */
  ghost function FilterTo<T>(s: seq<T>, k: nat, keep: set<T>): seq<T>
    requires k <= |s|
  {
    if k == 0 then []
    else FilterTo(s, k - 1, keep) + if s[k - 1] in keep then [s[k - 1]] else []
  }

  /** The elements of `s` that belong to `keep`, in their order. */
  ghost function Filter<T>(s: seq<T>, keep: set<T>): seq<T> {
    FilterTo(s, |s|, keep)
  }

  /** The elements that a scan has kept among the first `k`. */
  ghost function Kept<T>(s: seq<T>, k: nat, keep: set<T>): set<T>
    requires k <= |s|
  {
    if k == 0 then {}
    else Kept(s, k - 1, keep) + if s[k - 1] in keep then {s[k - 1]} else {}
  }

  lemma {:induction false} KeptMembers<T>(s: seq<T>, k: nat, keep: set<T>)
    requires k <= |s|
    ensures SetOf(FilterTo(s, k, keep)) == Kept(s, k, keep) == SetOf(s[..k]) * keep
  {
    if k != 0 {
      KeptMembers(s, k - 1, keep);
      assert s[..k] == s[..k - 1] + [s[k - 1]];
    }
  }

  lemma FilterMembers<T>(s: seq<T>, keep: set<T>)
    ensures SetOf(Filter(s, keep)) == Kept(s, |s|, keep) == SetOf(s) * keep
  {
    KeptMembers(s, |s|, keep);
    assert s[..|s|] == s;
  }

  lemma {:induction false} FilterToIdentity<T>(s: seq<T>, k: nat, keep: set<T>)
    requires k <= |s|
    ensures |FilterTo(s, k, keep)| <= k
    ensures |FilterTo(s, k, keep)| == k <==> FilterTo(s, k, keep) == s[..k]
    ensures |FilterTo(s, k, keep)| == k <==> (forall j :: 0 <= j < k ==> s[j] in keep)
  {
    if k != 0 {
      FilterToIdentity(s, k - 1, keep);
      assert s[..k] == s[..k - 1] + [s[k - 1]];
    }
  }

  lemma FilterLength<T>(s: seq<T>, keep: set<T>)
    ensures |Filter(s, keep)| <= |s|
    ensures |Filter(s, keep)| == |s| <==> Filter(s, keep) == s
  {
    FilterToIdentity(s, |s|, keep);
    assert s[..|s|] == s;
  }

  /** Filtering changes nothing exactly when every element is kept. */
  lemma FilterIdentity<T>(s: seq<T>, keep: set<T>)
    ensures Filter(s, keep) == s <==> SetOf(s) <= keep
  {
    FilterLength(s, keep);
    FilterToIdentity(s, |s|, keep);
  }

  /** What is left of `s` when a scan that keeps `keep` has looked at `k` elements. */
  ghost function Scanned<T>(s: seq<T>, k: nat, keep: set<T>): seq<T>
    requires k <= |s|
  {
    if k == 0 then s
    else if s[k - 1] in keep then Scanned(s, k - 1, keep)
    else Erase(Scanned(s, k - 1, keep), Position(s, k - 1, keep))
  }

  /** Where the iterator then stands. */
  ghost function Position<T>(s: seq<T>, k: nat, keep: set<T>): nat
    requires k <= |s|
  {
    if k == 0 then 0 else Position(s, k - 1, keep) + if s[k - 1] in keep then 1 else 0
  }

  lemma {:induction false} ScanShape<T>(s: seq<T>, k: nat, keep: set<T>)
    requires k <= |s|
    ensures Scanned(s, k, keep) == FilterTo(s, k, keep) + s[k..]
    ensures Position(s, k, keep) == |FilterTo(s, k, keep)|
  {
    if k != 0 {
      ScanShape(s, k - 1, keep);
      var front, x := FilterTo(s, k - 1, keep), s[k - 1];
      assert s[k - 1..] == [x] + s[k..];
      if x in keep {
        assert front + ([x] + s[k..]) == front + [x] + s[k..];
      } else {
        EraseMiddle(front, x, s[k..]);
      }
    }
  }

  /** The vector is `cur`, with the iterator at `i`, after looking at `k` elements of `all`. */
  ghost predicate Scan<T>(cur: seq<T>, i: nat, all: seq<T>, k: nat, keep: set<T>) {
    k <= |all| && cur == Scanned(all, k, keep) && i == Position(all, k, keep)
  }

  lemma ScanNext<T>(cur: seq<T>, i: nat, all: seq<T>, k: nat, keep: set<T>)
    requires Scan(cur, i, all, k, keep) && i < |cur|
    ensures k < |all| && cur[i] == all[k]
  {
    ScanShape(all, k, keep);
  }

  /** When the iterator reaches the end, the vector holds exactly the kept elements, and its
      position tells whether anything was erased. */
  lemma ScanEnd<T>(cur: seq<T>, i: nat, all: seq<T>, k: nat, keep: set<T>)
    requires Scan(cur, i, all, k, keep) && i >= |cur|
    ensures cur == Filter(all, keep) && k == |all|
    ensures i < k <==> cur != all
  {
    ScanShape(all, k, keep);
    FilterLength(all, keep);
  }

  // ---- Erasing one element, or all that match ----------------------------------

  lemma {:induction false} ScannedOnce<T>(s: seq<T>, i: nat, k: nat)
    requires Distinct(s) && i < |s| && k <= |s|
    ensures Scanned(s, k, SetOf(s) - {s[i]}) == if k <= i then s else Erase(s, i)
    ensures Position(s, k, SetOf(s) - {s[i]}) == if k <= i then k else k - 1
  {
    if k != 0 { ScannedOnce(s, i, k - 1); }
  }

  /** In a vector without duplicates, erasing an element is filtering it out. */
  lemma EraseIsFilter<T>(s: seq<T>, i: nat)
    requires Distinct(s) && i < |s|
    ensures Erase(s, i) == Filter(s, SetOf(s) - {s[i]})
  {
    ScannedOnce(s, i, |s|);
    ScanShape(s, |s|, SetOf(s) - {s[i]});
    assert s[|s|..] == [];
  }

  lemma {:induction false} ScannedDistinct<T>(s: seq<T>, k: nat, keep: set<T>)
    requires Distinct(s) && k <= |s|
    ensures Distinct(Scanned(s, k, keep))
  {
    if k != 0 {
      ScannedDistinct(s, k - 1, keep);
      ScanShape(s, k - 1, keep);
      hide FilterTo, Distinct, Position;
      EraseDistinct(Scanned(s, k - 1, keep), Position(s, k - 1, keep));
    }
  }

  lemma EraseDistinct<T>(s: seq<T>, i: nat)
    requires Distinct(s) && i < |s|
    ensures Distinct(Erase(s, i))
  {
  }

  /** Filtering twice is filtering by both. */
  lemma {:induction false} FilterToTwice<T>(s: seq<T>, k: nat, a: set<T>, b: set<T>)
    requires k <= |s|
    ensures Filter(FilterTo(s, k, a), b) == FilterTo(s, k, a * b)
  {
    if k != 0 {
      FilterToTwice(s, k - 1, a, b);
      var front, x := FilterTo(s, k - 1, a), s[k - 1];
      if x in a {
        FilterToPrefix(front, [x], |front|, b);
        assert (front + [x])[|front|] == x;
      } else {
        assert FilterTo(s, k, a) == front;
      }
    }
  }

  lemma {:induction false} FilterToPrefix<T>(s: seq<T>, t: seq<T>, k: nat, keep: set<T>)
    requires k <= |s|
    ensures FilterTo(s + t, k, keep) == FilterTo(s, k, keep)
  {
    if k != 0 { FilterToPrefix(s, t, k - 1, keep); }
  }

  /** Filtering only depends on which listed elements are kept. */
  lemma {:induction false} FilterToSame<T>(s: seq<T>, k: nat, a: set<T>, b: set<T>)
    requires k <= |s| && forall x <- s :: x in a <==> x in b
    ensures FilterTo(s, k, a) == FilterTo(s, k, b)
  {
    if k != 0 { FilterToSame(s, k - 1, a, b); }
  }

  /** Two filters in a row, as one. */
  lemma FilterBoth<T>(s: seq<T>, a: set<T>, b: set<T>, both: set<T>)
    requires forall x <- s :: x in both <==> x in a && x in b
    ensures Filter(Filter(s, a), b) == Filter(s, both)
  {
    FilterToTwice(s, |s|, a, b);
    FilterToSame(s, |s|, a * b, both);
  }

  lemma FilterThree<T>(s: seq<T>, a: set<T>, b: set<T>, c: set<T>, all: set<T>)
    requires forall x <- s :: x in all <==> x in a && x in b && x in c
    ensures Filter(Filter(Filter(s, a), b), c) == Filter(s, all)
  {
    FilterBoth(s, a, b, a * b);
    FilterBoth(s, a * b, c, all);
  }

  /** Erase every element for which `drop` holds, in one pass. */
  method EraseWhere<T(==)>(listed: seq<T>, drop: T -> bool, ghost keep: set<T>) returns (cur: seq<T>)
    requires forall x <- listed :: x in keep <==> !drop(x)
    ensures cur == Filter(listed, keep)
  {
    hide Erase;
    cur := listed;
    var i := 0;
    ghost var k := 0;
    while i < |cur|
      invariant Scan(cur, i, listed, k, keep)
      decreases |listed| - k
    {
      ScanNext(cur, i, listed, k, keep);
      if drop(cur[i]) {
        cur := Erase(cur, i);
      } else {
        i := i + 1;
      }
      k := k + 1;
    }
    ScanEnd(cur, i, listed, k, keep);
  }

  /** Erase the first occurrence of `x`, if there is one. */
  method EraseFirst<T(==)>(listed: seq<T>, x: T) returns (cur: seq<T>)
    requires Distinct(listed)
    ensures cur == Filter(listed, SetOf(listed) - {x})
    ensures forall i :: 0 <= i < |listed| && listed[i] == x ==> cur == Erase(listed, i)
  {
    for i := 0 to |listed|
      invariant x !in listed[..i]
    {
      if listed[i] == x {
        EraseIsFilter(listed, i);
        return Erase(listed, i);
      }
    }
    assert listed[..|listed|] == listed;
    FilterIdentity(listed, SetOf(listed) - {x});
    return listed;
  }
}
