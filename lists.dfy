/** The array operations the panels use: `filter`, index removal, subsequences. */
module Lists {

  /** `r` occurs in `s` in the same relative order (possibly with gaps). */
  predicate IsSubsequence<T(==)>(r: seq<T>, s: seq<T>)
    decreases |s|
  {
    if r == [] then true
    else if s == [] then false
    else if r[0] == s[0] then IsSubsequence(r[1..], s[1..])
    else IsSubsequence(r, s[1..])
  }

  /** `xs.filter(p)`: the elements of `xs` satisfying `p`, in their original order. */
  function Filter<T(!new)>(xs: seq<T>, p: T -> bool): (r: seq<T>)
    ensures |r| <= |xs|
    ensures forall i :: 0 <= i < |r| ==> p(r[i])
    ensures forall x :: x in r <==> x in xs && p(x)
    ensures IsSubsequence(r, xs)
  {
    if xs == [] then []
    else
      var rest := Filter(xs[1..], p);
      assert xs == [xs[0]] + xs[1..];
      SubsequenceCons(rest, xs[0], xs[1..]);
      if p(xs[0]) then [xs[0]] + rest else rest
  }

  /** Prepending to the larger sequence (and to both) keeps a subsequence. */
  lemma {:induction false} SubsequenceCons<T>(r: seq<T>, x: T, s: seq<T>)
    requires IsSubsequence(r, s)
    ensures IsSubsequence(r, [x] + s)
    ensures IsSubsequence([x] + r, [x] + s)
    decreases |s|, 1
  {
    assert ([x] + s)[1..] == s;
    assert ([x] + r)[1..] == r;
    if r != [] && r[0] == x {
      SubsequenceTail(r, s);
    }
  }

  /** Dropping the head of a subsequence keeps it a subsequence. */
  lemma {:induction false} SubsequenceTail<T>(r: seq<T>, s: seq<T>)
    requires r != [] && IsSubsequence(r, s)
    ensures IsSubsequence(r[1..], s)
    decreases |s|, 0
  {
    assert s != [];
    assert s == [s[0]] + s[1..];
    if r[0] == s[0] {
      SubsequenceCons(r[1..], s[0], s[1..]);
    } else {
      SubsequenceTail(r, s[1..]);
      SubsequenceCons(r[1..], s[0], s[1..]);
    }
  }

  /** No element occurs twice. */
  predicate Distinct<T(==)>(s: seq<T>)
  {
    forall i, j :: 0 <= i < j < |s| ==> s[i] != s[j]
  }

  /** Every element of a subsequence occurs in the larger sequence. */
  lemma {:induction false} SubsequenceMembers<T>(r: seq<T>, s: seq<T>)
    requires IsSubsequence(r, s)
    ensures forall x :: x in r ==> x in s
    decreases |s|
  {
    if r != [] {
      assert s != [];
      if r[0] == s[0] {
        SubsequenceMembers(r[1..], s[1..]);
        assert r == [r[0]] + r[1..];
        assert s == [s[0]] + s[1..];
      } else {
        SubsequenceMembers(r, s[1..]);
        assert s == [s[0]] + s[1..];
      }
    }
  }

  /** A subsequence of a sequence without repeats has no repeats either. */
  lemma {:induction false} SubsequenceDistinct<T>(r: seq<T>, s: seq<T>)
    requires IsSubsequence(r, s) && Distinct(s)
    ensures Distinct(r)
    decreases |s|
  {
    if r != [] {
      assert s != [];
      assert Distinct(s[1..]) by {
        forall i, j | 0 <= i < j < |s[1..]|
          ensures s[1..][i] != s[1..][j]
        {
          assert s[1..][i] == s[i + 1] && s[1..][j] == s[j + 1];
        }
      }
      if r[0] == s[0] {
        SubsequenceDistinct(r[1..], s[1..]);
        SubsequenceMembers(r[1..], s[1..]);
        forall j | 0 < j < |r|
          ensures r[0] != r[j]
        {
          assert r[j] == r[1..][j - 1];
          assert r[j] in s[1..];
          var k :| 0 <= k < |s[1..]| && s[1..][k] == r[j];
          assert s[k + 1] == r[j];
        }
        forall i, j | 0 <= i < j < |r|
          ensures r[i] != r[j]
        {
          if 0 < i {
            assert r[i] == r[1..][i - 1] && r[j] == r[1..][j - 1];
          }
        }
      } else {
        SubsequenceDistinct(r, s[1..]);
      }
    }
  }

  /** Mapping both sides keeps a subsequence. */
  lemma {:induction false} MapSubsequence<T, U>(r: seq<T>, s: seq<T>, f: T -> U)
    requires IsSubsequence(r, s)
    ensures IsSubsequence(Map(r, f), Map(s, f))
    decreases |s|
  {
    if r != [] {
      assert s != [];
      assert Map(s, f)[1..] == Map(s[1..], f);
      if r[0] == s[0] {
        MapSubsequence(r[1..], s[1..], f);
        assert Map(r, f)[1..] == Map(r[1..], f);
      } else {
        MapSubsequence(r, s[1..], f);
        if Map(r, f)[0] == Map(s, f)[0] {
          SubsequenceTail(Map(r, f), Map(s[1..], f));
        }
      }
    }
  }

  /** The filter keeps every occurrence of a kept value and none of a dropped one. */
  lemma {:induction false} FilterMultiplicity<T(!new)>(xs: seq<T>, p: T -> bool, x: T)
    ensures multiset(Filter(xs, p))[x] == if p(x) then multiset(xs)[x] else 0
  {
    if xs != [] {
      FilterMultiplicity(xs[1..], p, x);
      assert xs == [xs[0]] + xs[1..];
    }
  }

  /** Filtering distributes over concatenation: the filter keeps order across both halves. */
  lemma {:induction false} FilterAppend<T(!new)>(a: seq<T>, b: seq<T>, p: T -> bool)
    ensures Filter(a + b, p) == Filter(a, p) + Filter(b, p)
    decreases |a|
  {
    if a == [] {
      assert a + b == b;
    } else {
      assert (a + b)[0] == a[0];
      assert (a + b)[1..] == a[1..] + b;
      FilterAppend(a[1..], b, p);
    }
  }

  /** The filter keeps everything exactly when every element satisfies `p`. */
  lemma {:induction false} FilterKeepsAll<T(!new)>(xs: seq<T>, p: T -> bool)
    ensures (|Filter(xs, p)| == |xs|) <==> (forall x :: x in xs ==> p(x))
    ensures (forall x :: x in xs ==> p(x)) ==> Filter(xs, p) == xs
  {
    if xs != [] {
      FilterKeepsAll(xs[1..], p);
      assert forall x :: x in xs[1..] ==> x in xs;
      assert xs == [xs[0]] + xs[1..];
    }
  }

  /** Nothing is kept when no element satisfies the predicate. */
  lemma FilterNone<T(!new)>(xs: seq<T>, p: T -> bool)
    requires forall i :: 0 <= i < |xs| ==> !p(xs[i])
    ensures Filter(xs, p) == []
  {
  }

  /** A stricter predicate keeps no more elements. */
  lemma {:induction false} FilterStronger<T(!new)>(xs: seq<T>, p: T -> bool, q: T -> bool)
    requires forall x :: x in xs && p(x) ==> q(x)
    ensures |Filter(xs, p)| <= |Filter(xs, q)|
  {
    if xs != [] {
      assert forall x :: x in xs[1..] ==> x in xs;
      FilterStronger(xs[1..], p, q);
    }
  }

  /** `xs.filter((_, j) => j !== i)`: the element at index `i` is dropped, if there is one. */
  function RemoveAt<T>(xs: seq<T>, i: int): seq<T>
  {
    if 0 <= i < |xs| then xs[..i] + xs[i + 1..] else xs
  }

  /** Removing an index in range drops one element: the others keep their order, and the
      multiset loses exactly that element. */
  lemma RemoveAtSpec<T>(xs: seq<T>, i: int)
    requires 0 <= i < |xs|
    ensures |RemoveAt(xs, i)| == |xs| - 1
    ensures multiset(RemoveAt(xs, i)) == multiset(xs) - multiset{xs[i]}
    ensures forall j :: 0 <= j < |xs| - 1 ==> RemoveAt(xs, i)[j] == xs[if j < i then j else j + 1]
  {
    assert xs == xs[..i] + [xs[i]] + xs[i + 1..];
  }

  /** A sequence with no elements is empty. */
  lemma NoMembersEmpty<T>(s: seq<T>)
    ensures (forall x :: x !in s) ==> s == []
  {
    if s != [] {
      assert s[0] in s;
    }
  }

  /** Removing one element of a repeat-free sequence leaves exactly the other elements, still
      without repeats. */
  lemma RemoveAtDistinct<T>(xs: seq<T>, i: int)
    requires Distinct(xs) && 0 <= i < |xs|
    ensures Distinct(RemoveAt(xs, i))
    ensures forall x :: x in RemoveAt(xs, i) <==> x in xs && x != xs[i]
  {
    var r := RemoveAt(xs, i);
    assert forall j :: 0 <= j < |r| ==> r[j] == xs[if j < i then j else j + 1];
    forall x | x in xs && x != xs[i]
      ensures x in r
    {
      var m :| 0 <= m < |xs| && xs[m] == x;
      assert r[if m < i then m else m - 1] == x;
    }
  }

  /** `xs.map(f)`. */
  function Map<T, U>(xs: seq<T>, f: T -> U): (r: seq<U>)
    ensures |r| == |xs|
    ensures forall i :: 0 <= i < |xs| ==> r[i] == f(xs[i])
  {
    if xs == [] then [] else [f(xs[0])] + Map(xs[1..], f)
  }

  function Min(a: int, b: int): int { if a <= b then a else b }
}
