/**
  `Array.prototype.filter` and the order-preservation facts about it that
  the catalogue, FAQ and subscription lists depend on.
 */
module Seqs {

  /** `s.filter(p)`: the elements of `s` satisfying `p`, in their order. */
  function Filter<T(==,!new)>(p: T -> bool, s: seq<T>): (r: seq<T>)
    ensures |r| <= |s|
    ensures forall x :: x in r <==> x in s && p(x)
    decreases |s|
  {
    if s == [] then []
    else
      assert s == [s[0]] + s[1..];
      (if p(s[0]) then [s[0]] else []) + Filter(p, s[1..])
  }

  /** `a` is `b` with some elements left out, the rest in their order. */
  predicate IsSubsequence<T(==)>(a: seq<T>, b: seq<T>)
    decreases |b|
  {
    if a == [] then true
    else if b == [] then false
    else (a[0] == b[0] && IsSubsequence(a[1..], b[1..])) || IsSubsequence(a, b[1..])
  }

  lemma {:induction false} SubsequenceReflexive<T(!new)>(a: seq<T>)
    ensures IsSubsequence(a, a)
    decreases |a|
  {
    if a != [] {
      SubsequenceReflexive(a[1..]);
    }
  }

  lemma {:induction false} SubsequenceTransitive<T(!new)>(a: seq<T>, b: seq<T>, c: seq<T>)
    requires IsSubsequence(a, b) && IsSubsequence(b, c)
    ensures IsSubsequence(a, c)
    decreases |c|
  {
    if a == [] {
    } else if a[0] == b[0] && IsSubsequence(a[1..], b[1..]) {
      if b[0] == c[0] && IsSubsequence(b[1..], c[1..]) {
        SubsequenceTransitive(a[1..], b[1..], c[1..]);
      } else {
        SubsequenceTransitive(a, b, c[1..]);
      }
    } else {
      if b[0] == c[0] && IsSubsequence(b[1..], c[1..]) {
        SubsequenceTransitive(a, b[1..], c[1..]);
      } else {
        SubsequenceTransitive(a, b, c[1..]);
      }
    }
  }

  /** Filtering keeps the surviving elements in their original order. */
  lemma {:induction false} FilterIsSubsequence<T(!new)>(p: T -> bool, s: seq<T>)
    ensures IsSubsequence(Filter(p, s), s)
    decreases |s|
  {
    if s != [] {
      FilterIsSubsequence(p, s[1..]);
      var rest := Filter(p, s[1..]);
      if p(s[0]) {
        assert Filter(p, s) == [s[0]] + rest;
        assert ([s[0]] + rest)[1..] == rest;
      } else {
        assert Filter(p, s) == rest;
      }
    }
  }

  /** Filtering by two predicates that agree everywhere gives the same list. */
  lemma {:induction false} FilterExtensional<T(!new)>(p: T -> bool, q: T -> bool, s: seq<T>)
    requires forall x :: p(x) == q(x)
    ensures Filter(p, s) == Filter(q, s)
    decreases |s|
  {
    if s != [] {
      FilterExtensional(p, q, s[1..]);
    }
  }

  /** A filter that keeps every element returns the list unchanged. */
  lemma {:induction false} FilterKeepsAll<T(!new)>(p: T -> bool, s: seq<T>)
    requires forall x :: x in s ==> p(x)
    ensures Filter(p, s) == s
    decreases |s|
  {
    if s != [] {
      assert s[0] in s;
      forall x | x in s[1..] ensures p(x) {
        assert x in s;
      }
      FilterKeepsAll(p, s[1..]);
      assert [s[0]] + s[1..] == s;
    }
  }

  /** Two filters in a row are one filter by the conjunction `r`. */
  lemma {:induction false} FilterTwice<T(!new)>(p: T -> bool, q: T -> bool, r: T -> bool, s: seq<T>)
    requires forall x :: r(x) == (p(x) && q(x))
    ensures Filter(q, Filter(p, s)) == Filter(r, s)
    decreases |s|
  {
    if s != [] {
      FilterTwice(p, q, r, s[1..]);
      var rest := Filter(p, s[1..]);
      if p(s[0]) {
        assert Filter(p, s) == [s[0]] + rest;
        assert ([s[0]] + rest)[1..] == rest;
        assert Filter(q, Filter(p, s)) == (if q(s[0]) then [s[0]] else []) + Filter(q, rest);
      } else {
        assert Filter(p, s) == rest;
      }
    }
  }

  /** Filtering a concatenation filters each part. */
  lemma {:induction false} FilterConcat<T(!new)>(p: T -> bool, a: seq<T>, b: seq<T>)
    ensures Filter(p, a + b) == Filter(p, a) + Filter(p, b)
    decreases |a|
  {
    if a == [] {
      assert a + b == b;
    } else {
      assert (a + b)[0] == a[0];
      assert (a + b)[1..] == a[1..] + b;
      FilterConcat(p, a[1..], b);
    }
  }

  /** A filter over eight elements, written out element by element. */
  lemma FilterEight<T(!new)>(p: T -> bool, c0: T, c1: T, c2: T, c3: T,
                    c4: T, c5: T, c6: T, c7: T)
    ensures Filter(p, [c0, c1, c2, c3, c4, c5, c6, c7])
            == ((Keep(p, c0) + Keep(p, c1)) + (Keep(p, c2) + Keep(p, c3)))
               + ((Keep(p, c4) + Keep(p, c5)) + (Keep(p, c6) + Keep(p, c7)))
  {
    var front, back := [c0, c1, c2, c3], [c4, c5, c6, c7];
    assert front + back == [c0, c1, c2, c3, c4, c5, c6, c7];
    FilterConcat(p, front, back);
    FilterFour(p, c0, c1, c2, c3);
    FilterFour(p, c4, c5, c6, c7);
  }

  lemma FilterFour<T(!new)>(p: T -> bool, c0: T, c1: T, c2: T, c3: T)
    ensures Filter(p, [c0, c1, c2, c3]) == (Keep(p, c0) + Keep(p, c1)) + (Keep(p, c2) + Keep(p, c3))
  {
    var front, back := [c0, c1], [c2, c3];
    assert front + back == [c0, c1, c2, c3];
    FilterConcat(p, front, back);
    FilterPair(p, c0, c1);
    FilterPair(p, c2, c3);
  }

  /** What one element contributes to a filter's result. */
  function Keep<T>(p: T -> bool, c: T): seq<T> {
    if p(c) then [c] else []
  }

  lemma FilterPair<T(!new)>(p: T -> bool, x: T, y: T)
    ensures Filter(p, [x, y]) == Keep(p, x) + Keep(p, y)
  {
    assert [x, y][1..] == [y];
  }

  /** No element of `s` occurs twice. */
  predicate Distinct<T(==)>(s: seq<T>) {
    forall i, j | 0 <= i < j < |s| :: s[i] != s[j]
  }

  /** Filtering a list without repetitions by equality with one value keeps
      that value once if it is there, and nothing otherwise. */
  lemma {:induction false} FilterSingleton<T(!new)>(p: T -> bool, v: T, s: seq<T>)
    requires forall x :: p(x) == (x == v)
    requires Distinct(s)
    ensures v in s ==> Filter(p, s) == [v]
    ensures v !in s ==> Filter(p, s) == []
    decreases |s|
  {
    if s != [] {
      assert Distinct(s[1..]) by {
        forall i, j | 0 <= i < j < |s[1..]| ensures s[1..][i] != s[1..][j] {
          assert s[1..][i] == s[i + 1] && s[1..][j] == s[j + 1];
        }
      }
      FilterSingleton(p, v, s[1..]);
      if s[0] == v {
        assert v !in s[1..] by {
          forall k | 0 <= k < |s[1..]| ensures s[1..][k] != v {
            assert s[1..][k] == s[k + 1];
          }
        }
      }
    }
  }

  /** The filtered list is empty exactly when no element satisfies `p`. */
  lemma FilterEmpty<T(!new)>(p: T -> bool, s: seq<T>)
    ensures Filter(p, s) == [] <==> forall x :: x in s ==> !p(x)
  {
    if Filter(p, s) != [] {
      assert Filter(p, s)[0] in Filter(p, s);
    }
  }
}
