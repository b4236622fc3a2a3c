/**
 * List operations shared by the id lists of the storefront: the comparison
 * store, the recently-viewed list, the search history and the favourites.
 */
module Lists {

  /** `s.filter(y => y !== x)`: every element other than `x`, in order. */
  function Without<T(==)>(s: seq<T>, x: T): (r: seq<T>)
    ensures x !in r
    ensures forall y :: y in r ==> y in s && y != x
    ensures forall y :: y in s && y != x ==> y in r
    ensures |r| <= |s|
    ensures x !in s ==> r == s
  {
    if s == [] then []
    else if s[0] == x then Without(s[1..], x)
    else [s[0]] + Without(s[1..], x)
  }

  /** `a` is obtained from `b` by deleting elements, keeping the relative order. */
  ghost predicate Subsequence<T>(a: seq<T>, b: seq<T>)
    decreases |b|
  {
    if a == [] then true
    else if b == [] then false
    else if a[0] == b[0] then Subsequence(a[1..], b[1..])
    else Subsequence(a, b[1..])
  }

  ghost predicate NoDuplicates<T>(s: seq<T>) {
    forall i, j :: 0 <= i < j < |s| ==> s[i] != s[j]
  }

  /** `s.slice(0, n)`. */
  function Take<T>(s: seq<T>, n: nat): (r: seq<T>)
    ensures |r| <= n && |r| <= |s|
    ensures r == s[..|r|]
    ensures |s| <= n ==> r == s
    ensures n <= |s| ==> |r| == n
  {
    if |s| <= n then s else s[..n]
  }

  /** `[x, ...s.filter(y => y !== x)].slice(0, cap)`: move-to-front with a cap. */
  function Promote<T(==)>(s: seq<T>, x: T, cap: nat): seq<T> {
    Take([x] + Without(s, x), cap)
  }

  lemma {:induction false} WithoutIsSubsequence<T>(s: seq<T>, x: T)
    ensures Subsequence(Without(s, x), s)
  {
    if s != [] {
      WithoutIsSubsequence(s[1..], x);
      if s[0] != x {
        assert ([s[0]] + Without(s[1..], x))[1..] == Without(s[1..], x);
      } else {
        SubsequenceSkip(Without(s[1..], x), s[0], s[1..]);
      }
    }
  }

  /** Putting one more element in front of `b` keeps `a` a subsequence of it. */
  lemma {:induction false} SubsequenceSkip<T>(a: seq<T>, y: T, b: seq<T>)
    requires Subsequence(a, b)
    ensures Subsequence(a, [y] + b)
    decreases |b|, 1
  {
    if a != [] && a[0] == y {
      assert ([y] + b)[1..] == b;
      SubsequenceDropFirst(a, b);
    } else {
      assert ([y] + b)[1..] == b;
    }
  }

  /** A subsequence of `b` without its first element is still a subsequence of `b`. */
  lemma {:induction false} SubsequenceDropFirst<T>(a: seq<T>, b: seq<T>)
    requires a != [] && Subsequence(a, b)
    ensures Subsequence(a[1..], b)
    decreases |b|, 0
  {
    if a[1..] != [] {
      if a[0] == b[0] {
        SubsequenceSkip(a[1..], b[0], b[1..]);
        assert [b[0]] + b[1..] == b;
      } else {
        SubsequenceDropFirst(a, b[1..]);
        SubsequenceSkip(a[1..], b[0], b[1..]);
        assert [b[0]] + b[1..] == b;
      }
    }
  }

  /** A prefix of a subsequence of `b` is a subsequence of `b`. */
  lemma {:induction false} PrefixOfSubsequence<T>(a: seq<T>, n: nat, b: seq<T>)
    requires n <= |a| && Subsequence(a, b)
    ensures Subsequence(a[..n], b)
    decreases |b|
  {
    if n > 0 {
      if a[0] == b[0] {
        PrefixOfSubsequence(a[1..], n - 1, b[1..]);
        assert a[..n][1..] == a[1..][..n - 1];
      } else {
        PrefixOfSubsequence(a, n, b[1..]);
      }
    }
  }

  /** Filtering keeps the count of every other element and drops `x` entirely. */
  lemma {:induction false} WithoutCounts<T>(s: seq<T>, x: T)
    ensures multiset(Without(s, x))[x] == 0
    ensures forall y :: y != x ==> multiset(Without(s, x))[y] == multiset(s)[y]
  {
    if s != [] {
      WithoutCounts(s[1..], x);
      assert s == [s[0]] + s[1..];
    }
  }

  /** Filtering a list without duplicates leaves a list without duplicates. */
  lemma {:induction false} WithoutNoDuplicates<T>(s: seq<T>, x: T)
    ensures NoDuplicates(s) ==> NoDuplicates(Without(s, x))
  {
    if s != [] && NoDuplicates(s) {
      assert NoDuplicates(s[1..]) by {
        forall i, j | 0 <= i < j < |s[1..]| ensures s[1..][i] != s[1..][j] {
          assert s[1..][i] == s[i + 1] && s[1..][j] == s[j + 1];
        }
      }
      WithoutNoDuplicates(s[1..], x);
      if s[0] != x {
        assert s[0] !in s[1..] by {
          forall k | 0 <= k < |s[1..]| ensures s[1..][k] != s[0] {
            assert s[1..][k] == s[k + 1];
          }
        }
        ConsNoDuplicates(s[0], Without(s[1..], x));
      }
    }
  }

  lemma ConsNoDuplicates<T>(y: T, t: seq<T>)
    requires y !in t && NoDuplicates(t)
    ensures NoDuplicates([y] + t)
  {
    var u := [y] + t;
    forall i, j | 0 <= i < j < |u| ensures u[i] != u[j] {
      assert u[j] == t[j - 1];
      if i > 0 {
        assert u[i] == t[i - 1];
      }
    }
  }

  /** Every prefix of a list without duplicates has none. */
  lemma PrefixNoDuplicates<T>(s: seq<T>, n: nat)
    requires n <= |s| && NoDuplicates(s)
    ensures NoDuplicates(s[..n])
  {
  }

  /**
   * Move-to-front with a cap: `x` comes first and occurs once, the list is at
   * most `cap` long, the rest is a subsequence of the old list (relative order
   * kept) without `x`, and nothing is dropped unless the cap forces it.
   */
  lemma PromoteFacts<T>(s: seq<T>, x: T, cap: nat)
    requires cap >= 1
    ensures var r := Promote(s, x, cap);
      && |r| <= cap
      && r != [] && r[0] == x
      && multiset(r)[x] == 1
      && x !in r[1..]
      && Subsequence(r[1..], s)
      && (forall y :: y in r ==> y == x || y in s)
      && (|Without(s, x)| < cap ==> forall y :: y in s ==> y in r)
  {
    var w := Without(s, x);
    var r := Promote(s, x, cap);
    assert r == ([x] + w)[..|r|];
    assert r[1..] == w[..|r| - 1];
    WithoutIsSubsequence(s, x);
    PrefixOfSubsequence(w, |r| - 1, s);
    var p := w[..|r| - 1];
    assert x !in p by {
      forall k | 0 <= k < |p| ensures p[k] != x {
        assert p[k] == w[k];
      }
    }
    assert r == [x] + r[1..];
    assert multiset(r) == multiset{x} + multiset(r[1..]);
    forall y | y in r ensures y == x || y in s {
      if y != x {
        assert y in r[1..];
        assert y in w by {
          var k :| 0 <= k < |r[1..]| && r[1..][k] == y;
          assert w[k] == y;
        }
      }
    }
    if |w| < cap {
      assert r == [x] + w;
    }
  }

  /** With no duplicates before, there are none after a move-to-front. */
  lemma PromoteNoDuplicates<T>(s: seq<T>, x: T, cap: nat)
    ensures NoDuplicates(s) ==> NoDuplicates(Promote(s, x, cap))
  {
    if NoDuplicates(s) {
      WithoutNoDuplicates(s, x);
      ConsNoDuplicates(x, Without(s, x));
      PrefixNoDuplicates([x] + Without(s, x), |Promote(s, x, cap)|);
    }
  }

  /** A full list that does not hold `x` loses its last (oldest) element. */
  lemma PromoteOverflow<T>(s: seq<T>, x: T, cap: nat)
    requires cap >= 1 && x !in s && |s| >= cap
    ensures Promote(s, x, cap) == [x] + s[..cap - 1]
  {
    assert ([x] + s)[..cap] == [x] + s[..cap - 1];
  }

  /** Promoting the element already at the front of a short list without duplicates changes nothing. */
  lemma PromoteFront<T>(s: seq<T>, cap: nat)
    ensures s != [] && |s| <= cap && NoDuplicates(s) ==> Promote(s, s[0], cap) == s
  {
    if s != [] && |s| <= cap && NoDuplicates(s) {
      PromoteFrontOf(s, cap);
    }
  }

  lemma PromoteFrontOf<T>(s: seq<T>, cap: nat)
    requires s != [] && |s| <= cap && NoDuplicates(s)
    ensures Promote(s, s[0], cap) == s
  {
    assert s[0] !in s[1..] by {
      forall k | 0 <= k < |s[1..]| ensures s[1..][k] != s[0] {
        assert s[1..][k] == s[k + 1];
      }
    }
    assert Without(s, s[0]) == Without(s[1..], s[0]) == s[1..];
    assert [s[0]] + s[1..] == s;
  }
}
