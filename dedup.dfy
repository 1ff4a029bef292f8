/**
 * Array.prototype.indexOf and the first-seen deduplication the worker applies to
 * every batch of identifiers: `ids.filter((v, i, a) => a.indexOf(v) === i)`.
 * Identifiers are strings (public keys, event ids, badge addresses).
 */
module Dedup {

  /** First index of `x` in `a`, or -1. */
  function IndexOf<T(==)>(a: seq<T>, x: T): (i: int)
    ensures -1 <= i < |a|
    ensures i == -1 <==> x !in a
    ensures 0 <= i ==> a[i] == x
  {
    if |a| == 0 then -1
    else if a[0] == x then 0
    else
      var j := IndexOf(a[1..], x);
      if j == -1 then -1 else j + 1
  }

  /** No occurrence of `x` comes before the index IndexOf returns. */
  lemma {:induction false} IndexOfAtMost<T>(a: seq<T>, k: nat)
    requires k < |a|
    ensures 0 <= IndexOf(a, a[k]) <= k
  {
    if a[0] != a[k] {
      assert a[1..][k - 1] == a[k];
      IndexOfAtMost(a[1..], k - 1);
    }
  }

  /** `x` does not occur before the index IndexOf returns. */
  lemma NotBeforeIndexOf<T>(a: seq<T>, x: T)
    ensures x !in a[..if IndexOf(a, x) < 0 then 0 else IndexOf(a, x)]
  {
    var i := IndexOf(a, x);
    if i > 0 && x in a[..i] {
      var m :| 0 <= m < i && a[..i][m] == x;
      IndexOfAtMost(a, m);
    }
  }

  lemma HeadContained<T>(t: seq<T>)
    ensures t != [] ==> t[0] in t
  {
  }

  /** The elements a[i], i < n, whose first index in all of `a` is i, in index order. */
  function KeepFirst(a: seq<string>, n: nat): seq<string>
    requires n <= |a|
  {
    if n == 0 then []
    else KeepFirst(a, n - 1) + (if IndexOf(a, a[n - 1]) == n - 1 then [a[n - 1]] else [])
  }

  /** `a` with later repetitions dropped: the filter the worker runs on each batch. */
  function Unique(a: seq<string>): seq<string>
  {
    KeepFirst(a, |a|)
  }

  ghost predicate NoDuplicates(s: seq<string>)
  {
    forall i, j :: 0 <= i < j < |s| ==> s[i] != s[j]
  }

  /** Elements appear in the order of their first occurrence in `a`. */
  ghost predicate FirstSeenOrder(a: seq<string>, s: seq<string>)
  {
    forall i, j :: 0 <= i < j < |s| ==> IndexOf(a, s[i]) < IndexOf(a, s[j])
  }

  lemma {:induction false} KeepFirstFacts(a: seq<string>, n: nat)
    requires n <= |a|
    ensures |KeepFirst(a, n)| <= n
    ensures forall x :: x in KeepFirst(a, n) <==> x in a[..n]
    ensures forall x :: x in KeepFirst(a, n) ==> IndexOf(a, x) < n
    ensures FirstSeenOrder(a, KeepFirst(a, n))
  {
    if n > 0 {
      KeepFirstFacts(a, n - 1);
      var prev := KeepFirst(a, n - 1);
      var x := a[n - 1];
      assert a[..n] == a[..n - 1] + [x];
      IndexOfAtMost(a, n - 1);
      forall y | y in a[..n - 1] ensures IndexOf(a, y) < n - 1 {
        var k :| 0 <= k < n - 1 && a[..n - 1][k] == y;
        IndexOfAtMost(a, k);
      }
      if IndexOf(a, x) != n - 1 {
        var i := IndexOf(a, x);
        assert a[..n - 1][i] == x;
      }
    }
  }

  /** The deduplicated batch: no repeats, exactly the input's elements, in first-seen order. */
  lemma UniqueCharacterised(a: seq<string>)
    ensures NoDuplicates(Unique(a))
    ensures forall x :: x in Unique(a) <==> x in a
    ensures FirstSeenOrder(a, Unique(a))
    ensures |Unique(a)| <= |a|
  {
    KeepFirstFacts(a, |a|);
    assert a[..|a|] == a;
  }

  /** The three properties above determine the result: any sequence that has them is Unique(a). */
  lemma {:induction false} UniqueIsDetermined(a: seq<string>, s: seq<string>, t: seq<string>)
    requires NoDuplicates(s) && NoDuplicates(t)
    requires forall x :: x in s <==> x in t
    requires FirstSeenOrder(a, s) && FirstSeenOrder(a, t)
    requires forall x :: x in s ==> x in a
    ensures s == t
    decreases |s|
  {
    if s == [] {
      HeadContained(t);
    } else {
      assert s[0] in s;
      HeadsAgree(a, s, t);
      TailsAgree(s, t);
      TailKeeps(a, s);
      TailKeeps(a, t);
      UniqueIsDetermined(a, s[1..], t[1..]);
    }
  }

  /** Both heads are the member of least first index in `a`. */
  lemma HeadsAgree(a: seq<string>, s: seq<string>, t: seq<string>)
    requires s != []
    requires forall x :: x in s <==> x in t
    requires FirstSeenOrder(a, s) && FirstSeenOrder(a, t)
    requires forall x :: x in s ==> x in a
    ensures t != [] && s[0] == t[0]
  {
    assert s[0] in s;
    assert s[0] in t;
    assert t[0] in t;
    var j :| 0 <= j < |t| && t[j] == s[0];
    var k :| 0 <= k < |s| && s[k] == t[0];
    assert IndexOf(a, t[0]) <= IndexOf(a, s[0]);
    assert IndexOf(a, s[0]) <= IndexOf(a, t[0]);
    assert s[0] in a;
  }

  lemma TailsAgree(s: seq<string>, t: seq<string>)
    requires s != [] && t != [] && s[0] == t[0]
    requires NoDuplicates(s) && NoDuplicates(t)
    requires forall x :: x in s <==> x in t
    ensures forall x :: x in s[1..] <==> x in t[1..]
  {
    forall x ensures x in s[1..] ==> x in t[1..] {
      if x in s[1..] {
        var k :| 0 <= k < |s| - 1 && s[1..][k] == x;
        assert s[k + 1] == x && x in s;
        var m :| 0 <= m < |t| && t[m] == x;
        assert m != 0 && t[1..][m - 1] == x;
      }
    }
    forall x ensures x in t[1..] ==> x in s[1..] {
      if x in t[1..] {
        var k :| 0 <= k < |t| - 1 && t[1..][k] == x;
        assert t[k + 1] == x && x in t;
        var m :| 0 <= m < |s| && s[m] == x;
        assert m != 0 && s[1..][m - 1] == x;
      }
    }
  }

  lemma TailKeeps(a: seq<string>, s: seq<string>)
    requires s != []
    requires NoDuplicates(s) && FirstSeenOrder(a, s)
    ensures NoDuplicates(s[1..]) && FirstSeenOrder(a, s[1..])
  {
    forall i, j | 0 <= i < j < |s| - 1 ensures s[1..][i] != s[1..][j] {
      assert s[1..][i] == s[i + 1] && s[1..][j] == s[j + 1];
    }
    forall i, j | 0 <= i < j < |s| - 1 ensures IndexOf(a, s[1..][i]) < IndexOf(a, s[1..][j]) {
      assert s[1..][i] == s[i + 1] && s[1..][j] == s[j + 1];
    }
  }

  /** Deduplicating a sequence that has no repeats leaves it as it is; so Unique is idempotent. */
  lemma UniqueOfDistinct(s: seq<string>)
    requires NoDuplicates(s)
    ensures Unique(s) == s
  {
    KeepAllDistinct(s, |s|);
    assert s[..|s|] == s;
  }

  lemma {:induction false} KeepAllDistinct(s: seq<string>, n: nat)
    requires NoDuplicates(s) && n <= |s|
    ensures KeepFirst(s, n) == s[..n]
  {
    if n > 0 {
      KeepAllDistinct(s, n - 1);
      IndexOfAtMost(s, n - 1);
      var i := IndexOf(s, s[n - 1]);
      assert s[i] == s[n - 1];
      assert s[..n] == s[..n - 1] + [s[n - 1]];
    }
  }

  lemma UniqueIdempotent(a: seq<string>)
    ensures Unique(Unique(a)) == Unique(a)
  {
    UniqueCharacterised(a);
    UniqueOfDistinct(Unique(a));
  }

  /** A batch made of one identifier repeated N times dispatches that identifier once. */
  lemma UniqueOfRepeated(a: seq<string>, x: string)
    requires |a| > 0
    requires forall i :: 0 <= i < |a| ==> a[i] == x
    ensures Unique(a) == [x]
  {
    UniqueCharacterised(a);
    var u := Unique(a);
    assert x in a;
    assert x in u;
    forall y | y in u ensures y == x {
      var i :| 0 <= i < |a| && a[i] == y;
    }
    assert FirstSeenOrder(a, [x]);
    UniqueIsDetermined(a, u, [x]);
  }

  /** Appending elements does not move the first index of an element already present. */
  lemma {:induction false} IndexOfExtend(a: seq<string>, b: seq<string>, x: string)
    requires x in a
    ensures IndexOf(a + b, x) == IndexOf(a, x)
  {
    if a[0] != x {
      assert (a + b)[1..] == a[1..] + b;
      assert x in a[1..] by {
        var k :| 0 <= k < |a| && a[k] == x;
        assert a[1..][k - 1] == x;
      }
      IndexOfExtend(a[1..], b, x);
    }
  }

  /** The first n kept elements depend only on the first n elements. */
  lemma {:induction false} KeepFirstExtend(a: seq<string>, b: seq<string>, n: nat)
    requires n <= |a|
    ensures KeepFirst(a + b, n) == KeepFirst(a, n)
  {
    if n > 0 {
      KeepFirstExtend(a, b, n - 1);
      assert (a + b)[n - 1] == a[n - 1];
      assert a[n - 1] in a;
      IndexOfExtend(a, b, a[n - 1]);
    }
  }

  lemma PrefixElementOf(a: seq<string>, b: seq<string>, i: int)
    ensures 0 <= i < |a| ==> (a + b)[i] in a
  {
    if 0 <= i < |a| {
      assert (a + b)[i] == a[i];
    }
  }

  /** Deduplicating `a + [x]`: x is added at the end exactly when it is new. */
  lemma UniqueSnoc(a: seq<string>, x: string)
    ensures Unique(a + [x]) == if x in a then Unique(a) else Unique(a) + [x]
  {
    var n := |a|;
    KeepFirstExtend(a, [x], n);
    assert (a + [x])[n] == x;
    var i := IndexOf(a + [x], x);
    if x in a {
      IndexOfExtend(a, [x], x);
    } else {
      IndexOfAtMost(a + [x], n);
      PrefixElementOf(a, [x], i);
    }
  }
}
