/** Small sequence vocabulary shared by the model: an optional value, and the
    three array methods the portal relies on (`filter`, `map`, `findIndex`),
    each specified by what it returns rather than how. */
module Basics {

  /** A value that may be absent (`undefined` / `null` in the portal). */
  datatype Option<+T> = None | Some(value: T)

  /** `r` can be obtained from `s` by deleting elements: every element of `r`
      comes from `s`, and in the same relative order. */
  predicate SubsequenceOf<T(==)>(r: seq<T>, s: seq<T>)
    decreases |s|
  {
    if r == [] then true
    else if s == [] then false
    else if r[0] == s[0] then SubsequenceOf(r[1..], s[1..])
    else SubsequenceOf(r, s[1..])
  }

  /** Being a subsequence is transitive. */
  lemma {:induction false} SubsequenceTransitive<T>(a: seq<T>, b: seq<T>, c: seq<T>)
    requires SubsequenceOf(a, b) && SubsequenceOf(b, c)
    ensures SubsequenceOf(a, c)
    decreases |c|
  {
    if a == [] {
    } else if c == [] {
    } else if b[0] == c[0] {
      if a[0] == b[0] {
        SubsequenceTransitive(a[1..], b[1..], c[1..]);
      } else {
        SubsequenceTransitive(a, b[1..], c[1..]);
      }
    } else {
      SubsequenceTransitive(a, b, c[1..]);
      if a[0] == c[0] {
        SubsequenceDropHead(a, c[1..]);
      }
    }
  }

  /** Dropping the first element of a subsequence keeps it a subsequence. */
  lemma {:induction false} SubsequenceDropHead<T>(r: seq<T>, s: seq<T>)
    requires r != [] && SubsequenceOf(r, s)
    ensures SubsequenceOf(r[1..], s)
    decreases |s|, 1
  {
    if r[0] == s[0] {
      SubsequenceSkip(r[1..], s);
    } else {
      SubsequenceDropHead(r, s[1..]);
      SubsequenceSkip(r[1..], s);
    }
  }

  /** A subsequence of the tail of `s` is a subsequence of `s`. */
  lemma {:induction false} SubsequenceSkip<T>(r: seq<T>, s: seq<T>)
    requires s != [] && SubsequenceOf(r, s[1..])
    ensures SubsequenceOf(r, s)
    decreases |s|, 0
  {
    if r != [] && r[0] == s[0] {
      SubsequenceDropHead(r, s[1..]);
    }
  }

  /** Every element of a subsequence occurs in the sequence it was taken from. */
  lemma {:induction false} SubsequenceMembers<T>(r: seq<T>, s: seq<T>, x: T)
    requires SubsequenceOf(r, s) && x in r
    ensures x in s
    decreases |s|
  {
    if r[0] == s[0] {
      if x != r[0] {
        SubsequenceMembers(r[1..], s[1..], x);
      }
    } else {
      SubsequenceMembers(r, s[1..], x);
    }
  }

  /** JavaScript's `Array.prototype.filter`: the elements of `s` that satisfy
      `p`, in their original order. */
  function Filter<T>(s: seq<T>, p: T -> bool): (r: seq<T>)
    ensures |r| <= |s|
  {
    if s == [] then []
    else if p(s[0]) then [s[0]] + Filter(s[1..], p)
    else Filter(s[1..], p)
  }

  /** The filter keeps exactly the elements that pass, in their order: the
      result is a subsequence of `s`, each element it returns passes, each
      element of `s` that passes is kept, and as many times as `s` holds it. */
  lemma {:induction false} FilterMembers<T>(s: seq<T>, p: T -> bool)
    ensures var r := Filter(s, p);
      && SubsequenceOf(r, s)
      && (forall i :: 0 <= i < |r| ==> r[i] in s && p(r[i]))
      && (forall i :: 0 <= i < |s| && p(s[i]) ==> s[i] in r)
      && (forall x :: multiset(r)[x] == if p(x) then multiset(s)[x] else 0)
  {
    if s != [] {
      FilterMembers(s[1..], p);
      var r, t := Filter(s, p), Filter(s[1..], p);
      assert s == [s[0]] + s[1..];
      assert multiset(s) == multiset{s[0]} + multiset(s[1..]);
      if p(s[0]) {
        assert r == [s[0]] + t;
        assert r[1..] == t;
        assert multiset(r) == multiset{s[0]} + multiset(t);
      } else {
        SubsequenceSkip(r, s);
      }
      forall i | 0 <= i < |r|
        ensures r[i] in s && p(r[i])
      {
        if !p(s[0]) {
          assert r[i] == t[i];
        } else if i > 0 {
          assert r[i] == t[i - 1];
        }
      }
      forall i | 0 <= i < |s| && p(s[i])
        ensures s[i] in r
      {
        if i > 0 {
          assert s[i] == s[1..][i - 1];
        }
      }
    }
  }

  /** Filtering a concatenation filters each part. */
  lemma {:induction false} FilterAppend<T>(a: seq<T>, b: seq<T>, p: T -> bool)
    ensures Filter(a + b, p) == Filter(a, p) + Filter(b, p)
  {
    if a == [] {
      assert a + b == b;
    } else {
      assert (a + b)[1..] == a[1..] + b;
      FilterAppend(a[1..], b, p);
    }
  }

  /** A filter keeps everything exactly when every element passes it. */
  lemma {:induction false} FilterAll<T>(s: seq<T>, p: T -> bool)
    requires forall i :: 0 <= i < |s| ==> p(s[i])
    ensures Filter(s, p) == s
  {
    if s != [] {
      FilterAll(s[1..], p);
    }
  }

  /** A filter keeps nothing exactly when no element passes it. */
  lemma {:induction false} FilterNone<T>(s: seq<T>, p: T -> bool)
    requires forall i :: 0 <= i < |s| ==> !p(s[i])
    ensures Filter(s, p) == []
  {
    if s != [] {
      FilterNone(s[1..], p);
    }
  }

  /** When the elements that pass are exactly those at positions `lo` to
      `hi - 1`, the filter returns that slice. */
  lemma {:induction false} FilterRange<T>(s: seq<T>, p: T -> bool, lo: nat, hi: nat)
    requires lo <= hi <= |s|
    requires forall i :: 0 <= i < |s| ==> (p(s[i]) <==> lo <= i < hi)
    ensures Filter(s, p) == s[lo..hi]
    decreases |s|
  {
    if s == [] {
    } else if hi == 0 {
      FilterNone(s, p);
    } else {
      var t := s[1..];
      assert forall i :: 0 <= i < |t| ==> t[i] == s[i + 1];
      if lo > 0 {
        FilterRange(t, p, lo - 1, hi - 1);
        assert s[lo..hi] == t[lo - 1..hi - 1];
      } else {
        FilterRange(t, p, 0, hi - 1);
        assert s[..hi] == [s[0]] + t[..hi - 1];
      }
    }
  }

  /** When exactly the elements at positions `i` and `j` pass, the filter
      returns those two. */
  lemma {:induction false} FilterPair<T>(s: seq<T>, p: T -> bool, i: nat, j: nat)
    requires i < j < |s|
    requires forall k :: 0 <= k < |s| ==> (p(s[k]) <==> k == i || k == j)
    ensures Filter(s, p) == [s[i], s[j]]
    decreases |s|
  {
    if i > 0 {
      FilterPair(s[1..], p, i - 1, j - 1);
    } else {
      FilterRange(s[1..], p, j - 1, j);
    }
  }

  /** JavaScript's `Array.prototype.map`. */
  function Map<T, U>(s: seq<T>, f: T -> U): (r: seq<U>)
    ensures |r| == |s|
    ensures forall i :: 0 <= i < |s| ==> r[i] == f(s[i])
  {
    if s == [] then [] else [f(s[0])] + Map(s[1..], f)
  }

  /** JavaScript's `Array.prototype.findIndex`: the first index whose element
      satisfies `p`, or -1 when there is none. */
  function FindIndex<T>(s: seq<T>, p: T -> bool): (r: int)
    ensures -1 <= r < |s|
    ensures r == -1 <==> forall i :: 0 <= i < |s| ==> !p(s[i])
    ensures 0 <= r ==> p(s[r]) && forall i :: 0 <= i < r ==> !p(s[i])
  {
    if s == [] then -1
    else if p(s[0]) then 0
    else
      var k := FindIndex(s[1..], p);
      if k == -1 then -1 else k + 1
  }
}
