/** The sequence operations the source performs with JavaScript's
    `Array.prototype.filter`: the three diagram filters, the three deletes
    and the paved-section count are all instances of `Filter`. */
module Collections {

  /** `s` with every element failing `p` dropped, order kept. */
  function Filter<T(==,!new)>(p: T -> bool, s: seq<T>): (r: seq<T>)
    ensures |r| <= |s|
    ensures forall x :: x in r <==> x in s && p(x)
    ensures forall i :: 0 <= i < |r| ==> p(r[i])
    decreases |s|
  {
    if s == [] then []
    else
      assert s == [s[0]] + s[1..];
      if p(s[0]) then [s[0]] + Filter(p, s[1..]) else Filter(p, s[1..])
  }

  /** `a` can be obtained from `b` by deleting elements: an order-preserving
      selection. */
  ghost predicate IsSubsequence<T(!new)>(a: seq<T>, b: seq<T>)
    decreases |b|
  {
    if a == [] then true
    else if b == [] then false
    else (a[0] == b[0] && IsSubsequence(a[1..], b[1..])) || IsSubsequence(a, b[1..])
  }

  /** No two elements of `s` share a key. */
  ghost predicate DistinctKeys<T, K>(key: T -> K, s: seq<T>)
  {
    forall i, j :: 0 <= i < j < |s| ==> key(s[i]) != key(s[j])
  }

  /** Filtering keeps its survivors in their original relative order. */
  lemma {:induction false} FilterIsSubsequence<T(!new)>(p: T -> bool, s: seq<T>)
    ensures IsSubsequence(Filter(p, s), s)
    decreases |s|
  {
    if s != [] {
      FilterIsSubsequence(p, s[1..]);
      var r := Filter(p, s);
      if p(s[0]) {
        assert r[0] == s[0] && r[1..] == Filter(p, s[1..]);
      } else {
        assert r == Filter(p, s[1..]);
        if r != [] {
          assert IsSubsequence(r, s[1..]);
        }
      }
    }
  }

  /** Filtering distributes over concatenation: the filtered list is
      assembled piecewise, in input order. */
  lemma {:induction false} FilterAppend<T(!new)>(p: T -> bool, a: seq<T>, b: seq<T>)
    ensures Filter(p, a + b) == Filter(p, a) + Filter(p, b)
    decreases |a|
  {
    if a == [] {
      assert a + b == b;
    } else {
      assert (a + b)[0] == a[0];
      assert (a + b)[1..] == a[1..] + b;
      FilterAppend(p, a[1..], b);
    }
  }

  /** Every element passes: nothing is removed. */
  lemma {:induction false} FilterKeepsAll<T(!new)>(p: T -> bool, s: seq<T>)
    requires forall x :: x in s ==> p(x)
    ensures Filter(p, s) == s
    decreases |s|
  {
    if s != [] {
      assert s[0] in s;
      forall x | x in s[1..] ensures p(x) {
        assert x in s;
      }
      FilterKeepsAll(p, s[1..]);
      assert s == [s[0]] + s[1..];
    }
  }

  /** Filtering twice with the same predicate is filtering once. */
  lemma FilterIdempotent<T(!new)>(p: T -> bool, s: seq<T>)
    ensures Filter(p, Filter(p, s)) == Filter(p, s)
  {
    FilterKeepsAll(p, Filter(p, s));
  }

  /** The multiplicity of each element after filtering: unchanged when it
      passes, zero when it fails. */
  lemma {:induction false} FilterCount<T(!new)>(p: T -> bool, s: seq<T>, x: T)
    ensures multiset(Filter(p, s))[x] == if p(x) then multiset(s)[x] else 0
    decreases |s|
  {
    if s == [] {
    } else {
      FilterCount(p, s[1..], x);
      assert s == [s[0]] + s[1..];
      assert multiset(s) == multiset([s[0]]) + multiset(s[1..]);
      if p(s[0]) {
        assert multiset(Filter(p, s)) == multiset([s[0]]) + multiset(Filter(p, s[1..]));
      }
    }
  }

  /** `FilterCount` for every element at once. */
  lemma FilterCounts<T(!new)>(p: T -> bool, s: seq<T>)
    ensures forall x :: multiset(Filter(p, s))[x] == if p(x) then multiset(s)[x] else 0
  {
    forall x ensures multiset(Filter(p, s))[x] == if p(x) then multiset(s)[x] else 0 {
      FilterCount(p, s, x);
    }
  }

  /** A selection from a sequence with distinct keys has distinct keys. */
  lemma {:induction false} FilterKeepsDistinctKeys<T(!new), K>(key: T -> K, p: T -> bool, s: seq<T>)
    requires DistinctKeys(key, s)
    ensures DistinctKeys(key, Filter(p, s))
    decreases |s|
  {
    if s != [] {
      var t := s[1..];
      assert DistinctKeys(key, t) by {
        forall i, j | 0 <= i < j < |t| ensures key(t[i]) != key(t[j]) {
          assert t[i] == s[i + 1] && t[j] == s[j + 1];
        }
      }
      FilterKeepsDistinctKeys(key, p, t);
      if p(s[0]) {
        var r := Filter(p, s);
        var rt := Filter(p, t);
        assert r == [s[0]] + rt;
        forall i, j | 0 <= i < j < |r| ensures key(r[i]) != key(r[j]) {
          if i == 0 {
            assert r[j] == rt[j - 1];
            assert rt[j - 1] in t;
            var k :| 0 <= k < |t| && t[k] == rt[j - 1];
            assert t[k] == s[k + 1];
          } else {
            assert r[i] == rt[i - 1] && r[j] == rt[j - 1];
          }
        }
      }
    }
  }

  /** Rewriting only elements the predicate rejects, into elements it
      still rejects, does not change what the filter keeps. */
  lemma {:induction false} FilterIgnoresRewrittenRejects<T(!new)>(p: T -> bool, s: seq<T>, t: seq<T>)
    requires |s| == |t|
    requires forall i :: 0 <= i < |s| ==> if p(s[i]) then t[i] == s[i] else !p(t[i])
    ensures Filter(p, t) == Filter(p, s)
    decreases |s|
  {
    if s != [] {
      forall i | 0 <= i < |s| - 1
        ensures if p(s[1..][i]) then t[1..][i] == s[1..][i] else !p(t[1..][i])
      {
        assert s[1..][i] == s[i + 1] && t[1..][i] == t[i + 1];
      }
      FilterIgnoresRewrittenRejects(p, s[1..], t[1..]);
    }
  }

  /** Appending an element whose key is new keeps keys distinct. */
  lemma AppendFreshKeepsDistinctKeys<T(!new), K>(key: T -> K, s: seq<T>, x: T)
    requires DistinctKeys(key, s)
    requires forall y :: y in s ==> key(y) != key(x)
    ensures DistinctKeys(key, s + [x])
  {
    var t := s + [x];
    forall i, j | 0 <= i < j < |t| ensures key(t[i]) != key(t[j]) {
      assert t[i] == s[i] && s[i] in s;
      if j < |s| {
        assert t[j] == s[j];
      }
    }
  }

  /** A pointwise rewrite that leaves every key alone keeps keys distinct. */
  lemma SameKeysKeepDistinctKeys<T, K>(key: T -> K, s: seq<T>, t: seq<T>)
    requires DistinctKeys(key, s)
    requires |s| == |t| && forall i :: 0 <= i < |s| ==> key(t[i]) == key(s[i])
    ensures DistinctKeys(key, t)
  {
  }

  /** Filtering with `q` first never lets more elements through `p`. */
  lemma {:induction false} FilterAfterFilterNoLonger<T(!new)>(p: T -> bool, q: T -> bool, s: seq<T>)
    ensures |Filter(p, Filter(q, s))| <= |Filter(p, s)|
    decreases |s|
  {
    if s != [] {
      FilterAfterFilterNoLonger(p, q, s[1..]);
    }
  }

  /** One step of the filter on a non-empty sequence. */
  lemma FilterCons<T(!new)>(p: T -> bool, x: T, s: seq<T>)
    ensures Filter(p, [x] + s) == if p(x) then [x] + Filter(p, s) else Filter(p, s)
  {
    assert ([x] + s)[0] == x && ([x] + s)[1..] == s;
  }
}
