// Sequence helpers shared by the components: the absence of repeats and
// `filter(x => x !== v)`.

module Seqs {

  predicate NoDuplicates<T(==)>(s: seq<T>)
  {
    forall i, j :: 0 <= i < j < |s| ==> s[i] != s[j]
  }

  /** `s.filter(x => x !== v)`: every copy of `v` is gone. */
  function Without<T(==)>(s: seq<T>, v: T): (r: seq<T>)
    ensures v !in r && |r| <= |s|
  {
    if s == [] then []
    else
      var rest := Without(s[..|s| - 1], v);
      var last := s[|s| - 1];
      if last != v then rest + [last] else rest
  }

  /** Every element other than `v` keeps its number of occurrences. */
  lemma {:induction false} WithoutCount<T>(s: seq<T>, v: T)
    ensures multiset(Without(s, v)) == multiset(s)[v := 0]
    decreases |s|
  {
    if s != [] {
      var init := s[..|s| - 1];
      var last := s[|s| - 1];
      WithoutCount(init, v);
      assert s == init + [last];
      assert multiset(s) == multiset(init) + multiset{last};
      var rest := Without(init, v);
      if last != v {
        assert multiset(rest + [last]) == multiset(rest) + multiset{last};
      }
    }
  }

  /** Filtering never creates a repeat. */
  lemma WithoutDistinct<T>(s: seq<T>, v: T)
    requires NoDuplicates(s)
    ensures NoDuplicates(Without(s, v))
  {
    WithoutCount(s, v);
    var r := Without(s, v);
    forall i, j | 0 <= i < j < |r| ensures r[i] != r[j] {
      if r[i] == r[j] {
        assert multiset(r)[r[i]] >= 2 by {
          assert r == r[..i] + [r[i]] + r[i + 1..j] + [r[j]] + r[j + 1..];
        }
        assert r[i] in multiset(s);
        OccursOnce(s, r[i]);
      }
    }
  }

  /** The kept elements stay in order: filtering out a value that is not
      there changes nothing. */
  lemma {:induction false} WithoutAbsent<T>(s: seq<T>, v: T)
    requires v !in s
    ensures Without(s, v) == s
    decreases |s|
  {
    if s != [] {
      WithoutAbsent(s[..|s| - 1], v);
      assert s == s[..|s| - 1] + [s[|s| - 1]];
    }
  }

  /** A single element is kept exactly when it differs from `v`. */
  lemma WithoutSingle<T>(x: T, v: T)
    ensures Without([x], v) == if x == v then [] else [x]
  {
    assert [x][..0] == [];
  }

  /** One step of the filter, from the back. */
  lemma WithoutLast<T>(s: seq<T>, v: T)
    requires s != []
    ensures Without(s, v) == Without(s[..|s| - 1], v) + (if s[|s| - 1] != v then [s[|s| - 1]] else [])
  {
  }

  /** The filter keeps the order: filtering a concatenation concatenates
      the filtered parts. */
  lemma {:induction false} WithoutConcat<T>(a: seq<T>, b: seq<T>, v: T)
    ensures Without(a + b, v) == Without(a, v) + Without(b, v)
    decreases |b|
  {
    if b == [] {
      assert a + b == a;
    } else {
      var c := b[..|b| - 1];
      var last := b[|b| - 1];
      WithoutConcat(a, c, v);
      assert (a + b)[..|a + b| - 1] == a + c;
      assert (a + b)[|a + b| - 1] == last;
      WithoutLast(a + b, v);
      WithoutLast(b, v);
    }
  }

  /** Filtering out a value just appended to a list without it gives the
      list back. */
  lemma WithoutAppended<T>(s: seq<T>, v: T)
    requires v !in s
    ensures Without(s + [v], v) == s
  {
    WithoutAbsent(s, v);
    assert (s + [v])[..|s|] == s;
  }

  /** In a sequence without repeats every element occurs once. */
  lemma {:induction false} OccursOnce<T>(s: seq<T>, x: T)
    requires NoDuplicates(s) && x in s
    ensures multiset(s)[x] == 1
  {
    if s[0] == x {
      assert x !in s[1..] by {
        forall k | 0 <= k < |s| - 1 ensures s[1..][k] != x {
          assert s[1..][k] == s[k + 1];
        }
      }
    } else {
      assert NoDuplicates(s[1..]) by {
        forall i, j | 0 <= i < j < |s| - 1 ensures s[1..][i] != s[1..][j] {
          assert s[1..][i] == s[i + 1] && s[1..][j] == s[j + 1];
        }
      }
      OccursOnce(s[1..], x);
    }
    assert s == [s[0]] + s[1..];
  }
}
