/** Sequences without repetition, as the kernel's queues are seen from outside. */
module Seqs {

  ghost predicate Distinct<T>(s: seq<T>) {
    forall i, j :: 0 <= i < j < |s| ==> s[i] != s[j]
  }

  /** `s` without any occurrence of `x`, order kept. */
  function Without<T(==,!new)>(s: seq<T>, x: T): (r: seq<T>)
    ensures forall y :: y in r <==> y in s && y != x
    ensures |r| <= |s|
    ensures x !in s ==> r == s
    ensures x in s ==> |r| < |s|
  {
    if s == [] then []
    else if s[0] == x then Without(s[1..], x)
    else [s[0]] + Without(s[1..], x)
  }

  /** The elements of `s` that satisfy `keep`, order kept. */
  function Filter<T(!new)>(s: seq<T>, keep: T -> bool): (r: seq<T>)
    ensures forall y :: y in r <==> y in s && keep(y)
    ensures |r| <= |s|
  {
    if s == [] then []
    else if keep(s[0]) then [s[0]] + Filter(s[1..], keep)
    else Filter(s[1..], keep)
  }

  /** No `b` occurs in `s` ahead of the first `a`. */
  predicate Before<T(==)>(s: seq<T>, a: T, b: T) {
    s == [] || s[0] == a || (s[0] != b && Before(s[1..], a, b))
  }

  lemma DistinctCons<T(!new)>(a: T, s: seq<T>)
    requires Distinct(s) && a !in s
    ensures Distinct([a] + s)
  {
    var r := [a] + s;
    forall i, j | 0 <= i < j < |r| ensures r[i] != r[j] {
      assert r[j] == s[j - 1];
    }
  }

  lemma DistinctAppend<T(!new)>(s: seq<T>, a: T)
    requires Distinct(s) && a !in s
    ensures Distinct(s + [a])
  {
    var r := s + [a];
    forall i, j | 0 <= i < j < |r| ensures r[i] != r[j] {
      assert r[i] == s[i];
    }
  }

  lemma WithoutDistinct<T(!new)>(s: seq<T>, x: T)
    requires Distinct(s)
    ensures Distinct(Without(s, x))
  {
    if s != [] {
      WithoutDistinct(s[1..], x);
      if s[0] != x {
        DistinctCons(s[0], Without(s[1..], x));
      }
    }
  }

  lemma FilterDistinct<T(!new)>(s: seq<T>, keep: T -> bool)
    requires Distinct(s)
    ensures Distinct(Filter(s, keep))
  {
    if s != [] {
      FilterDistinct(s[1..], keep);
      if keep(s[0]) {
        DistinctCons(s[0], Filter(s[1..], keep));
      }
    }
  }

  lemma FilterAll<T(!new)>(s: seq<T>, keep: T -> bool)
    requires forall x :: x in s ==> keep(x)
    ensures Filter(s, keep) == s
  {
    if s != [] {
      FilterAll(s[1..], keep);
    }
  }

  lemma FilterNone<T(!new)>(s: seq<T>, keep: T -> bool)
    requires forall x :: x in s ==> !keep(x)
    ensures Filter(s, keep) == []
  {
    if s != [] {
      FilterNone(s[1..], keep);
    }
  }

  lemma FilterExtensional<T(!new)>(s: seq<T>, f: T -> bool, g: T -> bool)
    requires forall x :: x in s ==> f(x) == g(x)
    ensures Filter(s, f) == Filter(s, g)
  {
    if s != [] {
      FilterExtensional(s[1..], f, g);
    }
  }

  lemma FilterAppend<T(!new)>(s: seq<T>, t: seq<T>, keep: T -> bool)
    ensures Filter(s + t, keep) == Filter(s, keep) + Filter(t, keep)
  {
    if s == [] {
      assert s + t == t;
    } else {
      assert (s + t)[1..] == s[1..] + t;
      FilterAppend(s[1..], t, keep);
    }
  }

  /** Removing one element of a repetition-free sequence cuts exactly one position out. */
  lemma WithoutAt<T(!new)>(s: seq<T>, k: nat)
    requires Distinct(s) && k < |s|
    ensures Without(s, s[k]) == s[..k] + s[k + 1..]
  {
    hide Without, Distinct;
    var x, pre, post := s[k], s[..k], s[k + 1..];
    OnlyAt(s, k);
    assert s == pre + ([x] + post);
    WithoutAppend(pre, [x] + post, x);
    WithoutAppend([x], post, x);
    assert |[x]| == 1 && Without([x], x) == [];
  }

  lemma OnlyAt<T(!new)>(s: seq<T>, k: nat)
    requires Distinct(s) && k < |s|
    ensures s[k] !in s[..k] && s[k] !in s[k + 1..]
  {
  }

  lemma WithoutAppend<T(!new)>(s: seq<T>, t: seq<T>, x: T)
    ensures Without(s + t, x) == Without(s, x) + Without(t, x)
  {
    if s == [] {
      assert s + t == t;
    } else {
      assert (s + t)[1..] == s[1..] + t;
      WithoutAppend(s[1..], t, x);
    }
  }

  lemma BeforeAbsent<T(!new)>(s: seq<T>, a: T, b: T)
    requires b !in s
    ensures Before(s, a, b)
  {
    if s != [] {
      BeforeAbsent(s[1..], a, b);
    }
  }

  lemma BeforeAppend<T(!new)>(s: seq<T>, t: seq<T>, a: T, b: T)
    requires Before(s, a, b) && a in s
    ensures Before(s + t, a, b)
  {
    if s[0] != a {
      assert (s + t)[1..] == s[1..] + t;
      BeforeAppend(s[1..], t, a, b);
    }
  }

  lemma BeforeWithout<T(!new)>(s: seq<T>, x: T, a: T, b: T)
    requires Before(s, a, b) && x != a
    ensures Before(Without(s, x), a, b)
  {
    if s != [] && s[0] != a {
      BeforeWithout(s[1..], x, a, b);
    }
  }

  lemma BeforeFilter<T(!new)>(s: seq<T>, keep: T -> bool, a: T, b: T)
    requires Before(s, a, b) && keep(a)
    ensures Before(Filter(s, keep), a, b)
  {
    if s != [] && s[0] != a {
      BeforeFilter(s[1..], keep, a, b);
    }
  }

  lemma FilterTwice<T(!new)>(s: seq<T>, f: T -> bool, g: T -> bool, both: T -> bool)
    requires forall x :: x in s ==> (both(x) <==> f(x) && g(x))
    ensures Filter(Filter(s, f), g) == Filter(s, both)
  {
    if s != [] {
      FilterTwice(s[1..], f, g, both);
    }
  }
}
