/** Sequence helpers: the rows a WHERE clause keeps. */
module Seqs {

  /** The elements of `s` satisfying `f`, in their original order. */
  function Filter<T>(s: seq<T>, f: T -> bool): (r: seq<T>)
    ensures |r| <= |s|
    ensures forall i :: 0 <= i < |r| ==> r[i] in s && f(r[i])
    ensures forall i :: 0 <= i < |s| && f(s[i]) ==> s[i] in r
    ensures multiset(r) <= multiset(s)
  {
    if s == [] then []
    else
      assert s == [s[0]] + s[1..];
      if f(s[0]) then [s[0]] + Filter(s[1..], f)
    else Filter(s[1..], f)
  }

  /** Two predicates that agree on every element keep the same elements. */
  lemma {:induction false} FilterExtensional<T>(s: seq<T>, f: T -> bool, g: T -> bool)
    requires forall i :: 0 <= i < |s| ==> f(s[i]) == g(s[i])
    ensures Filter(s, f) == Filter(s, g)
  {
    if s != [] {
      assert forall i :: 0 <= i < |s[1..]| ==> s[1..][i] == s[i + 1];
      FilterExtensional(s[1..], f, g);
    }
  }

  /** The first element a filter keeps is the first element of `s` that passes. */
  lemma {:induction false} FilterHead<T>(s: seq<T>, f: T -> bool)
    requires Filter(s, f) != []
    ensures exists k :: 0 <= k < |s| && s[k] == Filter(s, f)[0] && f(s[k]) && forall j :: 0 <= j < k ==> !f(s[j])
  {
    if f(s[0]) {
      assert Filter(s, f)[0] == s[0];
    } else {
      assert Filter(s, f) == Filter(s[1..], f);
      FilterHead(s[1..], f);
      var k :| 0 <= k < |s[1..]| && s[1..][k] == Filter(s[1..], f)[0] && f(s[1..][k])
               && forall j :: 0 <= j < k ==> !f(s[1..][j]);
      assert s[k + 1] == Filter(s, f)[0];
      forall j | 0 <= j < k + 1 ensures !f(s[j]) {
        if j > 0 { assert s[j] == s[1..][j - 1]; }
      }
    }
  }

  /** A filter keeps something exactly when some element passes. */
  lemma FilterNonEmpty<T>(s: seq<T>, f: T -> bool)
    ensures |Filter(s, f)| > 0 <==> exists i :: 0 <= i < |s| && f(s[i])
  {
    if |Filter(s, f)| > 0 {
      var x := Filter(s, f)[0];
      var i :| 0 <= i < |s| && s[i] == x;
    }
  }

  lemma {:induction false} FilterAppend<T>(a: seq<T>, b: seq<T>, f: T -> bool)
    ensures Filter(a + b, f) == Filter(a, f) + Filter(b, f)
  {
    if a == [] {
      assert a + b == b;
    } else {
      assert (a + b)[1..] == a[1..] + b;
      FilterAppend(a[1..], b, f);
    }
  }

  /** When exactly one element passes, the filter is that element. */
  lemma {:induction false} FilterSingle<T>(s: seq<T>, f: T -> bool, k: int)
    requires 0 <= k < |s| && f(s[k])
    requires forall i :: 0 <= i < |s| && i != k ==> !f(s[i])
    ensures Filter(s, f) == [s[k]]
  {
    if k == 0 {
      FilterNone(s[1..], f);
    } else {
      FilterSingle(s[1..], f, k - 1);
    }
  }

  lemma {:induction false} FilterNone<T>(s: seq<T>, f: T -> bool)
    requires forall i :: 0 <= i < |s| ==> !f(s[i])
    ensures Filter(s, f) == []
  {
    if s != [] {
      FilterNone(s[1..], f);
    }
  }

  /** When `f` keeps exactly what `a` or `b` keeps, and never both, its count is the sum. */
  lemma {:induction false} FilterSplit<T>(s: seq<T>, f: T -> bool, a: T -> bool, b: T -> bool)
    requires forall i :: 0 <= i < |s| ==> (f(s[i]) <==> a(s[i]) || b(s[i])) && !(a(s[i]) && b(s[i]))
    ensures |Filter(s, f)| == |Filter(s, a)| + |Filter(s, b)|
  {
    if s != [] {
      assert forall i :: 0 <= i < |s[1..]| ==> s[1..][i] == s[i + 1];
      FilterSplit(s[1..], f, a, b);
    }
  }
}
