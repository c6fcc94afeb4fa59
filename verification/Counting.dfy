/** Counting the entries of a finite map that satisfy a predicate. */
module Counting {

  function Matching<T>(m: map<int, T>, f: T -> bool): (s: set<int>)
    ensures forall p :: p in s <==> p in m && f(m[p])
  {
    set p | p in m && f(m[p])
  }

  function Count<T>(m: map<int, T>, f: T -> bool): nat {
    |Matching(m, f)|
  }

  lemma CountUpdate<T>(m: map<int, T>, p: int, x: T, f: T -> bool)
    ensures Count(m[p := x], f) == Count(m, f) - (if p in m && f(m[p]) then 1 else 0) + (if f(x) then 1 else 0)
  {
    MatchingUpdate(m, p, x, f);
    WithoutAndWith(Matching(m, f), p);
  }

  lemma MatchingUpdate<T>(m: map<int, T>, p: int, x: T, f: T -> bool)
    ensures Matching(m[p := x], f) == Matching(m, f) - {p} + (if f(x) then {p} else {})
  {
  }

  lemma WithoutAndWith(a: set<int>, p: int)
    ensures |a - {p}| == |a| - (if p in a then 1 else 0)
    ensures |a - {p} + {p}| == |a - {p}| + 1
    ensures a - {p} + {} == a - {p}
  {
  }

  lemma CountOne<T>(m: map<int, T>, p: int, f: T -> bool)
    requires p in m && f(m[p])
    ensures Count(m, f) >= 1
  {
    assert p in Matching(m, f);
  }

  /** Two different entries that satisfy `f` make the count at least two. */
  lemma CountTwo<T>(m: map<int, T>, p: int, r: int, f: T -> bool)
    requires p in m && r in m && p != r && f(m[p]) && f(m[r])
    ensures Count(m, f) >= 2
  {
    var a := Matching(m, f);
    assert |a - {p}| == |a| - 1 && r in a - {p};
  }

  lemma CountSome<T>(m: map<int, T>, f: T -> bool) returns (p: int)
    requires Count(m, f) >= 1
    ensures p in m && f(m[p])
  {
    p := Element(Matching(m, f));
  }

  lemma Element<T>(a: set<T>) returns (p: T)
    requires |a| >= 1
    ensures p in a
  {
    assert a != {};
    p :| p in a;
  }

  /** The sum of `f` over the entries of a finite map. */
  ghost function Sum<K, T>(m: map<K, T>, f: T -> nat): nat
    decreases |m|
  {
    if m == map[] then 0
    else
      var p :| p in m;
      assert |(m - {p}).Keys| < |m.Keys| by { FewerKeys(m, p); }
      f(m[p]) + Sum(m - {p}, f)
  }

  lemma FewerKeys<K, T>(m: map<K, T>, p: K)
    requires p in m
    ensures |m - {p}| == |m| - 1
  {
    assert (m - {p}).Keys == m.Keys - {p};
    assert |m.Keys| == |m| && |(m - {p}).Keys| == |m - {p}|;
  }

  lemma {:induction false} SumOne<K, T>(m: map<K, T>, p: K, f: T -> nat)
    requires p in m
    ensures Sum(m, f) == f(m[p]) + Sum(m - {p}, f)
    decreases |m|
  {
    var x :| x in m && Sum(m, f) == f(m[x]) + Sum(m - {x}, f);
    if x != p {
      FewerKeys(m, x);
      FewerKeys(m, p);
      SumOne(m - {x}, p, f);
      SumOne(m - {p}, x, f);
      assert m - {x} - {p} == m - {p} - {x};
    }
  }

  lemma SumUpdate<K, T>(m: map<K, T>, p: K, x: T, f: T -> nat)
    requires p in m
    ensures Sum(m[p := x], f) == Sum(m, f) - f(m[p]) + f(x)
  {
    SumOne(m, p, f);
    SumOne(m[p := x], p, f);
    assert m[p := x] - {p} == m - {p};
  }

  lemma {:induction false} SumAtMost<K, T>(m: map<K, T>, f: T -> nat, g: T -> nat)
    requires forall p :: p in m ==> f(m[p]) <= g(m[p])
    ensures Sum(m, f) <= Sum(m, g)
    decreases |m|
  {
    if m != map[] {
      var p :| p in m;
      FewerKeys(m, p);
      SumOne(m, p, f);
      SumOne(m, p, g);
      SumAtMost(m - {p}, f, g);
    }
  }
}
