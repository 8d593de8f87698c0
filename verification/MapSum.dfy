/** Sums over the entries of a dictionary, which has no order. */
module MapSum {

  ghost function SumOver<T>(m: map<string, T>, f: T -> real): real
    decreases |m|
  {
    if m == map[] then 0.0
    else
      var k :| k in m;
      Smaller(m, k);
      f(m[k]) + SumOver(m - {k}, f)
  }

  lemma {:induction false} Smaller<T>(m: map<string, T>, k: string)
    requires k in m
    ensures |m - {k}| < |m|
  {
    assert m.Keys == (m - {k}).Keys + {k};
    assert |(m - {k}).Keys| == |m - {k}| && |m.Keys| == |m|;
  }

  // The sum does not depend on the order in which keys are taken.
  lemma {:induction false} TakeOut<T>(m: map<string, T>, f: T -> real, k: string)
    requires k in m
    ensures SumOver(m, f) == f(m[k]) + SumOver(m - {k}, f)
    decreases |m|
  {
    var first :| first in m && SumOver(m, f) == f(m[first]) + SumOver(m - {first}, f);
    if first != k {
      Smaller(m, first);
      Smaller(m, k);
      TakeOut(m - {first}, f, k);
      TakeOut(m - {k}, f, first);
      assert m - {first} - {k} == m - {k} - {first};
    }
  }

  lemma {:induction false} Update<T>(m: map<string, T>, f: T -> real, k: string, v: T)
    ensures SumOver(m[k := v], f) == (if k in m then SumOver(m, f) - f(m[k]) else SumOver(m, f)) + f(v)
  {
    TakeOut(m[k := v], f, k);
    assert m[k := v] - {k} == m - {k};
    if k in m {
      TakeOut(m, f, k);
    } else {
      assert m - {k} == m;
    }
  }

  lemma {:induction false} SumAtMost<T>(m: map<string, T>, f: T -> real, g: T -> real)
    requires forall k :: k in m ==> f(m[k]) <= g(m[k])
    ensures SumOver(m, f) <= SumOver(m, g)
    decreases |m|
  {
    if m != map[] {
      var k :| k in m;
      Smaller(m, k);
      TakeOut(m, f, k);
      TakeOut(m, g, k);
      SumAtMost(m - {k}, f, g);
    }
  }
}
