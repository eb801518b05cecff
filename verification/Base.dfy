/** Small shared pieces: optional values, clock readings, and sums over finite
    tables. */
module Base {

  datatype Option<+T> = None | Some(value: T)

  /** A clock reading.  Every operation takes the readings it would have made. */
  type Time = int

  /** The sum of the values of a table. */
  ghost function Sum<K>(m: map<K, nat>): nat {
    if m.Keys == {} then 0
    else
      var k :| k in m.Keys;
      m[k] + Sum(m - {k})
  }

  ghost function At<K>(m: map<K, nat>, k: K): nat { if k in m then m[k] else 0 }

  lemma SizeWithout<K, V>(m: map<K, V>, k: K)
    requires k in m
    ensures |m - {k}| == |m| - 1
  {
    assert (m - {k}).Keys == m.Keys - {k};
  }

  lemma SumChoice<K>(m: map<K, nat>) returns (c: K)
    requires m.Keys != {}
    ensures c in m && Sum(m) == m[c] + Sum(m - {c})
  {
    c :| c in m.Keys && Sum(m) == m[c] + Sum(m - {c});
  }

  /** The choice of the element that is taken out first does not matter. */
  lemma {:induction false} SumTakeOut<K>(m: map<K, nat>, k: K)
    requires k in m
    ensures Sum(m) == m[k] + Sum(m - {k})
    decreases |m|
  {
    hide Sum;
    var c := SumChoice(m);
    if c != k {
      SizeWithout(m, c);
      SizeWithout(m, k);
      SumTakeOut(m - {c}, k);
      SumTakeOut(m - {k}, c);
      assert m - {c} - {k} == m - {k} - {c};
    }
  }

  /** Writing one entry changes the sum by the difference at that entry. */
  lemma SumUpdate<K>(m: map<K, nat>, k: K, v: nat)
    ensures Sum(m[k := v]) == Sum(m) - At(m, k) + v
  {
    SumTakeOut(m[k := v], k);
    assert m[k := v] - {k} == m - {k};
    if k in m {
      SumTakeOut(m, k);
    } else {
      assert m - {k} == m;
    }
  }

  /** Sums are monotone in the entries. */
  lemma {:induction false} SumMonotone<K>(m: map<K, nat>, n: map<K, nat>)
    requires m.Keys == n.Keys
    requires forall k | k in m :: m[k] <= n[k]
    ensures Sum(m) <= Sum(n)
    decreases |m|
  {
    if k :| k in m.Keys {
      SumTakeOut(m, k);
      SumTakeOut(n, k);
      SizeWithout(m, k);
      SumMonotone(m - {k}, n - {k});
    } else {
      assert n.Keys == {};
    }
  }

  lemma OneMore(c: nat, n: nat)
    ensures c * (n + 1) == c + c * n
  {
  }

  /** A sum of entries bounded by c is bounded by c times the size. */
  lemma {:induction false} SumBounded<K>(m: map<K, nat>, c: nat)
    requires forall k | k in m :: m[k] <= c
    ensures Sum(m) <= c * |m|
    decreases |m|
  {
    if m.Keys == {} {
      assert |m| == 0;
    } else {
      var k :| k in m.Keys;
      SumTakeOut(m, k);
      SizeWithout(m, k);
      SumBounded(m - {k}, c);
      OneMore(c, |m| - 1);
    }
  }
}
