/** Vocabulary shared by the component models. */
module Common {

  datatype Option<+T> = None | Some(value: T)

  lemma Regroup<T>(a: seq<T>, b: seq<T>, c: seq<T>)
    ensures a + (b + c) == a + b + c
  {
  }

  /** The total weight of the entries of a finite table, and how it follows a change
      of one entry.  The progress arguments measure a state with it. */
  ghost function Sum<V>(m: map<nat, V>, weight: V -> nat): nat
    decreases |m|
  {
    if m == map[] then 0
    else
      var k :| k in m;
      assert |m - {k}| < |m| by { RemoveShrinks(m, k); }
      weight(m[k]) + Sum(m - {k}, weight)
  }

  lemma RemoveShrinks<V>(m: map<nat, V>, k: nat)
    requires k in m
    ensures |m - {k}| == |m| - 1
  {
    assert (m - {k}).Keys == m.Keys - {k};
    assert |m - {k}| == |(m - {k}).Keys| && |m| == |m.Keys|;
  }

  /** The entry that the sum takes out first does not matter. */
  lemma {:induction false} SumSplit<V>(m: map<nat, V>, weight: V -> nat, k: nat)
    requires k in m
    ensures Sum(m, weight) == weight(m[k]) + Sum(m - {k}, weight)
    decreases |m|
  {
    var j :| j in m && Sum(m, weight) == weight(m[j]) + Sum(m - {j}, weight);
    if j != k {
      RemoveShrinks(m, j);
      RemoveShrinks(m, k);
      SumSplit(m - {j}, weight, k);
      SumSplit(m - {k}, weight, j);
      assert m - {j} - {k} == m - {k} - {j};
    }
  }

  lemma SumUpdate<V>(m: map<nat, V>, weight: V -> nat, k: nat, v: V)
    ensures Sum(m[k := v], weight) + (if k in m then weight(m[k]) else 0) == Sum(m, weight) + weight(v)
  {
    SumSplit(m[k := v], weight, k);
    if k in m {
      SumSplit(m, weight, k);
      assert m[k := v] - {k} == m - {k};
    } else {
      assert m[k := v] - {k} == m;
    }
  }

  lemma {:induction false} SumMonotone<V>(m: map<nat, V>, less: V -> nat, more: V -> nat)
    requires forall k :: k in m ==> less(m[k]) <= more(m[k])
    ensures Sum(m, less) <= Sum(m, more)
    decreases |m|
  {
    if m != map[] {
      var k :| k in m;
      RemoveShrinks(m, k);
      SumSplit(m, less, k);
      SumSplit(m, more, k);
      SumMonotone(m - {k}, less, more);
    }
  }
}
