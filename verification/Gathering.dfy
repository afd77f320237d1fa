// Totals over the values of a map, in whatever order its entries are visited: a real sum, and
// a multiset gathered from the entries. Both are defined by taking out some entry first; the
// lemmas show that any entry may be, that an entry added or a map split adds its share, and
// that equal shares add up to equal totals. The audits and the profit reports build on them.

module Gathering {

  // The sum of f over all entries.
  ghost function Sum<K, D>(m: map<K, D>, f: D -> real): real
    decreases |m|
  {
    if |m| == 0 then 0.0
    else
      var k :| k in m;
      f(m[k]) + Sum(m - {k}, f)
  }

  lemma MinusSwaps<K, D>(m: map<K, D>, j: K, k: K)
    requires j in m && k in m && j != k
    ensures m - {j} - {k} == m - {k} - {j}
    ensures (m - {j})[k] == m[k] && (m - {k})[j] == m[j]
  {}

  lemma {:induction false} SumAny<K, D>(m: map<K, D>, f: D -> real, k: K)
    requires k in m
    ensures Sum(m, f) == f(m[k]) + Sum(m - {k}, f)
    decreases |m|
  {
    var j :| j in m && Sum(m, f) == f(m[j]) + Sum(m - {j}, f);
    if j != k {
      SumAny(m - {j}, f, k);
      SumAny(m - {k}, f, j);
      MinusSwaps(m, j, k);
    }
  }

  lemma SumAdd<K, D>(m: map<K, D>, f: D -> real, k: K, d: D)
    requires k !in m
    ensures Sum(m[k := d], f) == f(d) + Sum(m, f)
  {
    SumAny(m[k := d], f, k);
    assert m[k := d] - {k} == m;
  }

  lemma MinusSize<K, D>(m: map<K, D>, k: K)
    requires k in m
    ensures |m - {k}| == |m| - 1
  {
    assert (m - {k}).Keys == m.Keys - {k} && |m.Keys| == |m| && |(m - {k}).Keys| == |m - {k}|;
  }

  // Contributions that add up entry by entry add up in total.
  lemma {:induction false} SumLinear<K, D>(m: map<K, D>, f: D -> real, g: D -> real, h: D -> real)
    requires forall k :: k in m ==> h(m[k]) == f(m[k]) + g(m[k])
    ensures Sum(m, h) == Sum(m, f) + Sum(m, g)
    decreases |m|
  {
    if |m| != 0 {
      var k :| k in m;
      SumAny(m, f, k);
      SumAny(m, g, k);
      SumAny(m, h, k);
      SumLinear(m - {k}, f, g, h);
    }
  }

  lemma {:induction false} SumOnes<K, D>(m: map<K, D>, f: D -> real)
    requires forall k :: k in m ==> f(m[k]) == 1.0
    ensures Sum(m, f) == |m| as real
    decreases |m|
  {
    if |m| != 0 {
      var k :| k in m;
      SumAny(m, f, k);
      MinusSize(m, k);
      SumOnes(m - {k}, f);
    }
  }

  lemma {:induction false} SumNonNegative<K, D>(m: map<K, D>, f: D -> real)
    requires forall k :: k in m ==> f(m[k]) >= 0.0
    ensures Sum(m, f) >= 0.0
    decreases |m|
  {
    if |m| != 0 {
      var k :| k in m;
      SumAny(m, f, k);
      SumNonNegative(m - {k}, f);
    }
  }

  lemma UnionMinus<K, D>(yes: map<K, D>, no: map<K, D>, k: K)
    requires k in yes && k !in no
    ensures (yes + no) - {k} == (yes - {k}) + no && (yes + no)[k] == yes[k]
  {}

  // The sum over a map is the sum over one part of it plus the sum over the rest.
  lemma {:induction false} SumSplits<K, D>(yes: map<K, D>, no: map<K, D>, f: D -> real)
    requires yes.Keys !! no.Keys
    ensures Sum(yes + no, f) == Sum(yes, f) + Sum(no, f)
    decreases |yes|
  {
    if |yes| == 0 {
      assert yes == map[] && yes + no == no;
    } else {
      var k :| k in yes;
      var all := yes + no;
      MinusSize(yes, k);
      SumSplits(yes - {k}, no, f);
      SumAny(yes, f, k);
      UnionMinus(yes, no, k);
      SumAny(all, f, k);
    }
  }

  // If f contributes like g on the keys of n and nothing elsewhere, the sums agree.
  lemma {:induction false} SumMatches<K, D, E>(m: map<K, D>, f: D -> real, n: map<K, E>, g: E -> real)
    requires n.Keys <= m.Keys
    requires forall k :: k in m ==> f(m[k]) == if k in n then g(n[k]) else 0.0
    ensures Sum(m, f) == Sum(n, g)
    decreases |m|
  {
    if |m| == 0 {
      assert m.Keys == {} && n == map[];
    } else {
      var k :| k in m;
      SumAny(m, f, k);
      MinusSize(m, k);
      if k in n {
        SumAny(n, g, k);
        SumMatches(m - {k}, f, n - {k}, g);
      } else {
        SumMatches(m - {k}, f, n, g);
      }
    }
  }

  // The sum of f over all entries; f yields a bag, so the sum is a bag.
  ghost function Gather<K, D, B>(m: map<K, D>, f: D -> multiset<B>): multiset<B>
    decreases |m|
  {
    if |m| == 0 then multiset{}
    else
      var k :| k in m;
      f(m[k]) + Gather(m - {k}, f)
  }

  // Any entry may be taken out first.
  lemma {:induction false} GatherAny<K, D, B>(m: map<K, D>, f: D -> multiset<B>, k: K)
    requires k in m
    ensures Gather(m, f) == f(m[k]) + Gather(m - {k}, f)
    decreases |m|
  {
    var j :| j in m && Gather(m, f) == f(m[j]) + Gather(m - {j}, f);
    if j != k {
      GatherAny(m - {j}, f, k);
      GatherAny(m - {k}, f, j);
      MinusSwaps(m, j, k);
    }
  }

  lemma GatherAdd<K, D, B>(m: map<K, D>, f: D -> multiset<B>, k: K, d: D)
    requires k !in m
    ensures Gather(m[k := d], f) == Gather(m, f) + f(d)
  {
    GatherAny(m[k := d], f, k);
    assert m[k := d] - {k} == m;
  }

  // If f yields g(d) elements per entry, the whole bag has as many as g sums to.
  lemma {:induction false} GatherOnes<K, D, B>(m: map<K, D>, f: D -> multiset<B>)
    requires forall k :: k in m ==> |f(m[k])| == 1
    ensures |Gather(m, f)| == |m|
    decreases |m|
  {
    if m != map[] {
      var k :| k in m;
      GatherAny(m, f, k);
      GatherOnes(m - {k}, f);
      assert |m - {k}| == |m| - 1 by { assert (m - {k}).Keys == m.Keys - {k}; assert |m.Keys| == |m|; }
    }
  }

  // If f yields one element for the given keys and none for the others, there are as
  // many elements as keys.
  lemma {:induction false} GatherOnKeys<K, D, B>(m: map<K, D>, f: D -> multiset<B>, keys: set<K>)
    requires keys <= m.Keys
    requires forall k :: k in m ==> |f(m[k])| == if k in keys then 1 else 0
    ensures |Gather(m, f)| == |keys|
    decreases |m|
  {
    if m == map[] {
      assert keys == {};
    } else {
      var k :| k in m;
      GatherAny(m, f, k);
      GatherOnKeys(m - {k}, f, keys - {k});
    }
  }

  // How often b is gathered is how often it is yielded.
  lemma {:induction false} GatherCount<K, D, A, B>(m: map<K, D>, f: D -> multiset<A>, a: A, g: D -> multiset<B>)
    requires forall k :: k in m ==> f(m[k])[a] == |g(m[k])|
    ensures Gather(m, f)[a] == |Gather(m, g)|
    decreases |m|
  {
    if m != map[] {
      var k :| k in m;
      GatherAny(m, f, k);
      GatherAny(m, g, k);
      GatherCount(m - {k}, f, a, g);
    }
  }

  lemma {:induction false} GatherSame<K, D, A, B>(m: map<K, D>, f: D -> multiset<A>, a: A, g: D -> multiset<B>, b: B)
    requires forall k :: k in m ==> f(m[k])[a] == g(m[k])[b]
    ensures Gather(m, f)[a] == Gather(m, g)[b]
    decreases |m|
  {
    if |m| != 0 {
      var k :| k in m;
      GatherAny(m, f, k);
      GatherAny(m, g, k);
      GatherSame(m - {k}, f, a, g, b);
    }
  }

  // Where f yields something, an entry with that value exists, and conversely.
  lemma {:induction false} GatherHas<K, D, B>(m: map<K, D>, f: D -> multiset<B>, b: B)
    ensures b in Gather(m, f) <==> exists k :: k in m && b in f(m[k])
    decreases |m|
  {
    if m != map[] {
      var j :| j in m && Gather(m, f) == f(m[j]) + Gather(m - {j}, f);
      GatherHas(m - {j}, f, b);
      if b in Gather(m - {j}, f) {
        var k :| k in m - {j} && b in f((m - {j})[k]);
        assert k in m && b in f(m[k]);
      }
      if k :| k in m && b in f(m[k]) {
        if k != j { assert k in m - {j} && b in f((m - {j})[k]); }
      }
    }
  }
}
