// The summary of a list of values: smallest, median, nearest-rank 95th percentile,
// largest. A list is read as a multiset; the order it arrived in does not show.

module Distribution {
  import opened Common

  datatype Stats = Stats(min: real, median: real, p95: real, max: real)

  ghost predicate IsSorted(s: seq<real>) {
    forall i, j :: 0 <= i < j < |s| ==> s[i] <= s[j]
  }

  function Insert(s: seq<real>, x: real): seq<real> {
    if s == [] || x <= s[0] then [x] + s else [s[0]] + Insert(s[1..], x)
  }

  lemma {:induction false} InsertKeepsBound(s: seq<real>, x: real, low: real)
    requires low <= x && forall i :: 0 <= i < |s| ==> low <= s[i]
    ensures forall i :: 0 <= i < |Insert(s, x)| ==> low <= Insert(s, x)[i]
  {
    if s != [] && x > s[0] { InsertKeepsBound(s[1..], x, low); }
  }

  lemma {:induction false} InsertSorts(s: seq<real>, x: real)
    requires IsSorted(s)
    ensures IsSorted(Insert(s, x))
  {
    if s != [] && x > s[0] {
      InsertSorts(s[1..], x);
      InsertKeepsBound(s[1..], x, s[0]);
    }
  }

  lemma {:induction false} InsertAdds(s: seq<real>, x: real)
    ensures multiset(Insert(s, x)) == multiset(s) + multiset{x}
  {
    if s != [] && x > s[0] {
      InsertAdds(s[1..], x);
      assert s == [s[0]] + s[1..];
    }
  }

  function Sort(s: seq<real>): seq<real> {
    if s == [] then [] else Insert(Sort(s[..|s| - 1]), s[|s| - 1])
  }

  lemma SplitLast(s: seq<real>)
    requires s != []
    ensures multiset(s) == multiset(s[..|s| - 1]) + multiset{s[|s| - 1]}
  {
    assert s == s[..|s| - 1] + [s[|s| - 1]];
  }

  lemma {:induction false} SortSorts(s: seq<real>)
    ensures IsSorted(Sort(s)) && multiset(Sort(s)) == multiset(s)
  {
    if s != [] {
      var front, last := s[..|s| - 1], s[|s| - 1];
      SortSorts(front);
      InsertSorts(Sort(front), last);
      InsertAdds(Sort(front), last);
      SplitLast(s);
    }
  }

  lemma SameLength(a: seq<real>, b: seq<real>)
    requires multiset(a) == multiset(b)
    ensures |a| == |b|
  {
    assert |a| == |multiset(a)|;
    assert |b| == |multiset(b)|;
  }

  lemma HeadIsSmallest(a: seq<real>, v: real)
    requires IsSorted(a) && v in multiset(a)
    ensures a[0] <= v
  {
    assert v in a;
  }

  lemma HeadsAgree(a: seq<real>, b: seq<real>)
    requires IsSorted(a) && IsSorted(b) && multiset(a) == multiset(b) && a != [] && b != []
    ensures a[0] == b[0]
  {
    assert a[0] in multiset(a) && b[0] in multiset(b);
    HeadIsSmallest(a, b[0]);
    HeadIsSmallest(b, a[0]);
  }

  lemma TailLosesHead(a: seq<real>)
    requires a != []
    ensures multiset(a[1..]) == multiset(a) - multiset{a[0]}
    ensures IsSorted(a) ==> IsSorted(a[1..])
  {
    assert a == [a[0]] + a[1..];
  }

  lemma SameHeadAndTail(a: seq<real>, b: seq<real>)
    requires a != [] && b != [] && a[0] == b[0] && a[1..] == b[1..]
    ensures a == b
  {
    assert a == [a[0]] + a[1..] && b == [b[0]] + b[1..];
  }

  // There is only one sorted arrangement of a multiset.
  lemma {:induction false} SortedIsUnique(a: seq<real>, b: seq<real>)
    requires IsSorted(a) && IsSorted(b) && multiset(a) == multiset(b)
    ensures a == b
    decreases |a|
  {
    SameLength(a, b);
    if a != [] {
      HeadsAgree(a, b);
      TailLosesHead(a);
      TailLosesHead(b);
      SortedIsUnique(a[1..], b[1..]);
      SameHeadAndTail(a, b);
    }
  }

  // Any sorted arrangement of the values is the one Sort yields.
  lemma SortedIsSort(s: seq<real>, values: seq<real>)
    requires IsSorted(s) && multiset(s) == multiset(values)
    ensures s == Sort(values) && |s| == |values|
  {
    SortSorts(values);
    SortedIsUnique(s, Sort(values));
    SameLength(s, values);
  }

  lemma SortAgrees(a: seq<real>, b: seq<real>)
    requires multiset(a) == multiset(b)
    ensures Sort(a) == Sort(b) && |a| == |b|
  {
    SortSorts(a);
    SortedIsSort(Sort(a), b);
    SameLength(a, b);
  }

  // ceil(0.95 * n) - 1, in exact arithmetic
  function RankOf95(n: nat): nat
    requires n > 0
  {
    (95 * n + 99) / 100 - 1
  }

  function StatsOf(values: seq<real>): Option<Stats> {
    if values == [] then None
    else
      SortSorts(values);
      SameLength(Sort(values), values);
      var s, n := Sort(values), |values|;
      RankInRange(n);
      Some(Stats(s[0], (s[(n - 1) / 2] + s[n / 2]) / 2.0, s[RankOf95(n)], s[n - 1]))
  }

  lemma RankInRange(n: nat)
    requires n > 0
    ensures RankOf95(n) < n && n / 2 < n && (n - 1) / 2 < n
    ensures 100 * RankOf95(n) < 95 * n <= 100 * (RankOf95(n) + 1)
  {}

  // Only the multiset of the values matters.
  lemma StatsIgnoreOrder(a: seq<real>, b: seq<real>)
    requires multiset(a) == multiset(b)
    ensures StatsOf(a) == StatsOf(b)
  {
    SortAgrees(a, b);
  }

  lemma SortedBounds(s: seq<real>, v: real)
    requires IsSorted(s) && v in multiset(s)
    ensures s[0] <= v <= s[|s| - 1]
  {
    assert v in s;
  }

  lemma NonemptyHas(m: multiset<real>)
    ensures m == multiset{} || exists x :: x in m
  {
    if forall x :: x !in m { assert m == multiset{}; }
  }

  // A list holding exactly the given values, and its summary.
  ghost function ListOf(m: multiset<real>): (s: seq<real>)
    ensures multiset(s) == m
    decreases |m|
  {
    if m == multiset{} then []
    else
      NonemptyHas(m);
      var x :| x in m;
      [x] + ListOf(m - multiset{x})
  }

  ghost function StatsOfBag(m: multiset<real>): Option<Stats> {
    StatsOf(ListOf(m))
  }

  lemma BagOfList(values: seq<real>)
    ensures StatsOfBag(multiset(values)) == StatsOf(values)
  {
    StatsIgnoreOrder(ListOf(multiset(values)), values);
  }

  // What the numbers mean: the extremes bound every value, and p95 is the smallest
  // value that has at least 95 percent of the values at or below it in rank.
  lemma StatsMean(values: seq<real>, s: seq<real>)
    requires values != [] && IsSorted(s) && multiset(s) == multiset(values)
    ensures StatsOf(values).Some?
    ensures var st := StatsOf(values).value;
            && (forall v :: v in values ==> st.min <= v <= st.max)
            && st.min <= st.median <= st.max
            && exists k :: 0 <= k < |s| && s[k] == st.p95 && 100 * k < 95 * |s| <= 100 * (k + 1)
  {
    SortedIsSort(s, values);
    RankInRange(|s|);
    forall v | v in values ensures s[0] <= v <= s[|s| - 1] {
      assert v in multiset(values);
      SortedBounds(s, v);
    }
    assert s[RankOf95(|s|)] == StatsOf(values).value.p95;
  }

  // sorted(values), as an in-place insertion into the part already in order
  method SortValues(values: seq<real>) returns (ordered: seq<real>)
    ensures IsSorted(ordered) && multiset(ordered) == multiset(values)
  {
    ordered := [];
    for i := 0 to |values|
      invariant IsSorted(ordered) && multiset(ordered) == multiset(values[..i])
    {
      InsertSorts(ordered, values[i]);
      InsertAdds(ordered, values[i]);
      ordered := Insert(ordered, values[i]);
      assert values[..i + 1] == values[..i] + [values[i]];
    }
    assert values[..|values|] == values;
  }

  // _distribution
  method Distribute(values: seq<real>) returns (stats: Option<Stats>)
    ensures stats == StatsOf(values)
  {
    if values == [] { return None; }
    var ordered := SortValues(values);
    SortedIsSort(ordered, values);
    var n := |ordered|;
    RankInRange(n);
    return Some(Stats(ordered[0], (ordered[(n - 1) / 2] + ordered[n / 2]) / 2.0, ordered[RankOf95(n)], ordered[n - 1]));
  }
}
