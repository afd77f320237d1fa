// Merging dictionaries that may share entries but must not disagree.

module Merging {
  import opened Common
  import opened CommutingFold

  ghost predicate AgreeAt<K, V>(a: map<K, V>, b: map<K, V>, k: K) {
    k in a && k in b ==> a[k] == b[k]
  }

  ghost predicate Agree<K(!new), V>(a: map<K, V>, b: map<K, V>) {
    forall k {:trigger AgreeAt(a, b, k)} :: AgreeAt(a, b, k)
  }

  ghost function MergeStep<K(!new), V>(merged: map<K, V>, next: map<K, V>): Option<map<K, V>> {
    if Agree(merged, next) then Some(merged + next) else None
  }

  ghost function Merge<K(!new), V>(maps: seq<map<K, V>>): Option<map<K, V>> {
    Fold(MergeStep, map[], maps)
  }

  ghost predicate Holds<K, V>(m: map<K, V>, k: K, v: V) {
    k in m && m[k] == v
  }

  // What is kept is what some map holds.
  lemma {:induction false} MergeKeeps<K(!new), V>(maps: seq<map<K, V>>, k: K, v: V)
    requires Merge(maps).Some?
    ensures Holds(Merge(maps).value, k, v) <==> exists i :: 0 <= i < |maps| && Holds(maps[i], k, v)
  {
    if maps != [] {
      var n := |maps| - 1;
      assert Merge(maps[..n]).Some?;
      MergeKeeps(maps[..n], k, v);
      assert AgreeAt(Merge(maps[..n]).value, maps[n], k);
      if i :| 0 <= i < |maps[..n]| && Holds(maps[..n][i], k, v) { assert Holds(maps[i], k, v); }
      if i :| 0 <= i < |maps| && Holds(maps[i], k, v) {
        if i < n { assert Holds(maps[..n][i], k, v); }
      }
    }
  }

  // ----- Sizes

  function Shared<K, V>(a: map<K, V>, b: map<K, V>): set<K> {
    a.Keys * b.Keys
  }

  function TotalEntries<K, V>(maps: seq<map<K, V>>): nat {
    if maps == [] then 0 else TotalEntries(maps[..|maps| - 1]) + |maps[|maps| - 1]|
  }

  // Entries seen again while merging from the left.
  ghost function Duplicates<K(!new), V>(maps: seq<map<K, V>>): nat
    requires Merge(maps).Some?
  {
    if maps == [] then 0
    else
      var front := maps[..|maps| - 1];
      assert Merge(front).Some?;
      Duplicates(front) + |Shared(Merge(front).value, maps[|maps| - 1])|
  }

  lemma UnionSize<K>(a: set<K>, b: set<K>)
    ensures |a + b| + |a * b| == |a| + |b|
  {
    assert a + b == a + (b - a) && |a + (b - a)| == |a| + |b - a|;
    assert b == (b - a) + a * b && |(b - a) + a * b| == |b - a| + |a * b|;
  }

  lemma MergedSize<K, V>(a: map<K, V>, b: map<K, V>)
    ensures |a + b| + |Shared(a, b)| == |a| + |b|
  {
    UnionSize(a.Keys, b.Keys);
    assert (a + b).Keys == a.Keys + b.Keys;
    assert |(a + b).Keys| == |a + b| && |a.Keys| == |a| && |b.Keys| == |b|;
  }

  // Merging conserves entries: what the maps hold together is what is kept plus the
  // duplicates across maps.
  lemma {:induction false} MergeConserves<K(!new), V>(maps: seq<map<K, V>>)
    requires Merge(maps).Some?
    ensures TotalEntries(maps) == |Merge(maps).value| + Duplicates(maps)
  {
    if maps != [] {
      var n := |maps| - 1;
      assert Merge(maps[..n]).Some?;
      MergeConserves(maps[..n]);
      MergedSize(Merge(maps[..n]).value, maps[n]);
    }
  }

  // ----- Order

  lemma AgreeWithUnion<K(!new), V>(l: map<K, V>, a: map<K, V>, b: map<K, V>)
    requires Agree(l, a)
    ensures Agree(l + a, b) <==> Agree(l, b) && Agree(a, b)
  {
    forall k ensures AgreeAt(l + a, b, k) <==> AgreeAt(l, b, k) && AgreeAt(a, b, k) {
      assert AgreeAt(l, a, k);
    }
    if Agree(l + a, b) {
      forall k ensures AgreeAt(l, b, k) && AgreeAt(a, b, k) { assert AgreeAt(l + a, b, k); }
    }
    if Agree(l, b) && Agree(a, b) {
      forall k ensures AgreeAt(l + a, b, k) { assert AgreeAt(l, b, k) && AgreeAt(a, b, k); }
    }
  }

  lemma AgreeSwaps<K(!new), V>(a: map<K, V>, b: map<K, V>)
    ensures Agree(a, b) <==> Agree(b, a)
  {
    if Agree(a, b) { forall k ensures AgreeAt(b, a, k) { assert AgreeAt(a, b, k); } }
    if Agree(b, a) { forall k ensures AgreeAt(a, b, k) { assert AgreeAt(b, a, k); } }
  }

  lemma UnionSwaps<K(!new), V>(l: map<K, V>, a: map<K, V>, b: map<K, V>)
    requires Agree(a, b)
    ensures l + a + b == l + b + a
  {
    forall k | k in l + a + b ensures (l + a + b)[k] == (l + b + a)[k] { assert AgreeAt(a, b, k); }
  }

  lemma MergeStepCommutes<K(!new), V>(l: map<K, V>, a: map<K, V>, b: map<K, V>)
    ensures Then(MergeStep, MergeStep(l, a), b) == Then(MergeStep, MergeStep(l, b), a)
  {
    if Agree(l, a) { AgreeWithUnion(l, a, b); }
    if Agree(l, b) { AgreeWithUnion(l, b, a); }
    AgreeSwaps(a, b);
    if Agree(a, b) { UnionSwaps(l, a, b); }
  }

  // Whether the maps merge, and into what, does not depend on their order.
  lemma MergeIgnoresOrder<K(!new), V(!new)>(a: seq<map<K, V>>, b: seq<map<K, V>>)
    requires multiset(a) == multiset(b)
    ensures Merge(a) == Merge(b)
  {
    forall l: map<K, V>, x: map<K, V>, y: map<K, V>
      ensures Then(MergeStep, MergeStep(l, x), y) == Then(MergeStep, MergeStep(l, y), x)
    {
      MergeStepCommutes(l, x, y);
    }
    FoldIgnoresOrder(MergeStep, map[], a, b);
  }

  lemma {:induction false} EntriesAreFolded<K, V>(maps: seq<map<K, V>>)
    ensures Fold((n: int, m: map<K, V>) => Some(n + |m|), 0, maps) == Some(TotalEntries(maps))
  {
    if maps != [] { EntriesAreFolded(maps[..|maps| - 1]); }
  }

  // How many entries the maps hold together does not depend on it either.
  lemma EntriesIgnoreOrder<K(!new), V(!new)>(a: seq<map<K, V>>, b: seq<map<K, V>>)
    requires multiset(a) == multiset(b)
    ensures TotalEntries(a) == TotalEntries(b)
  {
    EntriesAreFolded(a);
    EntriesAreFolded(b);
    FoldIgnoresOrder((n: int, m: map<K, V>) => Some(n + |m|), 0, a, b);
  }

  // ----- The loops that merge

  // r is merged with the entries of next whose keys are not left to visit.
  ghost predicate PartlyMerged<K(!new), V>(merged: map<K, V>, next: map<K, V>, left: set<K>, r: map<K, V>,
                                 shared: set<K>) {
    && (forall k :: k in next && k !in left ==> AgreeAt(merged, next, k))
    && (forall k :: k in r <==> k in merged || (k in next && k !in left))
    && (forall k :: k in r ==> r[k] == if k in next && k !in left then next[k] else merged[k])
    && (forall k :: k in shared <==> k in merged && k in next && k !in left)
  }

  lemma FullyMerged<K(!new), V>(merged: map<K, V>, next: map<K, V>, r: map<K, V>, shared: set<K>)
    requires PartlyMerged(merged, next, {}, r, shared)
    ensures Agree(merged, next) && r == merged + next && shared == Shared(merged, next)
  {
    forall k ensures AgreeAt(merged, next, k) {}
  }

  // One map into another; false at the first entry that disagrees.
  method MergeInto<K(!new, ==), V(==)>(merged: map<K, V>, next: map<K, V>) returns (ok: bool, r: map<K, V>, again: nat)
    ensures ok <==> Agree(merged, next)
    ensures ok ==> r == merged + next && again == |Shared(merged, next)|
  {
    r, again := merged, 0;
    var left := next.Keys;
    ghost var shared: set<K> := {};
    while left != {}
      invariant left <= next.Keys && PartlyMerged(merged, next, left, r, shared) && again == |shared|
      decreases left
    {
      var k :| k in left;
      if k in merged && merged[k] != next[k] {
        assert !AgreeAt(merged, next, k);
        return false, r, again;
      }
      if k in merged {
        again, shared := again + 1, shared + {k};
      } else {
        r := r[k := next[k]];
      }
      left := left - {k};
    }
    FullyMerged(merged, next, r, shared);
    ok := true;
  }

  method MergeAll<K(!new, ==), V(==)>(maps: seq<map<K, V>>) returns (merged: Option<map<K, V>>, duplicates: nat)
    ensures merged == Merge(maps)
    ensures merged.Some? ==> |merged.value| + duplicates == TotalEntries(maps)
  {
    var all: map<K, V> := map[];
    duplicates := 0;
    for i := 0 to |maps|
      invariant Merge(maps[..i]) == Some(all) && duplicates == Duplicates(maps[..i])
    {
      assert maps[..i + 1][..i] == maps[..i];
      var ok, next, again := MergeInto(all, maps[i]);
      if !ok {
        FailureStays(MergeStep, map[], maps, i + 1);
        return None, 0;
      }
      all, duplicates := next, duplicates + again;
    }
    assert maps[..|maps|] == maps;
    MergeConserves(maps);
    merged := Some(all);
  }
}
