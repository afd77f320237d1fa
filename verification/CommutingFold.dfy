// A fold whose steps commute reads its input as a multiset: order does not matter,
// neither for the accumulator nor for whether the fold succeeds.

module CommutingFold {
  import opened Common

  function Then<S, R>(step: (S, R) -> Option<S>, s: Option<S>, r: R): Option<S> {
    if s.None? then None else step(s.value, r)
  }

  function Fold<S, R>(step: (S, R) -> Option<S>, init: S, rs: seq<R>): Option<S> {
    if rs == [] then Some(init)
    else Then(step, Fold(step, init, rs[..|rs| - 1]), rs[|rs| - 1])
  }

  ghost predicate Commutes<S(!new), R(!new)>(step: (S, R) -> Option<S>) {
    forall s, a, b :: Then(step, step(s, a), b) == Then(step, step(s, b), a)
  }

  function Without<R>(rs: seq<R>, i: nat): seq<R>
    requires i < |rs|
  {
    rs[..i] + rs[i + 1..]
  }

  // Any element may be taken last.
  lemma {:induction false} TakeLast<S(!new), R(!new)>(step: (S, R) -> Option<S>, init: S, rs: seq<R>, i: nat)
    requires Commutes(step) && i < |rs|
    ensures Fold(step, init, rs) == Then(step, Fold(step, init, Without(rs, i)), rs[i])
  {
    var n := |rs| - 1;
    if i == n {
      assert Without(rs, i) == rs[..n];
    } else {
      var front, last := rs[..n], rs[n];
      TakeLast(step, init, front, i);
      assert Without(rs, i)[..n - 1] == Without(front, i);
      assert Without(rs, i)[n - 1] == last;
      var s := Fold(step, init, Without(front, i));
      if s.Some? {
        assert Then(step, step(s.value, rs[i]), last) == Then(step, step(s.value, last), rs[i]);
      }
    }
  }

  lemma WithoutIsMinus<R>(rs: seq<R>, i: nat)
    requires i < |rs|
    ensures multiset(Without(rs, i)) == multiset(rs) - multiset{rs[i]}
  {
    assert rs == rs[..i] + [rs[i]] + rs[i + 1..];
  }

  lemma {:induction false} FoldIgnoresOrder<S(!new), R(!new)>(step: (S, R) -> Option<S>, init: S, a: seq<R>, b: seq<R>)
    requires Commutes(step) && multiset(a) == multiset(b)
    ensures Fold(step, init, a) == Fold(step, init, b)
    decreases |b|
  {
    if b == [] {
      assert |multiset(a)| == |a|;
    } else {
      var n := |b| - 1;
      assert b[n] in multiset(b);
      var i :| 0 <= i < |a| && a[i] == b[n];
      WithoutIsMinus(a, i);
      WithoutIsMinus(b, n);
      assert Without(b, n) == b[..n];
      FoldIgnoresOrder(step, init, Without(a, i), b[..n]);
      TakeLast(step, init, a, i);
    }
  }

  // A fold that has failed stays failed.
  lemma {:induction false} FailureStays<S, R>(step: (S, R) -> Option<S>, init: S, rs: seq<R>, i: nat)
    requires i <= |rs| && Fold(step, init, rs[..i]).None?
    ensures Fold(step, init, rs).None?
    decreases |rs|
  {
    if i == |rs| {
      assert rs[..i] == rs;
    } else {
      var front := rs[..|rs| - 1];
      assert front[..i] == rs[..i];
      FailureStays(step, init, front, i);
    }
  }

  function Mapped<R, T>(f: R -> T, rs: seq<R>): seq<T> {
    if rs == [] then [] else Mapped(f, rs[..|rs| - 1]) + [f(rs[|rs| - 1])]
  }

  lemma {:induction false} MappedAt<R, T>(f: R -> T, rs: seq<R>, i: nat)
    requires i < |rs|
    ensures |Mapped(f, rs)| == |rs| && Mapped(f, rs)[i] == f(rs[i])
  {
    if i < |rs| - 1 {
      MappedAt(f, rs[..|rs| - 1], i);
    } else if |rs| > 1 {
      MappedAt(f, rs[..|rs| - 1], 0);
    }
  }

  lemma {:induction false} MappedLength<R, T>(f: R -> T, rs: seq<R>)
    ensures |Mapped(f, rs)| == |rs|
  {
    if rs != [] { MappedLength(f, rs[..|rs| - 1]); }
  }

  lemma {:induction false} MappedCollects<R, T>(f: R -> T, rs: seq<R>)
    ensures Fold((m: multiset<T>, r: R) => Some(m + multiset{f(r)}), multiset{}, rs) == Some(multiset(Mapped(f, rs)))
  {
    if rs != [] {
      MappedCollects(f, rs[..|rs| - 1]);
    }
  }

  // Applying a function element by element keeps permutations.
  lemma MappedPermutes<R(!new), T(!new)>(f: R -> T, a: seq<R>, b: seq<R>)
    requires multiset(a) == multiset(b)
    ensures multiset(Mapped(f, a)) == multiset(Mapped(f, b))
  {
    MappedCollects(f, a);
    MappedCollects(f, b);
    var collect := (m: multiset<T>, r: R) => Some(m + multiset{f(r)});
    forall m, x, y ensures Then(collect, collect(m, x), y) == Then(collect, collect(m, y), x) {
      assert m + multiset{f(x)} + multiset{f(y)} == m + multiset{f(y)} + multiset{f(x)};
    }
    FoldIgnoresOrder(collect, multiset{}, a, b);
  }
}
