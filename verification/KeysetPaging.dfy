// The forward-history audit reads two tables page by page, each page starting after
// the last id of the one before. On a fixed table the pages together are the table.

module KeysetPaging {
  import opened Common

  const PAGE_SIZE := 64
  const OFFSETS: multiset<int> := multiset{60, 120, 180, 240}
  const EXAMPLES := 5

  datatype Market = Market(id: int, condition: string, horizon: int, startAt: real, endAt: real)

  // issues is what inspecting the row yields.
  datatype Feature = Feature(id: int, startAt: real, issues: seq<string>)

  datatype OffsetRow = OffsetRow(condition: string, offset: int)

  // ----- Filtering in order

  function Filter<T>(rows: seq<T>, test: T -> bool): seq<T> {
    if rows == [] then []
    else (if test(rows[0]) then [rows[0]] else []) + Filter(rows[1..], test)
  }

  lemma {:induction false} FilterConcat<T>(a: seq<T>, b: seq<T>, test: T -> bool)
    ensures Filter(a + b, test) == Filter(a, test) + Filter(b, test)
  {
    if a == [] {
      assert a + b == b;
    } else {
      var head := if test(a[0]) then [a[0]] else [];
      assert (a + b)[0] == a[0] && (a + b)[1..] == a[1..] + b;
      FilterConcat(a[1..], b, test);
      assert Filter(a, test) == head + Filter(a[1..], test) && Filter(a + b, test) == head + Filter(a[1..] + b, test);
    }
  }

  lemma {:induction false} FilterIn<T>(rows: seq<T>, test: T -> bool, x: T)
    ensures x in Filter(rows, test) <==> x in rows && test(x)
  {
    if rows != [] {
      FilterIn(rows[1..], test, x);
      assert rows == [rows[0]] + rows[1..];
    }
  }

  // Narrowing a filter step by step is filtering by both tests.
  lemma {:induction false} FilterTwice<T>(rows: seq<T>, first: T -> bool, second: T -> bool, both: T -> bool)
    requires forall r :: r in rows ==> (both(r) <==> first(r) && second(r))
    ensures Filter(Filter(rows, first), second) == Filter(rows, both)
  {
    if rows != [] {
      assert rows == [rows[0]] + rows[1..];
      FilterTwice(rows[1..], first, second, both);
      FilterConcat(if first(rows[0]) then [rows[0]] else [], Filter(rows[1..], first), second);
    }
  }

  // ----- Pages

  // A table in id order; ids are unique.
  ghost predicate Ordered<T(!new)>(table: seq<T>, id: T -> int) {
    forall i, j :: 0 <= i < j < |table| ==> id(table[i]) < id(table[j])
  }

  // What a page query may return: the rows after the cursor up to the high-water mark.
  function Window<T>(table: seq<T>, id: T -> int, cursor: int, high: int): seq<T> {
    Filter(table, r => cursor < id(r) <= high)
  }

  function Page<T>(table: seq<T>, id: T -> int, cursor: int, high: int): seq<T> {
    var window := Window(table, id, cursor, high);
    if |window| <= PAGE_SIZE then window else window[..PAGE_SIZE]
  }

  lemma {:induction false} FilterOrdered<T(!new)>(table: seq<T>, id: T -> int, test: T -> bool)
    requires Ordered(table, id)
    ensures Ordered(Filter(table, test), id)
  {
    if table != [] {
      assert table == [table[0]] + table[1..];
      FilterOrdered(table[1..], id, test);
      forall r | r in Filter(table[1..], test) ensures id(table[0]) < id(r) {
        FilterIn(table[1..], test, r);
        var k :| 0 <= k < |table[1..]| && table[1..][k] == r;
        assert id(table[0]) < id(table[k + 1]);
      }
    }
  }

  // In an ordered list, the rows beyond a position's id are the rows after the position.
  lemma {:induction false} BeyondIsSuffix<T(!new)>(rows: seq<T>, id: T -> int, n: nat)
    requires Ordered(rows, id) && 0 < n <= |rows|
    ensures Filter(rows, r => id(rows[n - 1]) < id(r)) == rows[n..]
    decreases |rows|
  {
    var bound := id(rows[n - 1]);
    assert rows == rows[..n] + rows[n..];
    FilterConcat(rows[..n], rows[n..], r => bound < id(r));
    NoneBeyond(rows[..n], id, bound);
    AllBeyond(rows[n..], id, bound);
  }

  lemma {:induction false} NoneBeyond<T(!new)>(rows: seq<T>, id: T -> int, bound: int)
    requires forall r :: r in rows ==> id(r) <= bound
    ensures Filter(rows, r => bound < id(r)) == []
  {
    if rows != [] { NoneBeyond(rows[1..], id, bound); }
  }

  lemma {:induction false} AllBeyond<T(!new)>(rows: seq<T>, id: T -> int, bound: int)
    requires forall r :: r in rows ==> bound < id(r)
    ensures Filter(rows, r => bound < id(r)) == rows
  {
    if rows != [] {
      AllBeyond(rows[1..], id, bound);
      assert rows == [rows[0]] + rows[1..];
    }
  }

  // The next page starts exactly where this one ended, whatever the page size divides.
  lemma NextWindow<T(!new)>(table: seq<T>, id: T -> int, cursor: int, high: int)
    requires Ordered(table, id) && Page(table, id, cursor, high) != []
    ensures var page := Page(table, id, cursor, high);
            var next := id(page[|page| - 1]);
            && cursor < next <= high
            && Window(table, id, cursor, high) == page + Window(table, id, next, high)
  {
    var window, page := Window(table, id, cursor, high), Page(table, id, cursor, high);
    var n := |page|;
    var next := id(page[n - 1]);
    FilterIn(table, r => cursor < id(r) <= high, page[n - 1]);
    FilterOrdered(table, id, r => cursor < id(r) <= high);
    BeyondIsSuffix(window, id, n);
    FilterTwice(table, r => cursor < id(r) <= high, r => next < id(r), r => next < id(r) <= high);
    assert window == window[..n] + window[n..];
  }

  // The same step along the list of all rows: n of them are done.
  lemma PageStep<T(!new)>(table: seq<T>, id: T -> int, cursor: int, high: int, all: seq<T>, n: nat)
    requires Ordered(table, id) && Page(table, id, cursor, high) != []
    requires n <= |all| && Window(table, id, cursor, high) == all[n..]
    ensures var page := Page(table, id, cursor, high);
            var next := id(page[|page| - 1]);
            && cursor < next <= high && n + |page| <= |all|
            && all[..n] + page == all[..n + |page|]
            && Window(table, id, next, high) == all[n + |page|..]
            && (|page| < PAGE_SIZE ==> n + |page| == |all|)
  {
    NextWindow(table, id, cursor, high);
    var page := Page(table, id, cursor, high);
    var next := id(page[|page| - 1]);
    assert all[n..][..|page|] == page;
    assert all[n..][|page|..] == Window(table, id, next, high);
  }

  // The page query, n rows into the list of all rows.
  method FetchPage<T(!new)>(table: seq<T>, id: T -> int, cursor: int, high: int, ghost all: seq<T>, ghost n: nat)
    returns (page: seq<T>)
    requires Ordered(table, id) && n <= |all| && Window(table, id, cursor, high) == all[n..]
    ensures page == Page(table, id, cursor, high) && |page| <= PAGE_SIZE
    ensures n + |page| <= |all| && all[..n] + page == all[..n + |page|]
    ensures |page| < PAGE_SIZE ==> n + |page| == |all|
    ensures page != [] ==>
              var next := id(page[|page| - 1]);
              cursor < next <= high && Window(table, id, next, high) == all[n + |page|..]
  {
    page := Page(table, id, cursor, high);
    if page != [] { PageStep(table, id, cursor, high, all, n); }
  }

  // ----- Markets

  function MarketId(m: Market): int { m.id }

  function OffsetsOf(offsets: seq<OffsetRow>, condition: string): seq<int> {
    if offsets == [] then []
    else (if offsets[0].condition == condition then [offsets[0].offset] else []) + OffsetsOf(offsets[1..], condition)
  }

  // Exactly the four expected offsets; comparing sorted tuples compares multisets.
  predicate Complete(offsets: seq<OffsetRow>, condition: string) {
    multiset(OffsetsOf(offsets, condition)) == OFFSETS
  }

  predicate Eligible(m: Market, epoch: real, cutoff: real) {
    m.horizon == 300 && m.startAt >= epoch && m.endAt <= cutoff
  }

  function EligibleIn(rows: seq<Market>, epoch: real, cutoff: real): seq<Market> {
    Filter(rows, m => Eligible(m, epoch, cutoff))
  }

  predicate Pending(m: Market, offsets: seq<OffsetRow>, epoch: real, cutoff: real) {
    Eligible(m, epoch, cutoff) && !Complete(offsets, m.condition)
  }

  function PendingIn(rows: seq<Market>, offsets: seq<OffsetRow>, epoch: real, cutoff: real): seq<Market> {
    Filter(rows, m => Pending(m, offsets, epoch, cutoff))
  }

  function Oldest(rows: seq<Market>): Option<real> {
    if rows == [] then None
    else
      var front, last := Oldest(rows[..|rows| - 1]), rows[|rows| - 1].endAt;
      if front.None? || last < front.value then Some(last) else front
  }

  function Conditions(rows: seq<Market>): seq<string> {
    seq(|rows|, i requires 0 <= i < |rows| => rows[i].condition)
  }

  function FirstFew<T>(s: seq<T>): seq<T> {
    if |s| <= EXAMPLES then s else s[..EXAMPLES]
  }

  // The oldest end is the least of all pending ends.
  lemma {:induction false} OldestIsLeast(rows: seq<Market>)
    ensures Oldest(rows).None? <==> rows == []
    ensures rows != [] ==> (forall m :: m in rows ==> Oldest(rows).value <= m.endAt)
                           && exists m :: m in rows && m.endAt == Oldest(rows).value
  {
    if rows != [] {
      var n := |rows| - 1;
      OldestIsLeast(rows[..n]);
      assert rows == rows[..n] + [rows[n]];
    }
  }

  // The first half of inspect_market_offsets: the offsets seen per condition.
  method CollectOffsets(conditions: set<string>, offsets: seq<OffsetRow>) returns (seen: map<string, seq<int>>)
    ensures seen.Keys == conditions && forall c :: c in seen ==> seen[c] == OffsetsOf(offsets, c)
  {
    seen := map c | c in conditions :: [];
    for i := 0 to |offsets|
      invariant seen.Keys == conditions
      invariant forall c :: c in seen ==> seen[c] == OffsetsOf(offsets[..i], c)
    {
      forall c ensures OffsetsOf(offsets[..i + 1], c)
                    == OffsetsOf(offsets[..i], c) + if offsets[i].condition == c then [offsets[i].offset] else []
      {
        assert offsets[..i + 1] == offsets[..i] + [offsets[i]];
        OffsetsConcat(offsets[..i], [offsets[i]], c);
      }
      var c := offsets[i].condition;
      if c in seen { seen := seen[c := seen[c] + [offsets[i].offset]]; }
    }
    assert offsets[..|offsets|] == offsets;
  }

  function Incomplete(offsets: seq<OffsetRow>): Market -> bool {
    (m: Market) => !Complete(offsets, m.condition)
  }

  // The second half: the markets whose offsets are not the expected ones.
  method KeepLacking(targets: seq<Market>, seen: map<string, seq<int>>, ghost lacking: Market -> bool)
    returns (kept: seq<Market>)
    requires forall m :: m in targets ==>
              m.condition in seen && (lacking(m) <==> multiset(seen[m.condition]) != OFFSETS)
    ensures kept == Filter(targets, lacking)
  {
    kept := [];
    for i := 0 to |targets|
      invariant kept == Filter(targets[..i], lacking)
    {
      assert targets[..i + 1] == targets[..i] + [targets[i]];
      FilterConcat(targets[..i], [targets[i]], lacking);
      assert targets[i] in targets;
      if multiset(seen[targets[i].condition]) != OFFSETS { kept := kept + [targets[i]]; }
    }
    assert targets[..|targets|] == targets;
  }

  // inspect_market_offsets on the markets of one page.
  method InspectMarketOffsets(targets: seq<Market>, offsets: seq<OffsetRow>) returns (incomplete: seq<Market>)
    ensures incomplete == Filter(targets, Incomplete(offsets))
  {
    var seen := CollectOffsets(set m | m in targets :: m.condition, offsets);
    incomplete := KeepLacking(targets, seen, Incomplete(offsets));
  }

  lemma {:induction false} OffsetsConcat(a: seq<OffsetRow>, b: seq<OffsetRow>, c: string)
    ensures OffsetsOf(a + b, c) == OffsetsOf(a, c) + OffsetsOf(b, c)
  {
    if a == [] {
      assert a + b == b;
    } else {
      var head := if a[0].condition == c then [a[0].offset] else [];
      assert (a + b)[0] == a[0] && (a + b)[1..] == a[1..] + b;
      OffsetsConcat(a[1..], b, c);
      assert OffsetsOf(a, c) == head + OffsetsOf(a[1..], c) && OffsetsOf(a + b, c) == head + OffsetsOf(a[1..] + b, c);
    }
  }

  lemma {:induction false} PendingAdds(rows: seq<Market>, row: Market)
    ensures Oldest(rows + [row]) ==
            if Oldest(rows).None? || row.endAt < Oldest(rows).value then Some(row.endAt) else Oldest(rows)
    ensures FirstFew(Conditions(rows + [row])) ==
            if |FirstFew(Conditions(rows))| < EXAMPLES then FirstFew(Conditions(rows)) + [row.condition]
            else FirstFew(Conditions(rows))
  {
    assert (rows + [row])[..|rows|] == rows;
    assert Conditions(rows + [row]) == Conditions(rows) + [row.condition];
  }

  // One page: its pending markets go into the running oldest end and the examples.
  method RecordPending(incomplete: seq<Market>, ghost before: seq<Market>, oldest: Option<real>, examples: seq<string>)
    returns (oldest': Option<real>, examples': seq<string>)
    requires oldest == Oldest(before) && examples == FirstFew(Conditions(before))
    ensures oldest' == Oldest(before + incomplete) && examples' == FirstFew(Conditions(before + incomplete))
  {
    oldest', examples' := oldest, examples;
    assert before + incomplete[..0] == before;
    for i := 0 to |incomplete|
      invariant oldest' == Oldest(before + incomplete[..i])
      invariant examples' == FirstFew(Conditions(before + incomplete[..i]))
    {
      var row := incomplete[i];
      ghost var rows := before + incomplete[..i];
      assert before + incomplete[..i + 1] == rows + [row];
      PendingAdds(rows, row);
      if oldest'.None? || row.endAt < oldest'.value { oldest' := Some(row.endAt); }
      if |examples'| < EXAMPLES { examples' := examples' + [row.condition]; }
    }
    assert incomplete[..|incomplete|] == incomplete;
  }

  datatype MarketScan = MarketScan(eligible: nat, pending: nat, age: Option<int>, examples: seq<string>)

  // What a single unpaged filter over the table says.
  function MarketSummary(table: seq<Market>, offsets: seq<OffsetRow>, high: int, epoch: real,
                         cutoff: real): MarketScan {
    var rows := Window(table, MarketId, 0, high);
    var pending := PendingIn(rows, offsets, epoch, cutoff);
    var oldest := Oldest(pending);
    Rendered(|EligibleIn(rows, epoch, cutoff)|, |pending|, oldest, FirstFew(Conditions(pending)), cutoff)
  }

  function Rendered(eligible: nat, pending: nat, oldest: Option<real>, examples: seq<string>,
                    cutoff: real): MarketScan {
    MarketScan(eligible, pending, if oldest.None? then None else Some(Age(cutoff, oldest.value)), examples)
  }

  function Age(cutoff: real, oldest: real): int {
    var age := (cutoff - oldest).Floor;
    if age < 0 then 0 else age
  }

  // What the scan has counted after the given rows.
  ghost predicate Counted(done: seq<Market>, offsets: seq<OffsetRow>, epoch: real, cutoff: real,
                          eligible: nat, pending: nat, oldest: Option<real>, examples: seq<string>)
  {
    && eligible == |EligibleIn(done, epoch, cutoff)| && pending == |PendingIn(done, offsets, epoch, cutoff)|
    && oldest == Oldest(PendingIn(done, offsets, epoch, cutoff))
    && examples == FirstFew(Conditions(PendingIn(done, offsets, epoch, cutoff)))
  }

  lemma CountedAll(table: seq<Market>, offsets: seq<OffsetRow>, high: int, epoch: real, cutoff: real,
                   eligible: nat, pending: nat, oldest: Option<real>, examples: seq<string>)
    requires Counted(Window(table, MarketId, 0, high), offsets, epoch, cutoff, eligible, pending, oldest, examples)
    ensures Rendered(eligible, pending, oldest, examples, cutoff) == MarketSummary(table, offsets, high, epoch, cutoff)
  {
  }

  lemma PageAdds(done: seq<Market>, page: seq<Market>, offsets: seq<OffsetRow>, epoch: real, cutoff: real)
    ensures EligibleIn(done + page, epoch, cutoff) == EligibleIn(done, epoch, cutoff) + EligibleIn(page, epoch, cutoff)
    ensures PendingIn(done + page, offsets, epoch, cutoff)
         == PendingIn(done, offsets, epoch, cutoff) + Filter(EligibleIn(page, epoch, cutoff), Incomplete(offsets))
  {
    FilterConcat(done, page, m => Eligible(m, epoch, cutoff));
    FilterConcat(done, page, m => Pending(m, offsets, epoch, cutoff));
    FilterTwice(page, m => Eligible(m, epoch, cutoff), Incomplete(offsets), m => Pending(m, offsets, epoch, cutoff));
  }

  // The body of the market loop for one page, once its eligible markets are known.
  method CountPage(page: seq<Market>, targets: seq<Market>, offsets: seq<OffsetRow>, epoch: real, cutoff: real,
                   ghost done: seq<Market>, eligible: nat, pending: nat, oldest: Option<real>, examples: seq<string>)
    returns (eligible': nat, pending': nat, oldest': Option<real>, examples': seq<string>)
    requires Counted(done, offsets, epoch, cutoff, eligible, pending, oldest, examples)
    requires targets == EligibleIn(page, epoch, cutoff)
    ensures Counted(done + page, offsets, epoch, cutoff, eligible', pending', oldest', examples')
  {
    PageAdds(done, page, offsets, epoch, cutoff);
    eligible' := eligible + |targets|;
    var incomplete := InspectMarketOffsets(targets, offsets);
    pending' := pending + |incomplete|;
    oldest', examples' := RecordPending(incomplete, PendingIn(done, offsets, epoch, cutoff), oldest, examples);
  }

  // How often a scan of these rows looks at the clock: before each page query, and before the
  // offsets query of each page with eligible markets; a page that is not full is the last.
  function ClockChecks(rows: seq<Market>, epoch: real, cutoff: real): (checks: nat)
    ensures checks >= 1
  {
    if |rows| < PAGE_SIZE then PageChecks(rows, epoch, cutoff)
    else PageChecks(rows[..PAGE_SIZE], epoch, cutoff) + ClockChecks(rows[PAGE_SIZE..], epoch, cutoff)
  }

  function PageChecks(page: seq<Market>, epoch: real, cutoff: real): nat {
    if EligibleIn(page, epoch, cutoff) == [] then 1 else 2
  }

  lemma {:induction false} ChecksOfPage(all: seq<Market>, epoch: real, cutoff: real, n: nat, page: seq<Market>)
    requires |page| <= PAGE_SIZE && n + |page| <= |all| && all[..n] + page == all[..n + |page|]
    requires |page| < PAGE_SIZE ==> n + |page| == |all|
    ensures ClockChecks(all[n..], epoch, cutoff)
         == PageChecks(page, epoch, cutoff)
            + if |page| < PAGE_SIZE then 0 else ClockChecks(all[n + |page|..], epoch, cutoff)
  {
    var rest := all[n..];
    assert page == (all[..n] + page)[n..] == all[..n + |page|][n..] == rest[..|page|];
    assert rest[|page|..] == all[n + |page|..];
    if |page| < PAGE_SIZE { assert rest == page; }
  }

  // _scan_markets. The clock is monotonic, so the deadline passes at one of the checks, and
  // budget is how many are in time: the scan is given up exactly if a whole one takes more.
  method ScanMarkets(table: seq<Market>, offsets: seq<OffsetRow>, high: int, epoch: real, cutoff: real, budget: nat)
    returns (scan: Option<MarketScan>)
    requires Ordered(table, MarketId)
    ensures scan.None? <==> budget < ClockChecks(Window(table, MarketId, 0, high), epoch, cutoff)
    ensures scan.Some? ==> scan.value == MarketSummary(table, offsets, high, epoch, cutoff)
  {
    var cursor, eligible, pending := 0, 0, 0;
    var oldest: Option<real>, examples: seq<string> := None, [];
    var spent := 0;
    ghost var all, n := Window(table, MarketId, 0, high), 0;
    ghost var left := ClockChecks(all, epoch, cutoff);
    assert all[n..] == all;
    while true
      invariant 0 <= n <= |all| && Window(table, MarketId, cursor, high) == all[n..]
      invariant Counted(all[..n], offsets, epoch, cutoff, eligible, pending, oldest, examples)
      invariant left == ClockChecks(all[n..], epoch, cutoff)
      invariant spent <= budget && spent + left == ClockChecks(all, epoch, cutoff)
      decreases high - cursor
    {
      if spent == budget { return None; }
      spent := spent + 1;
      var page := FetchPage(table, MarketId, cursor, high, all, n);
      ChecksOfPage(all, epoch, cutoff, n, page);
      left := left - PageChecks(page, epoch, cutoff);
      if page == [] { break; }
      var targets := EligibleIn(page, epoch, cutoff);
      if targets != [] {
        if spent == budget { return None; }
        spent := spent + 1;
      }
      eligible, pending, oldest, examples :=
        CountPage(page, targets, offsets, epoch, cutoff, all[..n], eligible, pending, oldest, examples);
      cursor := page[|page| - 1].id;
      n := n + |page|;
      if |page| < PAGE_SIZE { break; }
    }
    assert all[..n] == all;
    CountedAll(table, offsets, high, epoch, cutoff, eligible, pending, oldest, examples);
    return Some(Rendered(eligible, pending, oldest, examples, cutoff));
  }

  // ----- Features

  function FeatureId(f: Feature): int { f.id }

  datatype FeatureScan = FeatureScan(count: nat, violations: nat, examples: seq<(int, seq<string>)>)

  function Recent(rows: seq<Feature>, epoch: real): seq<Feature> {
    Filter(rows, (f: Feature) => f.startAt >= epoch)
  }

  predicate Violates(f: Feature, epoch: real) {
    f.startAt >= epoch && f.issues != []
  }

  function Violating(rows: seq<Feature>, epoch: real): seq<Feature> {
    Filter(rows, f => Violates(f, epoch))
  }

  function Shown(rows: seq<Feature>): seq<(int, seq<string>)> {
    seq(|rows|, i requires 0 <= i < |rows| => (rows[i].id, rows[i].issues))
  }

  function FeatureSummary(table: seq<Feature>, high: int, epoch: real): FeatureScan {
    var rows := Window(table, FeatureId, 0, high);
    FeatureScan(|Recent(rows, epoch)|, |Violating(rows, epoch)|, FirstFew(Shown(Violating(rows, epoch))))
  }

  ghost predicate Inspected(done: seq<Feature>, epoch: real, count: nat, violations: nat, examples: seq<(int,
                            seq<string>)>) {
    && count == |Recent(done, epoch)| && violations == |Violating(done, epoch)|
    && examples == FirstFew(Shown(Violating(done, epoch)))
  }

  lemma FeatureAdds(done: seq<Feature>, f: Feature, epoch: real)
    ensures Recent(done + [f], epoch) == Recent(done, epoch) + if f.startAt >= epoch then [f] else []
    ensures Violating(done + [f], epoch) == Violating(done, epoch) + if Violates(f, epoch) then [f] else []
    ensures Shown(Violating(done, epoch) + [f]) == Shown(Violating(done, epoch)) + [(f.id, f.issues)]
  {
    FilterConcat(done, [f], (g: Feature) => g.startAt >= epoch);
    FilterConcat(done, [f], g => Violates(g, epoch));
  }

  // The body of the feature loop for one page; the cursor follows every row.
  method InspectPage(page: seq<Feature>, epoch: real, ghost done: seq<Feature>, cursor: int,
                     count: nat, violations: nat, examples: seq<(int, seq<string>)>)
    returns (cursor': int, count': nat, violations': nat, examples': seq<(int, seq<string>)>)
    requires Inspected(done, epoch, count, violations, examples)
    ensures Inspected(done + page, epoch, count', violations', examples')
    ensures cursor' == if page == [] then cursor else page[|page| - 1].id
  {
    cursor', count', violations', examples' := cursor, count, violations, examples;
    assert done + page[..0] == done;
    for i := 0 to |page|
      invariant Inspected(done + page[..i], epoch, count', violations', examples')
      invariant cursor' == if i == 0 then cursor else page[i - 1].id
    {
      var row := page[i];
      assert done + page[..i + 1] == (done + page[..i]) + [row];
      FeatureAdds(done + page[..i], row, epoch);
      cursor' := row.id;
      if row.startAt < epoch { continue; }
      count' := count' + 1;
      if row.issues != [] {
        violations' := violations' + 1;
        if |examples'| < EXAMPLES { examples' := examples' + [(cursor', row.issues)]; }
      }
    }
    assert page[..|page|] == page;
  }

  // _scan_features, with one check of the clock before each page query.
  method ScanFeatures(table: seq<Feature>, high: int, epoch: real, budget: nat) returns (scan: Option<FeatureScan>)
    requires Ordered(table, FeatureId)
    ensures scan.None? <==> PAGE_SIZE * budget <= |Window(table, FeatureId, 0, high)|
    ensures scan.Some? ==> scan.value == FeatureSummary(table, high, epoch)
  {
    var cursor, count, violations := 0, 0, 0;
    var examples: seq<(int, seq<string>)> := [];
    var spent := 0;
    ghost var all, n := Window(table, FeatureId, 0, high), 0;
    while true
      invariant 0 <= n <= |all| && Window(table, FeatureId, cursor, high) == all[n..]
      invariant Inspected(all[..n], epoch, count, violations, examples)
      invariant n == PAGE_SIZE * spent && spent <= budget
      decreases high - cursor
    {
      if spent == budget { return None; }
      spent := spent + 1;
      var page := FetchPage(table, FeatureId, cursor, high, all, n);
      if page == [] { break; }
      cursor, count, violations, examples := InspectPage(page, epoch, all[..n], cursor, count, violations, examples);
      n := n + |page|;
      if |page| < PAGE_SIZE { break; }
    }
    assert all[..n] == all;
    return Some(FeatureScan(count, violations, examples));
  }
}
