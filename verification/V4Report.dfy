// The V4 profit report: the shared dictionary and metrics, an extreme-edge flag that
// every trade must carry rightly, and the two cohorts it splits the trades into.

module V4Report {
  import opened Common
  import opened CommutingFold
  import opened Gathering
  import opened Merging
  import opened PaperPnl

  const EXTREME_EDGE := 0.5

  // A field that is absent or malformed is None; the edge may also be left out.
  datatype EdgeField = NoEdge | BadEdge | Edge(value: real)

  datatype Rec = Rec(
    trade: bool, filled: Option<real>, cost: Option<real>, pid: string, condition: string,
    side: Option<Side>, edge: EdgeField, extreme: bool, semantic: Option<string>)

  // The twelve names a reason may have are a venue, an anchor and a failure; others are refused.
  datatype Venue = Coinbase | BybitSpot | BybitLinear
  datatype Anchor = MarketStart | Current
  datatype Reason = Missing(venue: Venue, anchor: Anchor) | Stale(venue: Venue, anchor: Anchor) | Unexpected

  // A record of an ineligible source gives its reasons; a field that is absent or no list is [].
  datatype Line = Noise | QuoteUnavailable | SourceIneligible(reasons: seq<Reason>) | RunCompleted | Evaluated(rec: Rec)

  // _trade_from_record
  function ParseTrade(line: Line): Parsed {
    if !line.Evaluated? || !line.rec.trade then NoTrade
    else
      var r := line.rec;
      if r.filled.None? then Malformed
      else if r.filled.value <= 0.0 then NoTrade
      else if r.cost.None? || r.cost.value < 0.0 then Malformed
      else if r.pid == "" || r.condition == "" || r.side.None? || r.edge.BadEdge? then Malformed
      else if r.edge.Edge? && (r.edge.value > EXTREME_EDGE) != r.extreme then Malformed
      else Trade(PaperTrade(r.pid, r.condition, r.side.value, r.filled.value, r.cost.value,
                            if r.edge.Edge? then Some(r.edge.value) else None, r.extreme, r.semantic))
  }

  function ParseAll(lines: seq<Line>): seq<Parsed> {
    seq(|lines|, i requires 0 <= i < |lines| => ParseTrade(lines[i]))
  }

  predicate Explained(line: Line) {
    line.SourceIneligible? ==> line.reasons != [] && Unexpected !in line.reasons
  }

  // What is loaded from one file; an ineligible source without reasons, or with a reason that
  // is not expected, fails the breakdown.
  function LoadFile(lines: seq<Line>): Option<Loaded> {
    if forall i :: 0 <= i < |lines| ==> Explained(lines[i]) then Load(ParseAll(lines)) else None
  }

  ghost predicate FlaggedRightly(t: PaperTrade) {
    t.edge.Some? ==> (t.extreme <==> t.edge.value > EXTREME_EDGE)
  }

  // ----- The report

  datatype EpochReport = EpochReport(evaluated: nat, quoteUnavailable: nat, sourceIneligible: nat, completed: bool,
                                     duplicates: nat, paperTrades: nat, metrics: Metrics)

  // The counts of the cumulative part.
  datatype Counts = Counts(evaluated: nat, quoteUnavailable: nat, sourceIneligible: nat, completed: nat)

  datatype Report = Report(epochs: seq<EpochReport>, counts: Counts, paperTrades: nat, duplicatesAcross: nat,
                           cumulative: Metrics, extreme: Metrics, ordinary: Metrics)

  function CountLines(lines: seq<Line>, test: Line -> bool): nat {
    if lines == [] then 0 else CountLines(lines[..|lines| - 1], test) + if test(lines[|lines| - 1]) then 1 else 0
  }

  // What the events of one file add to the counts.
  function CountsOf(lines: seq<Line>): Counts {
    Counts(CountLines(lines, (x: Line) => x.Evaluated?), CountLines(lines, (x: Line) => x.QuoteUnavailable?),
           CountLines(lines, (x: Line) => x.SourceIneligible?), if RunCompleted in lines then 1 else 0)
  }

  function AddCounts(a: Counts, b: Counts): Counts {
    Counts(a.evaluated + b.evaluated, a.quoteUnavailable + b.quoteUnavailable,
           a.sourceIneligible + b.sourceIneligible, a.completed + b.completed)
  }

  const NO_COUNTS := Counts(0, 0, 0, 0)

  function AllCounts(files: seq<seq<Line>>): Counts {
    if files == [] then NO_COUNTS else AddCounts(AllCounts(files[..|files| - 1]), CountsOf(files[|files| - 1]))
  }

  function CountStep(counts: Counts, lines: seq<Line>): Option<Counts> {
    Some(AddCounts(counts, CountsOf(lines)))
  }

  lemma {:induction false} CountsAreFolded(files: seq<seq<Line>>)
    ensures Fold(CountStep, NO_COUNTS, files) == Some(AllCounts(files))
  {
    if files != [] { CountsAreFolded(files[..|files| - 1]); }
  }

  lemma AddCountsSwaps(s: Counts, a: Counts, b: Counts)
    ensures AddCounts(AddCounts(s, a), b) == AddCounts(AddCounts(s, b), a)
  {}

  lemma {:induction false} CountsIgnoreOrder(a: seq<seq<Line>>, b: seq<seq<Line>>)
    requires multiset(a) == multiset(b)
    ensures AllCounts(a) == AllCounts(b)
  {
    forall s, x, y ensures Then(CountStep, CountStep(s, x), y) == Then(CountStep, CountStep(s, y), x) {
      AddCountsSwaps(s, CountsOf(x), CountsOf(y));
    }
    CountsAreFolded(a);
    CountsAreFolded(b);
    FoldIgnoresOrder(CountStep, NO_COUNTS, a, b);
  }

  // The sums over the epochs that the report gives.
  function SumCounts(epochs: seq<EpochReport>): Counts {
    if epochs == [] then NO_COUNTS
    else
      var e := epochs[|epochs| - 1];
      AddCounts(SumCounts(epochs[..|epochs| - 1]),
                Counts(e.evaluated, e.quoteUnavailable, e.sourceIneligible, if e.completed then 1 else 0))
  }

  lemma {:induction false} CountsAddUp(epochs: seq<EpochReport>, files: seq<seq<Line>>, outcomes: Outcomes)
    requires |epochs| == |files| && forall i :: 0 <= i < |files| ==> IsEpochReport(epochs[i], files[i], outcomes)
    ensures SumCounts(epochs) == AllCounts(files)
  {
    if epochs != [] {
      var n := |epochs| - 1;
      forall i | 0 <= i < n ensures IsEpochReport(epochs[..n][i], files[..n][i], outcomes) {}
      CountsAddUp(epochs[..n], files[..n], outcomes);
      assert IsEpochReport(epochs[n], files[n], outcomes);
    }
  }

  function Cohort(trades: map<string, PaperTrade>, extreme: bool): map<string, PaperTrade> {
    map k | k in trades && trades[k].extreme == extreme :: trades[k]
  }

  ghost predicate IsEpochReport(e: EpochReport, lines: seq<Line>, outcomes: Outcomes) {
    && LoadFile(lines).Some?
    && var l := LoadFile(lines).value;
    && e.evaluated == CountLines(lines, (x: Line) => x.Evaluated?)
    && e.quoteUnavailable == CountLines(lines, (x: Line) => x.QuoteUnavailable?)
    && e.sourceIneligible == CountLines(lines, (x: Line) => x.SourceIneligible?)
    && e.completed == (RunCompleted in lines)
    && e.duplicates == l.duplicates && e.paperTrades == |l.trades| && AreMetrics(e.metrics, l.trades, outcomes)
  }

  function TradesIn(lines: seq<Line>): map<string, PaperTrade> {
    var l := LoadFile(lines);
    if l.Some? then l.value.trades else map[]
  }

  // Every file loads, and their trades merge without a conflict.
  ghost predicate CanReport(files: seq<seq<Line>>) {
    (forall lines :: lines in files ==> LoadFile(lines).Some?) && Merge(Mapped(TradesIn, files)).Some?
  }

  // In an accepted report every trade with an edge is in the cohort its edge belongs to.
  lemma {:induction false} CohortsFollowTheEdge(files: seq<seq<Line>>, k: string)
    requires CanReport(files) && k in Merge(Mapped(TradesIn, files)).value
    ensures FlaggedRightly(Merge(Mapped(TradesIn, files)).value[k])
  {
    var trades := Mapped(TradesIn, files);
    var t := Merge(trades).value[k];
    MergeKeeps(trades, k, t);
    assert Holds(Merge(trades).value, k, t);
    var i :| 0 <= i < |trades| && Holds(trades[i], k, t);
    MappedLength(TradesIn, files);
    MappedAt(TradesIn, files, i);
    assert files[i] in files;
    LoadConserves(ParseAll(files[i]));
    assert Trade(t) in ParseAll(files[i]);
  }

  // The whole report as a specification.
  ghost predicate IsReport(r: Report, files: seq<seq<Line>>, outcomes: Outcomes) {
    && CanReport(files) && |r.epochs| == |files|
    && (forall i :: 0 <= i < |files| ==> IsEpochReport(r.epochs[i], files[i], outcomes))
    && r.counts == AllCounts(files)
    && var all := Merge(Mapped(TradesIn, files)).value;
    && r.paperTrades == |all| && r.paperTrades + r.duplicatesAcross == TotalEntries(Mapped(TradesIn, files))
    && AreMetrics(r.cumulative, all, outcomes)
    && AreMetrics(r.extreme, Cohort(all, true), outcomes) && AreMetrics(r.ordinary, Cohort(all, false), outcomes)
  }

  function SumTrades(epochs: seq<EpochReport>): nat {
    if epochs == [] then 0 else SumTrades(epochs[..|epochs| - 1]) + epochs[|epochs| - 1].paperTrades
  }

  lemma {:induction false} EpochTradesAddUp(epochs: seq<EpochReport>, trades: seq<map<string, PaperTrade>>)
    requires |epochs| == |trades| && forall i :: 0 <= i < |epochs| ==> epochs[i].paperTrades == |trades[i]|
    ensures SumTrades(epochs) == TotalEntries(trades)
  {
    if epochs != [] {
      EpochTradesAddUp(epochs[..|epochs| - 1], trades[..|trades| - 1]);
    }
  }

  // Conservation: the trades of the epochs are the cumulative trades and the duplicates
  // across epochs; settled and pending are all trades; realized is profit less loss; and
  // the two edge cohorts add up to the cumulative metrics, measure by measure.
  lemma ReportConserves(r: Report, files: seq<seq<Line>>, outcomes: Outcomes, q: Measure)
    requires IsReport(r, files, outcomes)
    ensures SumTrades(r.epochs) == r.paperTrades + r.duplicatesAcross
    ensures r.cumulative.settled + r.cumulative.pending == r.paperTrades
    ensures r.cumulative.realized == r.cumulative.grossProfit - r.cumulative.grossLoss
    ensures r.cumulative.At(q) == r.extreme.At(q) + r.ordinary.At(q)
  {
    var trades := Mapped(TradesIn, files);
    MappedLength(TradesIn, files);
    forall i | 0 <= i < |files| ensures r.epochs[i].paperTrades == |trades[i]| {
      assert IsEpochReport(r.epochs[i], files[i], outcomes);
      MappedAt(TradesIn, files, i);
    }
    EpochTradesAddUp(r.epochs, trades);
    var all := Merge(trades).value;
    MetricsConsistent(r.cumulative, all, outcomes);
    CohortsSplit(all);
    CohortsAddUp(r.cumulative, all, outcomes, r.extreme, Cohort(all, true), r.ordinary, Cohort(all, false), q);
  }

  lemma CohortsSplit(all: map<string, PaperTrade>)
    ensures all == Cohort(all, true) + Cohort(all, false) && Cohort(all, true).Keys !! Cohort(all, false).Keys
  {}

  lemma {:induction false} TradesIgnoreOrder(a: seq<seq<Line>>, b: seq<seq<Line>>)
    requires multiset(a) == multiset(b)
    ensures Merge(Mapped(TradesIn, a)) == Merge(Mapped(TradesIn, b))
    ensures TotalEntries(Mapped(TradesIn, a)) == TotalEntries(Mapped(TradesIn, b))
    ensures CanReport(a) <==> CanReport(b)
  {
    assert forall lines :: lines in a <==> lines in multiset(a);
    assert forall lines :: lines in b <==> lines in multiset(b);
    MappedPermutes(TradesIn, a, b);
    MergeIgnoresOrder(Mapped(TradesIn, a), Mapped(TradesIn, b));
    EntriesIgnoreOrder(Mapped(TradesIn, a), Mapped(TradesIn, b));
  }

  // Whether there is a report, and everything cumulative in it, is the same for any order of
  // the evidence files: the trades, the counts, the duplicates and every measure of the
  // metrics and of both edge cohorts.
  lemma {:induction false} CumulativeIgnoresFileOrder(a: seq<seq<Line>>, ra: Report, b: seq<seq<Line>>, rb: Report,
                                                      outcomes: Outcomes, q: Measure)
    requires multiset(a) == multiset(b)
    ensures CanReport(a) <==> CanReport(b)
    ensures IsReport(ra, a, outcomes) && IsReport(rb, b, outcomes) ==>
              && ra.counts == rb.counts
              && ra.paperTrades == rb.paperTrades && ra.duplicatesAcross == rb.duplicatesAcross
              && ra.cumulative.At(q) == rb.cumulative.At(q)
              && ra.extreme.At(q) == rb.extreme.At(q) && ra.ordinary.At(q) == rb.ordinary.At(q)
  {
    TradesIgnoreOrder(a, b);
    CountsIgnoreOrder(a, b);
    if IsReport(ra, a, outcomes) && IsReport(rb, b, outcomes) {
      var all := Merge(Mapped(TradesIn, a)).value;
      assert ra.cumulative.At(q) == Total(all, outcomes, q) == rb.cumulative.At(q);
      assert ra.extreme.At(q) == Total(Cohort(all, true), outcomes, q) == rb.extreme.At(q);
      assert ra.ordinary.At(q) == Total(Cohort(all, false), outcomes, q) == rb.ordinary.At(q);
    }
  }

  // ----- The report as it is built

  // _source_ineligible_summary, as far as it can fail.
  method CheckReasons(lines: seq<Line>) returns (explained: bool)
    ensures explained <==> forall i :: 0 <= i < |lines| ==> Explained(lines[i])
  {
    for i := 0 to |lines|
      invariant forall j :: 0 <= j < i ==> Explained(lines[j])
    {
      if !Explained(lines[i]) { return false; }
    }
    return true;
  }

  // load_epoch: counts per event, and the trades with their duplicates.
  method LoadEpoch(lines: seq<Line>) returns (e: EpochReport, loaded: Option<Loaded>)
    ensures loaded == LoadFile(lines)
    ensures e.evaluated == CountLines(lines, (x: Line) => x.Evaluated?)
    ensures e.quoteUnavailable == CountLines(lines, (x: Line) => x.QuoteUnavailable?)
    ensures e.sourceIneligible == CountLines(lines, (x: Line) => x.SourceIneligible?)
    ensures e.completed == (RunCompleted in lines)
  {
    var evaluated, quoteUnavailable, sourceIneligible, completed := 0, 0, 0, false;
    for i := 0 to |lines|
      invariant evaluated == CountLines(lines[..i], (x: Line) => x.Evaluated?)
      invariant quoteUnavailable == CountLines(lines[..i], (x: Line) => x.QuoteUnavailable?)
      invariant sourceIneligible == CountLines(lines[..i], (x: Line) => x.SourceIneligible?)
      invariant completed == (RunCompleted in lines[..i])
    {
      assert lines[..i + 1][..i] == lines[..i];
      match lines[i] {
        case Noise =>
        case Evaluated(_) => evaluated := evaluated + 1;
        case QuoteUnavailable => quoteUnavailable := quoteUnavailable + 1;
        case SourceIneligible(_) => sourceIneligible := sourceIneligible + 1;
        case RunCompleted => completed := true;
      }
    }
    assert lines[..|lines|] == lines;
    loaded := LoadTrades(ParseAll(lines));
    var explained := CheckReasons(lines);
    if !explained { loaded := None; }
    e := EpochReport(evaluated, quoteUnavailable, sourceIneligible, completed, 0, 0,
                     Metrics(0, 0, 0, 0, 0.0, 0.0, 0.0, 0.0));
  }

  method ReportEpoch(lines: seq<Line>, outcomes: Outcomes)
    returns (e: Option<EpochReport>, trades: map<string, PaperTrade>)
    ensures e.Some? <==> LoadFile(lines).Some?
    ensures e.Some? ==> IsEpochReport(e.value, lines, outcomes) && trades == LoadFile(lines).value.trades
  {
    var counts, loaded := LoadEpoch(lines);
    if loaded.None? { return None, map[]; }
    trades := loaded.value.trades;
    var metrics := ComputeMetrics(trades, outcomes);
    e := Some(counts.(duplicates := loaded.value.duplicates, paperTrades := |trades|, metrics := metrics));
  }

  // build_report: None when a file or the merge raises.
  method BuildReport(files: seq<seq<Line>>, outcomes: Outcomes) returns (report: Option<Report>)
    ensures report.Some? <==> CanReport(files)
    ensures report.Some? ==> IsReport(report.value, files, outcomes)
  {
    var epochs: seq<EpochReport>, trades: seq<map<string, PaperTrade>> := [], [];
    for i := 0 to |files|
      invariant |epochs| == i && trades == Mapped(TradesIn, files[..i])
      invariant forall j :: 0 <= j < i ==> IsEpochReport(epochs[j], files[j], outcomes)
    {
      var e, ts := ReportEpoch(files[i], outcomes);
      if e.None? {
        assert files[i] in files;
        return None;
      }
      epochs, trades := epochs + [e.value], trades + [ts];
      assert files[..i + 1][..i] == files[..i];
    }
    assert files[..|files|] == files;
    var merged, duplicates := MergeAll(trades);
    if merged.None? { return None; }
    forall lines | lines in files ensures LoadFile(lines).Some? {
      var i :| 0 <= i < |files| && files[i] == lines;
      assert IsEpochReport(epochs[i], files[i], outcomes);
    }
    CountsAddUp(epochs, files, outcomes);
    var r := Finish(epochs, merged.value, duplicates, outcomes);
    return Some(r);
  }

  // The sums over the epochs, the cumulative metrics and the two edge cohorts.
  method Finish(epochs: seq<EpochReport>, all: map<string, PaperTrade>, duplicates: nat, outcomes: Outcomes)
    returns (report: Report)
    ensures report.epochs == epochs && report.counts == SumCounts(epochs)
    ensures report.paperTrades == |all| && report.duplicatesAcross == duplicates
    ensures AreMetrics(report.cumulative, all, outcomes)
    ensures AreMetrics(report.extreme, Cohort(all, true), outcomes)
    ensures AreMetrics(report.ordinary, Cohort(all, false), outcomes)
  {
    var cumulative := ComputeMetrics(all, outcomes);
    var extreme := ComputeMetrics(Cohort(all, true), outcomes);
    var ordinary := ComputeMetrics(Cohort(all, false), outcomes);
    return Report(epochs, SumCounts(epochs), |all|, duplicates, cumulative, extreme, ordinary);
  }

  // ----- Which occurrences are sampled

  function SampleIndex(n: nat, limit: int, i: nat): int
    requires limit >= 2
  {
    i * (n - 1) / (limit - 1)
  }

  function EvenlySpacedSample<T>(items: seq<T>, limit: int): (sample: seq<T>)
    ensures |sample| == if limit <= 0 then 0 else if |items| <= limit then |items| else limit
    ensures 2 <= limit < |items| ==> sample[0] == items[0] && sample[limit - 1] == items[|items| - 1]
  {
    if 2 <= limit < |items| then
      SampleEnds(|items|, limit);
      seq(limit, i requires 0 <= i < limit => SampleInRange(|items|, limit, i); items[SampleIndex(|items|, limit, i)])
    else if limit <= 0 then []
    else if |items| <= limit then items
    else [items[|items| / 2]]
  }

  lemma Scaled(d: int, a: int, b: int)
    requires d > 0 && a <= b
    ensures d * a <= d * b
  {}

  // Dividing with remainder has one answer.
  lemma QuotientIs(x: int, d: int, q: int, r: int)
    requires d > 0 && x == d * q + r && 0 <= r < d
    ensures x / d == q
  {
    var p := x / d;
    assert x == d * p + x % d && 0 <= x % d < d;
    if p < q { Scaled(d, p + 1, q); }
    if p > q { Scaled(d, q + 1, p); }
  }

  lemma SampleEnds(n: nat, limit: int)
    requires limit >= 2 && n > limit
    ensures SampleIndex(n, limit, 0) == 0 && SampleIndex(n, limit, limit - 1) == n - 1
  {
    QuotientIs((limit - 1) * (n - 1), limit - 1, n - 1, 0);
  }

  lemma SumQuotient(a: nat, m: nat, d: int)
    requires d > 0
    ensures a / d + m / d <= (a + m) / d <= a / d + m / d + 1
  {
    var q, r := a / d + m / d, a % d + m % d;
    assert a == d * (a / d) + a % d && m == d * (m / d) + m % d;
    assert d * q == d * (a / d) + d * (m / d);
    if r < d {
      QuotientIs(a + m, d, q, r);
    } else {
      assert d * (q + 1) == d * q + d;
      QuotientIs(a + m, d, q + 1, r - d);
    }
  }

  lemma AtLeastOne(m: int, d: int)
    requires 0 < d <= m
    ensures m / d >= 1
  {
    var q, r := m / d, m % d;
    assert m == d * q + r && r < d;
    Scaled(d, if q <= 0 then q else 0, 0);
  }

  // Consecutive samples are at least one item apart, and as evenly as whole numbers
  // allow: every gap is the average gap rounded down or up.
  lemma SampleIsEven(n: nat, limit: int, i: nat)
    requires limit >= 2 && n > limit && i + 1 < limit
    ensures var gap := SampleIndex(n, limit, i + 1) - SampleIndex(n, limit, i);
            var average := (n - 1) / (limit - 1);
            gap >= 1 && average <= gap <= average + 1
  {
    var d, m := limit - 1, n - 1;
    assert (i + 1) * m == i * m + m;
    SumQuotient(i * m, m, d);
    AtLeastOne(m, d);
  }

  // From the first item to the last, in between and in order.
  lemma {:induction false} SampleInRange(n: nat, limit: int, i: nat)
    requires limit >= 2 && n > limit && i < limit
    ensures 0 <= SampleIndex(n, limit, i) < n
    decreases limit - i
  {
    SampleFrom(n, limit, i);
    if i == limit - 1 {
      SampleEnds(n, limit);
    } else {
      SampleInRange(n, limit, i + 1);
      SampleIsEven(n, limit, i);
    }
  }

  lemma {:induction false} SampleFrom(n: nat, limit: int, i: nat)
    requires limit >= 2 && n > limit && i < limit
    ensures 0 <= SampleIndex(n, limit, i)
  {
    if i == 0 {
      SampleEnds(n, limit);
    } else {
      SampleFrom(n, limit, i - 1);
      SampleIsEven(n, limit, i - 1);
    }
  }
}
