// The two V3 profit reports: a metrics report over deduplicated trades, and a ledger
// with one row per settled trade. They read the same lines and deduplicate in their
// own ways; whenever both succeed they agree.

module V3Reports {
  import opened Common
  import opened CommutingFold
  import opened Gathering
  import opened Merging
  import opened PaperPnl

  // The condition id of a record: no such key, a falsy value, or a usable one.
  datatype ConditionField = NoCondition | Falsy(text: string) | Named(text: string)

  // The fields only the ledger reads; None on a record if one of them is malformed.
  datatype Extras = Extras(requested: real, gross: real, fees: real, rest: string)

  datatype Rec = Rec(
    trade: bool, filled: Option<real>, cost: Option<real>, pid: string, condition: ConditionField,
    side: Option<Side>, semantic: Option<string>, extras: Option<Extras>)

  datatype Line = Noise | QuoteUnavailable | Evaluated(rec: Rec)

  // ----- The metrics report

  function ParseTrade(line: Line): Parsed {
    if !line.Evaluated? || !line.rec.trade then NoTrade
    else
      var r := line.rec;
      if r.filled.None? then Malformed
      else if r.filled.value <= 0.0 then NoTrade
      else if r.cost.None? || r.cost.value < 0.0 then Malformed
      else if r.pid == "" || !r.condition.Named? || r.side.None? then Malformed
      else Trade(PaperTrade(r.pid, r.condition.text, r.side.value, r.filled.value, r.cost.value,
                            None, false, r.semantic))
  }

  function ParseAll(lines: seq<Line>): seq<Parsed> {
    seq(|lines|, i requires 0 <= i < |lines| => ParseTrade(lines[i]))
  }

  // ----- The ledger

  datatype Entry = BadEntry | Skip | Keep(rec: Rec)

  function ParseEntry(line: Line): Entry {
    if !line.Evaluated? || !line.rec.trade then Skip
    else if line.rec.filled.None? then BadEntry
    else if line.rec.filled.value <= 0.0 then Skip
    else if line.rec.pid == "" then BadEntry
    else Keep(line.rec)
  }

  // _load_trade_records: equal records under one prediction id are one.
  function RecordStep(recs: map<string, Rec>, line: Line): Option<map<string, Rec>> {
    match ParseEntry(line)
    case BadEntry => None
    case Skip => Some(recs)
    case Keep(r) =>
      if r.pid !in recs then Some(recs[r.pid := r])
      else if recs[r.pid] == r then Some(recs)
      else None
  }

  function LoadRecords(lines: seq<Line>): Option<map<string, Rec>> {
    Fold(RecordStep, map[], lines)
  }

  datatype Label = Label(outcome: Side, start: int)

  type Labels = map<string, Label>

  function OutcomesOf(labels: Labels): Outcomes {
    map c | c in labels :: labels[c].outcome
  }

  datatype Row = Row(epoch: nat, pid: string, condition: string, start: int, side: Side, outcome: Side,
                     shares: real, cost: real, extras: Extras, pnl: real)

  // A record whose market is labelled; only these become rows.
  predicate Labelled(r: Rec, labels: Labels) {
    !r.condition.NoCondition? && r.condition.text in labels
  }

  predicate Complete(r: Rec) {
    r.side.Some? && r.filled.Some? && r.cost.Some? && r.extras.Some?
  }

  function RowFor(epoch: nat, r: Rec, labels: Labels): Row
    requires Labelled(r, labels) && Complete(r)
  {
    var official := labels[r.condition.text];
    var payout := if r.side.value == official.outcome then r.filled.value else 0.0;
    Row(epoch, r.pid, r.condition.text, official.start, r.side.value, official.outcome,
        r.filled.value, r.cost.value, r.extras.value, payout - r.cost.value)
  }

  // The rows of one file: every record needs the key, every labelled one must be complete.
  predicate RowsOk(recs: map<string, Rec>, labels: Labels) {
    forall k :: k in recs ==> !recs[k].condition.NoCondition? && (Labelled(recs[k], labels) ==> Complete(recs[k]))
  }

  function RowsOf(epoch: nat, recs: map<string, Rec>, labels: Labels): map<string, Row>
    requires RowsOk(recs, labels)
  {
    map k | k in recs && Labelled(recs[k], labels) :: RowFor(epoch, recs[k], labels)
  }

  // ----- Both readings of one file

  ghost predicate Corresponds(recs: map<string, Rec>, trades: map<string, PaperTrade>) {
    && recs.Keys == trades.Keys
    && forall k :: k in recs ==> recs[k].pid == k && ParseTrade(Evaluated(recs[k])) == Trade(trades[k])
  }

  // Where both loaders accept a file, they keep the same predictions, each from one record.
  lemma {:induction false} LoadersCorrespond(lines: seq<Line>)
    requires LoadRecords(lines).Some? && Load(ParseAll(lines)).Some?
    ensures Corresponds(LoadRecords(lines).value, Load(ParseAll(lines)).value.trades)
  {
    if lines != [] {
      var n := |lines| - 1;
      var front := lines[..n];
      assert ParseAll(lines)[..n] == ParseAll(front);
      assert ParseAll(lines)[n] == ParseTrade(lines[n]);
      assert LoadRecords(front).Some? && Load(ParseAll(front)).Some?;
      LoadersCorrespond(front);
    }
  }

  // ----- All files

  // The ledger's rows, file by file, when no step of reading them raises.
  ghost predicate LedgerRows(files: seq<seq<Line>>, labels: Labels, rows: seq<map<string, Row>>) {
    && |rows| == |files|
    && forall i :: 0 <= i < |files| ==>
         && LoadRecords(files[i]).Some? && RowsOk(LoadRecords(files[i]).value, labels)
         && rows[i] == RowsOf(i + 1, LoadRecords(files[i]).value, labels)
  }

  ghost predicate FileTrades(files: seq<seq<Line>>, trades: seq<map<string, PaperTrade>>) {
    && |trades| == |files|
    && forall i :: 0 <= i < |files| ==>
         Load(ParseAll(files[i])).Some? && trades[i] == Load(ParseAll(files[i])).value.trades
  }

  // What both reports make of the files, when each of their steps succeeds.
  ghost predicate BothSucceed(files: seq<seq<Line>>, labels: Labels,
                              trades: seq<map<string, PaperTrade>>, all: map<string, PaperTrade>,
                              rows: seq<map<string, Row>>, ledger: map<string, Row>)
  {
    && FileTrades(files, trades) && LedgerRows(files, labels, rows)
    && Merge(trades) == Some(all) && Merge(rows) == Some(ledger)
  }

  // In one file, a trade has a row exactly when its market has an outcome, and then
  // the row's profit is the trade's.
  lemma RowMatchesTrade(files: seq<seq<Line>>, labels: Labels,
                        trades: seq<map<string, PaperTrade>>, all: map<string, PaperTrade>,
                        rows: seq<map<string, Row>>, ledger: map<string, Row>, i: nat, k: string)
    requires BothSucceed(files, labels, trades, all, rows, ledger) && i < |files|
    ensures k in trades[i] <==> k in LoadRecords(files[i]).value
    ensures k in rows[i] <==> k in trades[i] && trades[i][k].condition in labels
    ensures k in rows[i] ==> rows[i][k].pnl == PnlOf(trades[i][k], labels[trades[i][k].condition].outcome)
  {
    LoadersCorrespond(files[i]);
  }

  // So the ledger has a row for a prediction exactly when its cumulative trade is settled.
  lemma LedgerMatchesTrades(files: seq<seq<Line>>, labels: Labels,
                            trades: seq<map<string, PaperTrade>>, all: map<string, PaperTrade>,
                            rows: seq<map<string, Row>>, ledger: map<string, Row>, k: string)
    requires BothSucceed(files, labels, trades, all, rows, ledger)
    ensures k in ledger <==> k in all && all[k].condition in labels
    ensures k in ledger ==> ledger[k].pnl == PnlOf(all[k], labels[all[k].condition].outcome)
  {
    if k in all {
      MergeKeeps(trades, k, all[k]);
      var i :| 0 <= i < |trades| && Holds(trades[i], k, all[k]);
      RowMatchesTrade(files, labels, trades, all, rows, ledger, i, k);
      if all[k].condition in labels {
        MergeKeeps(rows, k, rows[i][k]);
        assert Holds(rows[i], k, rows[i][k]);
      }
    }
    if k in ledger {
      MergeKeeps(rows, k, ledger[k]);
      var j :| 0 <= j < |rows| && Holds(rows[j], k, ledger[k]);
      RowMatchesTrade(files, labels, trades, all, rows, ledger, j, k);
      MergeKeeps(trades, k, trades[j][k]);
      assert Holds(trades[j], k, trades[j][k]);
    }
  }

  function PnlOfRow(row: Row): real { row.pnl }

  function OneRow(row: Row): real { 1.0 }

  // One row per settled trade, with the trade's profit.
  ghost predicate RowsMatch(all: map<string, PaperTrade>, ledger: map<string, Row>, labels: Labels) {
    && (forall k :: k in ledger <==> k in all && all[k].condition in labels)
    && (forall k :: k in ledger ==> ledger[k].pnl == PnlOf(all[k], labels[all[k].condition].outcome))
  }

  lemma SettledCount(all: map<string, PaperTrade>, ledger: map<string, Row>, labels: Labels)
    requires RowsMatch(all, ledger, labels)
    ensures Total(all, OutcomesOf(labels), Settled) == |ledger| as real
  {
    SumMatches(all, ShareOf(OutcomesOf(labels), Settled), ledger, OneRow);
    SumOnes(ledger, OneRow);
  }

  lemma RealizedTotal(all: map<string, PaperTrade>, ledger: map<string, Row>, labels: Labels)
    requires RowsMatch(all, ledger, labels)
    ensures Total(all, OutcomesOf(labels), Realized) == Sum(ledger, PnlOfRow)
  {
    SumMatches(all, ShareOf(OutcomesOf(labels), Realized), ledger, PnlOfRow);
  }

  lemma AllRowsMatch(files: seq<seq<Line>>, labels: Labels,
                     trades: seq<map<string, PaperTrade>>, all: map<string, PaperTrade>,
                     rows: seq<map<string, Row>>, ledger: map<string, Row>)
    requires BothSucceed(files, labels, trades, all, rows, ledger)
    ensures RowsMatch(all, ledger, labels)
  {
    forall k ensures (k in ledger <==> k in all && all[k].condition in labels)
                     && (k in ledger ==> ledger[k].pnl == PnlOf(all[k], labels[all[k].condition].outcome))
    {
      LedgerMatchesTrades(files, labels, trades, all, rows, ledger, k);
    }
  }

  lemma MatchingRowsAgree(all: map<string, PaperTrade>, ledger: map<string, Row>, labels: Labels, m: Metrics)
    requires RowsMatch(all, ledger, labels) && AreMetrics(m, all, OutcomesOf(labels))
    ensures |ledger| == m.settled && Sum(ledger, PnlOfRow) == m.realized
  {
    SettledCount(all, ledger, labels);
    RealizedTotal(all, ledger, labels);
    assert m.At(Settled) == |ledger| as real && m.At(Realized) == Sum(ledger, PnlOfRow);
  }

  // The agreement: the ledger has as many rows as the report counts settled trades,
  // and its profits add up to the reported realized profit.
  lemma ReportsAgree(files: seq<seq<Line>>, labels: Labels,
                     trades: seq<map<string, PaperTrade>>, all: map<string, PaperTrade>,
                     rows: seq<map<string, Row>>, ledger: map<string, Row>, m: Metrics)
    requires BothSucceed(files, labels, trades, all, rows, ledger) && AreMetrics(m, all, OutcomesOf(labels))
    ensures |ledger| == m.settled && Sum(ledger, PnlOfRow) == m.realized
  {
    AllRowsMatch(files, labels, trades, all, rows, ledger);
    MatchingRowsAgree(all, ledger, labels, m);
  }

  ghost predicate NoSharedRows(rows: seq<map<string, Row>>) {
    forall i, j, k :: 0 <= i < j < |rows| && k in rows[i] ==> k !in rows[j]
  }

  lemma MergedFrom(rows: seq<map<string, Row>>, k: string) returns (i: nat)
    requires Merge(rows).Some? && k in Merge(rows).value
    ensures i < |rows| && k in rows[i]
  {
    MergeKeeps(rows, k, Merge(rows).value[k]);
    i :| 0 <= i < |rows| && Holds(rows[i], k, Merge(rows).value[k]);
  }

  lemma MergedRow(rows: seq<map<string, Row>>, i: nat, k: string)
    requires Merge(rows).Some? && i < |rows| && k in rows[i]
    ensures k in Merge(rows).value && Merge(rows).value[k] == rows[i][k]
  {
    MergeKeeps(rows, k, rows[i][k]);
    assert Holds(rows[i], k, rows[i][k]);
  }

  lemma {:induction false} SeparateRowsMerge(rows: seq<map<string, Row>>)
    requires NoSharedRows(rows)
    ensures Merge(rows).Some?
  {
    if rows != [] {
      var n := |rows| - 1;
      SeparateRowsMerge(rows[..n]);
      var merged := Merge(rows[..n]).value;
      forall k ensures AgreeAt(merged, rows[n], k) {
        if k in merged { var i := MergedFrom(rows[..n], k); }
      }
      assert Agree(merged, rows[n]);
    }
  }

  // Every row carries its file's number, so the ledger exists exactly when no settled
  // prediction is in two files, while the metrics report counts one as a duplicate.
  lemma LedgerNeedsSeparateFiles(files: seq<seq<Line>>, labels: Labels, rows: seq<map<string, Row>>)
    requires LedgerRows(files, labels, rows)
    ensures Merge(rows).Some? <==> NoSharedRows(rows)
  {
    if NoSharedRows(rows) { SeparateRowsMerge(rows); }
    if Merge(rows).Some? {
      forall i, j, k | 0 <= i < j < |rows| && k in rows[i] ensures k !in rows[j] {
        MergedRow(rows, i, k);
        if k in rows[j] { MergedRow(rows, j, k); }
      }
    }
  }

  // ----- The ledger as it is built

  method LoadTradeRecords(lines: seq<Line>) returns (recs: Option<map<string, Rec>>)
    ensures recs == LoadRecords(lines)
  {
    var trades: map<string, Rec> := map[];
    for i := 0 to |lines|
      invariant LoadRecords(lines[..i]) == Some(trades)
    {
      assert lines[..i + 1][..i] == lines[..i];
      var entry := ParseEntry(lines[i]);
      if entry.Skip? { continue; }
      if entry.BadEntry? || (entry.rec.pid in trades && trades[entry.rec.pid] != entry.rec) {
        FailureStays(RecordStep, map[], lines, i + 1);
        return None;
      }
      if entry.rec.pid !in trades { trades := trades[entry.rec.pid := entry.rec]; }
    }
    assert lines[..|lines|] == lines;
    recs := Some(trades);
  }

  // The rows of one file; None for a record without the key or an incomplete labelled one.
  method FileRows(epoch: nat, recs: map<string, Rec>, labels: Labels) returns (rows: Option<map<string, Row>>)
    ensures rows.Some? <==> RowsOk(recs, labels)
    ensures rows.Some? ==> rows.value == RowsOf(epoch, recs, labels)
  {
    var built: map<string, Row> := map[];
    var left := recs.Keys;
    while left != {}
      invariant left <= recs.Keys
      invariant forall k :: k in recs && k !in left ==>
                  !recs[k].condition.NoCondition? && (Labelled(recs[k], labels) ==> Complete(recs[k]))
      invariant forall k :: k in built <==> k in recs && k !in left && Labelled(recs[k], labels)
      invariant forall k :: k in built ==> built[k] == RowFor(epoch, recs[k], labels)
      decreases left
    {
      var k :| k in left;
      var r := recs[k];
      if r.condition.NoCondition? { return None; }
      if r.condition.text in labels {
        if !Complete(r) { return None; }
        built := built[k := RowFor(epoch, r, labels)];
      }
      left := left - {k};
    }
    assert built == RowsOf(epoch, recs, labels);
    rows := Some(built);
  }

  // The merged ledger of all files, or None if any step of it raises.
  method MergeLedger(files: seq<seq<Line>>, labels: Labels)
    returns (ledger: Option<map<string, Row>>, ghost rows: seq<map<string, Row>>)
    ensures ledger.Some? ==> LedgerRows(files, labels, rows) && Merge(rows) == ledger
    ensures ledger.None? ==> forall rs :: LedgerRows(files, labels, rs) ==> Merge(rs).None?
  {
    var built: seq<map<string, Row>> := [];
    rows := [];
    for i := 0 to |files|
      invariant LedgerRows(files[..i], labels, built)
    {
      assert forall j :: 0 <= j < i ==> files[..i + 1][j] == files[..i][j] == files[j];
      var recs := LoadTradeRecords(files[i]);
      if recs.None? { return None, []; }
      var fileRows := FileRows(i + 1, recs.value, labels);
      if fileRows.None? { return None, []; }
      built := built + [fileRows.value];
    }
    assert files[..|files|] == files;
    forall rs | LedgerRows(files, labels, rs) ensures rs == built {}
    rows := built;
    var merged, again := MergeAll(built);
    ledger := merged;
  }

  // ----- Canonical order

  // Strings compare by their characters, as Python compares them.
  predicate AtMost(a: string, b: string) {
    a == "" || (b != "" && (a[0] < b[0] || (a[0] == b[0] && AtMost(a[1..], b[1..]))))
  }

  lemma {:induction false} AtMostTotal(a: string, b: string)
    ensures AtMost(a, b) || AtMost(b, a)
    ensures AtMost(a, b) && AtMost(b, a) ==> a == b
  {
    if a != "" && b != "" && a[0] == b[0] {
      AtMostTotal(a[1..], b[1..]);
      if AtMost(a, b) && AtMost(b, a) { assert a == [a[0]] + a[1..] && b == [b[0]] + b[1..]; }
    }
  }

  lemma {:induction false} AtMostTransitive(a: string, b: string, c: string)
    requires AtMost(a, b) && AtMost(b, c)
    ensures AtMost(a, c)
  {
    if a != "" && a[0] == b[0] && b[0] == c[0] { AtMostTransitive(a[1..], b[1..], c[1..]); }
  }

  // The sort key: market start, then prediction id.
  predicate Before(a: Row, b: Row) {
    a.start < b.start || (a.start == b.start && AtMost(a.pid, b.pid))
  }

  ghost predicate InOrder(rows: seq<Row>) {
    forall i, j :: 0 <= i < j < |rows| ==> Before(rows[i], rows[j])
  }

  // Put a row into an ordered list.
  method Place(rows: seq<Row>, row: Row) returns (placed: seq<Row>)
    requires InOrder(rows)
    ensures InOrder(placed) && |placed| == |rows| + 1
    ensures forall r :: r in placed <==> r in rows || r == row
  {
    var i := 0;
    while i < |rows| && Before(rows[i], row)
      invariant 0 <= i <= |rows| && forall j :: 0 <= j < i ==> Before(rows[j], row)
    {
      i := i + 1;
    }
    placed := rows[..i] + [row] + rows[i..];
    if i < |rows| {
      AtMostTotal(rows[i].pid, row.pid);
      forall j | i <= j < |rows| ensures Before(row, rows[j]) {
        if j > i && row.start == rows[i].start == rows[j].start { AtMostTransitive(row.pid, rows[i].pid, rows[j].pid); }
      }
    }
  }

  // The final sort; a row's trade number is its position. No two rows compare equal
  // both ways, so the numbering is determined by the rows.
  method Canonical(ledger: map<string, Row>) returns (rows: seq<Row>)
    ensures InOrder(rows) && |rows| == |ledger|
    ensures forall r :: r in rows <==> exists k :: k in ledger && ledger[k] == r
  {
    rows := [];
    var left := ledger.Keys;
    while left != {}
      invariant left <= ledger.Keys && InOrder(rows) && |rows| + |left| == |ledger.Keys|
      invariant forall r :: r in rows <==> exists k :: k in ledger && k !in left && ledger[k] == r
      decreases left
    {
      var k :| k in left;
      rows := Place(rows, ledger[k]);
      left := left - {k};
    }
    assert |ledger.Keys| == |ledger|;
  }
}
