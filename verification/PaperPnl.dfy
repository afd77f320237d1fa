// What the V3 and V4 profit reports share: a dictionary of paper trades per evidence
// file, the merge of several files, and the metrics over one dictionary.

module PaperPnl {
  import opened Common
  import opened CommutingFold
  import opened Gathering
  import opened Merging

  datatype Side = Up | Down

  // V3 trades carry no edge and are never extreme. A trade's own prediction id is its key.
  datatype PaperTrade = PaperTrade(
    id: string, condition: string, side: Side, shares: real, cost: real,
    edge: Option<real>, extreme: bool, semantic: Option<string>)

  // What one evidence line yields: an error, no trade, or a trade.
  datatype Parsed = Malformed | NoTrade | Trade(trade: PaperTrade)

  // ----- One evidence file

  datatype Loaded = Loaded(trades: map<string, PaperTrade>, duplicates: nat)

  ghost predicate Keyed(trades: map<string, PaperTrade>) {
    forall k :: k in trades ==> trades[k].id == k
  }

  function LoadStep(l: Loaded, p: Parsed): Option<Loaded> {
    match p
    case Malformed => None
    case NoTrade => Some(l)
    case Trade(t) =>
      if t.id !in l.trades then Some(l.(trades := l.trades[t.id := t]))
      else if l.trades[t.id] != t then None
      else Some(l.(duplicates := l.duplicates + 1))
  }

  function Load(lines: seq<Parsed>): Option<Loaded> {
    Fold(LoadStep, Loaded(map[], 0), lines)
  }

  function TradeLines(lines: seq<Parsed>): nat {
    if lines == [] then 0 else TradeLines(lines[..|lines| - 1]) + if lines[|lines| - 1].Trade? then 1 else 0
  }

  // Every trade line is kept or counted as a duplicate, and nothing else is.
  lemma {:induction false} LoadConserves(lines: seq<Parsed>)
    requires Load(lines).Some?
    ensures var l := Load(lines).value;
            && Keyed(l.trades)
            && |l.trades| + l.duplicates == TradeLines(lines)
            && forall t :: Trade(t) in lines <==> t.id in l.trades && l.trades[t.id] == t
  {
    if lines != [] {
      var n := |lines| - 1;
      assert Load(lines[..n]).Some?;
      LoadConserves(lines[..n]);
      assert lines == lines[..n] + [lines[n]];
    }
  }

  // A file is rejected exactly for a malformed line or for two different trades under
  // one prediction id.
  lemma {:induction false} LoadFailsOnConflict(lines: seq<Parsed>)
    ensures Load(lines).None? <==>
              Malformed in lines || exists t, u :: Trade(t) in lines && Trade(u) in lines && t.id == u.id && t != u
  {
    if lines != [] {
      var n := |lines| - 1;
      LoadFailsOnConflict(lines[..n]);
      assert lines == lines[..n] + [lines[n]];
      if Load(lines[..n]).Some? {
        LoadConserves(lines[..n]);
        if Load(lines).Some? {
          LoadConserves(lines);
        } else if lines[n].Trade? {
          var t := Load(lines[..n]).value.trades[lines[n].trade.id];
          assert Trade(t) in lines[..n];
        }
      }
    }
  }

  method LoadTrades(lines: seq<Parsed>) returns (loaded: Option<Loaded>)
    ensures loaded == Load(lines)
  {
    var trades: map<string, PaperTrade>, duplicates := map[], 0;
    for i := 0 to |lines|
      invariant Load(lines[..i]) == Some(Loaded(trades, duplicates))
    {
      assert lines[..i + 1][..i] == lines[..i];
      match lines[i] {
        case NoTrade =>
        case Malformed =>
          FailureStays(LoadStep, Loaded(map[], 0), lines, i + 1);
          return None;
        case Trade(t) =>
          if t.id !in trades {
            trades := trades[t.id := t];
          } else if trades[t.id] != t {
            FailureStays(LoadStep, Loaded(map[], 0), lines, i + 1);
            return None;
          } else {
            duplicates := duplicates + 1;
          }
      }
    }
    assert lines[..|lines|] == lines;
    return Some(Loaded(trades, duplicates));
  }

  // ----- Metrics over one dictionary of trades

  type Outcomes = map<string, Side>

  datatype Measure = Settled | Pending | Wins | Losses | Realized | SettledCost | GrossProfit | GrossLoss

  datatype Metrics = Metrics(
    settled: nat, pending: nat, wins: nat, losses: nat,
    realized: real, settledCost: real, grossProfit: real, grossLoss: real)
  {
    function At(q: Measure): real {
      match q
      case Settled => settled as real
      case Pending => pending as real
      case Wins => wins as real
      case Losses => losses as real
      case Realized => realized
      case SettledCost => settledCost
      case GrossProfit => grossProfit
      case GrossLoss => grossLoss
    }
  }

  function PnlOf(t: PaperTrade, outcome: Side): real {
    (if t.side == outcome then t.shares else 0.0) - t.cost
  }

  function Indicator(b: bool): real { if b then 1.0 else 0.0 }

  // What one trade adds to each measure.
  function Share(t: PaperTrade, outcomes: Outcomes, q: Measure): real {
    if t.condition !in outcomes then Indicator(q.Pending?)
    else
      var pnl := PnlOf(t, outcomes[t.condition]);
      match q
      case Settled => 1.0
      case Pending => 0.0
      case Wins => Indicator(pnl > 0.0)
      case Losses => Indicator(pnl < 0.0)
      case Realized => pnl
      case SettledCost => t.cost
      case GrossProfit => if pnl > 0.0 then pnl else 0.0
      case GrossLoss => if pnl < 0.0 then -pnl else 0.0
  }

  function ShareOf(outcomes: Outcomes, q: Measure): PaperTrade -> real {
    (t: PaperTrade) => Share(t, outcomes, q)
  }

  ghost function Total(trades: map<string, PaperTrade>, outcomes: Outcomes, q: Measure): real {
    Sum(trades, ShareOf(outcomes, q))
  }

  // The metrics of a dictionary of trades: the total of every measure.
  ghost predicate AreMetrics(m: Metrics, trades: map<string, PaperTrade>, outcomes: Outcomes) {
    forall q :: m.At(q) == Total(trades, outcomes, q)
  }

  lemma SettledOrPending(trades: map<string, PaperTrade>, outcomes: Outcomes)
    ensures Total(trades, outcomes, Settled) + Total(trades, outcomes, Pending) == |trades| as real
  {
    var ones := (t: PaperTrade) => 1.0;
    SumLinear(trades, ShareOf(outcomes, Settled), ShareOf(outcomes, Pending), ones);
    SumOnes(trades, ones);
  }

  lemma ProfitOrLoss(trades: map<string, PaperTrade>, outcomes: Outcomes)
    ensures Total(trades, outcomes, GrossProfit)
         == Total(trades, outcomes, Realized) + Total(trades, outcomes, GrossLoss)
  {
    SumLinear(trades, ShareOf(outcomes, Realized), ShareOf(outcomes, GrossLoss), ShareOf(outcomes, GrossProfit));
  }

  lemma NoNegativeGross(trades: map<string, PaperTrade>, outcomes: Outcomes)
    ensures Total(trades, outcomes, GrossProfit) >= 0.0 && Total(trades, outcomes, GrossLoss) >= 0.0
  {
    SumNonNegative(trades, ShareOf(outcomes, GrossProfit));
    SumNonNegative(trades, ShareOf(outcomes, GrossLoss));
  }

  // Settled and pending trades are all trades, and what was realized is profit less loss.
  lemma MetricsConsistent(m: Metrics, trades: map<string, PaperTrade>, outcomes: Outcomes)
    requires AreMetrics(m, trades, outcomes)
    ensures m.settled + m.pending == |trades|
    ensures m.realized == m.grossProfit - m.grossLoss && m.grossProfit >= 0.0 && m.grossLoss >= 0.0
  {
    SettledOrPending(trades, outcomes);
    ProfitOrLoss(trades, outcomes);
    NoNegativeGross(trades, outcomes);
    assert m.At(Settled) + m.At(Pending) == |trades| as real;
    assert m.At(Realized) == m.At(GrossProfit) - m.At(GrossLoss);
    assert m.At(GrossProfit) >= 0.0 && m.At(GrossLoss) >= 0.0;
  }

  // Splitting the trades into two cohorts splits every measure.
  lemma CohortsAddUp(m: Metrics, trades: map<string, PaperTrade>, outcomes: Outcomes,
                     y: Metrics, yes: map<string, PaperTrade>, n: Metrics, no: map<string, PaperTrade>, q: Measure)
    requires trades == yes + no && yes.Keys !! no.Keys
    requires AreMetrics(m, trades, outcomes) && AreMetrics(y, yes, outcomes) && AreMetrics(n, no, outcomes)
    ensures m.At(q) == y.At(q) + n.At(q)
  {
    SumSplits(yes, no, ShareOf(outcomes, q));
  }

  // The body of the accumulating loop.
  method CountTrade(m: Metrics, t: PaperTrade, outcomes: Outcomes) returns (r: Metrics)
    ensures forall q :: r.At(q) == Share(t, outcomes, q) + m.At(q)
  {
    if t.condition !in outcomes {
      return m.(pending := m.pending + 1);
    }
    var payout := if t.side == outcomes[t.condition] then t.shares else 0.0;
    var pnl := payout - t.cost;
    r := m.(settled := m.settled + 1, realized := m.realized + pnl, settledCost := m.settledCost + t.cost);
    if pnl > 0.0 {
      r := r.(wins := r.wins + 1, grossProfit := r.grossProfit + pnl);
    } else if pnl < 0.0 {
      r := r.(losses := r.losses + 1, grossLoss := r.grossLoss - pnl);
    }
  }

  // _metrics, visiting the trades in any order.
  method ComputeMetrics(trades: map<string, PaperTrade>, outcomes: Outcomes) returns (m: Metrics)
    ensures AreMetrics(m, trades, outcomes)
  {
    var total := (ts: map<string, PaperTrade>, q: Measure) => Total(ts, outcomes, q);
    forall ts: map<string, PaperTrade>, k, t, q: Measure | k !in ts
      ensures total(ts[k := t], q) == Share(t, outcomes, q) + total(ts, q)
    {
      SumAdd(ts, ShareOf(outcomes, q), k, t);
    }
    m := Accumulate(trades, outcomes, total);
  }

  // The accumulating loop, against any function that grows by one trade's share.
  method Accumulate(trades: map<string, PaperTrade>, outcomes: Outcomes, ghost total: (map<string, PaperTrade>,
                    Measure) -> real)
    returns (m: Metrics)
    requires forall q :: total(map[], q) == 0.0
    requires forall ts, k, t, q :: k !in ts ==> total(ts[k := t], q) == Share(t, outcomes, q) + total(ts, q)
    ensures forall q :: m.At(q) == total(trades, q)
  {
    m := Metrics(0, 0, 0, 0, 0.0, 0.0, 0.0, 0.0);
    var left := trades.Keys;
    ghost var done: map<string, PaperTrade> := map[];
    while left != {}
      invariant left <= trades.Keys && done.Keys == trades.Keys - left
      invariant forall k :: k in done ==> done[k] == trades[k]
      invariant forall q :: m.At(q) == total(done, q)
      decreases left
    {
      var k :| k in left;
      left := left - {k};
      m := CountTrade(m, trades[k], outcomes);
      done := done[k := trades[k]];
    }
    assert done == trades;
  }
}
