/**
 Metrics over the trades of a run: the cost totals reconcile exactly with the net result, and
 the drawdown loop finds the deepest fall from a running peak (backend/backtesting/metrics.py).
 */
module BacktestMetrics {
  import opened Decimals
  import opened BacktestModel
  import opened BacktestRun
  import opened BacktestLives
  import opened BacktestSchedule
  import opened BacktestStaleClose

  datatype Part = Gross | Fees | Slippage | FundingCost | NetPnl

  function Amount(t: Trade, part: Part): real {
    match part
    case Gross => t.gross
    case Fees => t.entryFee + t.exitFee
    case Slippage => t.entrySlippage + t.exitSlippage
    case FundingCost => t.funding
    case NetPnl => t.net
  }

  function Sum(ts: seq<Trade>, part: Part): real {
    if ts == [] then 0.0 else Sum(ts[..|ts| - 1], part) + Amount(ts[|ts| - 1], part)
  }

  /** A reported total. */
  function Total(ts: seq<Trade>, part: Part): real { Quantize(Sum(ts, part)) }

  function FinalBalance(ts: seq<Trade>, initial: real): real { Quantize(initial + Sum(ts, NetPnl)) }

  ghost predicate AllExact(ts: seq<Trade>) { forall k :: 0 <= k < |ts| ==> NetExact(ts[k]) }

  lemma NetOnGrid(t: Trade)
    requires NetExact(t)
    ensures OnGrid(t.net)
  {
    NetIsExact(t.gross, t.entryFee, t.exitFee, t.entrySlippage, t.exitSlippage, t.funding);
    assert t.net == Net(t.gross, t.entryFee, t.exitFee, t.entrySlippage, t.exitSlippage, t.funding);
  }

  lemma AmountOnGrid(t: Trade, part: Part)
    requires NetExact(t)
    ensures OnGrid(Amount(t, part))
  {
    GridClosed(t.entryFee, t.exitFee);
    GridClosed(t.entrySlippage, t.exitSlippage);
    NetIsExact(t.gross, t.entryFee, t.exitFee, t.entrySlippage, t.exitSlippage, t.funding);
    NetOnGrid(t);
  }

  lemma {:induction false} SumOnGrid(ts: seq<Trade>, part: Part)
    requires AllExact(ts)
    ensures OnGrid(Sum(ts, part))
  {
    if ts == [] {
      GridPoint(0);
    } else {
      SumOnGrid(ts[..|ts| - 1], part);
      AmountOnGrid(ts[|ts| - 1], part);
      GridClosed(Sum(ts[..|ts| - 1], part), Amount(ts[|ts| - 1], part));
    }
  }

  lemma {:induction false} SumsReconcile(ts: seq<Trade>)
    requires AllExact(ts)
    ensures Sum(ts, NetPnl) == Sum(ts, Gross) - Sum(ts, Fees) - Sum(ts, Slippage) - Sum(ts, FundingCost)
  {
    if ts != [] { SumsReconcile(ts[..|ts| - 1]); }
  }

  lemma RunTradesExact(r: Backtest)
    requires BacktestRun.Run(r.cfg, r.p, r.candles).Some?
    ensures AllExact(BacktestRun.Run(r.cfg, r.p, r.candles).value.trades)
  {
    var run := BacktestRun.Run(r.cfg, r.p, r.candles).value;
    RunsAreComplete(r);
    forall n | 0 <= n < |run.trades| ensures NetExact(run.trades[n]) {
      FlattenSources(run.lives, run.trades[n]);
      var k, m :| 0 <= k < |run.lives| && 0 <= m < |run.lives[k].closes|
                  && run.lives[k].closes[m].trade == run.trades[n];
      assert Finished(run.lives[k]);
    }
  }

  /**
   In every completed run the reported totals lose nothing to rounding: net is exactly gross
   minus fees, slippage and funding, and every total is the exact sum over the trades.
   */
  lemma {:induction false} TotalsReconcile(r: Backtest)
    requires BacktestRun.Run(r.cfg, r.p, r.candles).Some?
    ensures var ts := BacktestRun.Run(r.cfg, r.p, r.candles).value.trades;
            && Total(ts, NetPnl) == Total(ts, Gross) - Total(ts, Fees) - Total(ts, Slippage) - Total(ts, FundingCost)
            && (forall part: Part :: Total(ts, part) == Sum(ts, part))
            && (forall initial: real :: OnGrid(initial) ==> FinalBalance(ts, initial) == initial + Total(ts, NetPnl))
  {
    hide Quantize, OnGrid;
    var ts := BacktestRun.Run(r.cfg, r.p, r.candles).value.trades;
    RunTradesExact(r);
    SumsReconcile(ts);
    forall part: Part ensures Total(ts, part) == Sum(ts, part) { SumOnGrid(ts, part); }
    SumOnGrid(ts, NetPnl);
    forall initial: real | OnGrid(initial) ensures FinalBalance(ts, initial) == initial + Total(ts, NetPnl) {
      GridClosed(initial, Sum(ts, NetPnl));
    }
  }

  // ---------- Drawdown ----------

  /** Equity after the first `k` trades. */
  function EquityAfter(ts: seq<Trade>, initial: real, k: nat): real
    requires k <= |ts|
  {
    initial + Sum(ts[..k], NetPnl)
  }

  /** The running peak, starting at the initial balance. */
  function Peak(ts: seq<Trade>, initial: real, k: nat): real
    requires k <= |ts|
  {
    if k == 0 then initial else Max(Peak(ts, initial, k - 1), EquityAfter(ts, initial, k))
  }

  function Fall(peak: real, equity: real): real { if peak > 0.0 then (peak - equity) / peak else 0.0 }

  function Drawdown(ts: seq<Trade>, initial: real, k: nat): real
    requires k <= |ts|
  {
    Fall(Peak(ts, initial, k), EquityAfter(ts, initial, k))
  }

  lemma {:induction false} PeakIsMax(ts: seq<Trade>, initial: real, k: nat)
    requires k <= |ts|
    ensures forall j :: 0 <= j <= k ==> EquityAfter(ts, initial, j) <= Peak(ts, initial, k)
    ensures exists j :: 0 <= j <= k && EquityAfter(ts, initial, j) == Peak(ts, initial, k)
  {
    if k == 0 {
      assert ts[..0] == [];
      assert EquityAfter(ts, initial, 0) == initial;
    } else {
      PeakIsMax(ts, initial, k - 1);
      var j :| 0 <= j <= k - 1 && EquityAfter(ts, initial, j) == Peak(ts, initial, k - 1);
      if Peak(ts, initial, k) == Peak(ts, initial, k - 1) {
        assert EquityAfter(ts, initial, j) == Peak(ts, initial, k);
      } else {
        assert EquityAfter(ts, initial, k) == Peak(ts, initial, k);
      }
    }
  }

  lemma ShareNonNegative(x: real, y: real)
    requires x >= 0.0 && y > 0.0
    ensures x / y >= 0.0
  {}

  /** A drawdown is the share of the peak so far that the equity has lost, never negative. */
  lemma DrawdownMeans(ts: seq<Trade>, initial: real, k: nat)
    requires k <= |ts|
    ensures Drawdown(ts, initial, k) >= 0.0
    ensures Peak(ts, initial, k) > 0.0 ==>
              Product(Peak(ts, initial, k), 1.0 - Drawdown(ts, initial, k)) == EquityAfter(ts, initial, k)
    ensures Peak(ts, initial, k) <= 0.0 ==> Drawdown(ts, initial, k) == 0.0
  {
    PeakIsMax(ts, initial, k);
    var peak, equity := Peak(ts, initial, k), EquityAfter(ts, initial, k);
    if peak > 0.0 {
      var lost := (peak - equity) / peak;
      assert lost * peak == peak - equity;
      assert peak * (1.0 - lost) == peak - lost * peak;
      ShareNonNegative(peak - equity, peak);
    }
  }

  lemma EquityStep(ts: seq<Trade>, initial: real, k: nat)
    requires k < |ts|
    ensures EquityAfter(ts, initial, k + 1) == EquityAfter(ts, initial, k) + ts[k].net
  {
    assert ts[..k + 1][..k] == ts[..k];
  }

  /** `_max_drawdown`: no drawdown is deeper, and the result is one of them or zero. */
  method MaxDrawdown(ts: seq<Trade>, initial: real) returns (r: Option<real>)
    ensures r.Some? <==> ts != []
    ensures r.Some? ==> r.value >= 0.0
    ensures r.Some? ==> forall k :: 1 <= k <= |ts| ==> Drawdown(ts, initial, k) <= r.value
    ensures r.Some? ==> r.value == 0.0 || exists k :: 1 <= k <= |ts| && Drawdown(ts, initial, k) == r.value
  {
    if ts == [] {
      return None;
    }
    var equity, peak, worst := initial, initial, 0.0;
    assert ts[..0] == [];
    for n := 0 to |ts|
      invariant equity == EquityAfter(ts, initial, n) && peak == Peak(ts, initial, n) && worst >= 0.0
      invariant forall k :: 1 <= k <= n ==> Drawdown(ts, initial, k) <= worst
      invariant worst == 0.0 || exists k :: 1 <= k <= n && Drawdown(ts, initial, k) == worst
    {
      EquityStep(ts, initial, n);
      equity := equity + ts[n].net;
      if equity > peak { peak := equity; }
      var fall := Fall(peak, equity);
      assert fall == Drawdown(ts, initial, n + 1);
      if fall > worst { worst := fall; }
    }
    r := Some(worst);
  }
}
