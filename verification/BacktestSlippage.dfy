/**
 Slippage in the backtest's accounts. Gross profit is measured between the slipped fill prices,
 and the net profit subtracts the slippage amounts again (backend/backtesting/engine.py).
 */
module BacktestSlippage {
  import opened Decimals
  import opened CostModels
  import opened ExitRules
  import opened BacktestModel
  import BacktestLives

  /** A fill that is no better for this side than the reference price. */
  predicate NoBetter(side: Side, fill: real, price: real) {
    if side.Buy? then fill >= price else fill <= price
  }

  lemma RoundingKeepsSide(x: real, p: real)
    requires OnGrid(p)
    ensures x >= p ==> Quantize(x) >= p
    ensures x <= p ==> Quantize(x) <= p
  {
    hide Quantize;
    GridClosed(Quantize(x), p);
    var n := ((Quantize(x) - p) * 100000000.0).Floor;
    assert x >= p ==> n > -1;
    assert x <= p ==> n < 1;
  }

  lemma AdverseMove(price: real, side: Side, bps: real)
    requires price >= 0.0 && bps >= 0.0
    ensures NoBetter(side, AdversePrice(price, side, bps), price)
  {
    MulNonNegative(price, bps / 10000.0);
    assert price * (1.0 + bps / 10000.0) == price + price * (bps / 10000.0);
    assert price * (1.0 - bps / 10000.0) == price - price * (bps / 10000.0);
  }

  /** Slippage never improves a fill. */
  lemma FillNeverBetter(slip: SlippageModel, price: real, side: Side, kind: Kind)
    requires price >= 0.0 && OnGrid(price) && slip.bps >= 0.0
    ensures NoBetter(side, slip.Apply(price, side, kind), price)
  {
    hide Quantize, AdversePrice;
    AdverseMove(price, side, slip.bps);
    RoundingKeepsSide(AdversePrice(price, side, slip.bps), price);
  }

  lemma Regroup(a: real, b: real, c: real, d: real, q: real)
    requires a == b - c - d
    ensures a * q == b * q - c * q - d * q
  {}

  /** Profit at the slipped fills is the profit at the reference prices less the slippage of both ends. */
  lemma PnlLosesBothSlippages(side: Side, q: real, open: real, fill: real, price: real, exit: real)
    requires NoBetter(side, fill, open) && NoBetter(side.Opposite(), exit, price)
    ensures PnlAt(side, q, fill, exit)
         == PnlAt(side, q, open, price) - Product(Abs(fill - open), q) - Product(Abs(exit - price), q)
  {
    if side.Buy? {
      Regroup(exit - fill, price - open, fill - open, price - exit, q);
    } else {
      Regroup(fill - exit, open - price, open - fill, exit - price, q);
    }
  }

  /** The net profit of a round trip is the profit at the reference prices, less fees and funding,
      less the slippage of both fills twice over, up to three half-steps of rounding. */
  lemma SlippageChargedTwice(
    cfg: Setup, signal: Signal, candle: Candle, opening: nat, funding: real,
    price: real, i: nat, reason: Reason, kind: Kind
  )
    requires cfg.slip.bps >= 0.0 && OnGrid(funding)
    requires candle.open >= 0.0 && OnGrid(candle.open) && price >= 0.0 && OnGrid(price)
    ensures OpenAt(cfg, signal, candle, opening).Opened? ==>
              var pos := OpenAt(cfg, signal, candle, opening).position;
              var t := CloseWhole(cfg, pos.(funding := funding), price, i, reason, kind);
              2.0 * Abs(t.net - (PnlAt(pos.side, pos.quantity, candle.open, price)
                                 - t.entryFee - t.exitFee - t.funding - 2.0 * (t.entrySlippage + t.exitSlippage)))
              <= 3.0 * ULP
  {
    hide Quantize, PnlAt, Product, NoBetter, SlippageModel.Apply, FeeModel.Rate, Net;
    if !OpenAt(cfg, signal, candle, opening).Opened? { return; }
    var pos := OpenAt(cfg, signal, candle, opening).position;
    var held := pos.(funding := funding);
    var t := CloseWhole(cfg, held, price, i, reason, kind);
    BacktestLives.CloseTradeExact(cfg, held, held.quantity, price, i, reason, kind, held.margin, held.notional,
                                  held.entryFee, held.entrySlippage, held.funding);
    FillNeverBetter(cfg.slip, candle.open, pos.side, Market);
    FillNeverBetter(cfg.slip, price, pos.side.Opposite(), kind);
    PnlLosesBothSlippages(pos.side, pos.quantity, candle.open, pos.entryPrice, price, t.exitPrice);
  }
}
