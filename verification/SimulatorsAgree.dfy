/**
 The backtest engine and the paper adapter simulate the same exchange: the same fills, closing
 fees, slippage and funding for the same position and prices (backend/backtesting/engine.py,
 backend/exchange_adapters/paper_adapter.py).
 */
module SimulatorsAgree {
  import opened Decimals
  import opened CostModels
  import opened ExitRules
  import PaperLedger
  import AtMostOnce
  import BacktestModel

  // ---------- Rounding is odd ----------

  lemma RoundHalfEvenOdd(x: real)
    ensures RoundHalfEven(-x) == -RoundHalfEven(x)
  {
    var f := x.Floor;
    if x == f as real {
      assert (-x).Floor == -f;
    } else {
      assert (-x).Floor == -f - 1;
    }
  }

  lemma QuantizeOdd(x: real)
    ensures Quantize(-x) == -Quantize(x)
  {
    var y := x * 100000000.0;
    assert (-x) * 100000000.0 == -y;
    RoundHalfEvenOdd(y);
  }

  // ---------- Funding ----------

  lemma PaymentBySide(quantity: real, mark: real, rate: real)
    ensures PaperLedger.FundingPayment(Buy, quantity, mark, rate) == Product(Product(quantity, mark), rate)
    ensures PaperLedger.FundingPayment(Sell, quantity, mark, rate) == -Product(Product(quantity, mark), rate)
  {}

  /** The backtest charges the paper adapter's funding payment, rounded. */
  lemma FundingAgrees(pos: BacktestModel.OpenPosition, candle: BacktestModel.Candle)
    ensures BacktestModel.FundingDue(pos, candle)
         == Quantize(PaperLedger.FundingPayment(pos.side, pos.quantity, candle.close, candle.fundingRate))
  {
    hide Quantize, Product, PaperLedger.FundingPayment;
    PaymentBySide(pos.quantity, candle.close, candle.fundingRate);
    QuantizeOdd(Product(Product(pos.quantity, candle.close), candle.fundingRate));
  }

  // ---------- Fills ----------

  /** A market entry fills at the same price: that of the candle's open, moved by the model. */
  lemma EntriesFillAlike(
    cfg: BacktestModel.Setup, signal: BacktestModel.Signal, candle: BacktestModel.Candle, i: nat,
    req: PaperLedger.OrderRequest
  )
    requires req.Valid() && req.price == Some(candle.open) && req.side == signal.Side() && req.book.None?
    ensures BacktestModel.OpenAt(cfg, signal, candle, i).Opened? ==>
              BacktestModel.OpenAt(cfg, signal, candle, i).position.entryPrice
              == PaperLedger.FillPrice(PaperLedger.Costs(cfg.fees, cfg.slip), req)
  {
    hide Quantize, AdversePrice;
  }

  /** The paper order that closes the whole of a backtest position at a price. */
  predicate Closes(req: PaperLedger.OrderRequest, symbol: string, pos: BacktestModel.OpenPosition, price: real) {
    && req.Valid() && req.symbol == symbol && req.orderType.MarketOrder? && req.reduceOnly && req.book.None?
    && req.side == pos.side.Opposite() && req.quantity == pos.quantity && req.price == Some(price)
  }

  lemma SameFill(cfg: BacktestModel.Setup, pos: BacktestModel.OpenPosition, price: real, req: PaperLedger.OrderRequest)
    requires req.Valid() && req.book.None? && req.side == pos.side.Opposite() && req.price == Some(price)
    ensures PaperLedger.FillPrice(PaperLedger.Costs(cfg.fees, cfg.slip), req)
         == cfg.slip.Apply(price, pos.side.Opposite(), Market)
  {}

  lemma SameFee(cfg: BacktestModel.Setup, fill: real, quantity: real)
    ensures PaperLedger.OrderFee(PaperLedger.Costs(cfg.fees, cfg.slip), fill, quantity)
         == cfg.fees.Calculate(Quantize(Product(fill, quantity)), Market)
  {}

  /** A market close of the same position agrees in fill, fee and slippage; the paper balance gains
      the gross profit less the exit fee, to within half a rounding step of the backtest's gross. */
  lemma {:induction false} ClosesAgree(
    cfg: BacktestModel.Setup, pos: BacktestModel.OpenPosition, price: real, i: nat, reason: BacktestModel.Reason,
    s: PaperLedger.Ledger, symbol: string, req: PaperLedger.OrderRequest
  )
    requires s.Valid() && cfg.fees.Valid() && Closes(req, symbol, pos, price) && req.id !in s.orders
    requires symbol in s.positions
    requires s.positions[symbol].side == pos.side && s.positions[symbol].quantity == pos.quantity
    requires s.positions[symbol].entryPrice == pos.entryPrice
    requires PaperLedger.FillPrice(PaperLedger.Costs(cfg.fees, cfg.slip), req) > 0.0
    ensures var t := BacktestModel.CloseWhole(cfg, pos, price, i, reason, Market);
            var placed := PaperLedger.PlaceOrder(PaperLedger.Costs(cfg.fees, cfg.slip), s, req);
            && placed.result.Some?
            && placed.result.value.fillPrice == Some(t.exitPrice)
            && placed.result.value.fee == t.exitFee
            && placed.result.value.slippage == Some(t.exitSlippage)
            && symbol !in placed.ledger.positions
            && 2.0 * Abs(placed.ledger.balance - s.balance - (t.gross - t.exitFee)) <= ULP
  {
    var c := PaperLedger.Costs(cfg.fees, cfg.slip);
    SameFill(cfg, pos, price, req);
    AtMostOnce.PositiveFillAccepted(c, s, req);
    hide Quantize, AdversePrice, PnlAt, Product, PaperLedger.FillPrice;
    hide SlippageModel.Apply, BacktestModel.Net, FeeModel.Calculate;
    SameFee(cfg, PaperLedger.FillPrice(c, req), pos.quantity);
  }

  // ---------- Sizes ----------

  lemma DifferenceScales(x: real, y: real, z: real)
    ensures Product(y, z) - Product(x, z) == Product(y - x, z)
  {}

  lemma Shrinks(e: real, ratio: real)
    requires 0.0 <= ratio <= 1.0
    ensures Abs(Product(e, ratio)) <= Abs(e)
  {
    if e >= 0.0 { MulNonNegative(e, ratio); MulNonNegative(e, 1.0 - ratio); }
    else { MulNonNegative(-e, ratio); MulNonNegative(-e, 1.0 - ratio); }
    assert e * (1.0 - ratio) == e - e * ratio;
  }

  lemma ShareDrift(x: real, y: real, ratio: real)
    requires 2.0 * Abs(y - x) <= ULP && 0.0 <= ratio <= 1.0
    ensures 2.0 * Abs(Product(y, ratio) - Product(x, ratio)) <= ULP
  {
    DifferenceScales(x, y, ratio);
    Shrinks(y - x, ratio);
  }

  /** Rounding, taking a share and rounding again stays within one step. */
  lemma RoundedShare(x: real, rounded: real, ratio: real, result: real)
    requires rounded == Quantize(x) && result == Quantize(Product(rounded, ratio)) && 0.0 <= ratio <= 1.0
    ensures Abs(result - Product(x, ratio)) <= ULP
  {
    hide Quantize;
    ShareDrift(x, rounded, ratio);
  }

  lemma QuotientShare(x: real, y: real, ratio: real)
    requires y > 0.0
    ensures Product(Product(BacktestModel.Quotient(x, y), ratio), y) == Product(x, ratio)
  {
    assert x / y * ratio * y == x / y * y * ratio;
  }

  lemma Worth(q: real, exact: real, price: real)
    requires Abs(q - exact) <= ULP && price > 0.0
    ensures Abs(Product(q, price) - Product(exact, price)) <= Product(ULP, price)
  {
    MulNonNegative(ULP - Abs(q - exact), price);
    assert Abs(q - exact) * price == if q < exact then exact * price - q * price else q * price - exact * price;
    assert (ULP - Abs(q - exact)) * price == ULP * price - Abs(q - exact) * price;
  }

  /** A backtest position is worth what the signal asked for, scaled by the fill ratio, up to the
      rounding of its quantity; its notional up to two half-steps. */
  lemma OpeningIsSized(cfg: BacktestModel.Setup, signal: BacktestModel.Signal, candle: BacktestModel.Candle, i: nat)
    requires 0.0 <= cfg.fillRatio <= 1.0 && cfg.slip.Apply(candle.open, signal.Side(), Market) > 0.0
    ensures BacktestModel.OpenAt(cfg, signal, candle, i).Opened? ==>
              var pos := BacktestModel.OpenAt(cfg, signal, candle, i).position;
              var asked := Product(Product(signal.margin, signal.leverage as real), cfg.fillRatio);
              && Abs(pos.notional - asked) <= ULP
              && Abs(Product(pos.quantity, pos.entryPrice) - asked) <= Product(ULP, pos.entryPrice) + ULP
              && 2.0 * Abs(pos.margin - Product(signal.margin, cfg.fillRatio)) <= ULP
  {
    if !BacktestModel.OpenAt(cfg, signal, candle, i).Opened? { return; }
    var fill := cfg.slip.Apply(candle.open, signal.Side(), Market);
    var exact := Product(signal.margin, signal.leverage as real);
    hide Quantize, Product, SlippageModel.Apply;
    var requested := Quantize(exact);
    var wanted := Quantize(BacktestModel.Quotient(requested, fill));
    var pos := BacktestModel.OpenAt(cfg, signal, candle, i).position;
    RoundedShare(exact, requested, cfg.fillRatio, pos.notional);
    RoundedShare(BacktestModel.Quotient(requested, fill), wanted, cfg.fillRatio, pos.quantity);
    QuotientShare(requested, fill, cfg.fillRatio);
    ShareDrift(exact, requested, cfg.fillRatio);
    Worth(pos.quantity, Product(BacktestModel.Quotient(requested, fill), cfg.fillRatio), fill);
  }
}
