/**
 The margin recorded for a paper position is its entry notional over its leverage, however the
 position was averaged, reduced or overwritten, as long as the leverage setting of a symbol is
 not changed under an open position (backend/exchange_adapters/paper_adapter.py).
 */
module PaperMargin {
  import opened Decimals
  import opened CostModels
  import opened PaperLedger
  import AtMostOnce

  /** Margin times leverage is exactly entry price times quantity. */
  predicate Backed(p: Position) { Product(p.margin, p.leverage as real) == Product(p.entryPrice, p.quantity) }

  /** The position was opened at the leverage the symbol is set to. */
  predicate Settled(s: Ledger, symbol: Symbol) {
    symbol in s.positions ==>
      Backed(s.positions[symbol]) && s.LeverageOf(symbol, 1) == s.positions[symbol].leverage
  }

  ghost predicate AllBacked(s: Ledger) { forall symbol :: symbol in s.positions ==> Settled(s, symbol) }

  lemma FreshMargin(price: real, quantity: real, leverage: int)
    requires leverage >= 1
    ensures Product(MarginFor(price, quantity, leverage), leverage as real) == Product(price, quantity)
  {
    var notional, l := price * quantity, leverage as real;
    assert notional / l * l == notional;
  }

  lemma AverageTimesTotal(entry: real, held: real, fill: real, added: real)
    requires held + added > 0.0
    ensures Product(WeightedEntry(entry, held, fill, added), held + added)
         == Product(entry, held) + Product(fill, added)
  {}

  lemma Distribute(x: real, y: real, z: real)
    ensures Product(x + y, z) == Product(x, z) + Product(y, z)
  {}

  lemma AveragedMargin(held: Position, fill: real, added: real)
    requires held.Valid() && Backed(held) && added > 0.0
    ensures Backed(Position(held.side, held.quantity + added,
                            WeightedEntry(held.entryPrice, held.quantity, fill, added),
                            held.margin + MarginFor(fill, added, held.leverage), held.leverage))
  {
    FreshMargin(fill, added, held.leverage);
    AverageTimesTotal(held.entryPrice, held.quantity, fill, added);
    Distribute(held.margin, MarginFor(fill, added, held.leverage), held.leverage as real);
  }

  lemma SettleBacks(s: Ledger, req: OrderRequest, fill: real, fee: real, slippage: real)
    requires s.Valid() && req.Valid() && AllBacked(s)
    ensures AllBacked(Settle(s, req, fill, fee, slippage).ledger)
  {
    hide MarginFor, WeightedEntry, Product;
    var charged := s.(balance := s.balance - fee);
    assert forall symbol :: symbol in s.positions ==> Settled(s, symbol) && Settled(charged, symbol);
    FreshMargin(fill, req.quantity, s.LeverageOf(req.symbol, 1));
    if req.symbol in s.positions {
      var held := s.positions[req.symbol];
      AveragedMargin(held, fill, req.quantity);
      FreshMargin(held.entryPrice, held.quantity - Min(req.quantity, held.quantity), held.leverage);
    }
    var t := Settle(s, req, fill, fee, slippage).ledger;
    forall symbol | symbol in t.positions ensures Settled(t, symbol) {
      if symbol != req.symbol { assert Settled(s, symbol) && t.positions[symbol] == s.positions[symbol]; }
    }
  }

  /** No leverage change reaches a symbol with an open position. */
  predicate KeepsLeverage(s: Ledger, op: Op) { op.Lever? ==> op.symbol !in s.positions }

  predicate SteadyLeverage(c: Costs, s: Ledger, ops: seq<Op>)
    requires s.Valid() && AllValid(ops)
    decreases |ops|
  {
    ops != [] ==> KeepsLeverage(s, ops[0]) && SteadyLeverage(c, Step(c, s, ops[0]), ops[1..])
  }

  lemma Unchanged(s: Ledger, t: Ledger)
    requires AllBacked(s) && t.positions == s.positions && t.leverage == s.leverage
    ensures AllBacked(t)
  {
    forall symbol | symbol in t.positions ensures Settled(t, symbol) { assert Settled(s, symbol); }
  }

  lemma StepBacks(c: Costs, s: Ledger, op: Op)
    requires s.Valid() && op.Valid() && AllBacked(s) && KeepsLeverage(s, op)
    ensures AllBacked(Step(c, s, op))
  {
    hide Backed, Settle, FillPrice, OrderFee, Quantize, FundingPayment;
    match op
    case Place(req) =>
      if req.id !in s.orders && req.orderType.MarketOrder? && Priced(req) {
        var fill := FillPrice(c, req);
        var fee := OrderFee(c, fill, req.quantity);
        var slippage := Quantize(Product(Abs(fill - req.price.value), req.quantity));
        SettleBacks(s, req, fill, fee, slippage);
        Unchanged(Settle(s, req, fill, fee, slippage).ledger, Step(c, s, op));
      } else {
        Unchanged(s, Step(c, s, op));
      }
    case Cancel(_) => Unchanged(s, Step(c, s, op));
    case Fund(_, _, _) => Unchanged(s, Step(c, s, op));
    case Lever(symbol, _) =>
      var t := Step(c, s, op);
      forall other | other in t.positions ensures Settled(t, other) { assert Settled(s, other); }
  }

  /** Over every run with steady leverage, each position's margin is exactly its entry notional
      over its leverage. */
  lemma {:induction false} MarginBacksPositions(c: Costs, s: Ledger, ops: seq<Op>)
    requires s.Valid() && AllValid(ops) && AllBacked(s) && SteadyLeverage(c, s, ops)
    ensures AllBacked(Run(c, s, ops))
    decreases |ops|
  {
    hide AllBacked;
    if ops != [] {
      StepBacks(c, s, ops[0]);
      MarginBacksPositions(c, Step(c, s, ops[0]), ops[1..]);
    }
  }

  // ---------- Exactly when one order keeps it ----------

  /** The order changes the quantity of a position it neither opens, closes nor overwrites. */
  predicate Resizes(s: Ledger, req: OrderRequest) {
    && req.symbol in s.positions
    && if req.reduceOnly then req.quantity < s.positions[req.symbol].quantity
       else s.positions[req.symbol].side == req.side
  }

  lemma ScaledEqual(x: real, a: real, b: real)
    requires x > 0.0
    ensures Product(x, a) == Product(x, b) <==> a == b
  {
    if a != b { assert x * (a - b) != 0.0; }
  }

  /** The leverage the adapter reads for the order. */
  function SettingFor(s: Ledger, req: OrderRequest): int
    requires req.symbol in s.positions
  {
    s.LeverageOf(req.symbol, if req.reduceOnly then s.positions[req.symbol].leverage else 1)
  }

  /** Resizing a backed position keeps it backed exactly when the leverage read for the order is the one
      the position was opened with. */
  lemma {:induction false} ResizeBackedIff(s: Ledger, req: OrderRequest, fill: real, fee: real, slippage: real)
    requires s.Valid() && req.Valid() && fill > 0.0 && fee >= 0.0
    requires Resizes(s, req) && Backed(s.positions[req.symbol])
    ensures var t := Settle(s, req, fill, fee, slippage).ledger;
            && req.symbol in t.positions
            && (Backed(t.positions[req.symbol]) <==> SettingFor(s, req) == s.positions[req.symbol].leverage)
  {
    hide MarginFor, WeightedEntry, Product;
    var held, setting := s.positions[req.symbol], SettingFor(s, req);
    if req.reduceOnly {
      var left := held.quantity - req.quantity;
      FreshMargin(held.entryPrice, left, setting);
      MarginPositive(held.entryPrice, left, setting);
      ScaledEqual(MarginFor(held.entryPrice, left, setting), held.leverage as real, setting as real);
    } else {
      AtMostOnce.SettleAccepts(s, req, fill, fee, slippage);
      FreshMargin(fill, req.quantity, setting);
      AverageTimesTotal(held.entryPrice, held.quantity, fill, req.quantity);
      Distribute(held.margin, MarginFor(fill, req.quantity, setting), setting as real);
      ScaledEqual(held.margin, setting as real, held.leverage as real);
    }
  }
}
