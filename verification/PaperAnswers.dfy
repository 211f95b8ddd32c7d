/**
 What the paper exchange answers to an order, a cancel and a leverage change, stated in the
 request's own prices and quantities: the fill, its fee and slippage, the record kept, and the
 balance and position afterwards (backend/exchange_adapters/paper_adapter.py).
 */
module PaperAnswers {
  import opened Decimals
  import opened CostModels
  import opened PaperLedger
  import PaperMargin

  function Impact(price: real, bps: real): real { price * bps / 10000.0 }

  /** Away from the trader: up for a buyer, down for a seller. */
  function Worse(side: Side, price: real, amount: real): real { if side.Buy? then price + amount else price - amount }

  /** The reference price moved by the basis points, then by half of the book's spread, rounded each time. */
  function FillAt(c: Costs, req: OrderRequest): real
    requires Priced(req)
  {
    var moved := Quantize(Worse(req.side, req.price.value, Impact(req.price.value, c.slip.bps)));
    match req.book
    case None => moved
    case Some(book) => Quantize(Worse(req.side, moved, (book.ask - book.bid) / 2.0))
  }

  lemma FillIs(c: Costs, req: OrderRequest)
    requires req.Valid() && Priced(req)
    ensures FillPrice(c, req) == FillAt(c, req)
  {
    hide Quantize, AdversePrice;
    AdverseIsImpact(req.price.value, req.side, c.slip.bps, Impact(req.price.value, c.slip.bps));
  }

  /** A market or triggered order pays the taker rate of its notional, a limit order the maker rate, to
      within half a step. */
  lemma FeeRates(fees: FeeModel, notional: real)
    ensures 2.0 * Abs(fees.Calculate(notional, Market) - Product(notional, fees.taker)) <= ULP
    ensures 2.0 * Abs(fees.Calculate(notional, Stop) - Product(notional, fees.taker)) <= ULP
    ensures 2.0 * Abs(fees.Calculate(notional, Limit) - Product(notional, fees.maker)) <= ULP
  {
    hide Quantize;
  }

  function FeeOf(c: Costs, fill: real, quantity: real): real {
    Quantize(Product(Quantize(Product(fill, quantity)), c.fees.taker))
  }

  lemma FeeIs(c: Costs, fill: real, quantity: real)
    ensures OrderFee(c, fill, quantity) == FeeOf(c, fill, quantity)
  {}

  function SlippageOf(fill: real, price: real, quantity: real): real { Quantize(Product(Abs(fill - price), quantity)) }

  /** What a reduce-only fill earns, and what it leaves. */
  function Earned(held: Position, quantity: real, fill: real): real {
    var closed := if quantity < held.quantity then quantity else held.quantity;
    Product(if held.side.Buy? then fill - held.entryPrice else held.entryPrice - fill, closed)
  }

  lemma EarnedIs(held: Position, quantity: real, fill: real)
    ensures PnlAt(held.side, Min(quantity, held.quantity), held.entryPrice, fill) == Earned(held, quantity, fill)
  {}

  /** A position grown by a fill: sizes add, and so do the amounts paid for them. */
  predicate Grown(held: Position, p: Position, quantity: real, fill: real) {
    && p.side == held.side && p.quantity == held.quantity + quantity
    && Product(p.entryPrice, p.quantity) == Product(held.entryPrice, held.quantity) + Product(fill, quantity)
  }

  predicate AddsTo(s: Ledger, req: OrderRequest) {
    req.symbol in s.positions && s.positions[req.symbol].side == req.side
  }

  /** The account after a fill: the fee is paid, and the position is opened, grown, replaced, reduced or
      closed. All else stays. */
  predicate AccountAfter(s: Ledger, t: Ledger, req: OrderRequest, fill: real, fee: real) {
    && t.leverage == s.leverage && t.fundingPaid == s.fundingPaid
    && t.positions - {req.symbol} == s.positions - {req.symbol}
    && if req.reduceOnly then
         if req.symbol !in s.positions then t.positions == s.positions && t.balance == s.balance - fee
         else
           var held := s.positions[req.symbol];
           && t.balance == s.balance - fee + Earned(held, req.quantity, fill)
           && if held.quantity <= req.quantity then req.symbol !in t.positions
              else
                && req.symbol in t.positions
                && t.positions[req.symbol] == held.(quantity := held.quantity - req.quantity,
                                                    margin := t.positions[req.symbol].margin)
       else
         && t.balance == s.balance - fee && req.symbol in t.positions
         && t.positions[req.symbol].leverage == (if req.symbol in s.leverage then s.leverage[req.symbol] else 1)
         && if AddsTo(s, req) then Grown(s.positions[req.symbol], t.positions[req.symbol], req.quantity, fill)
            else
              var p := t.positions[req.symbol];
              p.side == req.side && p.quantity == req.quantity && p.entryPrice == fill
  }

  lemma SettleAnswers(s: Ledger, req: OrderRequest, fill: real, fee: real, slippage: real)
    requires s.Valid() && req.Valid() && Settle(s, req, fill, fee, slippage).result.Some?
    ensures AccountAfter(s, Settle(s, req, fill, fee, slippage).ledger, req, fill, fee)
    ensures Settle(s, req, fill, fee, slippage).ledger.orders == s.orders
    ensures Settle(s, req, fill, fee, slippage).result.value
         == OrderResult(req.symbol, req.side, req.orderType, Filled, req.quantity, req.quantity,
                        Some(fill), fee, Some(slippage))
  {
    hide MarginFor, WeightedEntry, Product, PnlAt;
    if req.symbol in s.positions {
      var held := s.positions[req.symbol];
      EarnedIs(held, req.quantity, fill);
      PaperMargin.AverageTimesTotal(held.entryPrice, held.quantity, fill, req.quantity);
    }
  }

  lemma OrdersAside(s: Ledger, t: Ledger, req: OrderRequest, fill: real, fee: real)
    requires AccountAfter(s, t, req, fill, fee)
    ensures forall orders: map<OrderId, OrderResult> :: AccountAfter(s, t.(orders := orders), req, fill, fee)
  {
    hide Earned, Grown;
  }

  /** The answer to an order under a new id: a market order fills or raises, any other one rests. A known
      id is answered from the record. */
  lemma OrderAnswered(c: Costs, s: Ledger, req: OrderRequest)
    requires s.Valid() && req.Valid()
    ensures var placed := PlaceOrder(c, s, req);
            if req.id in s.orders then placed == Placed(s, Some(s.orders[req.id]))
            else if !req.orderType.MarketOrder? then
              var resting := OrderResult(req.symbol, req.side, req.orderType, Pending, req.quantity,
                                         0.0, None, 0.0, None);
              placed == Placed(s.(orders := s.orders[req.id := resting]), Some(resting))
            else if req.price.None? || req.price.value <= 0.0 then placed == Placed(s, None)
            else
              var fill := FillAt(c, req);
              var fee, slippage := FeeOf(c, fill, req.quantity), SlippageOf(fill, req.price.value, req.quantity);
              placed.result.Some? ==>
                && placed.result.value == OrderResult(req.symbol, req.side, MarketOrder, Filled, req.quantity,
                                                      req.quantity, Some(fill), fee, Some(slippage))
                && AccountAfter(s, placed.ledger, req, fill, fee)
                && placed.ledger.orders == s.orders[req.id := placed.result.value]
  {
    hide AccountAfter, Settle, FillPrice, FillAt, OrderFee, FeeOf, Quantize;
    if Priced(req) {
      var fill := FillAt(c, req);
      FillIs(c, req);
      FeeIs(c, fill, req.quantity);
      var fee, slippage := OrderFee(c, fill, req.quantity), SlippageOf(fill, req.price.value, req.quantity);
      if Settle(s, req, fill, fee, slippage).result.Some? {
        SettleAnswers(s, req, fill, fee, slippage);
        OrdersAside(s, Settle(s, req, fill, fee, slippage).ledger, req, fill, fee);
      }
    }
  }

  /** A cancel touches one pending order and nothing else, and works once: the order keeps its identity,
      loses whatever it might have filled, and is no longer pending. */
  lemma CancelAnswered(s: Ledger, id: OrderId)
    ensures var t := CancelOrder(s, id);
            && t == s.(orders := t.orders) && t.orders.Keys == s.orders.Keys
            && (forall other <- s.orders :: other != id ==> t.orders[other] == s.orders[other])
            && (id in s.orders ==>
                  var before, after := s.orders[id], t.orders[id];
                  if before.status.Pending? then
                    && after.status.Cancelled? && after.filled == 0.0 && after.fillPrice.None? && after.fee == 0.0
                    && after.symbol == before.symbol && after.side == before.side
                    && after.orderType == before.orderType && after.requested == before.requested
                  else after == before)
            && CancelOrder(t, id) == t
  {}

  /** A leverage from 1 to 10 is what the symbol's next position opens with; any other changes nothing. */
  lemma LeverageAnswered(s: Ledger, symbol: Symbol, leverage: int)
    ensures var t := SetLeverage(s, symbol, leverage);
            && t == s.(leverage := t.leverage)
            && (forall other: Symbol, default: int :: other != symbol ==>
                  t.LeverageOf(other, default) == s.LeverageOf(other, default))
            && forall default: int :: t.LeverageOf(symbol, default) ==
                 if 1 <= leverage <= 10 then leverage else s.LeverageOf(symbol, default)
  {}
}
