/** The adapter object: its methods update the account in place exactly as the ledger says. */
module PaperAdapter {
  import opened Decimals
  import opened CostModels
  import opened PaperLedger

  class Adapter {
    const costs: Costs
    var balance: real
    var orders: map<OrderId, OrderResult>
    var positions: map<Symbol, Position>
    var leverage: map<Symbol, int>
    var fundingPaid: map<Symbol, real>

    function Account(): Ledger
      reads this
    {
      Ledger(balance, orders, positions, leverage, fundingPaid)
    }

    ghost predicate Valid()
      reads this
    {
      Account().Valid()
    }

    constructor (initialBalance: real, costs: Costs)
      ensures Valid() && this.costs == costs
      ensures Account() == Ledger(initialBalance, map[], map[], map[], map[])
    {
      this.costs := costs;
      balance := initialBalance;
      orders, positions, leverage, fundingPaid := map[], map[], map[], map[];
    }

    method PlaceOrder(req: OrderRequest) returns (result: Option<OrderResult>)
      requires Valid() && req.Valid()
      modifies this
      ensures Valid()
      ensures Placed(Account(), result) == PaperLedger.PlaceOrder(costs, old(Account()), req)
    {
      ghost var before := Account();
      PlaceKeepsValid(costs, before, req);
      if req.id in orders {
        return Some(orders[req.id]);
      }
      if req.orderType.MarketOrder? {
        result := FillMarketOrder(req);
      } else {
        result := Some(PendingResult(req));
      }
      if result.Some? {
        orders := orders[req.id := result.value];
      }
    }

    method FillMarketOrder(req: OrderRequest) returns (result: Option<OrderResult>)
      requires Valid() && req.Valid()
      modifies this
      ensures Placed(Account(), result) == FillMarket(costs, old(Account()), req)
    {
      if !Priced(req) {
        return None;
      }
      var fill := FillPrice(costs, req);
      var fee := OrderFee(costs, fill, req.quantity);
      var slippage := Quantize(Product(Abs(fill - req.price.value), req.quantity));
      balance := balance - fee;
      if req.reduceOnly {
        CloseOrReduce(req.symbol, req.quantity, fill);
      } else {
        var accepted := OpenOrNetPosition(req, fill);
        if !accepted {
          return None;
        }
      }
      if fill < 0.0 || fee < 0.0 {
        return None;
      }
      result := Some(OrderResult(req.symbol, req.side, req.orderType, Filled, req.quantity,
                                 req.quantity, Some(fill), fee, Some(slippage)));
    }

    method OpenOrNetPosition(req: OrderRequest, fill: real) returns (accepted: bool)
      requires Valid() && req.Valid()
      modifies this`positions
      ensures accepted == OpenOrNet(old(Account()), req, fill).Some?
      ensures Account() == if accepted then OpenOrNet(old(Account()), req, fill).value else old(Account())
    {
      var lev := Account().LeverageOf(req.symbol, 1);
      var margin := MarginFor(fill, req.quantity, lev);
      var position: Position;
      if req.symbol !in positions || positions[req.symbol].side != req.side {
        position := Position(req.side, req.quantity, fill, margin, lev);
      } else {
        var held := positions[req.symbol];
        position := Position(held.side, held.quantity + req.quantity,
                             WeightedEntry(held.entryPrice, held.quantity, fill, req.quantity),
                             held.margin + margin, lev);
      }
      accepted := position.Valid();
      if accepted {
        positions := positions[req.symbol := position];
      }
    }

    method CloseOrReduce(symbol: Symbol, quantity: real, fill: real)
      requires Valid() && quantity > 0.0
      modifies this`balance, this`positions
      ensures Account() == Reduce(old(Account()), symbol, quantity, fill)
    {
      if symbol !in positions {
        return;
      }
      var held := positions[symbol];
      var closed := Min(quantity, held.quantity);
      balance := balance + PnlAt(held.side, closed, held.entryPrice, fill);
      if closed >= held.quantity {
        positions := positions - {symbol};
      } else {
        var left := held.quantity - closed;
        var lev := Account().LeverageOf(symbol, held.leverage);
        positions := positions[symbol := held.(quantity := left, margin := MarginFor(held.entryPrice, left, lev))];
      }
    }

    method Cancel(id: OrderId) returns (cancelled: bool)
      requires Valid()
      modifies this`orders
      ensures Valid()
      ensures cancelled == old(Cancellable(Account(), id))
      ensures Account() == CancelOrder(old(Account()), id)
    {
      cancelled := id in orders && orders[id].status.Pending?;
      if cancelled {
        orders := orders[id := orders[id].(status := Cancelled, filled := 0.0,
                                           fillPrice := None, fee := 0.0, slippage := None)];
      }
    }

    method ApplyFunding(symbol: Symbol, rate: real, mark: real) returns (payment: real)
      requires Valid()
      modifies this`balance, this`fundingPaid
      ensures Valid()
      ensures Account() == PaperLedger.ApplyFunding(old(Account()), symbol, rate, mark)
      ensures payment == old(balance) - balance
    {
      if symbol !in positions {
        return 0.0;
      }
      var p := positions[symbol];
      payment := FundingPayment(p.side, p.quantity, mark, rate);
      balance := balance - payment;
      fundingPaid := fundingPaid[symbol := Account().FundingOf(symbol) + payment];
    }

    method SetLeverage(symbol: Symbol, lev: int) returns (ok: bool)
      requires Valid()
      modifies this`leverage
      ensures Valid()
      ensures ok == (1 <= lev <= MAX_LEVERAGE)
      ensures Account() == PaperLedger.SetLeverage(old(Account()), symbol, lev)
    {
      ok := 1 <= lev <= MAX_LEVERAGE;
      if ok {
        leverage := leverage[symbol := lev];
      }
    }
  }
}
