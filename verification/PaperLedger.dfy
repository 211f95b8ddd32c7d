/**
 The simulated exchange of PAPER mode as a ledger: what one order, cancel, funding payment
 or leverage change does to the account (backend/exchange_adapters/paper_adapter.py).
 */
module PaperLedger {
  import opened Decimals
  import opened CostModels

  type Symbol = string
  type OrderId = string

  datatype OrderType = MarketOrder | LimitOrder | StopMarketOrder | TakeProfitMarketOrder
  datatype OrderStatus = Pending | Filled | Cancelled

  datatype OrderRequest = OrderRequest(
    id: OrderId, symbol: Symbol, side: Side, orderType: OrderType, quantity: real,
    price: Option<real>, reduceOnly: bool, book: Option<Book>)
  {
    /** What the request schema validates on construction. */
    predicate Valid() {
      && quantity > 0.0
      && (price.Some? ==> price.value > 0.0)
      && (book.Some? ==> book.value.Coherent())
    }
  }

  datatype OrderResult = OrderResult(
    symbol: Symbol, side: Side, orderType: OrderType, status: OrderStatus, requested: real,
    filled: real, fillPrice: Option<real>, fee: real, slippage: Option<real>)

  datatype Position = Position(side: Side, quantity: real, entryPrice: real, margin: real, leverage: int) {
    /** What the position schema validates on construction. */
    predicate Valid() { quantity > 0.0 && entryPrice > 0.0 && margin > 0.0 && leverage >= 1 }

    function Pnl(mark: real): real { PnlAt(side, quantity, entryPrice, mark) }
  }

  const MAX_LEVERAGE: int := 10

  datatype Ledger = Ledger(
    balance: real,
    orders: map<OrderId, OrderResult>,
    positions: map<Symbol, Position>,
    leverage: map<Symbol, int>,
    fundingPaid: map<Symbol, real>)
  {
    predicate Valid() {
      && (forall s :: s in positions ==> positions[s].Valid())
      && (forall s :: s in leverage ==> 1 <= leverage[s] <= MAX_LEVERAGE)
    }

    function LeverageOf(symbol: Symbol, default: int): int {
      if symbol in leverage then leverage[symbol] else default
    }

    function FundingOf(symbol: Symbol): real {
      if symbol in fundingPaid then fundingPaid[symbol] else 0.0
    }
  }

  datatype Costs = Costs(fees: FeeModel, slip: SlippageModel)

  // ---------- Scalar arithmetic ----------

  /** Weighted average entry of two fills in the same direction. */
  function WeightedEntry(entry: real, quantity: real, fill: real, added: real): real
    requires quantity + added > 0.0
  {
    (entry * quantity + fill * added) / (quantity + added)
  }

  function MarginFor(price: real, quantity: real, leverage: int): real
    requires leverage >= 1
  {
    Product(price, quantity) / leverage as real
  }

  /** Positive when we pay: longs pay a positive rate, shorts receive it. */
  function FundingPayment(side: Side, quantity: real, mark: real, rate: real): real {
    var payment := Product(quantity, mark) * rate;
    if side.Buy? then payment else -payment
  }

  // ---------- Orders ----------

  /** `ledger` is the account afterwards; `result` is None when the call raised. */
  datatype Placed = Placed(ledger: Ledger, result: Option<OrderResult>)

  predicate Priced(req: OrderRequest) { req.price.Some? && req.price.value > 0.0 }

  function FillPrice(c: Costs, req: OrderRequest): real
    requires req.Valid() && Priced(req)
  {
    SimulatedFill(c.slip, req.price.value, req.side, req.book)
  }

  function OrderFee(c: Costs, fill: real, quantity: real): real {
    c.fees.Calculate(Quantize(Product(fill, quantity)), Market)
  }

  /** Opens a position or nets it into one; None where the position schema rejects it. */
  function OpenOrNet(s: Ledger, req: OrderRequest, fill: real): Option<Ledger>
    requires s.Valid() && req.Valid()
  {
    var leverage := s.LeverageOf(req.symbol, 1);
    var margin := MarginFor(fill, req.quantity, leverage);
    var position :=
      if req.symbol in s.positions && s.positions[req.symbol].side == req.side then
        var held := s.positions[req.symbol];
        Position(held.side, held.quantity + req.quantity,
                 WeightedEntry(held.entryPrice, held.quantity, fill, req.quantity),
                 held.margin + margin, leverage)
      else
        Position(req.side, req.quantity, fill, margin, leverage);
    if position.Valid() then Some(s.(positions := s.positions[req.symbol := position])) else None
  }

  /** Closes or reduces the position and realizes its profit; a no-op without a position. */
  function Reduce(s: Ledger, symbol: Symbol, quantity: real, fill: real): Ledger
    requires s.Valid() && quantity > 0.0
  {
    if symbol !in s.positions then s else
    var held := s.positions[symbol];
    var closed := Min(quantity, held.quantity);
    var balance := s.balance + PnlAt(held.side, closed, held.entryPrice, fill);
    if closed >= held.quantity then
      s.(balance := balance, positions := s.positions - {symbol})
    else
      var left := held.quantity - closed;
      var margin := MarginFor(held.entryPrice, left, s.LeverageOf(symbol, held.leverage));
      s.(balance := balance, positions := s.positions[symbol := held.(quantity := left, margin := margin)])
  }

  /** The fee is charged before the position changes; a rejected record raises after it. */
  function Settle(s: Ledger, req: OrderRequest, fill: real, fee: real, slippage: real): Placed
    requires s.Valid() && req.Valid()
  {
    var charged := s.(balance := s.balance - fee);
    var settled :=
      if req.reduceOnly then Some(Reduce(charged, req.symbol, req.quantity, fill))
      else OpenOrNet(charged, req, fill);
    if settled.None? then Placed(charged, None)
    else if fill < 0.0 || fee < 0.0 then Placed(settled.value, None)
    else
      Placed(settled.value,
             Some(OrderResult(req.symbol, req.side, req.orderType, Filled, req.quantity,
                              req.quantity, Some(fill), fee, Some(slippage))))
  }

  function FillMarket(c: Costs, s: Ledger, req: OrderRequest): Placed
    requires s.Valid() && req.Valid()
  {
    if !Priced(req) then Placed(s, None) else
    var fill := FillPrice(c, req);
    Settle(s, req, fill, OrderFee(c, fill, req.quantity),
           Quantize(Product(Abs(fill - req.price.value), req.quantity)))
  }

  function PendingResult(req: OrderRequest): OrderResult {
    OrderResult(req.symbol, req.side, req.orderType, Pending, req.quantity, 0.0, None, 0.0, None)
  }

  function PlaceOrder(c: Costs, s: Ledger, req: OrderRequest): Placed
    requires s.Valid() && req.Valid()
  {
    if req.id in s.orders then Placed(s, Some(s.orders[req.id])) else
    var placed := if req.orderType.MarketOrder? then FillMarket(c, s, req)
                  else Placed(s, Some(PendingResult(req)));
    match placed.result
    case None => placed
    case Some(r) => placed.(ledger := placed.ledger.(orders := placed.ledger.orders[req.id := r]))
  }

  /** True exactly when a pending order was cancelled; any other id leaves the account alone. */
  predicate Cancellable(s: Ledger, id: OrderId) { id in s.orders && s.orders[id].status.Pending? }

  function CancelOrder(s: Ledger, id: OrderId): Ledger {
    if !Cancellable(s, id) then s
    else s.(orders := s.orders[id := s.orders[id].(status := Cancelled, filled := 0.0,
                                                   fillPrice := None, fee := 0.0, slippage := None)])
  }

  function ApplyFunding(s: Ledger, symbol: Symbol, rate: real, mark: real): Ledger {
    if symbol !in s.positions then s else
    var p := s.positions[symbol];
    var payment := FundingPayment(p.side, p.quantity, mark, rate);
    s.(balance := s.balance - payment, fundingPaid := s.fundingPaid[symbol := s.FundingOf(symbol) + payment])
  }

  /** Out-of-range leverage raises and changes nothing. */
  function SetLeverage(s: Ledger, symbol: Symbol, leverage: int): Ledger {
    if 1 <= leverage <= MAX_LEVERAGE then s.(leverage := s.leverage[symbol := leverage]) else s
  }

  // ---------- Runs ----------

  datatype Op =
    | Place(req: OrderRequest)
    | Cancel(id: OrderId)
    | Fund(symbol: Symbol, rate: real, mark: real)
    | Lever(symbol: Symbol, leverage: int)
  {
    predicate Valid() { Place? ==> req.Valid() }
  }

  lemma MarginPositive(price: real, quantity: real, leverage: int)
    requires price > 0.0 && quantity > 0.0 && leverage >= 1
    ensures MarginFor(price, quantity, leverage) > 0.0
  {
    assert price * quantity > 0.0;
  }

  lemma ReduceKeepsValid(s: Ledger, symbol: Symbol, quantity: real, fill: real)
    requires s.Valid() && quantity > 0.0
    ensures Reduce(s, symbol, quantity, fill).Valid()
  {
    if symbol in s.positions && quantity < s.positions[symbol].quantity {
      var held := s.positions[symbol];
      MarginPositive(held.entryPrice, held.quantity - quantity, s.LeverageOf(symbol, held.leverage));
    }
  }

  lemma SettleKeepsValid(s: Ledger, req: OrderRequest, fill: real, fee: real, slippage: real)
    requires s.Valid() && req.Valid()
    ensures Settle(s, req, fill, fee, slippage).ledger.Valid()
  {
    hide Reduce, WeightedEntry, MarginFor;
    ReduceKeepsValid(s.(balance := s.balance - fee), req.symbol, req.quantity, fill);
  }

  lemma PlaceKeepsValid(c: Costs, s: Ledger, req: OrderRequest)
    requires s.Valid() && req.Valid()
    ensures PlaceOrder(c, s, req).ledger.Valid()
  {
    if Priced(req) {
      var fill := FillPrice(c, req);
      SettleKeepsValid(s, req, fill, OrderFee(c, fill, req.quantity),
                       Quantize(Product(Abs(fill - req.price.value), req.quantity)));
    }
  }

  function Step(c: Costs, s: Ledger, op: Op): (t: Ledger)
    requires s.Valid() && op.Valid()
    ensures t.Valid()
  {
    match op
    case Place(req) => PlaceKeepsValid(c, s, req); PlaceOrder(c, s, req).ledger
    case Cancel(id) => CancelOrder(s, id)
    case Fund(symbol, rate, mark) => ApplyFunding(s, symbol, rate, mark)
    case Lever(symbol, leverage) => SetLeverage(s, symbol, leverage)
  }

  predicate AllValid(ops: seq<Op>) { forall i :: 0 <= i < |ops| ==> ops[i].Valid() }

  function Run(c: Costs, s: Ledger, ops: seq<Op>): Ledger
    requires s.Valid() && AllValid(ops)
    decreases |ops|
  {
    if ops == [] then s else Run(c, Step(c, s, ops[0]), ops[1..])
  }

  /** Orders touch neither the leverage settings nor the funding totals. */
  lemma SettleKeepsRest(s: Ledger, req: OrderRequest, fill: real, fee: real, slippage: real)
    requires s.Valid() && req.Valid()
    ensures var t := Settle(s, req, fill, fee, slippage).ledger;
            t.leverage == s.leverage && t.fundingPaid == s.fundingPaid && t.orders == s.orders
  {}

  lemma OrderKeepsRest(c: Costs, s: Ledger, req: OrderRequest)
    requires s.Valid() && req.Valid()
    ensures var placed := PlaceOrder(c, s, req);
            && placed.ledger.leverage == s.leverage && placed.ledger.fundingPaid == s.fundingPaid
            && placed.ledger.orders.Keys == s.orders.Keys + if placed.result.Some? then {req.id} else {}
  {
    if Priced(req) {
      var fill := FillPrice(c, req);
      SettleKeepsRest(s, req, fill, OrderFee(c, fill, req.quantity),
                      Quantize(Product(Abs(fill - req.price.value), req.quantity)));
    }
  }
}
