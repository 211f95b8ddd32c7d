/**
 Idempotent orders: repeating a client order id never fills twice, neither in the paper
 adapter nor when the execution engine retries an approved plan
 (backend/exchange_adapters/paper_adapter.py, backend/execution/engine.py).
 */
module AtMostOnce {
  import opened Decimals
  import opened CostModels
  import opened PaperLedger
  import opened PaperConservation

  function Placing(op: Op): set<OrderId> { if op.Place? then {op.req.id} else {} }

  /** Whenever an id repeats, an earlier order under it had returned a result instead of raising. */
  predicate RepeatsAccepted(c: Costs, s: Ledger, ops: seq<Op>, seen: set<OrderId>)
    requires s.Valid() && AllValid(ops)
    decreases |ops|
  {
    ops != [] ==>
      && (ops[0].Place? && ops[0].req.id in seen ==> ops[0].req.id in s.orders)
      && RepeatsAccepted(c, Step(c, s, ops[0]), ops[1..], seen + Placing(ops[0]))
  }

  /** The run without the orders whose id was seen before. */
  function FirstOnly(ops: seq<Op>, seen: set<OrderId>): (r: seq<Op>)
    ensures AllValid(ops) ==> AllValid(r)
  {
    if ops == [] then []
    else if !ops[0].Place? then [ops[0]] + FirstOnly(ops[1..], seen)
    else if ops[0].req.id in seen then FirstOnly(ops[1..], seen)
    else [ops[0]] + FirstOnly(ops[1..], seen + {ops[0].req.id})
  }

  /** Ids are never forgotten, and an accepted order's id is remembered. */
  lemma StepKeys(c: Costs, s: Ledger, op: Op)
    requires s.Valid() && op.Valid()
    ensures Step(c, s, op).orders.Keys ==
            s.orders.Keys + if op.Place? && PlaceOrder(c, s, op.req).result.Some? then {op.req.id} else {}
  {
    if op.Place? { OrderKeepsRest(c, s, op.req); }
  }

  /** Replaying accepted ids changes nothing: the run equals its first occurrences. */
  lemma {:induction false} RepeatsChangeNothing(c: Costs, s: Ledger, ops: seq<Op>, seen: set<OrderId>)
    requires s.Valid() && AllValid(ops) && s.orders.Keys <= seen && RepeatsAccepted(c, s, ops, seen)
    ensures Run(c, s, ops) == Run(c, s, FirstOnly(ops, seen))
    decreases |ops|
  {
    if ops != [] {
      var t := Step(c, s, ops[0]);
      StepKeys(c, s, ops[0]);
      RepeatsChangeNothing(c, t, ops[1..], seen + Placing(ops[0]));
      var rest := FirstOnly(ops[1..], seen + Placing(ops[0]));
      if ops[0].Place? && ops[0].req.id in seen {
        assert t == s && seen + Placing(ops[0]) == seen;
      } else {
        assert seen + {} == seen;
        assert FirstOnly(ops, seen) == [ops[0]] + rest;
        assert ([ops[0]] + rest)[1..] == rest;
      }
    }
  }

  // ---------- At most one fill ----------

  /** How often the fill code ran for this id. */
  function Fills(c: Costs, s: Ledger, ops: seq<Op>, id: OrderId): nat
    requires s.Valid() && AllValid(ops)
    decreases |ops|
  {
    if ops == [] then 0 else
    (if ops[0].Place? && ops[0].req.id == id && Executes(s, ops[0].req) then 1 else 0)
    + Fills(c, Step(c, s, ops[0]), ops[1..], id)
  }

  lemma WeightedPositive(entry: real, quantity: real, fill: real, added: real)
    requires entry > 0.0 && quantity > 0.0 && fill > 0.0 && added > 0.0
    ensures WeightedEntry(entry, quantity, fill, added) > 0.0
  {
    assert entry * quantity > 0.0 && fill * added > 0.0;
  }

  lemma SettleAccepts(s: Ledger, req: OrderRequest, fill: real, fee: real, slippage: real)
    requires s.Valid() && req.Valid() && fill > 0.0 && fee >= 0.0
    ensures Settle(s, req, fill, fee, slippage).result.Some?
  {
    MarginPositive(fill, req.quantity, s.LeverageOf(req.symbol, 1));
    if req.symbol in s.positions {
      WeightedPositive(s.positions[req.symbol].entryPrice, s.positions[req.symbol].quantity, fill, req.quantity);
    }
  }

  lemma OrderFeeNonNegative(c: Costs, fill: real, quantity: real)
    requires c.fees.Valid() && fill > 0.0 && quantity > 0.0
    ensures OrderFee(c, fill, quantity) >= 0.0
  {
    MulNonNegative(fill, quantity);
    QuantizeNonNegative(Product(fill, quantity));
    FeeNonNegative(c.fees, Quantize(Product(fill, quantity)), Market);
  }

  /** An order that fills at a positive price never raises, so its id is always recorded. */
  lemma PositiveFillAccepted(c: Costs, s: Ledger, req: OrderRequest)
    requires c.fees.Valid() && s.Valid() && req.Valid()
    requires Executes(s, req) && FillPrice(c, req) > 0.0
    ensures PlaceOrder(c, s, req).result.Some?
  {
    var fill := FillPrice(c, req);
    OrderFeeNonNegative(c, fill, req.quantity);
    SettleAccepts(s, req, fill, OrderFee(c, fill, req.quantity),
                  Quantize(Product(Abs(fill - req.price.value), req.quantity)));
  }

  lemma ZeroFill(c: Costs, quantity: real, leverage: int)
    requires leverage >= 1
    ensures OrderFee(c, 0.0, quantity) == 0.0 && MarginFor(0.0, quantity, leverage) == 0.0
  {
    assert OnGrid(0.0) by { GridPoint(0); }
    assert Product(0.0, quantity) == 0.0;
  }

  /** The order adds to a position already held on its side. */
  predicate Averages(s: Ledger, req: OrderRequest) {
    req.symbol in s.positions && s.positions[req.symbol].side == req.side
  }

  lemma WeightedWithZero(entry: real, quantity: real, added: real)
    requires entry > 0.0 && quantity > 0.0 && added > 0.0
    ensures WeightedEntry(entry, quantity, 0.0, added) > 0.0
  {
    assert entry * quantity > 0.0;
  }

  lemma SettleRaisesIff(s: Ledger, req: OrderRequest, fill: real, fee: real, slippage: real)
    requires s.Valid() && req.Valid()
    requires fill >= 0.0 ==> fee >= 0.0
    requires fill == 0.0 ==> MarginFor(fill, req.quantity, s.LeverageOf(req.symbol, 1)) == 0.0
    ensures Settle(s, req, fill, fee, slippage).result.None? <==>
            fill < 0.0 || (fill == 0.0 && !req.reduceOnly && !Averages(s, req))
  {
    hide Quantize, Reduce;
    if fill > 0.0 { SettleAccepts(s, req, fill, fee, slippage); }
    else if fill == 0.0 && Averages(s, req) {
      hide MarginFor;
      var held := s.positions[req.symbol];
      WeightedWithZero(held.entryPrice, held.quantity, req.quantity);
    }
  }

  /** A market order that executes raises, and is forgotten, exactly when it fills below zero, or at
      zero where that would open a position. */
  lemma {:induction false} ExecutionRaisesIff(c: Costs, s: Ledger, req: OrderRequest)
    requires c.fees.Valid() && s.Valid() && req.Valid() && Executes(s, req)
    ensures PlaceOrder(c, s, req).result.None? <==>
            var fill := FillPrice(c, req);
            fill < 0.0 || (fill == 0.0 && !req.reduceOnly && !Averages(s, req))
  {
    hide OrderFee, MarginFor, Quantize, FillPrice, Settle;
    var fill := FillPrice(c, req);
    if fill > 0.0 { OrderFeeNonNegative(c, fill, req.quantity); }
    if fill == 0.0 { ZeroFill(c, req.quantity, s.LeverageOf(req.symbol, 1)); }
    SettleRaisesIff(s, req, fill, OrderFee(c, fill, req.quantity),
                    Quantize(Product(Abs(fill - req.price.value), req.quantity)));
  }

  /** How often the fill code ran for this id and then raised. */
  function RaisedFills(c: Costs, s: Ledger, ops: seq<Op>, id: OrderId): nat
    requires s.Valid() && AllValid(ops)
    decreases |ops|
  {
    if ops == [] then 0 else
    (if ops[0].Place? && ops[0].req.id == id && Executes(s, ops[0].req)
        && PlaceOrder(c, s, ops[0].req).result.None? then 1 else 0)
    + RaisedFills(c, Step(c, s, ops[0]), ops[1..], id)
  }

  predicate FillsPositive(c: Costs, ops: seq<Op>, id: OrderId)
    requires AllValid(ops)
  {
    forall i :: 0 <= i < |ops| && ops[i].Place? && ops[i].req.id == id && Priced(ops[i].req)
                ==> FillPrice(c, ops[i].req) > 0.0
  }

  /** Interleaved with anything else, one client order id is filled at most once without raising, and
      never again after that; where all its fills are positive, at most once at all. */
  lemma {:induction false} AtMostOneFill(c: Costs, s: Ledger, ops: seq<Op>, id: OrderId)
    requires s.Valid() && AllValid(ops)
    ensures Fills(c, s, ops, id) <= 1 + RaisedFills(c, s, ops, id)
    ensures id in s.orders ==> Fills(c, s, ops, id) == 0
    ensures c.fees.Valid() && FillsPositive(c, ops, id) ==> Fills(c, s, ops, id) <= 1
    decreases |ops|
  {
    hide PlaceOrder;
    if ops != [] {
      StepKeys(c, s, ops[0]);
      if FillsPositive(c, ops, id) {
        assert forall i :: 0 <= i < |ops[1..]| ==> ops[1..][i] == ops[i + 1];
        assert FillsPositive(c, ops[1..], id);
      }
      AtMostOneFill(c, Step(c, s, ops[0]), ops[1..], id);
      if ops[0].Place? && ops[0].req.id == id && Executes(s, ops[0].req)
         && c.fees.Valid() && FillPrice(c, ops[0].req) > 0.0 {
        PositiveFillAccepted(c, s, ops[0].req);
      }
    }
  }

  predicate NoneUnder(ops: seq<Op>, id: OrderId) {
    forall i :: 0 <= i < |ops| && ops[i].Place? ==> ops[i].req.id != id
  }

  lemma {:induction false} OthersLeaveId(c: Costs, s: Ledger, ops: seq<Op>, id: OrderId)
    requires s.Valid() && AllValid(ops) && NoneUnder(ops, id)
    ensures Run(c, s, ops).Valid() && (id in Run(c, s, ops).orders <==> id in s.orders)
    decreases |ops|
  {
    if ops != [] {
      StepKeys(c, s, ops[0]);
      OthersLeaveId(c, Step(c, s, ops[0]), ops[1..], id);
    }
  }

  /** Repeating an executed order after anything else executes it again exactly when it had raised. */
  lemma {:induction false} ExecutesAgainIff(
    c: Costs, s: Ledger, first: OrderRequest, ops: seq<Op>, again: OrderRequest
  )
    requires s.Valid() && first.Valid() && Executes(s, first) && AllValid(ops) && NoneUnder(ops, first.id)
    requires again.Valid() && again.id == first.id && again.orderType.MarketOrder? && Priced(again)
    ensures Executes(Run(c, Step(c, s, Place(first)), ops), again)
            <==> PlaceOrder(c, s, first).result.None?
  {
    hide PlaceOrder;
    StepKeys(c, s, Place(first));
    OthersLeaveId(c, Step(c, s, Place(first)), ops, first.id);
  }

  // ---------- Retrying an approved plan ----------

  /** The engine's view: the adapter's account and the ids of the persisted order rows. */
  datatype Desk = Desk(ledger: Ledger, rows: set<OrderId>)

  datatype Plan = Plan(req: OrderRequest, leverage: int)

  /** How one attempt may end, besides finding the row of an earlier one. */
  datatype Fate = NoAtr | TimedOutBeforeFill | TimedOutAfterFill | RowRolledBack | Committed

  function Levered(s: Ledger, plan: Plan): Ledger { SetLeverage(s, plan.req.symbol, plan.leverage) }

  /** One call of `execute_approved_plan` for the plan. */
  function Attempt(c: Costs, d: Desk, plan: Plan, fate: Fate): (e: Desk)
    requires d.ledger.Valid() && plan.req.Valid()
    ensures e.ledger.Valid()
  {
    if plan.req.id in d.rows || fate.NoAtr? then d
    else if fate.TimedOutBeforeFill? then d.(ledger := Levered(d.ledger, plan))
    else
      var placed := PlaceOrder(c, Levered(d.ledger, plan), plan.req);
      PlaceKeepsValid(c, Levered(d.ledger, plan), plan.req);
      if fate.Committed? && placed.result.Some? then Desk(placed.ledger, d.rows + {plan.req.id})
      else d.(ledger := placed.ledger)
  }

  function Attempts(c: Costs, d: Desk, plan: Plan, fates: seq<Fate>): Desk
    requires d.ledger.Valid() && plan.req.Valid()
    decreases |fates|
  {
    if fates == [] then d else Attempts(c, Attempt(c, d, plan, fates[0]), plan, fates[1..])
  }

  /** The only accounts retries can reach: untouched, levered, or filled once. */
  predicate Reached(c: Costs, s: Ledger, plan: Plan, t: Ledger)
    requires s.Valid() && plan.req.Valid()
  {
    t == s || t == Levered(s, plan) || t == PlaceOrder(c, Levered(s, plan), plan.req).ledger
  }

  lemma AttemptReaches(c: Costs, s: Ledger, d: Desk, plan: Plan, fate: Fate)
    requires s.Valid() && d.ledger.Valid() && plan.req.Valid() && 1 <= plan.leverage <= MAX_LEVERAGE
    requires PlaceOrder(c, Levered(s, plan), plan.req).result.Some?
    requires Reached(c, s, plan, d.ledger)
    ensures Reached(c, s, plan, Attempt(c, d, plan, fate).ledger)
  {
    var levered := Levered(s, plan);
    var filled := PlaceOrder(c, levered, plan.req).ledger;
    OrderKeepsRest(c, levered, plan.req);
    StepKeys(c, levered, Place(plan.req));
    assert Levered(levered, plan) == levered;
    assert Levered(filled, plan) == filled by {
      assert filled.leverage[plan.req.symbol := plan.leverage] == filled.leverage;
    }
    assert PlaceOrder(c, filled, plan.req).ledger == filled;
  }

  /**
   Re-executing the same approved plan any number of times, after successes, timeouts on
   either side of the fill, rolled-back rows or missing volatility data, fills at most once.
   */
  lemma {:induction false} RetriesFillAtMostOnce(c: Costs, s: Ledger, d: Desk, plan: Plan, fates: seq<Fate>)
    requires s.Valid() && d.ledger.Valid() && plan.req.Valid() && 1 <= plan.leverage <= MAX_LEVERAGE
    requires PlaceOrder(c, Levered(s, plan), plan.req).result.Some?
    requires Reached(c, s, plan, d.ledger)
    ensures Reached(c, s, plan, Attempts(c, d, plan, fates).ledger)
    decreases |fates|
  {
    if fates != [] {
      AttemptReaches(c, s, d, plan, fates[0]);
      RetriesFillAtMostOnce(c, s, Attempt(c, d, plan, fates[0]), plan, fates[1..]);
    }
  }
}
