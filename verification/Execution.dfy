/**
 Executing an approved plan: sizing, order, and registration of the exits. This is where the
 risk engine, the ledger and the position manager meet (backend/execution/engine.py,
 execute_approved_plan).
 */
module Execution {
  import opened Decimals
  import opened CostModels
  import opened PaperLedger
  import opened ExitRules
  import opened ExitMachine
  import RiskEngine
  import AtMostOnce
  import Protection

  /** What an execution reads and writes: the account, the persisted order ids, the exit configurations. */
  datatype Desk = Desk(ledger: Ledger, rows: set<OrderId>, tracks: map<Symbol, Track>)

  /** An approved decision: the proposal, its verdict and what the execution needs besides. */
  datatype Plan = Plan(
    id: OrderId, d: RiskEngine.Proposal, verdict: RiskEngine.Verdict,
    useTrailing: bool, useBreakEven: bool, defaults: Defaults, book: Option<Book>)
  {
    predicate Valid() { book.Some? ==> book.value.Coherent() }
  }

  /**
   How the exchange answers a market entry: as the paper exchange does, at once; with a timeout,
   before or after the order took effect; or, as another exchange may, partly filled, or pending
   and filled after the call returned. A partial fill leaves the position of a smaller order.
   */
  datatype Timing = InTime | TimedOutBefore | TimedOutAfter | PartlyFilled(share: real) | FilledLater {
    predicate Valid() { PartlyFilled? ==> 0.0 < share < 1.0 }

    /** The call returned, but not as filled. */
    predicate NotYetFilled() { PartlyFilled? || FilledLater? }
  }

  datatype Ending = Replayed | Refused | Raised | NotFilled | Opened

  datatype Executed = Executed(desk: Desk, ending: Ending)

  lemma OneStepAtLeast(q: real)
    requires OnGrid(q) && q > 0.0
    ensures q >= ULP
  {
    var n := (q * 100000000.0).Floor;
    assert n as real == q * 100000000.0;
    assert n >= 1;
  }

  lemma ProductMonotone(a: real, b: real, c: real, d: real)
    requires 0.0 <= a <= c && 0.0 <= b <= d
    ensures Product(a, b) <= Product(c, d)
  {
    MulNonNegative(a, d - b);
    MulNonNegative(c - a, d);
    assert c * d - a * b == a * (d - b) + (c - a) * d;
  }

  /** A quantity rounds down to nothing exactly when the notional buys less than one step. */
  lemma RoundsToNothing(margin: real, leverage: int, entry: real)
    requires margin > 0.0 && leverage >= 1 && entry > 0.0
    ensures RiskEngine.Quantity(margin, leverage, entry) <= 0.0
            <==> Product(margin, leverage as real) < Product(ULP, entry)
  {
    hide RiskEngine.Quantity, Product;
    var q := RiskEngine.Quantity(margin, leverage, entry);
    RiskEngine.NotionalWithinApproval(margin, leverage, entry);
    if q <= 0.0 {
      assert q + ULP == ULP;
    } else {
      OneStepAtLeast(q);
      ProductMonotone(ULP, entry, q, entry);
    }
  }

  /** `_build_order_request`; None where the request schema rejects an empty quantity. */
  function Request(plan: Plan): (r: Option<OrderRequest>)
    requires plan.Valid() && plan.verdict.Executable() && plan.d.entry > 0.0
    requires plan.verdict.margin > 0.0 && plan.verdict.leverage >= 1
    ensures r.Some? ==> r.value.Valid() && Priced(r.value)
    ensures r.None? <==> Product(plan.verdict.margin, plan.verdict.leverage as real) < Product(ULP, plan.d.entry)
  {
    RoundsToNothing(plan.verdict.margin, plan.verdict.leverage, plan.d.entry);
    var quantity := RiskEngine.Quantity(plan.verdict.margin, plan.verdict.leverage, plan.d.entry);
    if quantity <= 0.0 then None
    else Some(OrderRequest(
                plan.id, plan.d.symbol, if plan.d.direction.Long? then Buy else Sell,
                if plan.d.entryType.MarketEntry? then MarketOrder else LimitOrder,
                quantity, Some(plan.d.entry), false, plan.book))
  }

  /** The exits registered for a fill; None where they cannot be built or do not validate. */
  function Exits(plan: Plan, fill: real, atr: real): (r: Option<Config>)
    ensures r.Some? ==> r.value.Valid()
  {
    var built := BuildConfig(plan.d.stop, plan.d.target, plan.useTrailing, plan.useBreakEven,
                             plan.defaults, fill, Some(atr));
    if built.Some? && built.value.Valid() then built else None
  }

  /** A verdict as the risk engine's result schema admits it. */
  predicate Sized(plan: Plan) {
    plan.verdict.Executable() ==> RiskEngine.Tradable(plan.verdict.margin, plan.verdict.leverage)
  }

  /** What the exchange executes of a request. */
  function Effective(req: OrderRequest, timing: Timing): (r: OrderRequest)
    requires req.Valid() && timing.Valid()
    ensures r.Valid() && r == req.(quantity := r.quantity)
    ensures !timing.PartlyFilled? ==> r == req
  {
    match timing
    case PartlyFilled(share) =>
      Protection.PortionPositive(req.quantity, share);
      req.(quantity := Product(req.quantity, share))
    case _ => req
  }

  /** `execute_approved_plan`. A raise after the order rolls the rows back but not the exchange. */
  function ExecutePlan(c: Costs, desk: Desk, plan: Plan, atr: Option<real>, timing: Timing): Executed
    requires desk.ledger.Valid() && plan.Valid() && Sized(plan) && timing.Valid()
  {
    if plan.id in desk.rows then Executed(desk, Replayed)
    else if !plan.verdict.Executable() || plan.d.entryType.NoEntry? || plan.d.entry <= 0.0 || atr.None?
    then Executed(desk, Refused)
    else
      var levered := SetLeverage(desk.ledger, plan.d.symbol, plan.verdict.leverage);
      var request := Request(plan);
      if request.None? || timing.TimedOutBefore? then Executed(desk.(ledger := levered), Raised)
      else
        var placed := PlaceOrder(c, levered, Effective(request.value, timing));
        var after := desk.(ledger := placed.ledger);
        if placed.result.None? || timing.TimedOutAfter? then Executed(after, Raised)
        else if timing.NotYetFilled() || !placed.result.value.status.Filled? then
          Executed(after.(rows := desk.rows + {plan.id}), NotFilled)
        else if placed.result.value.fillPrice.None? then Executed(after.(rows := desk.rows + {plan.id}), Raised)
        else
          var exits := Exits(plan, placed.result.value.fillPrice.value, atr.value);
          if exits.None? then Executed(after, Raised)
          else Executed(after.(rows := desk.rows + {plan.id},
                               tracks := desk.tracks[plan.d.symbol := Fresh(exits.value)]), Opened)
  }

  // ---------- The position manager's view of the account ----------

  function HoldingOf(p: Position): Holding { Holding(p.side, p.quantity, p.entryPrice) }

  function HoldingIn(s: Ledger, symbol: Symbol): Option<Holding> {
    if symbol in s.positions then Some(HoldingOf(s.positions[symbol])) else None
  }

  function View(desk: Desk, symbol: Symbol): Sym {
    Sym(if symbol in desk.tracks then Some(desk.tracks[symbol]) else None, HoldingIn(desk.ledger, symbol))
  }

  // ---------- Exits need a positive ATR ----------

  predicate NeedsAtr(plan: Plan) {
    || (plan.useTrailing && plan.defaults.trailingEnabled && plan.defaults.trailingMode.Atr?)
    || (plan.useBreakEven && plan.defaults.breakEvenEnabled)
  }

  lemma ExitsBuiltIff(plan: Plan, fill: real, atr: real)
    requires plan.defaults.Valid() && plan.d.stop > 0.0 && plan.d.target > 0.0 && fill > 0.0 && atr >= 0.0
    ensures Exits(plan, fill, atr).Some? <==> (atr > 0.0 || !NeedsAtr(plan))
    ensures Exits(plan, fill, atr).Some? ==> Exits(plan, fill, atr).value.levels == []
  {
    if atr > 0.0 {
      BuiltConfigIsValid(plan.d.stop, plan.d.target, plan.useTrailing, plan.useBreakEven, plan.defaults, fill, atr);
    }
  }

  // ---------- What an execution leaves behind ----------

  /** A well-formed market plan, approved, on a symbol that is flat and untracked, with an unused id. */
  predicate Clean(c: Costs, desk: Desk, plan: Plan) {
    && desk.ledger.Valid() && plan.Valid() && Sized(plan) && c.fees.Valid()
    && plan.d.WellFormed() && plan.d.entryType.MarketEntry? && plan.verdict.Executable() && plan.defaults.Valid()
    && plan.id !in desk.rows && plan.id !in desk.ledger.orders
    && plan.d.symbol !in desk.ledger.positions && plan.d.symbol !in desk.tracks
  }

  lemma EntryPositive(plan: Plan)
    requires plan.d.WellFormed()
    ensures plan.d.entry > 0.0
  {}

  /** The order has a quantity and fills at a positive price. */
  predicate Fillable(c: Costs, plan: Plan)
    requires plan.Valid() && plan.verdict.Executable() && plan.d.WellFormed() && Sized(plan)
  {
    EntryPositive(plan);
    Request(plan).Some? && FillPrice(c, Request(plan).value) > 0.0
  }

  lemma CleanParts(c: Costs, desk: Desk, plan: Plan)
    requires Clean(c, desk, plan)
    ensures plan.d.WellFormed() && plan.d.entry > 0.0 && plan.d.entryType.MarketEntry? && plan.verdict.Executable()
    ensures plan.id !in desk.rows && plan.id !in desk.ledger.orders && c.fees.Valid() && plan.defaults.Valid()
    ensures plan.d.symbol !in desk.ledger.positions && desk.ledger.Valid() && plan.Valid() && Sized(plan)
  {}

  /** The order opens exactly the requested quantity at the simulated fill. */
  lemma OrderOpens(c: Costs, s: Ledger, req: OrderRequest)
    requires s.Valid() && req.Valid() && Priced(req) && c.fees.Valid() && FillPrice(c, req) > 0.0
    requires req.id !in s.orders && req.orderType.MarketOrder? && !req.reduceOnly && req.symbol !in s.positions
    ensures var placed := PlaceOrder(c, s, req);
            && placed.result.Some? && placed.result.value.status.Filled?
            && placed.result.value.fillPrice == Some(FillPrice(c, req))
            && HoldingIn(placed.ledger, req.symbol) == Some(Holding(req.side, req.quantity, FillPrice(c, req)))
  {
    hide FillPrice, OrderFee, Quantize;
    AtMostOnce.PositiveFillAccepted(c, s, req);
  }

  lemma SamePrice(c: Costs, req: OrderRequest, timing: Timing)
    requires req.Valid() && Priced(req) && timing.Valid()
    ensures FillPrice(c, Effective(req, timing)) == FillPrice(c, req)
  {}

  /** A fill leaves exits behind exactly when the call returned it in time and the ATR suffices: a
      timeout after the fill, a partial or later fill, or a zero ATR where an exit needs one leaves
      the position bare. */
  lemma {:induction false} ProtectedIff(c: Costs, desk: Desk, plan: Plan, atr: real, timing: Timing)
    requires Clean(c, desk, plan) && Fillable(c, plan) && atr >= 0.0 && timing.Valid()
    ensures var e := ExecutePlan(c, desk, plan, Some(atr), timing);
            Protection.Protected(View(e.desk, plan.d.symbol)) <==>
            timing.TimedOutBefore? || (timing.InTime? && (atr > 0.0 || !NeedsAtr(plan)))
    ensures !timing.TimedOutBefore? ==>
              var e := ExecutePlan(c, desk, plan, Some(atr), timing);
              HoldingIn(e.desk.ledger, plan.d.symbol) ==
              Some(Holding(if plan.d.direction.Long? then Buy else Sell,
                           Effective(Request(plan).value, timing).quantity,
                           FillPrice(c, Request(plan).value)))
  {
    hide PlaceOrder, FillPrice, Exits, RiskEngine.Quantity, Effective;
    EntryPositive(plan);
    SamePrice(c, Request(plan).value, timing);
    OrderOpens(c, SetLeverage(desk.ledger, plan.d.symbol, plan.verdict.leverage),
               Effective(Request(plan).value, timing));
    ExitsBuiltIff(plan, FillPrice(c, Request(plan).value), atr);
  }

  /** From a completed execution on, through every later cycle, price failure and raising order, the
      open position keeps its exits, as long as close orders that return, and invalidations by hand,
      have filled. */
  lemma {:induction false} OpenedStaysProtected(
    c: Costs, desk: Desk, plan: Plan, atr: real, events: seq<Protection.Event>
  )
    requires Clean(c, desk, plan) && Fillable(c, plan) && (atr > 0.0 || (atr == 0.0 && !NeedsAtr(plan)))
    requires Protection.AllSafe(events)
    ensures var e := ExecutePlan(c, desk, plan, Some(atr), InTime);
            && e.ending.Opened?
            && Protection.Protected(Protection.Run(View(e.desk, plan.d.symbol), events))
  {
    hide PlaceOrder, FillPrice, Exits, RiskEngine.Quantity, Protection.Run, Config.Valid, Clean;
    CleanParts(c, desk, plan);
    var e := ExecutePlan(c, desk, plan, Some(atr), InTime);
    OrderOpens(c, SetLeverage(desk.ledger, plan.d.symbol, plan.verdict.leverage), Request(plan).value);
    ExitsBuiltIff(plan, FillPrice(c, Request(plan).value), atr);
    Protection.ProtectionNeverLost(View(e.desk, plan.d.symbol), events);
  }

  lemma TenByTen()
    ensures Product(10.0, 10.0) == 100.0
  {}

  /** An order sized from the risk engine's verdict never commands more than the proposal and the caps allow. */
  lemma {:induction false} SizeWithinEveryCap(limits: RiskEngine.Limits, seen: RiskEngine.Evidence, plan: Plan)
    requires seen.Valid() && plan.Valid() && plan.d.entry > 0.0
    requires plan.verdict == RiskEngine.Validate(plan.d, limits, seen)
    ensures Sized(plan)
    ensures plan.verdict.Executable() && Request(plan).Some? ==>
              var notional := Product(Request(plan).value.quantity, plan.d.entry);
              && notional <= Product(plan.d.margin, plan.d.leverage as real)
              && notional <= Product(limits.maxMargin, limits.leverageCap as real)
              && notional <= 100.0
  {
    hide RiskEngine.Validate, RiskEngine.Quantity, Product;
    RiskEngine.ExecutedWithinCaps(plan.d, limits, seen);
    var v := plan.verdict;
    if !v.Executable() { return; }
    RiskEngine.NotionalWithinApproval(v.margin, v.leverage, plan.d.entry);
    ProductMonotone(v.margin, v.leverage as real, plan.d.margin, plan.d.leverage as real);
    ProductMonotone(v.margin, v.leverage as real, limits.maxMargin, limits.leverageCap as real);
    ProductMonotone(v.margin, v.leverage as real, 10.0, 10.0);
    assert Product(10.0, 10.0) == 100.0 by { TenByTen(); }
  }

  // ---------- Closing on the paper exchange ----------

  /** A reduce-only close on the ledger is what the exit machine assumes of its exchange. */
  lemma {:induction false} PaperCloseIsShrink(c: Costs, s: Ledger, req: OrderRequest)
    requires s.Valid() && req.Valid() && Priced(req) && c.fees.Valid() && FillPrice(c, req) > 0.0
    requires req.symbol in s.positions && req.reduceOnly && req.orderType.MarketOrder? && req.id !in s.orders
    ensures var placed := PlaceOrder(c, s, req);
            && placed.result.Some?
            && HoldingIn(placed.ledger, req.symbol)
            == AfterOrder(HoldingOf(s.positions[req.symbol]), req.quantity, req.price.value, Fills)
            && (forall other :: other != req.symbol ==> HoldingIn(placed.ledger, other) == HoldingIn(s, other))
  {
    hide FillPrice, OrderFee, Quantize;
    AtMostOnce.PositiveFillAccepted(c, s, req);
  }

  // ---------- What an execution answers ----------

  /** The order of a plan: its own id, symbol, side, price and book, a market order for a market entry and a
      limit order for a limit entry, never reduce-only, and as large as the approved notional allows. */
  lemma RequestIs(plan: Plan)
    requires plan.Valid() && Sized(plan) && plan.verdict.Executable() && plan.d.entry > 0.0 && Request(plan).Some?
    ensures var req, notional := Request(plan).value, Product(plan.verdict.margin, plan.verdict.leverage as real);
            && req == OrderRequest(plan.id, plan.d.symbol, if plan.d.direction == RiskEngine.Long then Buy else Sell,
                                   if plan.d.entryType == RiskEngine.MarketEntry then MarketOrder else LimitOrder,
                                   req.quantity, Some(plan.d.entry), false, plan.book)
            && OnGrid(req.quantity) && req.quantity > 0.0
            && Product(req.quantity, plan.d.entry) <= notional < Product(req.quantity + ULP, plan.d.entry)
  {
    hide RiskEngine.Quantity, Product;
    RiskEngine.NotionalWithinApproval(plan.verdict.margin, plan.verdict.leverage, plan.d.entry);
  }

  /** The exits registered are the plan's own stop and target. */
  lemma ExitsAre(plan: Plan, fill: real, atr: real)
    requires Exits(plan, fill, atr).Some?
    ensures var config := Exits(plan, fill, atr).value;
            && config.stopLoss == Some(plan.d.stop) && config.takeProfit == Some(plan.d.target)
            && config.levels == [] && config.action.None?
            && (config.beTrigger.Some? ==>
                  && config.beTrigger.value == Product(atr, plan.defaults.beTriggerMultiplier)
                  && config.beOffset <= Product(fill, plan.defaults.beOffsetPercent)
                  && (2.0 * config.beOffset < config.beTrigger.value ==>
                        config.beOffset == Product(fill, plan.defaults.beOffsetPercent)))
  {}

  /** The plan is refused before anything is touched: nothing to execute, no price, or no ATR at all. */
  predicate Refusable(plan: Plan, atr: Option<real>) {
    || !(plan.verdict.Approved? || plan.verdict.AdjustedDown?)
    || plan.d.entryType == RiskEngine.NoEntry || plan.d.entry <= 0.0 || atr.None?
  }

  /** Every execution: a plan on record is replayed, a refusable one refused, both without a trace. Any
      other sets the leverage of its symbol and touches the record and exits of no other plan. It is
      on record once it ends resting or opened, and its exits are registered exactly when it ends
      opened. */
  lemma {:induction false} ExecutionAnswered(c: Costs, desk: Desk, plan: Plan, atr: Option<real>, timing: Timing)
    requires desk.ledger.Valid() && plan.Valid() && Sized(plan) && timing.Valid()
    ensures var e := ExecutePlan(c, desk, plan, atr, timing);
            && (e.ending.Replayed? <==> plan.id in desk.rows)
            && (e.ending.Refused? <==> plan.id !in desk.rows && Refusable(plan, atr))
            && (e.ending.Replayed? || e.ending.Refused? ==> e.desk == desk)
            && (e.ending.NotFilled? || e.ending.Opened? ==> e.desk.rows == desk.rows + {plan.id})
            && desk.rows <= e.desk.rows <= desk.rows + {plan.id}
            && (!e.ending.Replayed? && !e.ending.Refused? ==>
                  e.desk.ledger.leverage == desk.ledger.leverage[plan.d.symbol := plan.verdict.leverage])
            && (!e.ending.Opened? ==> e.desk.tracks == desk.tracks)
            && (e.ending.Opened? ==>
                  && e.desk.tracks.Keys == desk.tracks.Keys + {plan.d.symbol}
                  && (forall other <- desk.tracks :: other != plan.d.symbol ==>
                        e.desk.tracks[other] == desk.tracks[other])
                  && var t := e.desk.tracks[plan.d.symbol];
                     t.sl == Some(plan.d.stop) && t.tp == Some(plan.d.target) && t.remaining == [] && !t.fired)
  {
    hide PlaceOrder, Exits, RiskEngine.Quantity, Product;
    if plan.id !in desk.rows && !Refusable(plan, atr) && Request(plan).Some? {
      var levered := SetLeverage(desk.ledger, plan.d.symbol, plan.verdict.leverage);
      var req := Effective(Request(plan).value, timing);
      OrderKeepsRest(c, levered, req);
      var placed := PlaceOrder(c, levered, req);
      if placed.result.Some? && placed.result.value.fillPrice.Some? {
        var fill := placed.result.value.fillPrice.value;
        if Exits(plan, fill, atr.value).Some? { ExitsAre(plan, fill, atr.value); }
      }
    }
  }

  /** What is on record is not executed again. */
  lemma ExecutedOnce(
    c: Costs, desk: Desk, plan: Plan, atr: Option<real>, timing: Timing, again: Option<real>, later: Timing
  )
    requires desk.ledger.Valid() && plan.Valid() && Sized(plan) && timing.Valid() && later.Valid()
    ensures var e := ExecutePlan(c, desk, plan, atr, timing);
            e.ending.NotFilled? || e.ending.Opened? ==>
              e.desk.ledger.Valid() && ExecutePlan(c, e.desk, plan, again, later) == Executed(e.desk, Replayed)
  {
    ExecutionAnswered(c, desk, plan, atr, timing);
    if plan.id !in desk.rows && !Refusable(plan, atr) && Request(plan).Some? {
      PlaceKeepsValid(c, SetLeverage(desk.ledger, plan.d.symbol, plan.verdict.leverage),
                      Effective(Request(plan).value, timing));
    }
    hide PlaceOrder, Exits, Request, Effective;
  }

  /** A limit plan rests at its own price: the order is kept pending, and nothing is bought or paid. */
  lemma LimitPlanRests(c: Costs, desk: Desk, plan: Plan, atr: real)
    requires desk.ledger.Valid() && plan.Valid() && Sized(plan) && plan.id !in desk.rows
    requires plan.d.entryType == RiskEngine.LimitEntry && !Refusable(plan, Some(atr)) && Request(plan).Some?
    requires plan.id !in desk.ledger.orders
    ensures var e, req := ExecutePlan(c, desk, plan, Some(atr), InTime), Request(plan).value;
            && e.ending.NotFilled?
            && e.desk.ledger.balance == desk.ledger.balance && e.desk.ledger.positions == desk.ledger.positions
            && plan.id in e.desk.ledger.orders
            && e.desk.ledger.orders[plan.id] == OrderResult(plan.d.symbol, req.side, LimitOrder, PaperLedger.Pending,
                                                            req.quantity, 0.0, None, 0.0, None)
  {
    hide RiskEngine.Quantity, Exits;
    RequestIs(plan);
  }

  /** Where a fill opened the position, the break-even offset is a share of that fill, not of the plan's price. */
  lemma {:induction false} OffsetFollowsFill(c: Costs, desk: Desk, plan: Plan, atr: real)
    requires Clean(c, desk, plan) && Fillable(c, plan) && (atr > 0.0 || (atr == 0.0 && !NeedsAtr(plan)))
    ensures var e := ExecutePlan(c, desk, plan, Some(atr), InTime);
            && e.ending.Opened? && plan.d.symbol in e.desk.tracks && plan.d.symbol in e.desk.ledger.positions
            && var config, p := e.desk.tracks[plan.d.symbol].config, e.desk.ledger.positions[plan.d.symbol];
               config.beTrigger.Some? && 2.0 * config.beOffset < config.beTrigger.value ==>
                 config.beOffset == Product(p.entryPrice, plan.defaults.beOffsetPercent)
  {
    hide PlaceOrder, FillPrice, Exits, RiskEngine.Quantity, Product, Config.Valid;
    CleanParts(c, desk, plan);
    OrderOpens(c, SetLeverage(desk.ledger, plan.d.symbol, plan.verdict.leverage), Request(plan).value);
    ExitsBuiltIff(plan, FillPrice(c, Request(plan).value), atr);
    ExitsAre(plan, FillPrice(c, Request(plan).value), atr);
  }

  // ---------- The retries are executions ----------

  /** How an attempt of the retry model shows as an execution; a rolled-back row has no counterpart here. */
  function TimingOf(fate: AtMostOnce.Fate): Timing {
    match fate
    case TimedOutBeforeFill => TimedOutBefore
    case TimedOutAfterFill => TimedOutAfter
    case _ => InTime
  }

  /** An attempt of the retry model leaves the account an execution of the plan leaves, and the row too
      wherever the execution completes. */
  lemma AttemptIsExecution(c: Costs, desk: Desk, plan: Plan, atr: real, fate: AtMostOnce.Fate)
    requires desk.ledger.Valid() && plan.Valid() && Sized(plan) && plan.verdict.Executable()
    requires !plan.d.entryType.NoEntry? && plan.d.entry > 0.0 && Request(plan).Some?
    ensures var e := ExecutePlan(c, desk, plan, if fate.NoAtr? then None else Some(atr), TimingOf(fate));
            var a := AtMostOnce.Attempt(c, AtMostOnce.Desk(desk.ledger, desk.rows),
                                        AtMostOnce.Plan(Request(plan).value, plan.verdict.leverage), fate);
            && a.ledger == e.desk.ledger
            && (fate.Committed? && (e.ending.Opened? || e.ending.NotFilled?) ==> a.rows == e.desk.rows)
            && (!fate.Committed? ==> a.rows == desk.rows)
  {
    hide PlaceOrder, Exits, RiskEngine.Quantity, Product;
    RequestIs(plan);
  }
}
