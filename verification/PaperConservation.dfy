/**
 The paper ledger loses no money: over every run, equity at any mark prices is the starting
 equity plus the value of the fills and payments that happened, whatever was averaged,
 netted or partially closed on the way.
 */
module PaperConservation {
  import opened Decimals
  import opened CostModels
  import opened PaperLedger

  /** Mark prices: one per symbol. */
  type Marks = Symbol -> real

  // ---------- Equity ----------

  /** Profit of all open positions at the given marks. */
  ghost function OpenPnl(ps: map<Symbol, Position>, marks: Marks): real {
    if ps.Keys == {} then 0.0 else
    var k :| k in ps.Keys;
    ps[k].Pnl(marks(k)) + OpenPnl(ps - {k}, marks)
  }

  ghost function Equity(s: Ledger, marks: Marks): real { s.balance + OpenPnl(s.positions, marks) }

  ghost function PnlOf(ps: map<Symbol, Position>, symbol: Symbol, marks: Marks): real {
    if symbol in ps then ps[symbol].Pnl(marks(symbol)) else 0.0
  }

  lemma Shrinks(ps: map<Symbol, Position>, k: Symbol)
    requires k in ps
    ensures |ps - {k}| < |ps|
  {
    assert (ps - {k}).Keys == ps.Keys - {k};
    assert |ps.Keys - {k}| < |ps.Keys|;
    assert |ps - {k}| == |(ps - {k}).Keys| && |ps| == |ps.Keys|;
  }

  /** The sum does not depend on the order in which positions are taken. */
  lemma {:induction false} OpenPnlSplit(ps: map<Symbol, Position>, k: Symbol, marks: Marks)
    requires k in ps
    ensures OpenPnl(ps, marks) == ps[k].Pnl(marks(k)) + OpenPnl(ps - {k}, marks)
    decreases |ps|
  {
    var j :| j in ps.Keys && OpenPnl(ps, marks) == ps[j].Pnl(marks(j)) + OpenPnl(ps - {j}, marks);
    if j != k {
      assert |ps - {j}| < |ps| && |ps - {k}| < |ps| by { Shrinks(ps, j); Shrinks(ps, k); }
      OpenPnlSplit(ps - {j}, k, marks);
      OpenPnlSplit(ps - {k}, j, marks);
      assert ps - {j} - {k} == ps - {k} - {j};
    }
  }

  /** Replacing or removing one position changes the sum by that position alone. */
  lemma OpenPnlReplace(ps: map<Symbol, Position>, qs: map<Symbol, Position>, k: Symbol, marks: Marks)
    requires ps - {k} == qs - {k}
    ensures OpenPnl(qs, marks) - OpenPnl(ps, marks) == PnlOf(qs, k, marks) - PnlOf(ps, k, marks)
  {
    if k in ps { OpenPnlSplit(ps, k, marks); } else { assert ps - {k} == ps; }
    if k in qs { OpenPnlSplit(qs, k, marks); } else { assert qs - {k} == qs; }
  }

  // ---------- What happened, as a plain cash ledger sees it ----------

  datatype Event =
    | Trade(symbol: Symbol, quantity: real, price: real)   // quantity > 0 bought, < 0 sold
    | Fee(amount: real)
    | Funding(symbol: Symbol, amount: real)
    | Dropped(symbol: Symbol, position: Position)          // overwritten by a side flip

  function TradeValue(quantity: real, price: real, mark: real): real { quantity * (mark - price) }

  /** What an event is worth at the marks: a trade gains what its price moved since. */
  function Value(e: Event, marks: Marks): real {
    match e
    case Trade(symbol, quantity, price) => TradeValue(quantity, price, marks(symbol))
    case Fee(amount) => -amount
    case Funding(_, amount) => -amount
    case Dropped(symbol, position) => -position.Pnl(marks(symbol))
  }

  function TotalValue(es: seq<Event>, marks: Marks): real {
    if es == [] then 0.0 else Value(es[0], marks) + TotalValue(es[1..], marks)
  }

  predicate Opposes(ps: map<Symbol, Position>, req: OrderRequest) {
    req.symbol in ps && ps[req.symbol].side != req.side
  }

  /** An order that would overwrite a position held in the opposite direction. */
  predicate Flips(s: Ledger, req: OrderRequest) { !req.reduceOnly && Opposes(s.positions, req) }

  /** A reduce-only order trades what it closes, and nothing without a position. */
  function ReduceEvents(s: Ledger, symbol: Symbol, quantity: real, fill: real): seq<Event> {
    if symbol !in s.positions then [] else
    var held := s.positions[symbol];
    [Trade(symbol, -held.side.Signed(Min(quantity, held.quantity)), fill)]
  }

  /** Any other order trades its whole quantity, dropping an opposite position. */
  function OpenEvents(s: Ledger, req: OrderRequest, fill: real): seq<Event>
    requires s.Valid() && req.Valid()
  {
    if OpenOrNet(s, req, fill).None? then []
    else
      (if Opposes(s.positions, req) then [Dropped(req.symbol, s.positions[req.symbol])] else []) +
      [Trade(req.symbol, req.side.Signed(req.quantity), fill)]
  }

  /** The payments and trades of one market order filled at `fill` for `fee`. */
  function SettleEvents(s: Ledger, req: OrderRequest, fill: real, fee: real): seq<Event>
    requires s.Valid() && req.Valid()
  {
    [Fee(fee)] + if req.reduceOnly then ReduceEvents(s, req.symbol, req.quantity, fill)
                 else OpenEvents(s, req, fill)
  }

  function FillEvents(c: Costs, s: Ledger, req: OrderRequest): seq<Event>
    requires s.Valid() && req.Valid() && Priced(req)
  {
    var fill := FillPrice(c, req);
    SettleEvents(s, req, fill, OrderFee(c, fill, req.quantity))
  }

  predicate Executes(s: Ledger, req: OrderRequest) {
    req.id !in s.orders && req.orderType.MarketOrder? && Priced(req)
  }

  function Events(c: Costs, s: Ledger, op: Op): seq<Event>
    requires s.Valid() && op.Valid()
  {
    match op
    case Place(req) => if Executes(s, req) then FillEvents(c, s, req) else []
    case Fund(symbol, rate, mark) =>
      if symbol !in s.positions then [] else
      var p := s.positions[symbol];
      [Funding(symbol, FundingPayment(p.side, p.quantity, mark, rate))]
    case _ => []
  }

  function RunEvents(c: Costs, s: Ledger, ops: seq<Op>): seq<Event>
    requires s.Valid() && AllValid(ops)
    decreases |ops|
  {
    if ops == [] then [] else Events(c, s, ops[0]) + RunEvents(c, Step(c, s, ops[0]), ops[1..])
  }

  lemma {:induction false} TotalValueConcat(a: seq<Event>, b: seq<Event>, marks: Marks)
    ensures TotalValue(a + b, marks) == TotalValue(a, marks) + TotalValue(b, marks)
  {
    if a == [] {
      assert a + b == b;
    } else {
      assert (a + b)[1..] == a[1..] + b;
      TotalValueConcat(a[1..], b, marks);
    }
  }

  // ---------- Scalar identities ----------

  lemma OpeningIsATrade(side: Side, quantity: real, fill: real, mark: real)
    ensures PnlAt(side, quantity, fill, mark) == TradeValue(side.Signed(quantity), fill, mark)
  {}

  lemma AveragingLosesNothing(side: Side, entry: real, held: real, fill: real, added: real, mark: real)
    requires held + added > 0.0
    ensures PnlAt(side, held + added, WeightedEntry(entry, held, fill, added), mark)
         == PnlAt(side, held, entry, mark) + PnlAt(side, added, fill, mark)
  {
    var total := held + added;
    var average := WeightedEntry(entry, held, fill, added);
    assert average * total == entry * held + fill * added;
    assert mark * total == mark * held + mark * added;
  }

  lemma ClosingIsATrade(side: Side, held: real, closed: real, entry: real, fill: real, mark: real)
    ensures PnlAt(side, closed, entry, fill) + PnlAt(side, held - closed, entry, mark)
         == PnlAt(side, held, entry, mark) + TradeValue(-side.Signed(closed), fill, mark)
  {
    assert (mark - entry) * held == (mark - entry) * (held - closed) + (mark - entry) * closed;
    assert (entry - mark) * held == (entry - mark) * (held - closed) + (entry - mark) * closed;
    assert (fill - entry) * closed == (mark - entry) * closed - closed * (mark - fill);
  }

  lemma ClosingOutIsATrade(side: Side, held: real, entry: real, fill: real, mark: real)
    ensures PnlAt(side, held, entry, fill)
         == PnlAt(side, held, entry, mark) + TradeValue(-side.Signed(held), fill, mark)
  {
    ClosingIsATrade(side, held, held, entry, fill, mark);
  }

  // ---------- One step ----------

  lemma ReduceChangesOne(s: Ledger, symbol: Symbol, quantity: real, fill: real, marks: Marks)
    requires s.Valid() && quantity > 0.0 && symbol in s.positions
    ensures var held, t := s.positions[symbol], Reduce(s, symbol, quantity, fill);
            var closed := Min(quantity, held.quantity);
            && t.balance == s.balance + PnlAt(held.side, closed, held.entryPrice, fill)
            && OpenPnl(t.positions, marks) == OpenPnl(s.positions, marks) - held.Pnl(marks(symbol)) +
                 if closed >= held.quantity then 0.0
                 else PnlAt(held.side, held.quantity - closed, held.entryPrice, marks(symbol))
  {
    OpenPnlReplace(s.positions, Reduce(s, symbol, quantity, fill).positions, symbol, marks);
  }

  lemma Totals(es: seq<Event>, marks: Marks)
    ensures |es| == 1 ==> TotalValue(es, marks) == Value(es[0], marks)
    ensures |es| == 2 ==> TotalValue(es, marks) == Value(es[0], marks) + Value(es[1], marks)
    ensures |es| == 3 ==> TotalValue(es, marks) == Value(es[0], marks) + Value(es[1], marks) + Value(es[2], marks)
  {
    if |es| >= 2 { assert es[1..][0] == es[1]; }
    if |es| == 3 { assert es[1..][1..] == [es[2]]; }
  }

  lemma ReduceConserves(s: Ledger, symbol: Symbol, quantity: real, fill: real, marks: Marks)
    requires s.Valid() && quantity > 0.0
    ensures Equity(Reduce(s, symbol, quantity, fill), marks)
         == Equity(s, marks) + TotalValue(ReduceEvents(s, symbol, quantity, fill), marks)
  {
    if symbol in s.positions {
      var held, mark := s.positions[symbol], marks(symbol);
      var closed := Min(quantity, held.quantity);
      ReduceChangesOne(s, symbol, quantity, fill, marks);
      Totals(ReduceEvents(s, symbol, quantity, fill), marks);
      if closed >= held.quantity {
        ClosingOutIsATrade(held.side, held.quantity, held.entryPrice, fill, mark);
      } else {
        ClosingIsATrade(held.side, held.quantity, closed, held.entryPrice, fill, mark);
      }
    }
  }

  lemma OpenConserves(s: Ledger, req: OrderRequest, fill: real, marks: Marks)
    requires s.Valid() && req.Valid() && OpenOrNet(s, req, fill).Some?
    ensures Equity(OpenOrNet(s, req, fill).value, marks)
         == Equity(s, marks) + TotalValue(OpenEvents(s, req, fill), marks)
  {
    var mark := marks(req.symbol);
    OpenPnlReplace(s.positions, OpenOrNet(s, req, fill).value.positions, req.symbol, marks);
    Totals(OpenEvents(s, req, fill), marks);
    OpeningIsATrade(req.side, req.quantity, fill, mark);
    if req.symbol in s.positions && s.positions[req.symbol].side == req.side {
      var held := s.positions[req.symbol];
      AveragingLosesNothing(held.side, held.entryPrice, held.quantity, fill, req.quantity, mark);
    }
  }

  /** Charging the fee first changes nothing but the balance. */
  lemma ChargeConserves(s: Ledger, fee: real, marks: Marks)
    ensures Equity(s.(balance := s.balance - fee), marks) == Equity(s, marks) - fee
  {}

  lemma FeeFirst(fee: real, es: seq<Event>, marks: Marks)
    ensures TotalValue([Fee(fee)] + es, marks) == TotalValue(es, marks) - fee
  {
    assert ([Fee(fee)] + es)[1..] == es;
  }

  lemma SettleReduceConserves(s: Ledger, req: OrderRequest, fill: real, fee: real, slippage: real, marks: Marks)
    requires s.Valid() && req.Valid() && req.reduceOnly
    ensures Equity(Settle(s, req, fill, fee, slippage).ledger, marks)
         == Equity(s, marks) + TotalValue(SettleEvents(s, req, fill, fee), marks)
  {
    var charged := s.(balance := s.balance - fee);
    ChargeConserves(s, fee, marks);
    ReduceConserves(charged, req.symbol, req.quantity, fill, marks);
    FeeFirst(fee, ReduceEvents(charged, req.symbol, req.quantity, fill), marks);
  }

  lemma SameVerdict(s: Ledger, t: Ledger, req: OrderRequest, fill: real)
    requires s.Valid() && req.Valid() && t == s.(balance := t.balance)
    ensures OpenOrNet(t, req, fill).Some? <==> OpenOrNet(s, req, fill).Some?
    ensures OpenEvents(t, req, fill) == OpenEvents(s, req, fill)
  {}

  lemma SettleOpenConserves(s: Ledger, req: OrderRequest, fill: real, fee: real, slippage: real, marks: Marks)
    requires s.Valid() && req.Valid() && !req.reduceOnly
    ensures Equity(Settle(s, req, fill, fee, slippage).ledger, marks)
         == Equity(s, marks) + TotalValue(SettleEvents(s, req, fill, fee), marks)
  {
    var charged := s.(balance := s.balance - fee);
    ChargeConserves(s, fee, marks);
    SameVerdict(s, charged, req, fill);
    FeeFirst(fee, OpenEvents(charged, req, fill), marks);
    if OpenOrNet(charged, req, fill).Some? { OpenConserves(charged, req, fill, marks); }
  }

  lemma SettleConserves(s: Ledger, req: OrderRequest, fill: real, fee: real, slippage: real, marks: Marks)
    requires s.Valid() && req.Valid()
    ensures Equity(Settle(s, req, fill, fee, slippage).ledger, marks)
         == Equity(s, marks) + TotalValue(SettleEvents(s, req, fill, fee), marks)
  {
    if req.reduceOnly {
      SettleReduceConserves(s, req, fill, fee, slippage, marks);
    } else {
      SettleOpenConserves(s, req, fill, fee, slippage, marks);
    }
  }

  lemma FillConserves(c: Costs, s: Ledger, req: OrderRequest, marks: Marks)
    requires s.Valid() && req.Valid() && Priced(req)
    ensures Equity(FillMarket(c, s, req).ledger, marks)
         == Equity(s, marks) + TotalValue(FillEvents(c, s, req), marks)
  {
    var fill := FillPrice(c, req);
    SettleConserves(s, req, fill, OrderFee(c, fill, req.quantity),
                    Quantize(Product(Abs(fill - req.price.value), req.quantity)), marks);
  }

  lemma StepConserves(c: Costs, s: Ledger, op: Op, marks: Marks)
    requires s.Valid() && op.Valid()
    ensures Equity(Step(c, s, op), marks) == Equity(s, marks) + TotalValue(Events(c, s, op), marks)
  {
    match op
    case Place(req) => if Executes(s, req) { FillConserves(c, s, req, marks); }
    case _ =>
  }

  // ---------- Whole runs ----------

  /**
   The ledger refines a plain cash ledger: for every run of orders, cancels, funding payments
   and leverage changes and for all mark prices, equity is the initial equity plus the value
   of everything that was bought, sold and paid, minus the profit of positions overwritten by
   side flips. No premise on the run.
   */
  lemma {:induction false} RunConserves(c: Costs, s: Ledger, ops: seq<Op>, marks: Marks)
    requires s.Valid() && AllValid(ops)
    ensures Equity(Run(c, s, ops), marks) == Equity(s, marks) + TotalValue(RunEvents(c, s, ops), marks)
    decreases |ops|
  {
    if ops != [] {
      var t := Step(c, s, ops[0]);
      StepConserves(c, s, ops[0], marks);
      RunConserves(c, t, ops[1..], marks);
      TotalValueConcat(Events(c, s, ops[0]), RunEvents(c, t, ops[1..]), marks);
    }
  }

  predicate NoFlips(c: Costs, s: Ledger, ops: seq<Op>)
    requires s.Valid() && AllValid(ops)
    decreases |ops|
  {
    ops != [] ==> !(ops[0].Place? && Flips(s, ops[0].req)) && NoFlips(c, Step(c, s, ops[0]), ops[1..])
  }

  /** Without flips nothing is dropped: only trades, fees and funding account for the equity. */
  lemma {:induction false} NoFlipsDropsNothing(c: Costs, s: Ledger, ops: seq<Op>)
    requires s.Valid() && AllValid(ops) && NoFlips(c, s, ops)
    ensures forall e :: e in RunEvents(c, s, ops) ==> !e.Dropped?
    decreases |ops|
  {
    if ops != [] { NoFlipsDropsNothing(c, Step(c, s, ops[0]), ops[1..]); }
  }

  /** What the cash ledger alone would say: the events without the drop. */
  function CashEvents(s: Ledger, req: OrderRequest, fill: real, fee: real): seq<Event>
    requires s.Valid() && req.Valid()
  {
    var es := SettleEvents(s, req, fill, fee);
    if |es| == 3 then [es[0], es[2]] else es
  }

  ghost predicate AgreesWithCash(s: Ledger, req: OrderRequest, fill: real, fee: real, slippage: real, marks: Marks)
    requires s.Valid() && req.Valid()
  {
    Equity(Settle(s, req, fill, fee, slippage).ledger, marks)
    == Equity(s, marks) + TotalValue(CashEvents(s, req, fill, fee), marks)
  }

  lemma FlipLosesProfit(s: Ledger, req: OrderRequest, fill: real, fee: real, slippage: real, marks: Marks)
    requires s.Valid() && req.Valid() && fill > 0.0 && Flips(s, req)
    ensures AgreesWithCash(s, req, fill, fee, slippage, marks)
            <==> s.positions[req.symbol].Pnl(marks(req.symbol)) == 0.0
  {
    MarginPositive(fill, req.quantity, s.LeverageOf(req.symbol, 1));
    SettleConserves(s, req, fill, fee, slippage, marks);
    Totals(SettleEvents(s, req, fill, fee), marks);
    Totals(CashEvents(s, req, fill, fee), marks);
  }

  lemma UnitMove(side: Side, quantity: real, entry: real)
    ensures PnlAt(side, quantity, entry, entry + 1.0) == side.Signed(quantity)
  {}

  /**
   Exactly when a filled order agrees with the cash ledger at all mark prices: unless it flips
   the side of a held position. The flip forgets that position without realizing its profit.
   */
  lemma {:induction false} OrderConservesUnlessFlip(
    s: Ledger, req: OrderRequest, fill: real, fee: real, slippage: real
  )
    requires s.Valid() && req.Valid() && fill > 0.0
    ensures (forall marks: Marks :: AgreesWithCash(s, req, fill, fee, slippage, marks)) <==> !Flips(s, req)
  {
    if Flips(s, req) {
      var held := s.positions[req.symbol];
      var marks: Marks := (_: Symbol) => held.entryPrice + 1.0;
      UnitMove(held.side, held.quantity, held.entryPrice);
      FlipLosesProfit(s, req, fill, fee, slippage, marks);
      assert !AgreesWithCash(s, req, fill, fee, slippage, marks);
    } else {
      forall marks: Marks ensures AgreesWithCash(s, req, fill, fee, slippage, marks) {
        SettleConserves(s, req, fill, fee, slippage, marks);
      }
    }
  }

  // ---------- Funding accumulator ----------

  function FundingTotal(es: seq<Event>, symbol: Symbol): real {
    if es == [] then 0.0
    else (if es[0].Funding? && es[0].symbol == symbol then es[0].amount else 0.0) + FundingTotal(es[1..], symbol)
  }

  lemma {:induction false} FundingTotalConcat(a: seq<Event>, b: seq<Event>, symbol: Symbol)
    ensures FundingTotal(a + b, symbol) == FundingTotal(a, symbol) + FundingTotal(b, symbol)
  {
    if a == [] {
      assert a + b == b;
    } else {
      assert (a + b)[1..] == a[1..] + b;
      FundingTotalConcat(a[1..], b, symbol);
    }
  }

  lemma {:induction false} NoFunding(es: seq<Event>, symbol: Symbol)
    requires forall e :: e in es ==> !e.Funding?
    ensures FundingTotal(es, symbol) == 0.0
  {
    if es != [] { NoFunding(es[1..], symbol); }
  }

  lemma StepFunding(c: Costs, s: Ledger, op: Op, symbol: Symbol)
    requires s.Valid() && op.Valid()
    ensures Step(c, s, op).FundingOf(symbol) == s.FundingOf(symbol) + FundingTotal(Events(c, s, op), symbol)
  {
    if op.Place? { OrderKeepsRest(c, s, op.req); }
    if !op.Fund? { NoFunding(Events(c, s, op), symbol); }
  }

  /** `get_funding_paid` is the sum of the payments charged on that symbol during the run. */
  lemma {:induction false} FundingAccumulates(c: Costs, s: Ledger, ops: seq<Op>, symbol: Symbol)
    requires s.Valid() && AllValid(ops)
    ensures Run(c, s, ops).FundingOf(symbol)
         == s.FundingOf(symbol) + FundingTotal(RunEvents(c, s, ops), symbol)
    decreases |ops|
  {
    if ops != [] {
      var t := Step(c, s, ops[0]);
      StepFunding(c, s, ops[0], symbol);
      FundingAccumulates(c, t, ops[1..], symbol);
      FundingTotalConcat(Events(c, s, ops[0]), RunEvents(c, t, ops[1..]), symbol);
    }
  }
}
