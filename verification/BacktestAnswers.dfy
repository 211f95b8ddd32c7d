/**
 What every candle of a backtest does, stated in prices, rates and indices alone: which exit is
 taken and at which price, what it costs, what a fill opens, what funding is charged, and which
 signals are heard. Every trade of every run is then one of these answers
 (backend/backtesting/engine.py).
 */
module BacktestAnswers {
  import opened Decimals
  import opened CostModels
  import opened ExitRules
  import opened BacktestModel
  import opened BacktestRun
  import opened BacktestLookahead
  import opened BacktestSchedule

  // ---------- Prices and charges ----------

  function Impact(price: real, bps: real): real { price * bps / 10000.0 }

  /** A market order pays the configured basis points, a limit order none. */
  function MarketFill(cfg: Setup, side: Side, price: real): real {
    Quantize(if side.Buy? then price + Impact(price, cfg.slip.bps) else price - Impact(price, cfg.slip.bps))
  }

  function LimitFill(price: real): real { Quantize(price) }

  lemma FillsAre(cfg: Setup, side: Side, price: real)
    ensures cfg.slip.Apply(price, side, Market) == MarketFill(cfg, side, price)
    ensures cfg.slip.Apply(price, side, Limit) == LimitFill(price)
  {
    hide Quantize, AdversePrice;
    AdverseIsImpact(price, side, cfg.slip.bps, Impact(price, cfg.slip.bps));
  }

  predicate StopReached(side: Side, c: Candle, stop: real) { if side.Buy? then c.low <= stop else stop <= c.high }

  predicate TargetReached(side: Side, c: Candle, target: real) {
    if side.Buy? then target <= c.high else c.low <= target
  }

  /** Rounded amounts of a fill: its fee at a rate, its distance from the price it stands for, its profit. */
  function FeeAt(fill: real, quantity: real, rate: real): real {
    Quantize(Product(Quantize(Product(fill, quantity)), rate))
  }

  function SlippageAt(fill: real, price: real, quantity: real): real { Quantize(Product(Abs(fill - price), quantity)) }

  function Profit(side: Side, entry: real, fill: real, quantity: real): real {
    Quantize(Product(if side.Buy? then fill - entry else entry - fill, quantity))
  }

  /** `x` closes `quantity` of `p` in candle `i`, filled at `fill` for the price `price`. */
  predicate Realizes(p: OpenPosition, x: Trade, quantity: real, price: real, fill: real, rate: real, i: nat) {
    && x.side == p.side && x.entryIndex == p.entryIndex && x.entryPrice == p.entryPrice && x.leverage == p.leverage
    && x.exitIndex == i && x.exitPrice == fill
    && x.exitFee == FeeAt(fill, quantity, rate) && x.exitSlippage == SlippageAt(fill, price, quantity)
    && x.gross == Profit(p.side, p.entryPrice, fill, quantity)
  }

  lemma ProfitIs(side: Side, entry: real, fill: real, quantity: real)
    ensures Quantize(PnlAt(side, quantity, entry, fill)) == Profit(side, entry, fill, quantity)
  {
    hide Quantize;
    QuantizeEqual(PnlAt(side, quantity, entry, fill),
                  Product(if side.Buy? then fill - entry else entry - fill, quantity));
  }

  lemma FeeIs(fees: FeeModel, fill: real, quantity: real)
    ensures fees.Calculate(Quantize(Product(fill, quantity)), Market) == FeeAt(fill, quantity, fees.taker)
    ensures fees.Calculate(Quantize(Product(fill, quantity)), Limit) == FeeAt(fill, quantity, fees.maker)
  {}

  lemma TradeRealizes(
    cfg: Setup, p: OpenPosition, quantity: real, price: real, i: nat, reason: Reason, kind: Kind,
    margin: real, notional: real, entryFee: real, entrySlip: real, funding: real
  )
    requires kind.Market? || kind.Limit?
    ensures var x := CloseTrade(cfg, p, quantity, price, i, reason, kind,
                                margin, notional, entryFee, entrySlip, funding);
            && x.reason == reason && x.margin == margin && x.notional == notional
            && x.entryFee == entryFee && x.entrySlippage == entrySlip && x.funding == Quantize(funding)
            && if kind.Market?
               then Realizes(p, x, quantity, price, MarketFill(cfg, p.side.Opposite(), price), cfg.fees.taker, i)
               else Realizes(p, x, quantity, price, LimitFill(price), cfg.fees.maker, i)
  {
    hide Quantize, Product, PnlAt, Profit, FeeAt, MarketFill, LimitFill, SlippageModel.Apply, FeeModel.Calculate, Net;
    var fill := cfg.slip.Apply(price, p.side.Opposite(), kind);
    FillsAre(cfg, p.side.Opposite(), price);
    FeeIs(cfg.fees, fill, quantity);
    ProfitIs(p.side, p.entryPrice, fill, quantity);
  }

  // ---------- Exits ----------

  /** One trade more, for this reason. */
  predicate OneMore(before: seq<Trade>, after: seq<Trade>, reason: Reason) {
    after != [] && after[..|after| - 1] == before && after[|after| - 1].reason == reason
  }

  function Newest(after: seq<Trade>): Trade
    requires after != []
  {
    after[|after| - 1]
  }

  /** It takes over all that the position still carries. */
  predicate Settles(p: OpenPosition, x: Trade) {
    && x.margin == p.margin && x.notional == p.notional && x.entryFee == p.entryFee
    && x.entrySlippage == p.entrySlippage && x.funding == Quantize(p.funding)
  }

  /** The whole position was closed at market, or by a limit order, for this price. */
  predicate ClosedAtMarket(
    cfg: Setup, before: seq<Trade>, after: seq<Trade>, p: OpenPosition, i: nat, reason: Reason, price: real
  ) {
    && OneMore(before, after, reason) && Settles(p, Newest(after))
    && Realizes(p, Newest(after), p.quantity, price, MarketFill(cfg, p.side.Opposite(), price), cfg.fees.taker, i)
  }

  predicate ClosedAtLimit(
    cfg: Setup, before: seq<Trade>, after: seq<Trade>, p: OpenPosition, i: nat, reason: Reason, price: real
  ) {
    && OneMore(before, after, reason) && Settles(p, Newest(after))
    && Realizes(p, Newest(after), p.quantity, price, LimitFill(price), cfg.fees.maker, i)
  }

  /** Funding of one candle: on the quantity held at its close, paid by longs on a positive rate. */
  function Charge(side: Side, quantity: real, c: Candle): real {
    var payment := Quantize(Product(Product(quantity, c.close), c.fundingRate));
    if side.Buy? then payment else -payment
  }

  /** The position is held over the candle's close, and pays its funding. */
  function HeldOver(p: OpenPosition, c: Candle): OpenPosition {
    p.(funding := p.funding + Charge(p.side, p.quantity, c))
  }

  lemma NoRateNoCharge(side: Side, quantity: real, c: Candle)
    requires c.fundingRate == 0.0
    ensures Charge(side, quantity, c) == 0.0
  {
    assert Product(Product(quantity, c.close), 0.0) == 0.0;
    assert OnGrid(0.0) by { GridPoint(0); }
  }

  lemma AccrueHolds(s: State, c: Candle)
    ensures Accrue(s, c) == s.(open := Accrue(s, c).open, lives := Accrue(s, c).lives)
    ensures s.open.None? ==> Accrue(s, c).open.None?
    ensures s.open.Some? ==> Accrue(s, c).open == Some(HeldOver(s.open.value, c))
  {
    hide Quantize;
    if s.open.Some? && c.fundingRate == 0.0 { NoRateNoCharge(s.open.value.side, s.open.value.quantity, c); }
  }

  /** What is left after an intermediate level: as much less, the same exits with one level fewer. */
  predicate LevelTaken(p: OpenPosition, rest: OpenPosition, quantity: real) {
    && p.levels != []
    && rest == p.(quantity := Quantize(p.quantity - quantity), levels := p.levels[1..],
                  margin := rest.margin, notional := rest.notional, entryFee := rest.entryFee,
                  entrySlippage := rest.entrySlippage, funding := rest.funding)
  }

  predicate CloseDue(s: State, i: nat) { s.closeAt.Some? && s.closeAt.value <= i }

  lemma RecordKeeps(s: State, x: Trade, quantity: real, reason: Reason)
    requires x.reason == reason
    ensures var t := Record(s, x, quantity);
            OneMore(s.trades, t.trades, reason) && Newest(t.trades) == x
            && t.open == s.open && t.entry == s.entry && t.closeAt == s.closeAt && t.history == s.history
  {}

  /** A whole close for a price, before any funding. */
  lemma CloseAllAnswers(cfg: Setup, s: State, price: real, i: nat, reason: Reason, kind: Kind)
    requires s.open.Some? && (kind.Market? || kind.Limit?)
    ensures var t := CloseAll(cfg, s, price, i, reason, kind);
            && t.entry == s.entry && t.closeAt == s.closeAt && t.history == s.history
            && t.open.None?
            && if kind.Market? then ClosedAtMarket(cfg, s.trades, t.trades, s.open.value, i, reason, price)
               else ClosedAtLimit(cfg, s.trades, t.trades, s.open.value, i, reason, price)
  {
    hide CloseTrade, Realizes, Record, Quantize;
    var p := s.open.value;
    TradeRealizes(cfg, p, p.quantity, price, i, reason, kind,
                  p.margin, p.notional, p.entryFee, p.entrySlippage, p.funding);
    RecordKeeps(s, CloseWhole(cfg, p, price, i, reason, kind), p.quantity, reason);
  }

  /** What the remaining position owes in funding after a level and the candle's own charge. */
  function FundingAfter(p: OpenPosition, f: real, rest: real, c: Candle): real {
    Quantize(Product(p.funding, 1.0 - f)) + Charge(p.side, rest, c)
  }

  lemma LevelAnswers(cfg: Setup, s: State, p: OpenPosition, i: nat)
    requires s.open == Some(p) && p.levels != []
    ensures var level, q := p.levels[0], Quantize(Product(p.quantity, p.levels[0].fraction));
            var t := Record(s, LevelTrade(cfg, p, level, i), LevelQuantity(p, level.fraction))
                     .(open := Some(AfterLevel(p, level)));
            && OneMore(s.trades, t.trades, PartialTp) && LevelTaken(p, t.open.value, q)
            && t.closeAt == s.closeAt && t.entry == s.entry
            && t.open.value.funding == Quantize(Product(p.funding, 1.0 - level.fraction)) && t.history == s.history
            && Realizes(p, Newest(t.trades), q, level.price, LimitFill(level.price), cfg.fees.maker, i)
  {
    hide CloseTrade, Realizes, Quantize;
    var f := p.levels[0].fraction;
    TradeRealizes(cfg, p, LevelQuantity(p, f), p.levels[0].price, i, PartialTp, Limit, Share(p.margin, f),
                  Share(p.notional, f), Share(p.entryFee, f), Share(p.entrySlippage, f), Share(p.funding, f));
  }

  /** The answer of a candle to an open position, in order of priority: the trades afterwards, and what
      stays open at the candle's close. `due` says that a requested close is. */
  predicate Answered(
    cfg: Setup, p: OpenPosition, due: bool, i: nat, c: Candle,
    before: seq<Trade>, after: seq<Trade>, open: Option<OpenPosition>
  ) {
    if due then ClosedAtMarket(cfg, before, after, p, i, CloseSignal, c.open) && open.None?
    else if StopReached(p.side, c, p.stopLoss) then
      ClosedAtMarket(cfg, before, after, p, i, StopLoss, p.stopLoss) && open.None?
    else if p.levels != [] && TargetReached(p.side, c, p.levels[0].price) then
      var q := Quantize(Product(p.quantity, p.levels[0].fraction));
      if |p.levels| == 1 then ClosedAtLimit(cfg, before, after, p, i, TakeProfit, p.levels[0].price) && open.None?
      else if q <= 0.0 then after == before && open == Some(HeldOver(p.(levels := p.levels[1..]), c))
      else
        && OneMore(before, after, PartialTp)
        && Realizes(p, Newest(after), q, p.levels[0].price, LimitFill(p.levels[0].price), cfg.fees.maker, i)
        && open.Some? && LevelTaken(p, open.value, q)
        && open.value.funding == FundingAfter(p, p.levels[0].fraction, open.value.quantity, c)
    else if p.takeProfit.Some? && TargetReached(p.side, c, p.takeProfit.value) then
      ClosedAtLimit(cfg, before, after, p, i, TakeProfit, p.takeProfit.value) && open.None?
    else after == before && open == Some(HeldOver(p, c))
  }

  lemma ManageAnswers(cfg: Setup, s: State, i: nat, c: Candle)
    ensures var t := Manage(cfg, s, i, c);
            && t.entry == s.entry && t.history == s.history
            && t.closeAt == (if s.open.Some? && CloseDue(s, i) then None else s.closeAt)
            && (s.open.Some? && CloseDue(s, i) ==> t.open.None?)
            && if s.open.Some? then Answered(cfg, s.open.value, CloseDue(s, i), i, c, s.trades, t.trades, t.open)
               else t.open.None? && t.trades == s.trades
  {
    hide CloseAll, LevelTrade, AfterLevel, Realizes, Quantize, Product, MarketFill, LimitFill, Charge, Accrue, Record;
    var closed := FillClose(cfg, s, i, c);
    var left := CheckExits(cfg, closed, i, c);
    AccrueHolds(left, c);
    if s.open.Some? {
      var p := s.open.value;
      if CloseDue(s, i) { CloseAllAnswers(cfg, s, c.open, i, CloseSignal, Market); }
      else if StopReached(p.side, c, p.stopLoss) { CloseAllAnswers(cfg, s, p.stopLoss, i, StopLoss, Market); }
      else if p.levels != [] && TargetReached(p.side, c, p.levels[0].price) {
        CloseAllAnswers(cfg, s, p.levels[0].price, i, TakeProfit, Limit);
        LevelAnswers(cfg, s, p, i);
      } else if p.takeProfit.Some? {
        CloseAllAnswers(cfg, s, p.takeProfit.value, i, TakeProfit, Limit);
      }
    }
  }

  // ---------- Fills ----------

  predicate EntryDue(s: State, i: nat) { s.entry.Some? && s.open.None? && s.entry.value.fill <= i }

  predicate ByLevels(cfg: Setup, g: Signal) { cfg.partialClose && g.levels != [] }

  /** Rounded thrice: the notional, the quantity it buys, and the part that finds liquidity. */
  function SizeAt(g: Signal, fill: real, ratio: real): real
    requires fill != 0.0
  {
    Quantize(Product(Quantize(Quotient(Quantize(Product(g.margin, g.leverage as real)), fill)), ratio))
  }

  /** `p` is what the signal asked for, filled at market at the candle's open. */
  predicate OpenedFor(cfg: Setup, g: Signal, c: Candle, i: nat, p: OpenPosition) {
    && p.side == (if g.action.GoLong? then Buy else Sell) && p.entryIndex == i && p.leverage == g.leverage
    && p.entryPrice == MarketFill(cfg, p.side, c.open) && p.entryPrice != 0.0
    && p.quantity == SizeAt(g, p.entryPrice, cfg.fillRatio) > 0.0
    && g.stopLoss == Some(p.stopLoss)
    && (if ByLevels(cfg, g) then p.takeProfit.None? && p.levels == g.levels
        else p.levels == [] && p.takeProfit == g.takeProfit && p.takeProfit.Some?)
    && p.entryFee == Quantize(Product(p.notional, cfg.fees.taker))
    && p.entrySlippage == SlippageAt(p.entryPrice, c.open, p.quantity) && p.funding == 0.0
  }

  /** A signal without a stop, or without a target of the kind the engine is set to, or without a price. */
  predicate CannotOpen(cfg: Setup, g: Signal, c: Candle) {
    || g.stopLoss.None? || (!ByLevels(cfg, g) && g.takeProfit.None?)
    || MarketFill(cfg, if g.action.GoLong? then Buy else Sell, c.open) == 0.0
  }

  /** The answer of a candle to a pending entry: an error, no liquidity, or the position asked for. */
  lemma FillAnswers(cfg: Setup, s: State, i: nat, c: Candle)
    ensures var f := FillEntry(cfg, s, i, c);
            && (f.None? <==> EntryDue(s, i) && CannotOpen(cfg, s.entry.value.signal, c))
            && (f.Some? ==>
                  && f.value.trades == s.trades && f.value.closeAt == s.closeAt && f.value.history == s.history
                  && if !EntryDue(s, i) then f.value == s
                     else
                       var g := s.entry.value.signal;
                       var fill := MarketFill(cfg, if g.action.GoLong? then Buy else Sell, c.open);
                       && f.value.entry.None?
                       && (f.value.open.Some? <==> SizeAt(g, fill, cfg.fillRatio) > 0.0)
                       && (f.value.open.Some? ==> OpenedFor(cfg, g, c, i, f.value.open.value)))
  {
    hide Quantize, Product, Quotient, MarketFill, SlippageModel.Apply;
    if s.entry.Some? { FillsAre(cfg, s.entry.value.signal.Side(), c.open); }
  }

  // ---------- Signals ----------

  /** What is pending after a candle, given what was and whether a position is open at its close. */
  lemma SignalsAreHeard(cfg: Setup, q: Provider, s: State, i: nat, c: Candle)
    requires Step(cfg, q, s, i, c).Some?
    ensures var t, g := Step(cfg, q, s, i, c).value, q(i, s.history);
            var wasOpen := FillEntry(cfg, s, i, c).value.open.Some?;
            && t.history == s.history + [c]
            && t.entry == (if s.entry.Some? && !EntryDue(s, i) then s.entry
                           else if (g.action.GoLong? || g.action.GoShort?) && t.open.None?
                           then Some(Pending(g, i + 1 + cfg.extraCandles)) else None)
            && t.closeAt == (if CloseDue(s, i) && wasOpen then None
                             else if s.closeAt.Some? then s.closeAt
                             else if g.action.CloseNow? && t.open.Some? then Some(i + 1 + cfg.extraCandles)
                             else None)
  {
    FillAnswers(cfg, s, i, c);
    hide FillEntry, Manage, Answered, OpenedFor;
    ManageAnswers(cfg, FillEntry(cfg, s, i, c).value, i, c);
  }

  // ---------- Runs ----------

  /** Whether the position held in candle `i` is the one already open or the one its entry asked for. */
  predicate Holds(cfg: Setup, s: State, i: nat, c: Candle, held: Option<OpenPosition>) {
    if !EntryDue(s, i) then held == s.open
    else
      var g := s.entry.value.signal;
      var fill := MarketFill(cfg, if g.action.GoLong? then Buy else Sell, c.open);
      && fill != 0.0
      && (held.Some? <==> SizeAt(g, fill, cfg.fillRatio) > 0.0)
      && (held.Some? ==> OpenedFor(cfg, g, c, i, held.value))
  }

  predicate ExitsAnswered(
    cfg: Setup, held: Option<OpenPosition>, due: bool, i: nat, c: Candle,
    before: seq<Trade>, after: seq<Trade>, open: Option<OpenPosition>
  ) {
    if held.Some? then Answered(cfg, held.value, due, i, c, before, after, open) else open.None? && after == before
  }

  /** What is pending after a candle, given the signal heard in it. */
  predicate Heard(cfg: Setup, s: State, t: State, held: bool, i: nat, g: Signal) {
    && t.entry == (if s.entry.Some? && !EntryDue(s, i) then s.entry
                   else if (g.action.GoLong? || g.action.GoShort?) && t.open.None?
                   then Some(Pending(g, i + 1 + cfg.extraCandles)) else None)
    && t.closeAt == (if CloseDue(s, i) && held then None
                     else if s.closeAt.Some? then s.closeAt
                     else if g.action.CloseNow? && t.open.Some? then Some(i + 1 + cfg.extraCandles)
                     else None)
  }

  lemma StepAnswers(cfg: Setup, q: Provider, s: State, i: nat, c: Candle)
    ensures Step(cfg, q, s, i, c).None? <==> EntryDue(s, i) && CannotOpen(cfg, s.entry.value.signal, c)
    ensures Step(cfg, q, s, i, c).Some? ==>
              var t := Step(cfg, q, s, i, c).value;
              && t.history == s.history + [c]
              && exists held: Option<OpenPosition> ::
                   && Holds(cfg, s, i, c, held)
                   && ExitsAnswered(cfg, held, CloseDue(s, i), i, c, s.trades, t.trades, t.open)
                   && Heard(cfg, s, t, held.Some?, i, q(i, s.history))
  {
    FillAnswers(cfg, s, i, c);
    hide FillEntry, Manage, OpenedFor, Answered;
    var f := FillEntry(cfg, s, i, c);
    if f.Some? {
      ManageAnswers(cfg, f.value, i, c);
      assert Holds(cfg, s, i, c, f.value.open);
    }
  }

  /** Every candle of every run answers its pending entry, its open position and its signal, and a run
      ends early exactly at a due entry that cannot open. */
  lemma {:induction false} EveryCandleAnswered(r: Backtest, k: nat)
    requires k < |r.candles| && After(r.cfg, r.p, r.candles, k).Some?
    ensures var s, next, c := After(r.cfg, r.p, r.candles, k).value, After(r.cfg, r.p, r.candles, k + 1), r.candles[k];
            && (next.None? <==> EntryDue(s, k) && CannotOpen(r.cfg, s.entry.value.signal, c))
            && (next.Some? ==>
                  exists held: Option<OpenPosition> ::
                    && Holds(r.cfg, s, k, c, held)
                    && ExitsAnswered(r.cfg, held, CloseDue(s, k), k, c, s.trades, next.value.trades, next.value.open)
                    && Heard(r.cfg, s, next.value, held.Some?, k, SignalAt(r.p, r.candles, k)))
  {
    hide Step, Holds, ExitsAnswered, Heard;
    var s := After(r.cfg, r.p, r.candles, k).value;
    HistoryIsPast(r.cfg, r.p, r.candles, k);
    EngineSteps(r.cfg, r.p, r.candles, k, s);
    StepAnswers(r.cfg, r.p, s, k, r.candles[k]);
  }

  // ---------- The price of every trade ----------

  /** The signal an entry answers. */
  function SignalOf(r: Backtest, entry: nat): Signal
    requires 1 + r.cfg.extraCandles <= entry <= |r.candles|
  {
    SignalAt(r.p, r.candles, entry - 1 - r.cfg.extraCandles)
  }

  /** An entry of this side and leverage, filled at market at the open of its candle. */
  ghost predicate EntryPriced(r: Backtest, entry: nat, side: Side, price: real, leverage: int) {
    && 1 + r.cfg.extraCandles <= entry < |r.candles|
    && var g := SignalOf(r, entry);
       && (g.action.GoLong? || g.action.GoShort?) && side == (if g.action.GoLong? then Buy else Sell)
       && leverage == g.leverage && price == MarketFill(r.cfg, side, r.candles[entry].open)
  }

  /** The open position has the signal's exits, less the levels already taken. */
  ghost predicate AsSignalled(r: Backtest, p: OpenPosition) {
    && EntryPriced(r, p.entryIndex, p.side, p.entryPrice, p.leverage)
    && var g := SignalOf(r, p.entryIndex);
       && g.stopLoss == Some(p.stopLoss)
       && if ByLevels(r.cfg, g)
          then p.takeProfit.None? && |p.levels| <= |g.levels| && p.levels == g.levels[|g.levels| - |p.levels|..]
          else p.levels == [] && p.takeProfit == g.takeProfit
  }

  /** The price a target stands for: the last level's if the signal has levels, else its single target. */
  function FinalTarget(cfg: Setup, g: Signal): Option<real> {
    if ByLevels(cfg, g) then Some(g.levels[|g.levels| - 1].price) else g.takeProfit
  }

  predicate LevelHit(x: Trade, c: Candle, price: real) {
    TargetReached(x.side, c, price) && x.exitPrice == LimitFill(price)
  }

  /**
   A trade is filled at the price its reason stands for, and its candle reached that price: the
   signal's stop at market; else, with the stop not reached, the final target or a level of the
   signal by a limit order; a requested close at market at the candle's open; the rest at the
   last close.
   */
  ghost predicate Priced(r: Backtest, x: Trade) {
    && EntryPriced(r, x.entryIndex, x.side, x.entryPrice, x.leverage)
    && x.entryIndex <= x.exitIndex < |r.candles|
    && var g, c := SignalOf(r, x.entryIndex), r.candles[x.exitIndex];
       && g.stopLoss.Some?
       && match x.reason
          case StopLoss =>
            StopReached(x.side, c, g.stopLoss.value)
            && x.exitPrice == MarketFill(r.cfg, x.side.Opposite(), g.stopLoss.value)
          case TakeProfit =>
            && !StopReached(x.side, c, g.stopLoss.value) && FinalTarget(r.cfg, g).Some?
            && TargetReached(x.side, c, FinalTarget(r.cfg, g).value)
            && x.exitPrice == LimitFill(FinalTarget(r.cfg, g).value)
          case PartialTp =>
            && !StopReached(x.side, c, g.stopLoss.value) && ByLevels(r.cfg, g)
            && exists n :: 0 <= n < |g.levels| - 1 && LevelHit(x, c, g.levels[n].price)
          case CloseSignal => x.exitPrice == MarketFill(r.cfg, x.side.Opposite(), c.open)
          case EndOfData => x.exitIndex == |r.candles| - 1 && x.exitPrice == LimitFill(c.close)
  }

  /** The pending entry is the signal heard `1 + extraCandles` before its fill. */
  ghost predicate EntryKnown(r: Backtest, s: State) {
    s.entry.Some? ==>
      var n := s.entry.value.fill;
      && 1 + r.cfg.extraCandles <= n && n - 1 - r.cfg.extraCandles < |r.candles|
      && s.entry.value.signal == SignalAt(r.p, r.candles, n - 1 - r.cfg.extraCandles)
      && (s.entry.value.signal.action.GoLong? || s.entry.value.signal.action.GoShort?)
  }

  ghost predicate AllPriced(r: Backtest, s: State, k: nat) {
    && (s.open.Some? ==> AsSignalled(r, s.open.value) && s.open.value.entryIndex < k)
    && (forall n :: 0 <= n < |s.trades| ==> Priced(r, s.trades[n]))
    && EntryKnown(r, s) && (s.entry.Some? ==> k <= s.entry.value.fill && s.open.None?)
  }

  lemma AnswerPriced(
    r: Backtest, p: OpenPosition, due: bool, k: nat, before: seq<Trade>, after: seq<Trade>, open: Option<OpenPosition>
  )
    requires k < |r.candles| && AsSignalled(r, p) && p.entryIndex <= k
    requires Answered(r.cfg, p, due, k, r.candles[k], before, after, open)
    ensures before <= after <= before + after[|before|..] && |after| <= |before| + 1
    ensures |after| > |before| ==> Priced(r, after[|before|])
    ensures open.Some? ==> AsSignalled(r, open.value) && open.value.entryIndex == p.entryIndex
  {
    hide Quantize, Product, MarketFill, LimitFill, Profit, FeeAt, SlippageAt, Charge;
    var g := SignalOf(r, p.entryIndex);
    if p.levels != [] {
      assert p.levels[0] == g.levels[|g.levels| - |p.levels|];
      assert p.levels[1..] == g.levels[|g.levels| - |p.levels| + 1..];
      if |after| > |before| { assert after[|before|] == Newest(after); }
      if |after| > |before| && after[|before|].reason.PartialTp? {
        assert LevelHit(after[|before|], r.candles[k], g.levels[|g.levels| - |p.levels|].price);
      }
    }
  }

  lemma OpenedAsSignalled(r: Backtest, s: State, k: nat, p: OpenPosition)
    requires k < |r.candles| && AllPriced(r, s, k) && EntryDue(s, k)
    requires OpenedFor(r.cfg, s.entry.value.signal, r.candles[k], k, p)
    ensures AsSignalled(r, p) && p.entryIndex == k
  {
    hide Quantize, Product, MarketFill, SizeAt, SlippageAt, Priced;
    var g := s.entry.value.signal;
    assert g == SignalOf(r, k);
    assert g.levels[0..] == g.levels;
  }

  lemma HeardKnown(r: Backtest, s: State, t: State, held: bool, k: nat)
    requires k < |r.candles| && AllPriced(r, s, k)
    requires Heard(r.cfg, s, t, held, k, SignalAt(r.p, r.candles, k))
    requires s.entry.Some? && !EntryDue(s, k) ==> t.open.None?
    ensures EntryKnown(r, t) && (t.entry.Some? ==> k + 1 <= t.entry.value.fill && t.open.None?)
  {
    hide Priced, AsSignalled;
  }

  lemma StepPriced(r: Backtest, s: State, t: State, k: nat, held: Option<OpenPosition>)
    requires k < |r.candles| && AllPriced(r, s, k)
    requires Holds(r.cfg, s, k, r.candles[k], held)
    requires ExitsAnswered(r.cfg, held, CloseDue(s, k), k, r.candles[k], s.trades, t.trades, t.open)
    requires Heard(r.cfg, s, t, held.Some?, k, SignalAt(r.p, r.candles, k))
    ensures AllPriced(r, t, k + 1)
  {
    hide Priced, AsSignalled, Answered, OpenedFor, Heard, SizeAt, MarketFill;
    if held.Some? {
      if EntryDue(s, k) { OpenedAsSignalled(r, s, k, held.value); }
      AnswerPriced(r, held.value, CloseDue(s, k), k, s.trades, t.trades, t.open);
      forall n | 0 <= n < |t.trades| ensures Priced(r, t.trades[n]) {
        if n < |s.trades| { assert t.trades[n] == s.trades[n]; }
      }
    }
    HeardKnown(r, s, t, held.Some?, k);
  }

  lemma NothingPriced(r: Backtest)
    ensures AllPriced(r, START, 0)
  {}

  lemma {:induction false} StatesPriced(r: Backtest, k: nat)
    requires k <= |r.candles| && After(r.cfg, r.p, r.candles, k).Some?
    ensures AllPriced(r, After(r.cfg, r.p, r.candles, k).value, k)
  {
    hide Step, AllPriced, Holds, ExitsAnswered, Heard;
    if k == 0 {
      NothingPriced(r);
    } else {
      var s, t := After(r.cfg, r.p, r.candles, k - 1).value, After(r.cfg, r.p, r.candles, k).value;
      StatesPriced(r, k - 1);
      EveryCandleAnswered(r, k - 1);
      var held: Option<OpenPosition> :|
        && Holds(r.cfg, s, k - 1, r.candles[k - 1], held)
        && ExitsAnswered(r.cfg, held, CloseDue(s, k - 1), k - 1, r.candles[k - 1], s.trades, t.trades, t.open)
        && Heard(r.cfg, s, t, held.Some?, k - 1, SignalAt(r.p, r.candles, k - 1));
      StepPriced(r, s, t, k - 1, held);
    }
  }

  /** The forced close at the end of the data. */
  lemma EndPriced(r: Backtest, s: State)
    requires r.candles != [] && AllPriced(r, s, |r.candles|)
    ensures var t := Finish(r.cfg, s, r.candles); forall n :: 0 <= n < |t.trades| ==> Priced(r, t.trades[n])
  {
    if s.open.Some? {
      var n := |r.candles| - 1;
      CloseAllAnswers(r.cfg, s, r.candles[n].close, n, EndOfData, Limit);
      hide CloseAll, Quantize, Product, MarketFill, LimitFill, Profit, FeeAt, SlippageAt;
      var t := Finish(r.cfg, s, r.candles);
      forall m | 0 <= m < |t.trades| ensures Priced(r, t.trades[m]) {
        if m < |s.trades| { assert t.trades[m] == s.trades[m]; } else { assert t.trades[m] == Newest(t.trades); }
      }
    }
  }

  /** Every trade of every completed run is priced by its reason, and its candle reached that price. */
  lemma {:induction false} TradesArePriced(r: Backtest)
    requires BacktestRun.Run(r.cfg, r.p, r.candles).Some?
    ensures var ts := BacktestRun.Run(r.cfg, r.p, r.candles).value.trades;
            forall n :: 0 <= n < |ts| ==> Priced(r, ts[n])
  {
    hide Priced, AsSignalled;
    StatesPriced(r, |r.candles|);
    if r.candles != [] { EndPriced(r, After(r.cfg, r.p, r.candles, |r.candles|).value); }
  }

  /** A completed run adds to its last candle's answers the close of what is still open, at the last close. */
  lemma {:induction false} RunEndsAnswered(r: Backtest)
    requires BacktestRun.Run(r.cfg, r.p, r.candles).Some? && r.candles != []
    ensures var s := After(r.cfg, r.p, r.candles, |r.candles|).value;
            var ts, n := BacktestRun.Run(r.cfg, r.p, r.candles).value.trades, |r.candles| - 1;
            if s.open.None? then ts == s.trades
            else ClosedAtLimit(r.cfg, s.trades, ts, s.open.value, n, EndOfData, r.candles[n].close)
  {
    var s, n := After(r.cfg, r.p, r.candles, |r.candles|).value, |r.candles| - 1;
    if s.open.Some? { CloseAllAnswers(r.cfg, s, r.candles[n].close, n, EndOfData, Limit); }
  }
}
