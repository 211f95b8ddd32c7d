/**
 The data of the candle-by-candle backtest and the arithmetic of opening, closing and partly
 closing a simulated position (backend/backtesting/schemas.py, backend/backtesting/engine.py).
 */
module BacktestModel {
  import opened Decimals
  import opened CostModels
  import opened ExitRules

  datatype Candle = Candle(open: real, high: real, low: real, close: real, fundingRate: real) {
    /** What the candle schema checks. */
    predicate Valid() { low <= open <= high && low <= close <= high }
  }

  datatype SignalAction = GoLong | GoShort | CloseNow | NoOp

  datatype Signal = Signal(
    action: SignalAction, stopLoss: Option<real>, takeProfit: Option<real>, levels: seq<Level>,
    leverage: int, margin: real)
  {
    predicate Entry() { action.GoLong? || action.GoShort? }

    /** What the signal schema checks. */
    predicate Valid() {
      && 1 <= leverage <= 10 && margin > 0.0
      && (forall k :: 0 <= k < |levels| ==> levels[k].Valid())
      && (Entry() ==>
            && stopLoss.Some? && (takeProfit.Some? <==> levels == [])
            && (levels != [] ==> levels[|levels| - 1].fraction == 1.0))
    }
    function Side(): Side { if action.GoLong? then Buy else Sell }
  }

  /** A strategy sees the candle's index and the candles before it. */
  type Provider = (nat, seq<Candle>) -> Signal

  datatype Setup = Setup(fees: FeeModel, slip: SlippageModel, extraCandles: nat, fillRatio: real, partialClose: bool) {
    predicate Valid() { fees.Valid() && 0.0 <= fillRatio <= 1.0 }

    /** From a signal's candle to the candle of its fill. */
    function Offset(): nat { 1 + extraCandles }
  }

  datatype OpenPosition = OpenPosition(
    side: Side, entryIndex: nat, entryPrice: real, stopLoss: real, takeProfit: Option<real>,
    levels: seq<Level>, leverage: int, margin: real, notional: real, quantity: real,
    entryFee: real, entrySlippage: real, funding: real)

  datatype Reason = StopLoss | TakeProfit | PartialTp | CloseSignal | EndOfData

  datatype Trade = Trade(
    side: Side, entryIndex: nat, exitIndex: nat, entryPrice: real, exitPrice: real, reason: Reason,
    leverage: int, margin: real, notional: real, gross: real, entryFee: real, exitFee: real,
    entrySlippage: real, exitSlippage: real, funding: real, net: real)
  {
    predicate Partial() { reason.PartialTp? }
  }

  // ---------- Opening ----------

  datatype Opening = Raises | NotFilled | Opened(position: OpenPosition)

  function Quotient(x: real, y: real): real
    requires y != 0.0
  {
    x / y
  }

  /** Fill of a pending entry at the open of `candle`; raises without a usable exit or price. */
  function OpenAt(cfg: Setup, signal: Signal, candle: Candle, i: nat): Opening {
    var byLevels := cfg.partialClose && signal.levels != [];
    if signal.stopLoss.None? || (!byLevels && signal.takeProfit.None?) then Raises else
    var fill := cfg.slip.Apply(candle.open, signal.Side(), Market);
    if fill == 0.0 then Raises else
    var requested := Quantize(Product(signal.margin, signal.leverage as real));
    var quantity := Quantize(Product(Quantize(Quotient(requested, fill)), cfg.fillRatio));
    if quantity <= 0.0 then NotFilled else
    var notional := Quantize(Product(requested, cfg.fillRatio));
    Opened(OpenPosition(
      signal.Side(), i, fill, signal.stopLoss.value,
      if byLevels then None else signal.takeProfit, if byLevels then signal.levels else [],
      signal.leverage, Quantize(Product(signal.margin, cfg.fillRatio)), notional, quantity,
      cfg.fees.Calculate(notional, Market),
      Quantize(Product(Abs(fill - candle.open), quantity)), 0.0))
  }

  // ---------- Closing ----------

  function Net(gross: real, entryFee: real, exitFee: real, entrySlip: real, exitSlip: real, funding: real): real {
    Quantize(gross - entryFee - exitFee - entrySlip - exitSlip - funding)
  }

  /** The trade that closes `quantity` of a position, charged the given shares of its costs. */
  function CloseTrade(
    cfg: Setup, pos: OpenPosition, quantity: real, price: real, i: nat, reason: Reason, kind: Kind,
    margin: real, notional: real, entryFee: real, entrySlip: real, funding: real
  ): Trade {
    var fill := cfg.slip.Apply(price, pos.side.Opposite(), kind);
    var exitFee := cfg.fees.Calculate(Quantize(Product(fill, quantity)), kind);
    var exitSlip := Quantize(Product(Abs(fill - price), quantity));
    var gross := Quantize(PnlAt(pos.side, quantity, pos.entryPrice, fill));
    Trade(pos.side, pos.entryIndex, i, pos.entryPrice, fill, reason, pos.leverage, margin, notional,
          gross, entryFee, exitFee, entrySlip, exitSlip, Quantize(funding),
          Net(gross, entryFee, exitFee, entrySlip, exitSlip, funding))
  }

  function CloseWhole(cfg: Setup, pos: OpenPosition, price: real, i: nat, reason: Reason, kind: Kind): Trade {
    CloseTrade(cfg, pos, pos.quantity, price, i, reason, kind, pos.margin, pos.notional,
               pos.entryFee, pos.entrySlippage, pos.funding)
  }

  function Share(amount: real, fraction: real): real { Quantize(Product(amount, fraction)) }

  /** Quantity an intermediate level closes. */
  function LevelQuantity(pos: OpenPosition, fraction: real): real { Share(pos.quantity, fraction) }

  function LevelTrade(cfg: Setup, pos: OpenPosition, level: Level, i: nat): Trade {
    var f := level.fraction;
    CloseTrade(cfg, pos, LevelQuantity(pos, f), level.price, i, PartialTp, Limit,
               Share(pos.margin, f), Share(pos.notional, f), Share(pos.entryFee, f),
               Share(pos.entrySlippage, f), Share(pos.funding, f))
  }

  /** What stays open after an intermediate level: complements of every share, one level fewer. */
  function AfterLevel(pos: OpenPosition, level: Level): OpenPosition
    requires pos.levels != []
  {
    var rest := 1.0 - level.fraction;
    pos.(quantity := Quantize(pos.quantity - LevelQuantity(pos, level.fraction)),
         margin := Share(pos.margin, rest), notional := Share(pos.notional, rest),
         entryFee := Share(pos.entryFee, rest), entrySlippage := Share(pos.entrySlippage, rest),
         funding := Share(pos.funding, rest), levels := pos.levels[1..])
  }

  // ---------- Triggers within a candle ----------

  predicate StopTouched(pos: OpenPosition, candle: Candle) {
    if pos.side.Buy? then candle.low <= pos.stopLoss else candle.high >= pos.stopLoss
  }

  predicate TargetTouched(side: Side, candle: Candle, target: real) {
    if side.Buy? then candle.high >= target else candle.low <= target
  }

  /** Payment at the candle's close: longs pay a positive rate, shorts receive it. */
  function FundingDue(pos: OpenPosition, candle: Candle): real {
    var payment := Quantize(Product(Product(pos.quantity, candle.close), candle.fundingRate));
    if pos.side.Buy? then payment else -payment
  }
}
