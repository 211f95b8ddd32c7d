/**
 The accounts of one simulated position, from its fill to its last close: quantities add up
 exactly, every attributed cost to within 1e-8 per partial close, and each trade's net result
 is its gross result minus its costs (backend/backtesting/engine.py).
 */
module BacktestLives {
  import opened Decimals
  import opened CostModels
  import opened ExitRules
  import opened BacktestModel
  import opened BacktestRun

  /** What a close takes over from the position in proportion. */
  datatype Cost = Margin | Notional | EntryFee | EntrySlippage | Funding

  function Charged(t: Trade, c: Cost): real {
    match c
    case Margin => t.margin
    case Notional => t.notional
    case EntryFee => t.entryFee
    case EntrySlippage => t.entrySlippage
    case Funding => t.funding
  }

  function Carried(pos: OpenPosition, c: Cost): real {
    match c
    case Margin => pos.margin
    case Notional => pos.notional
    case EntryFee => pos.entryFee
    case EntrySlippage => pos.entrySlippage
    case Funding => pos.funding
  }

  /** What there is to attribute: the cost at opening, or all funding charged since. */
  function Due(life: Life, c: Cost): real {
    if c.Funding? then life.accrued else Carried(life.initial, c)
  }

  function SumCharged(closes: seq<Closed>, c: Cost): real {
    if closes == [] then 0.0
    else SumCharged(closes[..|closes| - 1], c) + Charged(closes[|closes| - 1].trade, c)
  }

  function SumQuantity(closes: seq<Closed>): real {
    if closes == [] then 0.0
    else SumQuantity(closes[..|closes| - 1]) + closes[|closes| - 1].quantity
  }

  /** `n` quantization steps. */
  function Steps(n: int): real { n as real * 0.00000001 }

  /** Net result is gross minus fees, slippage and funding, with nothing lost to rounding. */
  predicate NetExact(t: Trade) {
    && t.net == t.gross - t.entryFee - t.exitFee - t.entrySlippage - t.exitSlippage - t.funding
    && OnGrid(t.gross) && OnGrid(t.entryFee) && OnGrid(t.exitFee) && OnGrid(t.entrySlippage)
    && OnGrid(t.exitSlippage) && OnGrid(t.funding)
  }

  predicate OfLife(t: Trade, life: Life) {
    t.entryIndex == life.initial.entryIndex && t.side == life.initial.side && t.entryPrice == life.initial.entryPrice
  }

  predicate TradesOk(life: Life) {
    forall k :: 0 <= k < |life.closes| ==> OfLife(life.closes[k].trade, life) && NetExact(life.closes[k].trade)
  }

  predicate OnlyPartials(closes: seq<Closed>) { forall k :: 0 <= k < |closes| ==> closes[k].trade.Partial() }

  predicate PositionOnGrid(pos: OpenPosition) {
    OnGrid(pos.quantity) && OnGrid(pos.entryFee) && OnGrid(pos.entrySlippage) && OnGrid(pos.funding)
  }

  /** The drift between what was attributed plus what is carried and what was due. */
  predicate Drift(life: Life, carried: real, c: Cost, n: int) {
    Abs(SumCharged(life.closes, c) + carried - Due(life, c)) <= Steps(n)
  }

  /** Nothing is carried any more; only the partial closes can have drifted. */
  predicate Settled(life: Life, c: Cost) { Drift(life, 0.0, c, |life.closes| - 1) }

  /** A position still open: its closes are partial and what they took plus what is left is all. */
  predicate Running(life: Life, pos: OpenPosition) {
    && TradesOk(life) && OnlyPartials(life.closes) && PositionOnGrid(pos)
    && pos.entryIndex == life.initial.entryIndex && pos.side == life.initial.side
    && pos.entryPrice == life.initial.entryPrice
    && SumQuantity(life.closes) + pos.quantity == life.initial.quantity
    && (forall c: Cost :: Drift(life, Carried(pos, c), c, |life.closes|))
  }

  /** A closed position: exactly one non-partial trade, the last, after which nothing is owed. */
  predicate Finished(life: Life) {
    && life.closes != [] && TradesOk(life)
    && OnlyPartials(life.closes[..|life.closes| - 1]) && !life.closes[|life.closes| - 1].trade.Partial()
    && SumQuantity(life.closes) == life.initial.quantity
    && (forall c: Cost :: Settled(life, c))
  }

  function WithClose(life: Life, trade: Trade, quantity: real): Life {
    life.(closes := life.closes + [Closed(trade, quantity)])
  }

  lemma SumsAppend(closes: seq<Closed>, x: Closed, c: Cost)
    ensures SumCharged(closes + [x], c) == SumCharged(closes, c) + Charged(x.trade, c)
    ensures SumQuantity(closes + [x]) == SumQuantity(closes) + x.quantity
  {
    assert (closes + [x])[..|closes + [x]| - 1] == closes;
  }

  lemma NetIsExact(gross: real, entryFee: real, exitFee: real, entrySlip: real, exitSlip: real, funding: real)
    requires OnGrid(gross) && OnGrid(entryFee) && OnGrid(exitFee) && OnGrid(entrySlip)
    requires OnGrid(exitSlip) && OnGrid(funding)
    ensures Net(gross, entryFee, exitFee, entrySlip, exitSlip, funding)
         == gross - entryFee - exitFee - entrySlip - exitSlip - funding
  {
    GridClosed(gross, entryFee);
    GridClosed(gross - entryFee, exitFee);
    GridClosed(gross - entryFee - exitFee, entrySlip);
    GridClosed(gross - entryFee - exitFee - entrySlip, exitSlip);
    GridClosed(gross - entryFee - exitFee - entrySlip - exitSlip, funding);
  }

  lemma CloseTradeExact(
    cfg: Setup, pos: OpenPosition, quantity: real, price: real, i: nat, reason: Reason, kind: Kind,
    margin: real, notional: real, entryFee: real, entrySlip: real, funding: real
  )
    requires OnGrid(entryFee) && OnGrid(entrySlip) && OnGrid(funding)
    ensures var t := CloseTrade(cfg, pos, quantity, price, i, reason, kind,
                                margin, notional, entryFee, entrySlip, funding);
            NetExact(t) && t.funding == funding
  {
    var t := CloseTrade(cfg, pos, quantity, price, i, reason, kind, margin, notional, entryFee, entrySlip, funding);
    NetIsExact(t.gross, entryFee, t.exitFee, entrySlip, t.exitSlippage, funding);
  }

  // ---------- Transitions of one life ----------

  lemma OpenedOnGrid(cfg: Setup, signal: Signal, candle: Candle, i: nat)
    requires OpenAt(cfg, signal, candle, i).Opened?
    ensures var pos := OpenAt(cfg, signal, candle, i).position;
            Running(Life(pos, [], 0.0), pos) && pos.entryIndex == i && pos.side == signal.Side()
  {
    var pos := OpenAt(cfg, signal, candle, i).position;
    assert OnGrid(0.0) by { GridPoint(0); }
    assert PositionOnGrid(pos);
  }

  lemma LevelTradeCharges(cfg: Setup, pos: OpenPosition, level: Level, i: nat, c: Cost)
    requires pos.levels != []
    ensures Charged(LevelTrade(cfg, pos, level, i), c) == Share(Carried(pos, c), level.fraction)
    ensures Carried(AfterLevel(pos, level), c) == Share(Carried(pos, c), 1.0 - level.fraction)
  {}

  lemma DriftAfterLevel(life: Life, t: Trade, q: real, before: real, after: real, f: real, c: Cost, n: int)
    requires Drift(life, before, c, n)
    requires Charged(t, c) == Share(before, f) && after == Share(before, 1.0 - f)
    ensures Drift(WithClose(life, t, q), after, c, n + 1)
  {
    SumsAppend(life.closes, Closed(t, q), c);
    SplitError(before, f);
    assert Steps(n + 1) == Steps(n) + ULP;
  }

  lemma LevelTradeOf(cfg: Setup, pos: OpenPosition, level: Level, i: nat)
    ensures var t := LevelTrade(cfg, pos, level, i);
            t.Partial() && t.entryIndex == pos.entryIndex && t.side == pos.side && t.entryPrice == pos.entryPrice
  {}

  /** An intermediate level moves shares from the position to a trade, one step of drift at most. */
  lemma LevelKeepsRunning(cfg: Setup, life: Life, pos: OpenPosition, level: Level, i: nat)
    requires Running(life, pos) && pos.levels != []
    ensures Running(WithClose(life, LevelTrade(cfg, pos, level, i), LevelQuantity(pos, level.fraction)),
                    AfterLevel(pos, level))
  {
    hide CloseTrade;
    var f, q := level.fraction, LevelQuantity(pos, level.fraction);
    var t, rest := LevelTrade(cfg, pos, level, i), AfterLevel(pos, level);
    var next := WithClose(life, t, q);
    CloseTradeExact(cfg, pos, q, level.price, i, PartialTp, Limit, Share(pos.margin, f), Share(pos.notional, f),
                    Share(pos.entryFee, f), Share(pos.entrySlippage, f), Share(pos.funding, f));
    LevelTradeOf(cfg, pos, level, i);
    GridClosed(pos.quantity, q);
    SumsAppend(life.closes, Closed(t, q), Margin);
    forall c: Cost ensures Drift(next, Carried(rest, c), c, |next.closes|) {
      LevelTradeCharges(cfg, pos, level, i, c);
      DriftAfterLevel(life, t, q, Carried(pos, c), Carried(rest, c), f, c, |life.closes|);
    }
  }

  lemma WholeTradeOf(cfg: Setup, pos: OpenPosition, price: real, i: nat, reason: Reason, kind: Kind)
    requires OnGrid(pos.funding)
    ensures var t := CloseWhole(cfg, pos, price, i, reason, kind);
            && t.reason == reason && t.exitIndex == i
            && t.entryIndex == pos.entryIndex && t.side == pos.side && t.entryPrice == pos.entryPrice
            && (forall c: Cost :: Charged(t, c) == Carried(pos, c))
  {}

  /** A whole close takes everything that was left, without further drift. */
  lemma CloseFinishes(cfg: Setup, life: Life, pos: OpenPosition, price: real, i: nat, reason: Reason, kind: Kind)
    requires Running(life, pos) && !reason.PartialTp?
    ensures Finished(WithClose(life, CloseWhole(cfg, pos, price, i, reason, kind), pos.quantity))
  {
    hide CloseTrade;
    var t := CloseWhole(cfg, pos, price, i, reason, kind);
    var next := WithClose(life, t, pos.quantity);
    CloseTradeExact(cfg, pos, pos.quantity, price, i, reason, kind, pos.margin, pos.notional, pos.entryFee,
                    pos.entrySlippage, pos.funding);
    WholeTradeOf(cfg, pos, price, i, reason, kind);
    assert next.closes[..|next.closes| - 1] == life.closes;
    forall c: Cost ensures Settled(next, c) {
      SumsAppend(life.closes, Closed(t, pos.quantity), c);
      assert Drift(life, Carried(pos, c), c, |life.closes|);
    }
    SumsAppend(life.closes, Closed(t, pos.quantity), Margin);
  }

  lemma SkippedLevelKeepsRunning(life: Life, pos: OpenPosition)
    requires Running(life, pos) && pos.levels != []
    ensures Running(life, pos.(levels := pos.levels[1..]))
  {
    forall c: Cost ensures Drift(life, Carried(pos.(levels := pos.levels[1..]), c), c, |life.closes|) {
      assert Drift(life, Carried(pos, c), c, |life.closes|);
    }
  }

  /** Funding charged to the position is due from it. */
  lemma AccrualKeepsRunning(life: Life, pos: OpenPosition, due: real)
    requires Running(life, pos) && OnGrid(due)
    ensures Running(life.(accrued := life.accrued + due), pos.(funding := pos.funding + due))
  {
    var next, rest := life.(accrued := life.accrued + due), pos.(funding := pos.funding + due);
    GridClosed(pos.funding, due);
    forall c: Cost ensures Drift(next, Carried(rest, c), c, |next.closes|) {
      assert Drift(life, Carried(pos, c), c, |life.closes|);
    }
  }

  lemma FundingOnGrid(pos: OpenPosition, candle: Candle)
    ensures OnGrid(FundingDue(pos, candle))
  {
    GridClosed(0.0, Quantize(Product(Product(pos.quantity, candle.close), candle.fundingRate)));
  }
}
