/**
 The engine's loop as a state machine over candles, and the loop itself
 (backend/backtesting/engine.py, BacktestingEngine.run).
 */
module BacktestRun {
  import opened Decimals
  import opened CostModels
  import opened ExitRules
  import opened BacktestModel

  datatype Pending = Pending(signal: Signal, fill: nat)

  /** One close of a position: the trade recorded and the quantity it closed. */
  datatype Closed = Closed(trade: Trade, quantity: real)

  /** The life of one position: as opened, its closes so far, the funding charged to it. */
  datatype Life = Life(initial: OpenPosition, closes: seq<Closed>, accrued: real)

  /** The loop's variables; `lives` additionally remembers each position's history. */
  datatype State = State(
    open: Option<OpenPosition>, entry: Option<Pending>, closeAt: Option<nat>,
    history: seq<Candle>, trades: seq<Trade>, lives: seq<Life>)

  const START := State(None, None, None, [], [], [])

  function Last(lives: seq<Life>): Life
    requires lives != []
  {
    lives[|lives| - 1]
  }

  function WithLast(lives: seq<Life>, life: Life): seq<Life> {
    if lives == [] then [] else lives[..|lives| - 1] + [life]
  }

  /** Appends a trade, also to the current life. */
  function Record(s: State, trade: Trade, quantity: real): State {
    s.(trades := s.trades + [trade],
       lives := if s.lives == [] then [] else
                WithLast(s.lives, Last(s.lives).(closes := Last(s.lives).closes + [Closed(trade, quantity)])))
  }

  /** Step 1: a due entry is filled; None when the engine raises. */
  function FillEntry(cfg: Setup, s: State, i: nat, candle: Candle): Option<State> {
    if s.entry.None? || i < s.entry.value.fill || s.open.Some? then Some(s) else
    match OpenAt(cfg, s.entry.value.signal, candle, i)
    case Raises => None
    case NotFilled => Some(s.(entry := None))
    case Opened(pos) => Some(s.(entry := None, open := Some(pos), lives := s.lives + [Life(pos, [], 0.0)]))
  }

  function CloseAll(cfg: Setup, s: State, price: real, i: nat, reason: Reason, kind: Kind): State
    requires s.open.Some?
  {
    Record(s, CloseWhole(cfg, s.open.value, price, i, reason, kind), s.open.value.quantity).(open := None)
  }

  /** Step 2: a requested close executes at the candle's open. */
  function FillClose(cfg: Setup, s: State, i: nat, candle: Candle): State {
    if s.closeAt.None? || s.open.None? || i < s.closeAt.value then s
    else CloseAll(cfg, s, candle.open, i, CloseSignal, Market).(closeAt := None)
  }

  /** Step 3: stop-loss first, then the next level or the single target. */
  function CheckExits(cfg: Setup, s: State, i: nat, candle: Candle): State {
    if s.open.None? then s else
    var pos := s.open.value;
    if StopTouched(pos, candle) then CloseAll(cfg, s, pos.stopLoss, i, StopLoss, Market)
    else if pos.levels != [] && TargetTouched(pos.side, candle, pos.levels[0].price) then
      if |pos.levels| == 1 then CloseAll(cfg, s, pos.levels[0].price, i, TakeProfit, Limit)
      else if LevelQuantity(pos, pos.levels[0].fraction) <= 0.0 then
        s.(open := Some(pos.(levels := pos.levels[1..])))
      else
        Record(s, LevelTrade(cfg, pos, pos.levels[0], i), LevelQuantity(pos, pos.levels[0].fraction))
        .(open := Some(AfterLevel(pos, pos.levels[0])))
    else if pos.takeProfit.Some? && TargetTouched(pos.side, candle, pos.takeProfit.value) then
      CloseAll(cfg, s, pos.takeProfit.value, i, TakeProfit, Limit)
    else s
  }

  /** Step 4: funding accrues to a position still open at the candle's close. */
  function Accrue(s: State, candle: Candle): State {
    if s.open.None? || candle.fundingRate == 0.0 then s else
    var due := FundingDue(s.open.value, candle);
    s.(open := Some(s.open.value.(funding := s.open.value.funding + due)),
       lives := if s.lives == [] then [] else
                WithLast(s.lives, Last(s.lives).(accrued := Last(s.lives).accrued + due)))
  }

  /** Step 5: the strategy's signal is scheduled, and the candle becomes visible. */
  function Schedule(cfg: Setup, s: State, i: nat, candle: Candle, signal: Signal): State {
    var t := s.(history := s.history + [candle]);
    if signal.Entry() && s.open.None? && s.entry.None? then t.(entry := Some(Pending(signal, i + cfg.Offset())))
    else if signal.action.CloseNow? && s.open.Some? && s.closeAt.None? then t.(closeAt := Some(i + cfg.Offset()))
    else t
  }

  /** The part of a step that follows a filled or absent entry. */
  function Manage(cfg: Setup, s: State, i: nat, candle: Candle): State {
    Accrue(CheckExits(cfg, FillClose(cfg, s, i, candle), i, candle), candle)
  }

  function Step(cfg: Setup, p: Provider, s: State, i: nat, candle: Candle): Option<State> {
    match FillEntry(cfg, s, i, candle)
    case None => None
    case Some(filled) =>
      var managed := Manage(cfg, filled, i, candle);
      Some(Schedule(cfg, managed, i, candle, p(i, managed.history)))
  }

  type Stepper = (State, nat) -> Option<State>

  /** The first `k` steps of a stepper; None once a step has raised. */
  function Iterate(f: Stepper, k: nat): Option<State> {
    if k == 0 then Some(START) else
    match Iterate(f, k - 1)
    case None => None
    case Some(s) => f(s, k - 1)
  }

  /** One engine step per candle. */
  function Engine(cfg: Setup, p: Provider, candles: seq<Candle>): Stepper {
    (s: State, i: nat) => if i < |candles| then Step(cfg, p, s, i, candles[i]) else None
  }

  /** The state before candle `k`; None when an earlier candle made the engine raise. */
  function After(cfg: Setup, p: Provider, candles: seq<Candle>, k: nat): Option<State> {
    Iterate(Engine(cfg, p, candles), k)
  }

  /** After the last candle an open position is closed at its close. */
  function Finish(cfg: Setup, s: State, candles: seq<Candle>): State {
    if s.open.None? || candles == [] then s
    else CloseAll(cfg, s, candles[|candles| - 1].close, |candles| - 1, EndOfData, Limit)
  }

  /** The whole run; None when it raises. */
  function Run(cfg: Setup, p: Provider, candles: seq<Candle>): Option<State> {
    match After(cfg, p, candles, |candles|)
    case None => None
    case Some(s) => Some(Finish(cfg, s, candles))
  }

  /** Once a step has raised, no later state exists. */
  lemma {:induction false} RaiseEnds(f: Stepper, k: nat, n: nat)
    requires k <= n && Iterate(f, k).None?
    ensures Iterate(f, n).None?
    decreases n
  {
    if k < n { RaiseEnds(f, k, n - 1); }
  }

  // ---------- The loop ----------

  lemma EngineSteps(cfg: Setup, p: Provider, candles: seq<Candle>, i: nat, s: State)
    requires i < |candles| && Iterate(Engine(cfg, p, candles), i) == Some(s)
    ensures Iterate(Engine(cfg, p, candles), i + 1) == Step(cfg, p, s, i, candles[i])
  {}

  method FillPending(
    cfg: Setup, i: nat, candle: Candle, open: Option<OpenPosition>, entry: Option<Pending>, ghost s: State
  ) returns (raised: bool, open': Option<OpenPosition>, entry': Option<Pending>, ghost lives: seq<Life>)
    requires s.open == open && s.entry == entry
    ensures raised <==> FillEntry(cfg, s, i, candle).None?
    ensures !raised ==> var t := FillEntry(cfg, s, i, candle).value; open' == t.open && entry' == t.entry
    ensures !raised ==> FillEntry(cfg, s, i, candle).value == s.(open := open', entry := entry', lives := lives)
  {
    raised, open', entry', lives := false, open, entry, s.lives;
    if entry.Some? && i >= entry.value.fill && open.None? {
      var opening := OpenAt(cfg, entry.value.signal, candle, i);
      entry' := None;
      match opening {
        case Raises => raised := true;
        case NotFilled =>
        case Opened(pos) =>
          open' := Some(pos);
          lives := lives + [Life(pos, [], 0.0)];
      }
    }
  }

  /** `_check_sl_tp`: the trade of this candle, if any, and the position that remains. */
  method CheckSlTp(cfg: Setup, pos: OpenPosition, candle: Candle, i: nat)
    returns (trade: Option<Trade>, rest: Option<OpenPosition>)
    ensures forall s: State :: s.open == Some(pos) ==>
              && CheckExits(cfg, s, i, candle).open == rest
              && CheckExits(cfg, s, i, candle).trades == s.trades + (if trade.Some? then [trade.value] else [])
  {
    if StopTouched(pos, candle) {
      return Some(CloseWhole(cfg, pos, pos.stopLoss, i, StopLoss, Market)), None;
    }
    if pos.levels != [] && TargetTouched(pos.side, candle, pos.levels[0].price) {
      if |pos.levels| == 1 {
        return Some(CloseWhole(cfg, pos, pos.levels[0].price, i, TakeProfit, Limit)), None;
      }
      if LevelQuantity(pos, pos.levels[0].fraction) <= 0.0 {
        return None, Some(pos.(levels := pos.levels[1..]));
      }
      return Some(LevelTrade(cfg, pos, pos.levels[0], i)), Some(AfterLevel(pos, pos.levels[0]));
    }
    if pos.takeProfit.Some? && TargetTouched(pos.side, candle, pos.takeProfit.value) {
      return Some(CloseWhole(cfg, pos, pos.takeProfit.value, i, TakeProfit, Limit)), None;
    }
    trade, rest := None, Some(pos);
  }

  method ManageOpen(
    cfg: Setup, i: nat, candle: Candle, open: Option<OpenPosition>, closeAt: Option<nat>,
    closed: seq<Trade>, ghost s: State
  ) returns (open': Option<OpenPosition>, closeAt': Option<nat>, closed': seq<Trade>, ghost lives: seq<Life>)
    requires s.open == open && s.closeAt == closeAt && s.trades == closed
    ensures var t := Manage(cfg, s, i, candle); open' == t.open && closeAt' == t.closeAt && closed' == t.trades
    ensures Manage(cfg, s, i, candle) == s.(open := open', closeAt := closeAt', trades := closed', lives := lives)
  {
    hide CloseWhole, LevelTrade, AfterLevel, LevelQuantity, StopTouched, TargetTouched, FundingDue;
    open', closeAt', closed' := open, closeAt, closed;
    if closeAt'.Some? && open'.Some? && i >= closeAt'.value {
      closed' := closed' + [CloseWhole(cfg, open'.value, candle.open, i, CloseSignal, Market)];
      open', closeAt' := None, None;
    }
    ghost var t := FillClose(cfg, s, i, candle);
    if open'.Some? {
      var trade;
      trade, open' := CheckSlTp(cfg, open'.value, candle, i);
      if trade.Some? { closed' := closed' + [trade.value]; }
    }
    ghost var u := CheckExits(cfg, t, i, candle);
    if open'.Some? && candle.fundingRate != 0.0 {
      open' := Some(open'.value.(funding := open'.value.funding + FundingDue(open'.value, candle)));
    }
    lives := Accrue(u, candle).lives;
  }

  method TakeSignal(
    cfg: Setup, i: nat, signal: Signal, open: Option<OpenPosition>, entry: Option<Pending>,
    closeAt: Option<nat>, ghost s: State, ghost candle: Candle
  ) returns (entry': Option<Pending>, closeAt': Option<nat>)
    requires s.open == open && s.entry == entry && s.closeAt == closeAt
    ensures Schedule(cfg, s, i, candle, signal)
         == s.(entry := entry', closeAt := closeAt', history := s.history + [candle])
  {
    entry', closeAt' := entry, closeAt;
    if signal.Entry() && open.None? && entry.None? {
      entry' := Some(Pending(signal, i + cfg.Offset()));
    } else if signal.action.CloseNow? && open.Some? && closeAt.None? {
      closeAt' := Some(i + cfg.Offset());
    }
  }

  /** The loop's body: fill, close, exits and funding, then the strategy's signal. */
  method ProcessCandle(
    cfg: Setup, p: Provider, i: nat, candle: Candle, open: Option<OpenPosition>, entry: Option<Pending>,
    closeAt: Option<nat>, history: seq<Candle>, closed: seq<Trade>, ghost lives: seq<Life>
  ) returns (raised: bool, open': Option<OpenPosition>, entry': Option<Pending>, closeAt': Option<nat>,
             history': seq<Candle>, closed': seq<Trade>, ghost lives': seq<Life>)
    ensures raised <==> Step(cfg, p, State(open, entry, closeAt, history, closed, lives), i, candle).None?
    ensures !raised ==>
              var t := Step(cfg, p, State(open, entry, closeAt, history, closed, lives), i, candle).value;
              && open' == t.open && entry' == t.entry && closeAt' == t.closeAt
              && history' == t.history && closed' == t.trades
    ensures !raised ==>
              lives' == Step(cfg, p, State(open, entry, closeAt, history, closed, lives), i, candle).value.lives
  {
    closeAt', history', closed' := closeAt, history, closed;
    raised, open', entry', lives' :=
      FillPending(cfg, i, candle, open, entry, State(open, entry, closeAt, history, closed, lives));
    if raised {
      return;
    }
    open', closeAt', closed', lives' := ManageOpen(
      cfg, i, candle, open', closeAt', closed', State(open', entry', closeAt', history', closed', lives'));
    entry', closeAt' := TakeSignal(
      cfg, i, p(i, history), open', entry', closeAt',
      State(open', entry', closeAt', history', closed', lives'), candle);
    history' := history' + [candle];
  }

  /** `run`: the loop over candles with its in-place variables. */
  method RunLoop(cfg: Setup, p: Provider, candles: seq<Candle>) returns (trades: Option<seq<Trade>>)
    ensures trades == match Run(cfg, p, candles) case None => None case Some(s) => Some(s.trades)
  {
    var open: Option<OpenPosition>, entry: Option<Pending>, closeAt: Option<nat> := None, None, None;
    var history: seq<Candle>, closed: seq<Trade> := [], [];
    hide Step;
    ghost var lives: seq<Life> := [];
    ghost var engine := Engine(cfg, p, candles);
    for i := 0 to |candles|
      invariant engine == Engine(cfg, p, candles)
      invariant Iterate(engine, i) == Some(State(open, entry, closeAt, history, closed, lives))
    {
      EngineSteps(cfg, p, candles, i, State(open, entry, closeAt, history, closed, lives));
      var raised;
      raised, open, entry, closeAt, history, closed, lives :=
        ProcessCandle(cfg, p, i, candles[i], open, entry, closeAt, history, closed, lives);
      if raised {
        RaiseEnds(engine, i + 1, |candles|);
        return None;
      }
    }
    if open.Some? && candles != [] {
      var last := candles[|candles| - 1];
      closed := closed + [CloseWhole(cfg, open.value, last.close, |candles| - 1, EndOfData, Limit)];
    }
    trades := Some(closed);
  }
}
