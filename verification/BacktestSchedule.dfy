/**
 The engine's schedule over every run: fills come a fixed number of candles after their
 signal, positions never overlap, each ends in exactly one whole close with balanced
 accounts, and requested closes come from an earlier CLOSE signal
 (backend/backtesting/engine.py, backend/backtesting/latency_model.py).
 */
module BacktestSchedule {
  import opened Decimals
  import opened CostModels
  import opened ExitRules
  import opened BacktestModel
  import opened BacktestRun
  import opened BacktestLives

  /** The strategy's answer at candle `j`, on the candles before it. */
  function SignalAt(p: Provider, candles: seq<Candle>, j: nat): Signal
    requires j <= |candles|
  {
    p(j, candles[..j])
  }

  datatype Backtest = Backtest(cfg: Setup, p: Provider, candles: seq<Candle>)

  /** A fill at `e` on this side answers an entry signal exactly `Offset` candles earlier. */
  ghost predicate Answers(r: Backtest, e: int, side: Side) {
    var j := e - r.cfg.Offset();
    0 <= j < |r.candles| && SignalAt(r.p, r.candles, j).Entry() && SignalAt(r.p, r.candles, j).Side() == side
  }

  /** A CLOSE signal at candle `j`. */
  ghost predicate CloseAsked(r: Backtest, j: int) {
    0 <= j < |r.candles| && SignalAt(r.p, r.candles, j).action.CloseNow?
  }

  /**
   A requested close answers a CLOSE signal at least `Offset` candles earlier; without extra
   latency that signal came one candle before, while this very position was open.
   */
  ghost predicate CloseAnswers(r: Backtest, t: Trade) {
    t.reason.CloseSignal? ==>
      && (exists j :: CloseAsked(r, j) && j + r.cfg.Offset() <= t.exitIndex)
      && (r.cfg.extraCandles == 0 ==> CloseAsked(r, t.exitIndex - 1) && t.entryIndex < t.exitIndex)
  }

  /** The candle of a life's last close. */
  function ExitOf(life: Life): nat
    requires life.closes != []
  {
    life.closes[|life.closes| - 1].trade.exitIndex
  }

  ghost predicate LifeOk(r: Backtest, life: Life, i: nat) {
    && life.initial.entryIndex < i && Answers(r, life.initial.entryIndex, life.initial.side)
    && (forall k :: 0 <= k < |life.closes| ==>
          && CloseAnswers(r, life.closes[k].trade)
          && life.initial.entryIndex <= life.closes[k].trade.exitIndex < i)
  }

  /** Every life but an open last one is finished, and the next begins a full offset later. */
  ghost predicate Chain(r: Backtest, lives: seq<Life>, open: Option<OpenPosition>, i: nat) {
    && (forall k :: 0 <= k < |lives| ==> LifeOk(r, lives[k], i))
    && (open.Some? ==> lives != [])
    && (forall k :: 0 <= k < (if open.Some? then |lives| - 1 else |lives|) ==> Finished(lives[k]))
    && (open.Some? ==> Running(Last(lives), open.value))
    && (forall k :: 0 <= k < |lives| - 1 ==>
          lives[k].closes != [] && ExitOf(lives[k]) + r.cfg.Offset() <= lives[k + 1].initial.entryIndex)
  }

  function TradesOf(closes: seq<Closed>): seq<Trade> {
    if closes == [] then [] else TradesOf(closes[..|closes| - 1]) + [closes[|closes| - 1].trade]
  }

  /** The trades of all lives, one life after another. */
  function Flatten(lives: seq<Life>): seq<Trade> {
    if lives == [] then [] else Flatten(lives[..|lives| - 1]) + TradesOf(Last(lives).closes)
  }

  ghost predicate EntryOk(r: Backtest, s: State, i: nat) {
    s.entry.Some? ==>
      && s.open.None? && i <= s.entry.value.fill && s.entry.value.fill - r.cfg.Offset() < i
      && Answers(r, s.entry.value.fill, s.entry.value.signal.Side()) && s.entry.value.signal.Entry()
      && (s.lives != [] ==> Last(s.lives).closes != [] && ExitOf(Last(s.lives)) + r.cfg.Offset() <= s.entry.value.fill)
  }

  ghost predicate CloseAtOk(r: Backtest, s: State, i: nat) {
    s.closeAt.Some? ==>
      && CloseAsked(r, s.closeAt.value - r.cfg.Offset())
      && (r.cfg.extraCandles == 0 ==> s.closeAt.value == i && s.open.Some?)
  }

  /** What holds before every candle of every run. */
  ghost predicate Inv(r: Backtest, s: State, i: nat) {
    && i <= |r.candles| && s.history == r.candles[..i]
    && Chain(r, s.lives, s.open, i) && s.trades == Flatten(s.lives)
    && EntryOk(r, s, i) && CloseAtOk(r, s, i)
  }

  // ---------- Sequences of lives ----------

  lemma FlattenSnoc(lives: seq<Life>, life: Life)
    ensures Flatten(lives + [life]) == Flatten(lives) + TradesOf(life.closes)
  {
    assert (lives + [life])[..|lives + [life]| - 1] == lives;
  }

  lemma FlattenRecord(lives: seq<Life>, trade: Trade, quantity: real)
    requires lives != []
    ensures Flatten(WithLast(lives, WithClose(Last(lives), trade, quantity))) == Flatten(lives) + [trade]
  {
    var life := Last(lives);
    var closes := life.closes + [Closed(trade, quantity)];
    assert closes[..|closes| - 1] == life.closes;
    FlattenSnoc(lives[..|lives| - 1], WithClose(life, trade, quantity));
  }

  lemma FlattenAccrual(lives: seq<Life>, accrued: real)
    requires lives != []
    ensures Flatten(WithLast(lives, Last(lives).(accrued := accrued))) == Flatten(lives)
  {
    FlattenSnoc(lives[..|lives| - 1], Last(lives).(accrued := accrued));
  }

  // ---------- The steps of one candle ----------

  /** Replacing the last life keeps the chain if the new one is in order. */
  lemma ChainReplaceLast(
    r: Backtest, lives: seq<Life>, open: OpenPosition, life: Life, rest: Option<OpenPosition>, i: nat
  )
    requires Chain(r, lives, Some(open), i) && LifeOk(r, life, i)
    requires life.initial == Last(lives).initial
    requires if rest.Some? then Running(life, rest.value) else Finished(life)
    ensures Chain(r, WithLast(lives, life), rest, i)
  {
    hide Running, Finished, LifeOk;
    var next := WithLast(lives, life);
    assert forall k :: 0 <= k < |lives| - 1 ==> next[k] == lives[k];
    assert Last(next) == life;
  }

  /** Between candles: the candle in progress only widens what has been seen. */
  lemma ChainLater(r: Backtest, lives: seq<Life>, open: Option<OpenPosition>, i: nat)
    requires Chain(r, lives, open, i)
    ensures Chain(r, lives, open, i + 1)
  {
    hide Running, Finished;
  }

  /** Within candle `i`, after entries were filled. */
  ghost predicate Mid(r: Backtest, s: State, i: nat) {
    && i < |r.candles| && s.history == r.candles[..i]
    && Chain(r, s.lives, s.open, i + 1) && s.trades == Flatten(s.lives)
    && (s.entry.Some? ==> i < s.entry.value.fill && EntryOk(r, s, i + 1))
  }

  /** What the chain says of the open position and its life. */
  lemma ChainLast(r: Backtest, lives: seq<Life>, pos: OpenPosition, i: nat)
    requires Chain(r, lives, Some(pos), i)
    ensures lives != [] && Running(Last(lives), pos) && LifeOk(r, Last(lives), i)
    ensures pos.entryIndex == Last(lives).initial.entryIndex < i
  {}

  lemma AccruedLifeOk(r: Backtest, life: Life, accrued: real, i: nat)
    requires LifeOk(r, life, i)
    ensures LifeOk(r, life.(accrued := accrued), i)
  {}

  lemma ChainAppend(r: Backtest, lives: seq<Life>, life: Life, pos: OpenPosition, i: nat)
    requires Chain(r, lives, None, i + 1) && life == Life(pos, [], 0.0) && Running(life, pos)
    requires pos.entryIndex == i && Answers(r, i, pos.side)
    requires lives != [] ==> Last(lives).closes != [] && ExitOf(Last(lives)) + r.cfg.Offset() <= i
    ensures Chain(r, lives + [life], Some(pos), i + 1)
  {
    hide Running, Finished, Answers;
    var next := lives + [life];
    assert forall k :: 0 <= k < |lives| ==> next[k] == lives[k];
    assert Last(next) == life;
  }

  lemma FillEntryKeeps(r: Backtest, s: State, i: nat)
    requires Inv(r, s, i) && i < |r.candles| && FillEntry(r.cfg, s, i, r.candles[i]).Some?
    ensures var t := FillEntry(r.cfg, s, i, r.candles[i]).value;
            Mid(r, t, i) && CloseAtOk(r, t, i)
            && (t.closeAt.Some? && r.cfg.extraCandles == 0 ==> t.open.value.entryIndex < i)
  {
    hide Running, Finished, Answers, Chain, LifeOk, OpenAt, Flatten, SignalAt;
    if s.open.Some? { ChainLast(r, s.lives, s.open.value, i); }
    ChainLater(r, s.lives, s.open, i);
    if s.entry.Some? && s.entry.value.fill <= i {
      var signal := s.entry.value.signal;
      if OpenAt(r.cfg, signal, r.candles[i], i).Opened? {
        var pos := OpenAt(r.cfg, signal, r.candles[i], i).position;
        var life := Life(pos, [], 0.0);
        OpenedOnGrid(r.cfg, signal, r.candles[i], i);
        ChainAppend(r, s.lives, life, pos, i);
        FlattenSnoc(s.lives, life);
        assert TradesOf(life.closes) == [];
      }
    }
  }

  lemma RunningOnGrid(life: Life, pos: OpenPosition)
    requires Running(life, pos)
    ensures PositionOnGrid(pos) && pos.entryIndex == life.initial.entryIndex
  {}

  lemma ClosedLifeOk(r: Backtest, life: Life, t: Trade, quantity: real, i: nat)
    requires LifeOk(r, life, i + 1) && CloseAnswers(r, t) && t.exitIndex == i
    ensures LifeOk(r, WithClose(life, t, quantity), i + 1)
  {
    hide Answers, CloseAnswers;
  }

  /** Closing the open position whole, for a reason that its schedule justifies. */
  lemma CloseAllKeeps(r: Backtest, s: State, i: nat, price: real, reason: Reason, kind: Kind)
    requires Mid(r, s, i) && s.open.Some? && !reason.PartialTp?
    requires CloseAnswers(r, CloseWhole(r.cfg, s.open.value, price, i, reason, kind))
    ensures Mid(r, CloseAll(r.cfg, s, price, i, reason, kind), i)
  {
    hide CloseTrade, Running, Finished, Answers;
    var pos := s.open.value;
    var t := CloseWhole(r.cfg, pos, price, i, reason, kind);
    var life := WithClose(Last(s.lives), t, pos.quantity);
    assert PositionOnGrid(pos) by { RunningOnGrid(Last(s.lives), pos); }
    WholeTradeOf(r.cfg, pos, price, i, reason, kind);
    CloseFinishes(r.cfg, Last(s.lives), pos, price, i, reason, kind);
    ClosedLifeOk(r, Last(s.lives), t, pos.quantity, i);
    ChainReplaceLast(r, s.lives, pos, life, None, i + 1);
    FlattenRecord(s.lives, t, pos.quantity);
  }

  lemma FillCloseKeeps(r: Backtest, s: State, i: nat)
    requires Mid(r, s, i) && CloseAtOk(r, s, i)
    requires s.closeAt.Some? && r.cfg.extraCandles == 0 ==> s.open.value.entryIndex < i
    ensures var t := FillClose(r.cfg, s, i, r.candles[i]);
            && Mid(r, t, i)
            && (t.closeAt.Some? ==> r.cfg.extraCandles != 0 && CloseAsked(r, t.closeAt.value - r.cfg.Offset()))
  {
    if s.closeAt.Some? && s.open.Some? && s.closeAt.value <= i {
      var t := CloseWhole(r.cfg, s.open.value, r.candles[i].open, i, CloseSignal, Market);
      assert t.exitIndex == i && t.entryIndex == s.open.value.entryIndex;
      assert CloseAsked(r, s.closeAt.value - r.cfg.Offset());
      assert CloseAnswers(r, t);
      CloseAllKeeps(r, s, i, r.candles[i].open, CloseSignal, Market);
    }
  }

  lemma OtherReasonsAnswer(r: Backtest, pos: OpenPosition, price: real, i: nat, reason: Reason, kind: Kind)
    requires !reason.CloseSignal?
    ensures CloseAnswers(r, CloseWhole(r.cfg, pos, price, i, reason, kind))
  {}

  lemma LevelTradeReason(cfg: Setup, pos: OpenPosition, level: Level, i: nat)
    ensures LevelTrade(cfg, pos, level, i).reason == PartialTp && LevelTrade(cfg, pos, level, i).exitIndex == i
  {}

  lemma LevelKeeps(r: Backtest, s: State, i: nat)
    requires Mid(r, s, i) && s.open.Some? && s.open.value.levels != []
    ensures var pos, level := s.open.value, s.open.value.levels[0];
            Mid(r, Record(s, LevelTrade(r.cfg, pos, level, i), LevelQuantity(pos, level.fraction))
                   .(open := Some(AfterLevel(pos, level))), i)
  {
    hide CloseTrade, Running, Finished, Answers;
    var pos, level := s.open.value, s.open.value.levels[0];
    var t, q := LevelTrade(r.cfg, pos, level, i), LevelQuantity(pos, level.fraction);
    LevelTradeReason(r.cfg, pos, level, i);
    LevelKeepsRunning(r.cfg, Last(s.lives), pos, level, i);
    ClosedLifeOk(r, Last(s.lives), t, q, i);
    ChainReplaceLast(r, s.lives, pos, WithClose(Last(s.lives), t, q), Some(AfterLevel(pos, level)), i + 1);
    FlattenRecord(s.lives, t, q);
  }

  lemma CheckExitsKeeps(r: Backtest, s: State, i: nat)
    requires Mid(r, s, i)
    ensures Mid(r, CheckExits(r.cfg, s, i, r.candles[i]), i)
    ensures CheckExits(r.cfg, s, i, r.candles[i]).closeAt == s.closeAt
  {
    hide CloseWhole, LevelTrade, AfterLevel, Running, Finished, Answers, CloseAnswers;
    if s.open.Some? {
      var pos, candle := s.open.value, r.candles[i];
      if StopTouched(pos, candle) {
        OtherReasonsAnswer(r, pos, pos.stopLoss, i, StopLoss, Market);
        CloseAllKeeps(r, s, i, pos.stopLoss, StopLoss, Market);
      } else if pos.levels != [] && TargetTouched(pos.side, candle, pos.levels[0].price) {
        if |pos.levels| == 1 {
          OtherReasonsAnswer(r, pos, pos.levels[0].price, i, TakeProfit, Limit);
          CloseAllKeeps(r, s, i, pos.levels[0].price, TakeProfit, Limit);
        } else if LevelQuantity(pos, pos.levels[0].fraction) <= 0.0 {
          SkippedLevelKeepsRunning(Last(s.lives), pos);
        } else {
          LevelKeeps(r, s, i);
        }
      } else if pos.takeProfit.Some? && TargetTouched(pos.side, candle, pos.takeProfit.value) {
        OtherReasonsAnswer(r, pos, pos.takeProfit.value, i, TakeProfit, Limit);
        CloseAllKeeps(r, s, i, pos.takeProfit.value, TakeProfit, Limit);
      }
    }
  }

  lemma AccrueKeeps(r: Backtest, s: State, i: nat)
    requires Mid(r, s, i)
    ensures Mid(r, Accrue(s, r.candles[i]), i) && Accrue(s, r.candles[i]).closeAt == s.closeAt
  {
    hide FundingDue, Running, Finished, Answers, CloseAnswers, Chain, LifeOk, Flatten;
    if s.open.Some? && r.candles[i].fundingRate != 0.0 {
      ChainLast(r, s.lives, s.open.value, i + 1);
      var pos, life := s.open.value, Last(s.lives);
      var due := FundingDue(pos, r.candles[i]);
      FundingOnGrid(pos, r.candles[i]);
      AccrualKeepsRunning(life, pos, due);
      AccruedLifeOk(r, life, life.accrued + due, i + 1);
      ChainReplaceLast(r, s.lives, pos, life.(accrued := life.accrued + due),
                       Some(pos.(funding := pos.funding + due)), i + 1);
      FlattenAccrual(s.lives, life.accrued + due);
    }
  }

  lemma FinishedHasExit(life: Life)
    requires Finished(life)
    ensures life.closes != []
  {}

  lemma ScheduleKeeps(r: Backtest, s: State, i: nat)
    requires Mid(r, s, i)
    requires s.closeAt.Some? ==> r.cfg.extraCandles != 0 && CloseAsked(r, s.closeAt.value - r.cfg.Offset())
    ensures Inv(r, Schedule(r.cfg, s, i, r.candles[i], r.p(i, s.history)), i + 1)
  {
    if s.lives != [] && s.open.None? { FinishedHasExit(Last(s.lives)); }
    hide Running, Finished, CloseAnswers;
    assert r.candles[..i + 1] == r.candles[..i] + [r.candles[i]];
  }

  lemma StepKeeps(r: Backtest, s: State, i: nat)
    requires Inv(r, s, i) && i < |r.candles| && Step(r.cfg, r.p, s, i, r.candles[i]).Some?
    ensures Inv(r, Step(r.cfg, r.p, s, i, r.candles[i]).value, i + 1)
  {
    hide FillEntry, FillClose, CheckExits, Accrue, Schedule, Inv, Chain, Flatten;
    FillEntryKeeps(r, s, i);
    var filled := FillEntry(r.cfg, s, i, r.candles[i]).value;
    FillCloseKeeps(r, filled, i);
    var t := FillClose(r.cfg, filled, i, r.candles[i]);
    CheckExitsKeeps(r, t, i);
    AccrueKeeps(r, CheckExits(r.cfg, t, i, r.candles[i]), i);
    ScheduleKeeps(r, Manage(r.cfg, filled, i, r.candles[i]), i);
  }

  /** Every state of every run is in order. */
  lemma {:induction false} EveryStateInOrder(r: Backtest, k: nat)
    requires k <= |r.candles| && After(r.cfg, r.p, r.candles, k).Some?
    ensures Inv(r, After(r.cfg, r.p, r.candles, k).value, k)
  {
    hide Step;
    if k > 0 {
      EveryStateInOrder(r, k - 1);
      StepKeeps(r, After(r.cfg, r.p, r.candles, k - 1).value, k - 1);
    } else {
      assert r.candles[..0] == [];
    }
  }

  // ---------- Finished runs ----------

  /** What a completed run is made of. */
  ghost predicate Complete(r: Backtest, trades: seq<Trade>, lives: seq<Life>) {
    && trades == Flatten(lives)
    && (forall k :: 0 <= k < |lives| ==> LifeOk(r, lives[k], |r.candles|) && Finished(lives[k]))
    && (forall k :: 0 <= k < |lives| - 1 ==>
          lives[k].closes != [] && ExitOf(lives[k]) + r.cfg.Offset() <= lives[k + 1].initial.entryIndex)
  }

  /** The forced close after the last candle finishes the open life. */
  lemma EndKeeps(r: Backtest, s: State, n: nat)
    requires Inv(r, s, n) && n == |r.candles| > 0 && s.open.Some?
    ensures var t := Finish(r.cfg, s, r.candles);
            Chain(r, t.lives, None, n) && t.trades == Flatten(t.lives)
  {
    hide CloseTrade, Running, Finished, Answers;
    var pos, price := s.open.value, r.candles[n - 1].close;
    var t := CloseWhole(r.cfg, pos, price, n - 1, EndOfData, Limit);
    RunningOnGrid(Last(s.lives), pos);
    WholeTradeOf(r.cfg, pos, price, n - 1, EndOfData, Limit);
    OtherReasonsAnswer(r, pos, price, n - 1, EndOfData, Limit);
    CloseFinishes(r.cfg, Last(s.lives), pos, price, n - 1, EndOfData, Limit);
    ClosedLifeOk(r, Last(s.lives), t, pos.quantity, n - 1);
    ChainReplaceLast(r, s.lives, pos, WithClose(Last(s.lives), t, pos.quantity), None, n);
    FlattenRecord(s.lives, t, pos.quantity);
  }

  /**
   Every run that completes consists of disjoint position lives, each begun exactly `Offset`
   candles after its entry signal and ended by exactly one whole close; its trades are theirs
   in order, every close that was asked for answers a CLOSE signal, and the accounts of every
   life balance as `Finished` says.
   */
  lemma {:induction false} RunsAreComplete(r: Backtest)
    requires BacktestRun.Run(r.cfg, r.p, r.candles).Some?
    ensures var end := BacktestRun.Run(r.cfg, r.p, r.candles).value;
            Complete(r, end.trades, end.lives)
  {
    hide Step, CloseTrade, Running, Finished, LifeOk;
    var n := |r.candles|;
    EveryStateInOrder(r, n);
    var s := After(r.cfg, r.p, r.candles, n).value;
    if s.open.Some? && n > 0 {
      EndKeeps(r, s, n);
    } else if n == 0 {
      assert s == START;
    }
  }
}
