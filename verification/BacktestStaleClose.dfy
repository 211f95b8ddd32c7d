/**
 A requested close belongs to the position that was open when it was asked for exactly when
 no extra latency is configured: with any, a close that outlives its position ends the next
 one (backend/backtesting/engine.py, lines 175-187 and 219-220).
 */
module BacktestStaleClose {
  import opened Decimals
  import opened CostModels
  import opened ExitRules
  import opened BacktestModel
  import opened BacktestRun
  import opened BacktestLives
  import opened BacktestSchedule

  /** The CLOSE that this trade answers came while its position was open. */
  ghost predicate ClosesOwn(r: Backtest, t: Trade) {
    t.reason.CloseSignal? ==>
      exists j :: CloseAsked(r, j) && t.entryIndex <= j && j + r.cfg.Offset() <= t.exitIndex
  }

  /** Every input passes its schema: the setup, the candles, and whatever the strategy answers. */
  ghost predicate Admissible(r: Backtest) {
    && r.cfg.Valid() && (forall k :: 0 <= k < |r.candles| ==> r.candles[k].Valid())
    && (forall i: nat, history: seq<Candle> :: r.p(i, history).Valid())
  }

  ghost predicate AllCloseOwn(r: Backtest) {
    var run := BacktestRun.Run(r.cfg, r.p, r.candles);
    run.Some? ==> forall t :: t in run.value.trades ==> ClosesOwn(r, t)
  }

  // ---------- No extra latency ----------

  lemma {:induction false} TradeSource(closes: seq<Closed>, t: Trade) returns (m: nat)
    requires t in TradesOf(closes)
    ensures m < |closes| && closes[m].trade == t
  {
    m := |closes| - 1;
    if closes[m].trade != t { m := TradeSource(closes[..m], t); }
  }

  lemma {:induction false} FlattenSources(lives: seq<Life>, t: Trade)
    requires t in Flatten(lives)
    ensures exists k, m :: 0 <= k < |lives| && 0 <= m < |lives[k].closes| && lives[k].closes[m].trade == t
  {
    if t in TradesOf(Last(lives).closes) {
      var m := TradeSource(Last(lives).closes, t);
      assert lives[|lives| - 1].closes[m].trade == t;
    } else {
      FlattenSources(lives[..|lives| - 1], t);
      var k, m :| 0 <= k < |lives| - 1 && 0 <= m < |lives[..|lives| - 1][k].closes|
                  && lives[..|lives| - 1][k].closes[m].trade == t;
      assert lives[k].closes[m].trade == t;
    }
  }

  lemma PromptClosesOwn(r: Backtest)
    requires r.cfg.extraCandles == 0
    ensures AllCloseOwn(r)
  {
    var run := BacktestRun.Run(r.cfg, r.p, r.candles);
    if run.Some? {
      RunsAreComplete(r);
      forall t | t in run.value.trades ensures ClosesOwn(r, t) {
        FlattenSources(run.value.lives, t);
        var k, m :| 0 <= k < |run.value.lives| && 0 <= m < |run.value.lives[k].closes|
                    && run.value.lives[k].closes[m].trade == t;
        assert LifeOk(r, run.value.lives[k], |r.candles|);
        if t.reason.CloseSignal? {
          assert CloseAsked(r, t.exitIndex - 1) && t.entryIndex <= t.exitIndex - 1;
        }
      }
    }
  }

  // ---------- Any extra latency ----------

  const LONG: Signal := Signal(GoLong, Some(50.0), Some(200.0), [], 1, 100.0)
  const FLAT: Candle := Candle(100.0, 100.0, 100.0, 100.0, 0.0)
  const DIP: Candle := Candle(100.0, 100.0, 50.0, 100.0, 0.0)

  function Idle(action: SignalAction): Signal { Signal(action, None, None, [], 1, 10.0) }

  function FreeSetup(x: nat): Setup { Setup(FeeModel(0.0, 0.0), SlippageModel(0.0), x, 1.0, false) }

  /** Enter at once, ask for a close while open, and enter again after the stop was hit. */
  function Strategy(x: nat): Provider {
    (i: nat, history: seq<Candle>) =>
      if i == 0 || i == 2 + x then LONG else if i == 1 + x then Idle(CloseNow) else Idle(NoOp)
  }

  lemma Answer(x: nat, i: nat, history: seq<Candle>)
    ensures Strategy(x)(i, history).action ==
            if i == 0 || i == 2 + x then GoLong else if i == 1 + x then CloseNow else NoOp
    ensures i == 0 || i == 2 + x ==> Strategy(x)(i, history) == LONG
  {
    assert LONG.action == GoLong && Idle(CloseNow).action == CloseNow && Idle(NoOp).action == NoOp;
    assert Strategy(x)(i, history) ==
           if i == 0 || i == 2 + x then LONG else if i == 1 + x then Idle(CloseNow) else Idle(NoOp);
  }

  function Prices(x: nat): seq<Candle> {
    seq(4 + 2 * x, (i: nat) => if i == 2 + x then DIP else FLAT)
  }

  function Scenario(x: nat): Backtest { Backtest(FreeSetup(x), Strategy(x), Prices(x)) }

  lemma ScenarioAdmissible(x: nat)
    ensures Admissible(Scenario(x))
  {
    forall i: nat, history: seq<Candle> ensures Strategy(x)(i, history).Valid() {
      assert Strategy(x)(i, history) in {LONG, Idle(CloseNow), Idle(NoOp)};
    }
  }

  lemma UnitAmounts()
    ensures OnGrid(100.0) && OnGrid(1.0)
    ensures AdversePrice(100.0, Buy, 0.0) == 100.0
    ensures Product(100.0, 1 as real) == 100.0 && Quotient(100.0, 100.0) == 1.0 && Product(1.0, 1.0) == 1.0
  {
    GridPoint(10000000000);
    GridPoint(100000000);
  }

  lemma OpensAt(x: nat, candle: Candle, i: nat)
    requires candle.open == 100.0
    ensures OpenAt(FreeSetup(x), LONG, candle, i).Opened?
    ensures var pos := OpenAt(FreeSetup(x), LONG, candle, i).position;
            && pos.side == Buy && pos.entryIndex == i && pos.stopLoss == 50.0
            && pos.takeProfit == Some(200.0) && pos.levels == []
  {
    hide Quantize, Product, Quotient, AdversePrice, OnGrid;
    UnitAmounts();
  }

  /** The loop's variables while an entry waits for its fill. */
  predicate Waiting(s: State, fill: nat, closeAt: Option<nat>, trades: nat) {
    s.open.None? && s.entry == Some(Pending(LONG, fill)) && s.closeAt == closeAt && |s.trades| == trades
  }

  lemma WaitOne(x: nat, s: State, i: nat, fill: nat, closeAt: Option<nat>, trades: nat)
    requires Waiting(s, fill, closeAt, trades) && i < fill && i < |Prices(x)| && !Strategy(x)(i, s.history).Entry()
    ensures var t := Step(FreeSetup(x), Strategy(x), s, i, Prices(x)[i]);
            t.Some? && Waiting(t.value, fill, closeAt, trades)
  {}

  /** A waiting entry stays as it is until its fill. */
  lemma {:induction false} WaitMany(x: nat, i: nat, fill: nat, closeAt: Option<nat>, trades: nat, s: State)
    requires i <= fill <= |Prices(x)| && After(FreeSetup(x), Strategy(x), Prices(x), i) == Some(s)
    requires Waiting(s, fill, closeAt, trades)
    requires 1 <= i && (fill <= 2 + x || 2 + x < i)
    ensures var t := After(FreeSetup(x), Strategy(x), Prices(x), fill);
            t.Some? && Waiting(t.value, fill, closeAt, trades)
    decreases fill - i
  {
    hide Step;
    if i < fill {
      Answer(x, i, s.history);
      WaitOne(x, s, i, fill, closeAt, trades);
      var t := Step(FreeSetup(x), Strategy(x), s, i, Prices(x)[i]).value;
      assert After(FreeSetup(x), Strategy(x), Prices(x), i + 1) == Some(t);
      WaitMany(x, i + 1, fill, closeAt, trades, t);
    }
  }

  lemma FirstSignal(x: nat)
    ensures var t := Step(FreeSetup(x), Strategy(x), START, 0, Prices(x)[0]);
            t.Some? && Waiting(t.value, 1 + x, None, 0)
  {}

  /** The first entry fills, and the strategy at once asks for a close. */
  lemma FirstFill(x: nat, s: State)
    requires x >= 1 && Waiting(s, 1 + x, None, 0)
    ensures var t := Step(FreeSetup(x), Strategy(x), s, 1 + x, Prices(x)[1 + x]);
            && t.Some? && t.value.open.Some? && t.value.entry.None? && t.value.closeAt == Some(2 + 2 * x)
            && t.value.trades == [] && t.value.open.value.side == Buy && t.value.open.value.stopLoss == 50.0
  {
    OpensAt(x, FLAT, 1 + x);
    Answer(x, 1 + x, s.history);
    hide OpenAt, CloseTrade;
  }

  /** The stop is hit before the close is due; the close stays requested, a new entry waits. */
  lemma StoppedOut(x: nat, s: State)
    requires x >= 1 && s.open.Some? && s.entry.None? && s.closeAt == Some(2 + 2 * x) && s.trades == []
    requires s.open.value.side == Buy && s.open.value.stopLoss == 50.0
    ensures var t := Step(FreeSetup(x), Strategy(x), s, 2 + x, Prices(x)[2 + x]);
            t.Some? && Waiting(t.value, 3 + 2 * x, Some(2 + 2 * x), 1)
  {
    hide OpenAt, CloseTrade;
  }

  lemma WholeTradeReason(x: nat, s: State)
    ensures forall pos: OpenPosition, price: real, i: nat ::
              var t := CloseWhole(FreeSetup(x), pos, price, i, CloseSignal, Market);
              t.reason.CloseSignal? && t.entryIndex == pos.entryIndex
  {}

  /** The second entry fills and is closed in the same candle by the old request. */
  lemma ClosedAtOnce(x: nat, s: State)
    requires x >= 1 && Waiting(s, 3 + 2 * x, Some(2 + 2 * x), 1)
    ensures var t := Step(FreeSetup(x), Strategy(x), s, 3 + 2 * x, Prices(x)[3 + 2 * x]);
            && t.Some? && t.value.open.None? && |t.value.trades| == 2
            && t.value.trades[1].reason.CloseSignal? && t.value.trades[1].entryIndex == 3 + 2 * x
  {
    OpensAt(x, FLAT, 3 + 2 * x);
    WholeTradeReason(x, s);
    hide OpenAt, CloseWhole;
  }

  /** In this scenario, all of whose inputs pass their schemas, a position is closed by a request made
      before it was opened. */
  lemma {:induction false} LateCloseHitsNext(x: nat)
    requires x >= 1
    ensures Admissible(Scenario(x)) && !AllCloseOwn(Scenario(x))
  {
    hide Step;
    ScenarioAdmissible(x);
    var cfg, p, candles := FreeSetup(x), Strategy(x), Prices(x);
    FirstSignal(x);
    var s1 := Step(cfg, p, START, 0, candles[0]).value;
    assert After(cfg, p, candles, 1) == Some(s1);
    WaitMany(x, 1, 1 + x, None, 0, s1);
    var s2 := After(cfg, p, candles, 1 + x).value;
    FirstFill(x, s2);
    var s3 := Step(cfg, p, s2, 1 + x, candles[1 + x]).value;
    assert After(cfg, p, candles, 2 + x) == Some(s3);
    StoppedOut(x, s3);
    var s4 := Step(cfg, p, s3, 2 + x, candles[2 + x]).value;
    assert After(cfg, p, candles, 3 + x) == Some(s4);
    WaitMany(x, 3 + x, 3 + 2 * x, Some(2 + 2 * x), 1, s4);
    var s5 := After(cfg, p, candles, 3 + 2 * x).value;
    ClosedAtOnce(x, s5);
    var s6 := Step(cfg, p, s5, 3 + 2 * x, candles[3 + 2 * x]).value;
    assert After(cfg, p, candles, 4 + 2 * x) == Some(s6);
    assert s6.trades[1] in BacktestRun.Run(cfg, p, candles).value.trades;
    forall j | CloseAsked(Scenario(x), j) ensures j == 1 + x { Answer(x, j, candles[..j]); }
    assert !ClosesOwn(Scenario(x), s6.trades[1]);
  }

  /** Exactly without extra latency does every run close only what was open when asked, also among the
      runs all of whose inputs pass their schemas. */
  lemma {:induction false} CloseOwnIffPrompt(x: nat)
    ensures (forall r: Backtest :: r.cfg.extraCandles == x ==> AllCloseOwn(r)) <==> x == 0
    ensures (forall r: Backtest :: r.cfg.extraCandles == x && Admissible(r) ==> AllCloseOwn(r)) <==> x == 0
  {
    if x == 0 {
      forall r: Backtest | r.cfg.extraCandles == 0 ensures AllCloseOwn(r) { PromptClosesOwn(r); }
    } else {
      LateCloseHitsNext(x);
      assert Scenario(x).cfg.extraCandles == x;
    }
  }
}
