/**
 No lookahead: what the engine has done after k candles depends on those candles and on what
 the strategy answered to strictly earlier ones, and more data never rewrites a trade
 (backend/backtesting/engine.py).
 */
module BacktestLookahead {
  import opened Decimals
  import opened BacktestModel
  import opened BacktestRun

  /** `t` only adds trades to `s`, none of them an end-of-data close, and saw no other candle. */
  predicate Grows(s: State, t: State) {
    && s.trades <= t.trades
    && (forall j :: |s.trades| <= j < |t.trades| ==> !t.trades[j].reason.EndOfData?)
    && t.history == s.history
  }

  lemma ManageGrows(cfg: Setup, s: State, i: nat, candle: Candle)
    ensures Grows(s, Manage(cfg, s, i, candle))
  {
    var t := FillClose(cfg, s, i, candle);
    assert Grows(s, t);
    assert Grows(t, CheckExits(cfg, t, i, candle));
  }

  lemma StepGrows(cfg: Setup, p: Provider, s: State, i: nat, candle: Candle)
    requires Step(cfg, p, s, i, candle).Some?
    ensures var t := Step(cfg, p, s, i, candle).value;
            Grows(s, t.(history := s.history)) && t.history == s.history + [candle]
  {
    var filled := FillEntry(cfg, s, i, candle).value;
    ManageGrows(cfg, filled, i, candle);
  }

  /** The strategy enters a step only through its answer to the past. */
  lemma AnswerDecides(cfg: Setup, p: Provider, q: Provider, s: State, i: nat, candle: Candle)
    requires p(i, s.history) == q(i, s.history)
    ensures Step(cfg, p, s, i, candle) == Step(cfg, q, s, i, candle)
  {
    var filled := FillEntry(cfg, s, i, candle);
    if filled.Some? { ManageGrows(cfg, filled.value, i, candle); }
  }

  lemma {:induction false} HistoryIsPast(cfg: Setup, p: Provider, candles: seq<Candle>, k: nat)
    requires k <= |candles| && After(cfg, p, candles, k).Some?
    ensures After(cfg, p, candles, k).value.history == candles[..k]
  {
    hide Step;
    if k > 0 {
      HistoryIsPast(cfg, p, candles, k - 1);
      StepGrows(cfg, p, After(cfg, p, candles, k - 1).value, k - 1, candles[k - 1]);
      assert candles[..k] == candles[..k - 1] + [candles[k - 1]];
    }
  }

  /** The strategies answer alike to every candle's index and the candles before it. */
  predicate AgreeOnPast(p: Provider, q: Provider, candles: seq<Candle>, k: nat)
    requires k <= |candles|
  {
    forall i :: 0 <= i < k ==> p(i, candles[..i]) == q(i, candles[..i])
  }

  /**
   Two runs whose candles agree up to `k`, with strategies that agree on what lies before each
   of those candles, are in the same state after `k` steps, or have both raised.
   */
  lemma {:induction false} NoLookahead(
    cfg: Setup, p: Provider, q: Provider, a: seq<Candle>, b: seq<Candle>, k: nat
  )
    requires k <= |a| && k <= |b| && a[..k] == b[..k] && AgreeOnPast(p, q, a, k)
    ensures After(cfg, p, a, k) == After(cfg, q, b, k)
  {
    if k > 0 {
      assert a[..k - 1] == a[..k][..k - 1] == b[..k][..k - 1] == b[..k - 1];
      NoLookahead(cfg, p, q, a, b, k - 1);
      assert a[k - 1] == a[..k][k - 1] == b[k - 1];
      var before := After(cfg, p, a, k - 1);
      if before.Some? {
        HistoryIsPast(cfg, p, a, k - 1);
        AnswerDecides(cfg, p, q, before.value, k - 1, a[k - 1]);
      }
    }
  }

  predicate NoEnd(ts: seq<Trade>) { forall j :: 0 <= j < |ts| ==> !ts[j].reason.EndOfData? }

  predicate Appended(s: State, t: State) { s.trades <= t.trades && (NoEnd(s.trades) ==> NoEnd(t.trades)) }

  ghost predicate Appends(f: Stepper) {
    forall s: State, i: nat :: f(s, i).Some? ==> Appended(s, f(s, i).value)
  }

  lemma EngineAppends(cfg: Setup, p: Provider, candles: seq<Candle>)
    ensures Appends(Engine(cfg, p, candles))
  {
    var f := Engine(cfg, p, candles);
    forall s: State, i: nat | f(s, i).Some? ensures Appended(s, f(s, i).value) {
      StepGrows(cfg, p, s, i, candles[i]);
    }
  }

  lemma {:induction false} TradesOnlyGrow(f: Stepper, m: nat, n: nat)
    requires Appends(f) && m <= n && Iterate(f, n).Some?
    ensures Iterate(f, m).Some? && Iterate(f, m).value.trades <= Iterate(f, n).value.trades
    ensures NoEnd(Iterate(f, n).value.trades)
    decreases n
  {
    if n > 0 { TradesOnlyGrow(f, if m < n then m else n - 1, n - 1); }
  }

  /** The trades of a run without the forced close at the end of its data. */
  function WithoutEnd(ts: seq<Trade>): seq<Trade> {
    if ts != [] && ts[|ts| - 1].reason.EndOfData? then ts[..|ts| - 1] else ts
  }

  /**
   Running a prefix of the data gives a prefix of the trades: whatever a backtest decided
   before candle `k` it decides again when more candles follow, and if the prefix raises so
   does the whole.
   */
  lemma {:induction false} PrefixRunsAgree(cfg: Setup, p: Provider, candles: seq<Candle>, k: nat)
    requires k <= |candles|
    ensures Run(cfg, p, candles).Some? ==>
              && Run(cfg, p, candles[..k]).Some?
              && WithoutEnd(Run(cfg, p, candles[..k]).value.trades) <= Run(cfg, p, candles).value.trades
  {
    var n := |candles|;
    if Run(cfg, p, candles).Some? {
      assert candles[..k][..k] == candles[..k];
      NoLookahead(cfg, p, p, candles[..k], candles, k);
      EngineAppends(cfg, p, candles);
      TradesOnlyGrow(Engine(cfg, p, candles), k, n);
      TradesOnlyGrow(Engine(cfg, p, candles), k, k);
      var short := After(cfg, p, candles, k).value;
      assert WithoutEnd(Finish(cfg, short, candles[..k]).trades) == short.trades;
    }
  }
}
