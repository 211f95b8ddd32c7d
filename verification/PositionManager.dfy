/**
 The position manager's per-symbol dictionaries, mutated in place, and the tick service that
 drives them; both are proved against the one-symbol machine of ExitMachine.
 */
module PositionManager {
  import opened Decimals
  import opened ExitRules
  import opened ExitMachine

  type Symbol = string

  // Dictionary access in the program's terms: get, assignment and pop.

  function Get<T>(m: map<Symbol, T>, k: Symbol): Option<T> { if k in m then Some(m[k]) else None }

  function GetOr<T>(m: map<Symbol, T>, k: Symbol, default: T): T {
    match Get(m, k)
    case Some(v) => v
    case None => default
  }

  function Put<T>(m: map<Symbol, T>, k: Symbol, v: T): (r: map<Symbol, T>)
    ensures r.Keys == m.Keys + {k}
    ensures forall s :: Get(r, s) == if s == k then Some(v) else Get(m, s)
  {
    m[k := v]
  }

  function Pop<T>(m: map<Symbol, T>, k: Symbol): (r: map<Symbol, T>)
    ensures r.Keys == m.Keys - {k}
    ensures forall s :: Get(r, s) == if s == k then None else Get(m, s)
  {
    m - {k}
  }

  /** The positions an exchange reports, and the close orders it fills. */
  class Exchange {
    var holdings: map<Symbol, Holding>

    constructor ()
      ensures holdings == map[]
    {
      holdings := map[];
    }

    function HoldingOf(symbol: Symbol): Option<Holding>
      reads this
    {
      Get(holdings, symbol)
    }

    /** A reduce-only market order for part of a held position; `ok` when the call returned. */
    method PlaceClose(symbol: Symbol, quantity: real, mark: real, fate: Fate) returns (ok: bool)
      requires symbol in holdings
      modifies this
      ensures ok == Succeeds(mark, fate)
      ensures HoldingOf(symbol) == AfterOrder(old(holdings)[symbol], quantity, mark, fate)
      ensures forall s :: s != symbol ==> HoldingOf(s) == old(HoldingOf(s))
    {
      ok := mark > 0.0 && (fate.Fills? || fate.ReturnsShort?);
      if mark > 0.0 {
        var executed := if fate.Fills? then quantity else Product(quantity, fate.share);
        var left := Shrink(holdings[symbol], executed);
        holdings := if left.Some? then Put(holdings, symbol, left.value) else Pop(holdings, symbol);
      }
    }
  }

  class Manager {
    const exchange: Exchange
    var configs: map<Symbol, Config>
    var highWater: map<Symbol, real>
    var trailingStop: map<Symbol, real>
    var effectiveSl: map<Symbol, Option<real>>
    var effectiveTp: map<Symbol, Option<real>>
    var remainingLevels: map<Symbol, seq<Level>>
    var smoothedAtr: map<Symbol, real>
    var autoFired: set<Symbol>

    /** The symbol's entries gathered into one value, with the defaults the program reads. */
    function TrackOf(symbol: Symbol): Option<Track>
      reads this
    {
      if symbol !in configs then None else
      Some(Track(configs[symbol], Get(highWater, symbol), Get(trailingStop, symbol),
                 GetOr(effectiveSl, symbol, None), GetOr(effectiveTp, symbol, None),
                 GetOr(remainingLevels, symbol, []), Get(smoothedAtr, symbol), symbol in autoFired))
    }

    function SymOf(symbol: Symbol): Sym
      reads this, exchange
    {
      Sym(TrackOf(symbol), exchange.HoldingOf(symbol))
    }

    constructor (exchange: Exchange)
      ensures configs == map[] && this.exchange == exchange
    {
      this.exchange := exchange;
      configs, highWater, trailingStop, smoothedAtr := map[], map[], map[], map[];
      effectiveSl, effectiveTp, remainingLevels, autoFired := map[], map[], map[], {};
    }

    /** Trailing progress and the invalidation mark do not survive a registration or removal. */
    method ForgetProgress(symbol: Symbol)
      modifies this`highWater, this`trailingStop, this`smoothedAtr, this`autoFired
      ensures forall s :: Get(highWater, s) == if s == symbol then None else old(Get(highWater, s))
      ensures forall s :: Get(trailingStop, s) == if s == symbol then None else old(Get(trailingStop, s))
      ensures forall s :: Get(smoothedAtr, s) == if s == symbol then None else old(Get(smoothedAtr, s))
      ensures autoFired == old(autoFired) - {symbol}
    {
      highWater := Pop(highWater, symbol);
      trailingStop := Pop(trailingStop, symbol);
      smoothedAtr := Pop(smoothedAtr, symbol);
      autoFired := autoFired - {symbol};
    }

    method SetConfig(symbol: Symbol, config: Config)
      modifies this
      ensures configs.Keys == old(configs.Keys) + {symbol}
      ensures TrackOf(symbol) == Some(Fresh(config))
      ensures forall s :: s != symbol ==> TrackOf(s) == old(TrackOf(s))
    {
      configs := Put(configs, symbol, config);
      effectiveSl := Put(effectiveSl, symbol, config.stopLoss);
      effectiveTp := Put(effectiveTp, symbol, config.takeProfit);
      remainingLevels := Put(remainingLevels, symbol, config.levels);
      ForgetProgress(symbol);
    }

    method RemoveConfig(symbol: Symbol)
      modifies this
      ensures configs.Keys == old(configs.Keys) - {symbol}
      ensures TrackOf(symbol) == None
      ensures forall s :: s != symbol ==> TrackOf(s) == old(TrackOf(s))
    {
      configs := Pop(configs, symbol);
      effectiveSl := Pop(effectiveSl, symbol);
      effectiveTp := Pop(effectiveTp, symbol);
      remainingLevels := Pop(remainingLevels, symbol);
      ForgetProgress(symbol);
    }

    /** Raises on an unknown symbol, else replaces the effective stop alone. */
    method UpdateSl(symbol: Symbol, sl: real) returns (ok: bool)
      modifies this`effectiveSl
      ensures ok == (symbol in configs)
      ensures TrackOf(symbol) == if ok then Some(old(TrackOf(symbol)).value.(sl := Some(sl))) else None
      ensures forall s :: s != symbol ==> TrackOf(s) == old(TrackOf(s))
    {
      ok := symbol in configs;
      if ok { effectiveSl := Put(effectiveSl, symbol, Some(sl)); }
    }

    /** Raises on an unknown symbol, else discards pending levels for a single target. */
    method UpdateTp(symbol: Symbol, tp: real) returns (ok: bool)
      modifies this`effectiveTp, this`remainingLevels
      ensures ok == (symbol in configs)
      ensures TrackOf(symbol) ==
              if ok then Some(old(TrackOf(symbol)).value.(remaining := [], tp := Some(tp))) else None
      ensures forall s :: s != symbol ==> TrackOf(s) == old(TrackOf(s))
    {
      ok := symbol in configs;
      if ok {
        remainingLevels := Put(remainingLevels, symbol, []);
        effectiveTp := Put(effectiveTp, symbol, Some(tp));
      }
    }

    /** `_update_smoothed_atr`, after discarding a non-positive reading. */
    method UpdateSmoothedAtr(symbol: Symbol, atr: Option<real>) returns (value: Option<real>)
      requires symbol in configs
      requires configs[symbol].Mode() == Some(Atr) && configs[symbol].atrDynamic
      modifies this`smoothedAtr
      ensures var t := old(TrackOf(symbol)).value;
              TrackOf(symbol) == Some(t.(smoothedAtr := NextAtr(t, atr))) && value == AtrInUse(t, atr)
      ensures forall s :: s != symbol ==> TrackOf(s) == old(TrackOf(s))
    {
      var config := configs[symbol];
      var previous := if Get(smoothedAtr, symbol).Some? then Get(smoothedAtr, symbol) else config.trailingAtr;
      var accepted := AcceptedAtr(atr);
      if accepted.None? {
        return previous;
      }
      value := Some(Smooth(Alpha(config), accepted.value, previous));
      smoothedAtr := Put(smoothedAtr, symbol, value.value);
    }

    /** Trailing part of a tick: high-water mark, smoothed ATR, stop. */
    method UpdateTrailing(symbol: Symbol, side: Side, mark: real, atr: Option<real>) returns (stop: Option<real>)
      requires symbol in configs
      modifies this`highWater, this`smoothedAtr, this`trailingStop
      ensures Trailed(TrackOf(symbol).value, stop) == Trail(old(TrackOf(symbol)).value, side, mark, atr)
      ensures forall s :: s != symbol ==> TrackOf(s) == old(TrackOf(s))
    {
      var config := configs[symbol];
      var mode := config.Mode();
      if mode.None? {
        return None;
      }
      var hw := HighWater(side, mark, Get(highWater, symbol));
      var atrValue := config.trailingAtr;
      if mode.value.Atr? && config.atrDynamic {
        atrValue := UpdateSmoothedAtr(symbol, atr);
      }
      highWater := Put(highWater, symbol, hw);
      if mode.value.Atr? && atrValue.None? {
        return None;
      }
      stop := Some(StopAt(side, hw, TrailingDelta(config, mode.value, hw, atrValue)));
      trailingStop := Put(trailingStop, symbol, stop.value);
    }

    method ApplyBreakEven(symbol: Symbol, h: Holding, mark: real)
      requires symbol in configs
      modifies this`effectiveSl
      ensures TrackOf(symbol) == Some(MoveToBreakEven(old(TrackOf(symbol)).value, h, mark))
      ensures forall s :: s != symbol ==> TrackOf(s) == old(TrackOf(s))
    {
      var config := configs[symbol];
      if config.beTrigger.Some? {
        var moved := BreakEven(h.side, h.entry, mark, config.beTrigger.value,
                               GetOr(effectiveSl, symbol, None), config.beOffset);
        if moved.Some? { effectiveSl := Put(effectiveSl, symbol, moved); }
      }
    }

    /** Places the order and removes the configuration whether or not it raised. */
    method CloseAndRemove(symbol: Symbol, h: Holding, trigger: Trigger, mark: real, fate: Fate)
      returns (fired: Trigger, raised: bool)
      requires symbol in configs && exchange.HoldingOf(symbol) == Some(h)
      modifies this, exchange
      ensures configs.Keys == old(configs.Keys) - {symbol}
      ensures Outcome(SymOf(symbol), fired, raised) == CloseOut(old(TrackOf(symbol)).value, h, trigger, mark, fate)
      ensures forall s :: s != symbol ==> SymOf(s) == old(SymOf(s))
    {
      var ok := exchange.PlaceClose(symbol, h.quantity, mark, fate);
      RemoveConfig(symbol);
      fired := if ok then trigger else NoTrigger;
      raised := !ok;
    }

    method TakeNextLevel(symbol: Symbol, h: Holding, mark: real, fate: Fate) returns (fired: Trigger, raised: bool)
      requires symbol in configs && exchange.HoldingOf(symbol) == Some(h)
      requires GetOr(remainingLevels, symbol, []) != []
      modifies this, exchange
      ensures configs.Keys <= old(configs.Keys) && old(configs.Keys) - {symbol} <= configs.Keys
      ensures Outcome(SymOf(symbol), fired, raised) == FireLevel(old(TrackOf(symbol)).value, h, mark, fate)
      ensures forall s :: s != symbol ==> SymOf(s) == old(SymOf(s))
    {
      var levels := GetOr(remainingLevels, symbol, []);
      var last := |levels| == 1;
      var ok := exchange.PlaceClose(symbol, Product(h.quantity, levels[0].fraction), mark, fate);
      if last {
        RemoveConfig(symbol);
      } else if ok {
        remainingLevels := Put(remainingLevels, symbol, levels[1..]);
      }
      fired := if !ok then NoTrigger else if last then TpHit else TpPartial;
      raised := !ok;
    }

    /** The stop move of an applied action, and the mark that keeps the automatic one single. */
    method RecordInvalidation(symbol: Symbol, action: Action, auto: bool)
      requires symbol in configs
      modifies this`effectiveSl, this`autoFired
      ensures var t := old(TrackOf(symbol)).value;
              TrackOf(symbol) == Some(t.(sl := if action.newSl.Some? then action.newSl else t.sl,
                                         fired := t.fired || auto))
      ensures forall s :: s != symbol ==> TrackOf(s) == old(TrackOf(s))
    {
      if action.newSl.Some? { effectiveSl := Put(effectiveSl, symbol, action.newSl); }
      if auto { autoFired := autoFired + {symbol}; }
    }

    method ApplyInvalidation(symbol: Symbol, h: Holding, mark: real, fate: Fate, auto: bool)
      returns (fired: Trigger, raised: bool)
      requires symbol in configs && configs[symbol].action.Some?
      requires exchange.HoldingOf(symbol) == Some(h)
      modifies this, exchange
      ensures configs.Keys <= old(configs.Keys) && old(configs.Keys) - {symbol} <= configs.Keys
      ensures Outcome(SymOf(symbol), fired, raised) ==
              ApplyAction(old(TrackOf(symbol)).value, h, old(configs)[symbol].action.value, mark, fate, auto)
      ensures forall s :: s != symbol ==> SymOf(s) == old(SymOf(s))
    {
      var action := configs[symbol].action.value;
      if action.fraction > 0.0 {
        var ok := exchange.PlaceClose(symbol, Product(h.quantity, action.fraction), mark, fate);
        if action.fraction >= 1.0 { RemoveConfig(symbol); }
        if !ok {
          return NoTrigger, true;
        }
      }
      if symbol in configs { RecordInvalidation(symbol, action, auto); }
      fired, raised := Invalidated, false;
    }

    /** Manual invalidation: nothing to do without configuration, action or position. */
    method TriggerSetupInvalidation(symbol: Symbol, mark: real, fate: Fate)
      returns (fired: Option<Trigger>, raised: bool)
      modifies this, exchange
      ensures var s := old(SymOf(symbol));
              if s.track.None? || s.holding.None? || s.track.value.config.action.None?
              then SymOf(symbol) == s && fired == None && !raised
              else fired.Some? && Outcome(SymOf(symbol), fired.value, raised) ==
                   ApplyAction(s.track.value, s.holding.value, s.track.value.config.action.value, mark, fate, false)
      ensures forall s :: s != symbol ==> SymOf(s) == old(SymOf(s))
    {
      if symbol !in configs || configs[symbol].action.None? || symbol !in exchange.holdings {
        return None, false;
      }
      var trigger;
      trigger, raised := ApplyInvalidation(symbol, exchange.holdings[symbol], mark, fate, false);
      fired := Some(trigger);
    }

    method Tick(symbol: Symbol, mark: real, atr: Option<real>, fate: Fate) returns (fired: Trigger, raised: bool)
      modifies this, exchange
      ensures configs.Keys <= old(configs.Keys) && old(configs.Keys) - {symbol} <= configs.Keys
      ensures Outcome(SymOf(symbol), fired, raised) ==
              ExitMachine.Tick(old(SymOf(symbol)), TickInput(mark, atr, fate))
      ensures forall s :: s != symbol ==> SymOf(s) == old(SymOf(s))
    {
      fired, raised := NoTrigger, false;
      if symbol !in exchange.holdings {
        RemoveConfig(symbol);
        return;
      }
      if symbol !in configs {
        return;
      }
      var h := exchange.holdings[symbol];
      var stop := UpdateTrailing(symbol, h.side, mark, atr);
      ApplyBreakEven(symbol, h, mark);
      var exit := Decide(TrackOf(symbol).value, h.side, mark, stop);
      match exit {
        case Stay =>
        case CloseAll(trigger) => fired, raised := CloseAndRemove(symbol, h, trigger, mark, fate);
        case TakeLevel => fired, raised := TakeNextLevel(symbol, h, mark, fate);
        case Invalidate => fired, raised := ApplyInvalidation(symbol, h, mark, fate, true);
      }
    }
  }

  datatype TickResult = TickResult(symbol: Symbol, trigger: Trigger, mark: real)

  /** One symbol of a cycle: skipped without a price, re-registered when a failure orphaned it. */
  method ServeSymbol(pm: Manager, symbol: Symbol, input: CycleInput) returns (report: Option<Trigger>)
    requires symbol in pm.configs
    modifies pm, pm.exchange
    ensures Served(pm.SymOf(symbol), report) == ServeAndReport(old(pm.SymOf(symbol)), input)
    ensures forall s :: s != symbol ==> pm.SymOf(s) == old(pm.SymOf(s))
  {
    if input.mark.None? {
      return None;
    }
    var before := pm.configs[symbol];
    var trigger, raised := pm.Tick(symbol, input.mark.value, None, input.fate);
    if !raised {
      return Some(trigger);
    }
    if symbol !in pm.configs { pm.SetConfig(symbol, before); }
    report := None;
  }

  /** What a cycle makes of a symbol: configured symbols are served, others left alone. */
  function Cycled(s: Sym, input: Option<CycleInput>): Served {
    if input.Some? then ServeAndReport(s, input.value) else Served(s, None)
  }

  /** One cycle over all configured symbols; failures of one symbol do not reach the others. */
  method TickAll(pm: Manager, inputs: map<Symbol, CycleInput>) returns (reports: map<Symbol, Trigger>)
    requires pm.configs.Keys <= inputs.Keys
    modifies pm, pm.exchange
    ensures forall s :: Served(pm.SymOf(s), Get(reports, s)) == Cycled(old(pm.SymOf(s)), Get(inputs, s))
  {
    reports := map[];
    var pending := pm.configs.Keys;
    while pending != {}
      invariant pending <= inputs.Keys
      invariant forall s :: s in pending ==>
                  pm.SymOf(s) == old(pm.SymOf(s)) && pm.SymOf(s).track.Some? && s !in reports
      invariant forall s :: s !in pending ==>
                  Served(pm.SymOf(s), Get(reports, s)) == Cycled(old(pm.SymOf(s)), Get(inputs, s))
      decreases pending
    {
      var symbol :| symbol in pending;
      ghost var earlier := reports;
      label turn:
      var report := ServeSymbol(pm, symbol, inputs[symbol]);
      if report.Some? { reports := Put(reports, symbol, report.value); }
      pending := pending - {symbol};
      assert Served(pm.SymOf(symbol), Get(reports, symbol)) == Cycled(old(pm.SymOf(symbol)), Get(inputs, symbol));
      assert forall s :: s != symbol ==> pm.SymOf(s) == old@turn(pm.SymOf(s)) && Get(reports, s) == Get(earlier, s);
    }
  }
}
