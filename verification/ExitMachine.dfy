/**
 One symbol under the position manager: the tracked exit state, the position the exchange
 reports, and what a tick or a tick-service cycle does to both
 (backend/position_manager/manager.py, backend/position_manager/tick_service.py).
 */
module ExitMachine {
  import opened Decimals
  import opened ExitRules

  /** What the manager reads of an open position. */
  datatype Holding = Holding(side: Side, quantity: real, entry: real) {
    predicate Valid() { quantity > 0.0 && entry > 0.0 }
  }

  /** The per-symbol entries of the manager's dictionaries. */
  datatype Track = Track(
    config: Config, highWater: Option<real>, trailingStop: Option<real>, sl: Option<real>,
    tp: Option<real>, remaining: seq<Level>, smoothedAtr: Option<real>, fired: bool)
  {
    predicate Valid() {
      && config.Valid()
      && (forall i :: 0 <= i < |remaining| ==> remaining[i].Valid())
      && Positive(smoothedAtr)
    }
  }

  /** `set_config`: what registering a configuration leaves behind. */
  function Fresh(config: Config): Track {
    Track(config, None, None, config.stopLoss, config.takeProfit, config.levels, None, false)
  }

  datatype Sym = Sym(track: Option<Track>, holding: Option<Holding>) {
    predicate Valid() {
      && (track.Some? ==> track.value.Valid())
      && (holding.Some? ==> holding.value.Valid())
    }
  }

  /**
   How a close order ends: it returns filled; it returns having filled only a share of its
   quantity (pending, cancelled, failed or partly filled: the manager does not look at the
   status); or the call raises after any share of it was filled, none and all included.
   */
  datatype Fate = Fills | ReturnsShort(share: real) | Raises(share: real) {
    predicate Valid() {
      (ReturnsShort? ==> 0.0 <= share < 1.0) && (Raises? ==> 0.0 <= share <= 1.0)
    }

    /** It filled if it returned, and filled nothing if it raised. */
    predicate AllOrNothing() { Fills? || (Raises? && share == 0.0) }
  }

  datatype Trigger = NoTrigger | SlHit | TpHit | TpPartial | TrailingHit | Invalidated

  datatype Outcome = Outcome(sym: Sym, trigger: Trigger, raised: bool)

  datatype TickInput = TickInput(mark: real, atr: Option<real>, fate: Fate) {
    predicate Valid() { fate.Valid() }
  }

  // ---------- Trailing and break-even ----------

  datatype Trailed = Trailed(track: Track, stop: Option<real>)

  /** A non-positive live ATR is discarded. */
  function AcceptedAtr(atr: Option<real>): Option<real> {
    if atr.Some? && atr.value <= 0.0 then None else atr
  }

  function Alpha(config: Config): real { if config.atrAlpha.Some? then config.atrAlpha.value else 1.0 }

  function PreviousAtr(t: Track): Option<real> {
    if t.smoothedAtr.Some? then t.smoothedAtr else t.config.trailingAtr
  }

  /** The stored smoothed ATR after a tick. */
  function NextAtr(t: Track, atr: Option<real>): Option<real> {
    if t.config.Mode() == Some(Atr) && t.config.atrDynamic && AcceptedAtr(atr).Some? then
      Some(Smooth(Alpha(t.config), AcceptedAtr(atr).value, PreviousAtr(t)))
    else t.smoothedAtr
  }

  /** The ATR the distance is computed from: live when dynamic, else the snapshot. */
  function AtrInUse(t: Track, atr: Option<real>): Option<real> {
    if t.config.Mode() == Some(Atr) && t.config.atrDynamic then
      if NextAtr(t, atr).Some? then NextAtr(t, atr) else t.config.trailingAtr
    else t.config.trailingAtr
  }

  /** Updates high-water mark, smoothed ATR and stop; `stop` is this tick's, if computable. */
  function Trail(t: Track, side: Side, mark: real, atr: Option<real>): Trailed {
    if t.config.Mode().None? then Trailed(t, None) else
    var mode := t.config.Mode().value;
    var hw := HighWater(side, mark, t.highWater);
    var u := t.(highWater := Some(hw), smoothedAtr := NextAtr(t, atr));
    if mode.Atr? && AtrInUse(t, atr).None? then Trailed(u, None)
    else
      var stop := StopAt(side, hw, TrailingDelta(t.config, mode, hw, AtrInUse(t, atr)));
      Trailed(u.(trailingStop := Some(stop)), Some(stop))
  }

  function MoveToBreakEven(t: Track, h: Holding, mark: real): Track {
    if t.config.beTrigger.None? then t else
    var moved := BreakEven(h.side, h.entry, mark, t.config.beTrigger.value, t.sl, t.config.beOffset);
    if moved.Some? then t.(sl := moved) else t
  }

  /** The tracked state on which the triggers of a tick are evaluated. */
  function Prepared(t: Track, h: Holding, mark: real, atr: Option<real>): Trailed {
    var trailed := Trail(t, h.side, mark, atr);
    trailed.(track := MoveToBreakEven(trailed.track, h, mark))
  }

  // ---------- Triggers, in priority order ----------

  datatype Exit = Stay | CloseAll(trigger: Trigger) | TakeLevel | Invalidate

  predicate InvalidationDue(t: Track, side: Side, mark: real) {
    && t.config.invalidationPrice.Some? && t.config.action.Some? && !t.fired
    && Against(side, mark, t.config.invalidationPrice.value)
  }

  function Decide(t: Track, side: Side, mark: real, stop: Option<real>): Exit {
    if t.sl.Some? && Against(side, mark, t.sl.value) then CloseAll(SlHit)
    else if InvalidationDue(t, side, mark) then Invalidate
    else if t.remaining != [] && InFavour(side, mark, t.remaining[0].price) then TakeLevel
    else if t.remaining == [] && t.tp.Some? && InFavour(side, mark, t.tp.value) then CloseAll(TpHit)
    else if stop.Some? && Against(side, mark, stop.value) then CloseAll(TrailingHit)
    else Stay
  }

  // ---------- Orders ----------

  /** What remains after a reduce-only fill. */
  function Shrink(h: Holding, quantity: real): Option<Holding> {
    if quantity >= h.quantity then None else Some(h.(quantity := h.quantity - quantity))
  }

  /** The call returned, whatever the order's status. A close order with a non-positive price is
      rejected before it reaches the exchange. */
  predicate Succeeds(mark: real, fate: Fate) { (fate.Fills? || fate.ReturnsShort?) && mark > 0.0 }

  function AfterOrder(h: Holding, quantity: real, mark: real, fate: Fate): Option<Holding> {
    if mark <= 0.0 then Some(h)
    else if fate.Fills? then Shrink(h, quantity)
    else Shrink(h, Product(quantity, fate.share))
  }

  /** Full closes drop the configuration even when the order raises. */
  function CloseOut(t: Track, h: Holding, trigger: Trigger, mark: real, fate: Fate): Outcome {
    Outcome(Sym(None, AfterOrder(h, h.quantity, mark, fate)),
            if Succeeds(mark, fate) then trigger else NoTrigger, !Succeeds(mark, fate))
  }

  /** A partial level is consumed by an order that returned and kept by one that raised. */
  function FireLevel(t: Track, h: Holding, mark: real, fate: Fate): Outcome
    requires t.remaining != []
  {
    var last := |t.remaining| == 1;
    var ok := Succeeds(mark, fate);
    var after := AfterOrder(h, Product(h.quantity, t.remaining[0].fraction), mark, fate);
    Outcome(Sym(if last then None else if ok then Some(t.(remaining := t.remaining[1..])) else Some(t), after),
            if !ok then NoTrigger else if last then TpHit else TpPartial, !ok)
  }

  /** `_apply_invalidation_action`; `fired` marks the automatic form once it applied. */
  function ApplyAction(t: Track, h: Holding, action: Action, mark: real, fate: Fate, auto: bool): Outcome {
    var applied := t.(sl := if action.newSl.Some? then action.newSl else t.sl, fired := t.fired || auto);
    if action.fraction <= 0.0 then Outcome(Sym(Some(applied), Some(h)), Invalidated, false)
    else
      var full := action.fraction >= 1.0;
      var ok := Succeeds(mark, fate);
      Outcome(Sym(if full then None else if ok then Some(applied) else Some(t),
                  AfterOrder(h, Product(h.quantity, action.fraction), mark, fate)),
              if ok then Invalidated else NoTrigger, !ok)
  }

  function Execute(t: Track, h: Holding, exit: Exit, mark: real, fate: Fate): Outcome
    requires exit.TakeLevel? ==> t.remaining != []
    requires exit.Invalidate? ==> t.config.action.Some?
  {
    match exit
    case Stay => Outcome(Sym(Some(t), Some(h)), NoTrigger, false)
    case CloseAll(trigger) => CloseOut(t, h, trigger, mark, fate)
    case TakeLevel => FireLevel(t, h, mark, fate)
    case Invalidate => ApplyAction(t, h, t.config.action.value, mark, fate, true)
  }

  /** `PositionManager.tick`. */
  function Tick(s: Sym, i: TickInput): Outcome {
    if s.holding.None? then Outcome(s.(track := None), NoTrigger, false)
    else if s.track.None? then Outcome(s, NoTrigger, false)
    else
      var h := s.holding.value;
      var p := Prepared(s.track.value, h, i.mark, i.atr);
      Execute(p.track, h, Decide(p.track, h.side, i.mark, p.stop), i.mark, i.fate)
  }

  // ---------- The tick service ----------

  /** `mark` is None when the price or position source failed for the symbol. */
  datatype CycleInput = CycleInput(mark: Option<real>, fate: Fate) {
    predicate Valid() { fate.Valid() }
  }

  /** The symbol after its turn, and the trigger reported if its tick did not raise. */
  datatype Served = Served(sym: Sym, report: Option<Trigger>)

  /** One symbol of `tick_all`: skip without a price, re-register what a failure orphaned. */
  function ServeAndReport(s: Sym, i: CycleInput): Served {
    if s.track.None? || i.mark.None? then Served(s, None) else
    var o := Tick(s, TickInput(i.mark.value, None, i.fate));
    if !o.raised then Served(o.sym, Some(o.trigger))
    else if o.sym.track.None? then Served(o.sym.(track := Some(Fresh(s.track.value.config))), None)
    else Served(o.sym, None)
  }

  function Serve(s: Sym, i: CycleInput): Sym { ServeAndReport(s, i).sym }

  // ---------- Validity ----------

  lemma AtrPositive(alpha: real, atr: real, previous: Option<real>)
    requires 0.0 < alpha <= 1.0 && atr > 0.0 && Positive(previous)
    ensures Smooth(alpha, atr, previous) > 0.0
  {
    if previous.Some? {
      SmoothBetween(alpha, atr, previous, Min(atr, previous.value), Max(atr, previous.value));
    }
  }

  lemma PreparedValid(t: Track, h: Holding, mark: real, atr: Option<real>)
    requires t.Valid()
    ensures Prepared(t, h, mark, atr).track.Valid()
    ensures var u := Prepared(t, h, mark, atr).track;
            u.config == t.config && u.remaining == t.remaining && u.fired == t.fired && u.tp == t.tp
  {
    if NextAtr(t, atr) != t.smoothedAtr {
      AtrPositive(Alpha(t.config), atr.value, PreviousAtr(t));
    }
  }

  lemma ExecuteValid(t: Track, h: Holding, exit: Exit, mark: real, fate: Fate)
    requires t.Valid() && h.Valid()
    requires exit.TakeLevel? ==> t.remaining != []
    requires exit.Invalidate? ==> t.config.action.Some?
    ensures Execute(t, h, exit, mark, fate).sym.Valid()
  {}

  lemma TickValid(s: Sym, i: TickInput)
    requires s.Valid()
    ensures Tick(s, i).sym.Valid()
  {
    if s.track.Some? && s.holding.Some? {
      var h := s.holding.value;
      PreparedValid(s.track.value, h, i.mark, i.atr);
      var p := Prepared(s.track.value, h, i.mark, i.atr);
      ExecuteValid(p.track, h, Decide(p.track, h.side, i.mark, p.stop), i.mark, i.fate);
    }
  }

  lemma ServeValid(s: Sym, i: CycleInput)
    requires s.Valid()
    ensures Serve(s, i).Valid()
  {
    if i.mark.Some? { TickValid(s, TickInput(i.mark.value, None, i.fate)); }
  }
}
