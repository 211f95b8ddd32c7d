/**
 What one tick answers, stated in the prices stored for the symbol and the signed distance of the
 mark from them: which of the five exits it takes, what it orders and what it leaves
 (backend/position_manager/manager.py, tick).
 */
module TickAnswers {
  import opened Decimals
  import opened ExitRules
  import opened ExitMachine
  import opened ExitRuns

  // ---------- The prices of a tick ----------

  /** How far a price has moved in favour of the position, from a level. */
  function Gain(side: Side, from: real, to: real): real { if side.Buy? then to - from else from - to }

  /** The price this far in favour of a level. */
  function Ahead(side: Side, level: real, distance: real): real {
    if side.Buy? then level + distance else level - distance
  }

  /** The stop-loss in force: the stored one, unless the gain reached the trigger and the offset beats it. */
  function StopNow(t: Track, h: Holding, mark: real): Option<real> {
    if t.config.beTrigger.None? || Gain(h.side, h.entry, mark) < t.config.beTrigger.value then t.sl
    else
      var target := Ahead(h.side, h.entry, t.config.beOffset);
      if t.sl.Some? && Gain(h.side, t.sl.value, target) <= 0.0 then t.sl else Some(target)
  }

  /** The best mark seen, this one included. */
  function BestNow(t: Track, h: Holding, mark: real): real {
    if t.highWater.None? || Gain(h.side, t.highWater.value, mark) > 0.0 then mark else t.highWater.value
  }

  /** A reading weighted against the average so far. */
  function Blend(alpha: real, reading: real, average: real): real { alpha * reading + (1.0 - alpha) * average }

  lemma ScalarsAre(x: real, y: real, z: real)
    ensures Smooth(x, y, Some(z)) == Blend(x, y, z)
    ensures PercentDelta(x, y) == Product(x, y) && AtrDelta(x, y) == Product(x, y)
  {}

  /** The ATR in force: the registered one; or, dynamic, the smoothing of positive readings seeded by it. */
  function AtrNow(t: Track, atr: Option<real>): Option<real> {
    var seed := if t.config.atrDynamic && t.smoothedAtr.Some? then t.smoothedAtr else t.config.trailingAtr;
    if !t.config.atrDynamic || atr.None? || atr.value <= 0.0 then seed
    else if seed.None? then atr
    else
      var alpha := if t.config.atrAlpha.Some? then t.config.atrAlpha.value else 1.0;
      Some(Blend(alpha, atr.value, seed.value))
  }

  /** Behind the best mark by a fixed amount, a share of that mark, or a multiple of the ATR. */
  function TrailNow(t: Track, h: Holding, mark: real, atr: Option<real>): Option<real> {
    var best := BestNow(t, h, mark);
    if t.config.trailingDelta.Some? then Some(Ahead(h.side, best, -t.config.trailingDelta.value))
    else if t.config.trailingPercent.Some? then
      Some(Ahead(h.side, best, -Product(best, t.config.trailingPercent.value)))
    else if (t.config.trailingAtr.None? && !t.config.atrDynamic) || AtrNow(t, atr).None? then None
    else
      var multiple := if t.config.atrMultiplier.Some? then t.config.atrMultiplier.value else 1.0;
      Some(Ahead(h.side, best, -Product(AtrNow(t, atr).value, multiple)))
  }

  lemma StopIs(t: Track, h: Holding, mark: real, atr: Option<real>)
    ensures Prepared(t, h, mark, atr).track.sl == StopNow(t, h, mark)
  {}

  lemma AtrIs(t: Track, atr: Option<real>)
    requires t.config.Mode() == Some(Atr)
    ensures AtrInUse(t, atr) == AtrNow(t, atr)
  {
    if atr.Some? && PreviousAtr(t).Some? { ScalarsAre(Alpha(t.config), atr.value, PreviousAtr(t).value); }
    hide Blend;
  }

  lemma TrailIs(t: Track, h: Holding, mark: real, atr: Option<real>)
    ensures Prepared(t, h, mark, atr).stop == TrailNow(t, h, mark, atr)
  {
    hide AtrInUse, NextAtr, AtrNow, PercentDelta, AtrDelta, Product;
    var best := BestNow(t, h, mark);
    assert HighWater(h.side, mark, t.highWater) == best;
    if t.config.trailingPercent.Some? { ScalarsAre(best, t.config.trailingPercent.value, 0.0); }
    if t.config.Mode() == Some(Atr) {
      AtrIs(t, atr);
      if AtrNow(t, atr).Some? {
        ScalarsAre(AtrNow(t, atr).value,
                   if t.config.atrMultiplier.Some? then t.config.atrMultiplier.value else 1.0, 0.0);
      }
    }
  }

  // ---------- What a tick keeps track of ----------

  predicate Trails(config: Config) {
    config.trailingDelta.Some? || config.trailingPercent.Some? || config.trailingAtr.Some? || config.atrDynamic
  }

  predicate SmoothsNow(config: Config, atr: Option<real>) {
    && config.trailingDelta.None? && config.trailingPercent.None? && config.atrDynamic
    && atr.Some? && atr.value > 0.0
  }

  /** The tracked state after the tick's updates: the stop, the best mark, the trailing stop, the ATR. */
  function Watched(t: Track, h: Holding, mark: real, atr: Option<real>): Track {
    var trail := TrailNow(t, h, mark, atr);
    t.(sl := StopNow(t, h, mark),
       highWater := if Trails(t.config) then Some(BestNow(t, h, mark)) else t.highWater,
       trailingStop := if trail.Some? then trail else t.trailingStop,
       smoothedAtr := if SmoothsNow(t.config, atr) then AtrNow(t, atr) else t.smoothedAtr)
  }

  lemma PreparedIs(t: Track, h: Holding, mark: real, atr: Option<real>)
    ensures Prepared(t, h, mark, atr) == Trailed(Watched(t, h, mark, atr), TrailNow(t, h, mark, atr))
  {
    StopIs(t, h, mark, atr);
    TrailIs(t, h, mark, atr);
    if t.config.Mode() == Some(Atr) { AtrIs(t, atr); }
    hide StopNow, TrailNow, AtrNow, StopAt, TrailingDelta, Smooth, BreakEven;
    assert HighWater(h.side, mark, t.highWater) == BestNow(t, h, mark);
  }

  // ---------- The five prices ----------

  predicate StopHit(t: Track, h: Holding, mark: real) {
    var stop := StopNow(t, h, mark); stop.Some? && Gain(h.side, stop.value, mark) <= 0.0
  }

  predicate InvalidationHit(t: Track, h: Holding, mark: real) {
    && t.config.invalidationPrice.Some? && t.config.action.Some? && !t.fired
    && Gain(h.side, t.config.invalidationPrice.value, mark) <= 0.0
  }

  predicate LevelHit(t: Track, h: Holding, mark: real) {
    t.remaining != [] && Gain(h.side, t.remaining[0].price, mark) >= 0.0
  }

  predicate TargetHit(t: Track, h: Holding, mark: real) {
    t.remaining == [] && t.tp.Some? && Gain(h.side, t.tp.value, mark) >= 0.0
  }

  predicate TrailHit(t: Track, h: Holding, i: TickInput) {
    var trail := TrailNow(t, h, i.mark, i.atr); trail.Some? && Gain(h.side, trail.value, i.mark) <= 0.0
  }

  // ---------- Orders ----------

  /** The call raised; a price that is not positive never reaches the exchange. */
  predicate CallRaised(i: TickInput) { i.mark <= 0.0 || i.fate.Raises? }

  /** The position after an order for this quantity, of which the exchange executed its share. */
  function Left(h: Holding, ordered: real, i: TickInput): Option<Holding> {
    var executed := if i.fate.Fills? then ordered else Product(ordered, i.fate.share);
    if i.mark <= 0.0 then Some(h)
    else if executed >= h.quantity then None
    else Some(h.(quantity := h.quantity - executed))
  }

  /** The whole position ordered closed: the configuration is gone, however the call ends. */
  function ClosesWhole(h: Holding, i: TickInput, trigger: Trigger): Outcome {
    Outcome(Sym(None, Left(h, h.quantity, i)), if CallRaised(i) then NoTrigger else trigger, CallRaised(i))
  }

  /** A share ordered closed: the last level drops the configuration, another is spent unless the call raised. */
  function ClosesLevel(w: Track, h: Holding, i: TickInput): Outcome
    requires w.remaining != []
  {
    var left := Left(h, Product(h.quantity, w.remaining[0].fraction), i);
    if CallRaised(i) then Outcome(Sym(if |w.remaining| == 1 then None else Some(w), left), NoTrigger, true)
    else if |w.remaining| == 1 then Outcome(Sym(None, left), TpHit, false)
    else Outcome(Sym(Some(w.(remaining := w.remaining[1..])), left), TpPartial, false)
  }

  /** The invalidation: its share is ordered closed first; unless the call raised, the stop moves, and the
      automatic form is spent. A full close drops the configuration. */
  function Invalidates(w: Track, action: Action, h: Holding, i: TickInput, auto: bool): Outcome {
    var spent := w.(fired := auto || w.fired, sl := if action.newSl.Some? then action.newSl else w.sl);
    if action.fraction <= 0.0 then Outcome(Sym(Some(spent), Some(h)), Invalidated, false)
    else
      var left := Left(h, Product(h.quantity, action.fraction), i);
      var kept := if action.fraction >= 1.0 then None else Some(if CallRaised(i) then w else spent);
      Outcome(Sym(kept, left), if CallRaised(i) then NoTrigger else Invalidated, CallRaised(i))
  }

  // ---------- The answer ----------

  function Answer(t: Track, h: Holding, i: TickInput): Outcome {
    var w := Watched(t, h, i.mark, i.atr);
    if StopHit(t, h, i.mark) then ClosesWhole(h, i, SlHit)
    else if InvalidationHit(t, h, i.mark) then Invalidates(w, t.config.action.value, h, i, true)
    else if LevelHit(t, h, i.mark) then ClosesLevel(w, h, i)
    else if TargetHit(t, h, i.mark) then ClosesWhole(h, i, TpHit)
    else if TrailHit(t, h, i) then ClosesWhole(h, i, TrailingHit)
    else Outcome(Sym(Some(w), Some(h)), NoTrigger, false)
  }

  lemma DecisionIs(t: Track, h: Holding, i: TickInput)
    ensures Decide(Watched(t, h, i.mark, i.atr), h.side, i.mark, TrailNow(t, h, i.mark, i.atr)) ==
            if StopHit(t, h, i.mark) then CloseAll(SlHit)
            else if InvalidationHit(t, h, i.mark) then Invalidate
            else if LevelHit(t, h, i.mark) then TakeLevel
            else if TargetHit(t, h, i.mark) then CloseAll(TpHit)
            else if TrailHit(t, h, i) then CloseAll(TrailingHit)
            else Stay
  {
    hide StopNow, TrailNow, BestNow, AtrNow;
  }

  lemma OrdersAre(w: Track, h: Holding, i: TickInput, trigger: Trigger)
    ensures CloseOut(w, h, trigger, i.mark, i.fate) == ClosesWhole(h, i, trigger)
    ensures w.remaining != [] ==> FireLevel(w, h, i.mark, i.fate) == ClosesLevel(w, h, i)
    ensures forall action: Action, auto: bool ::
              ApplyAction(w, h, action, i.mark, i.fate, auto) == Invalidates(w, action, h, i, auto)
  {
    hide Product;
  }

  lemma WatchKeeps(t: Track, h: Holding, mark: real, atr: Option<real>)
    ensures var w := Watched(t, h, mark, atr); w.remaining == t.remaining && w.config == t.config
  {}

  lemma HitsHave(t: Track, h: Holding, mark: real)
    ensures LevelHit(t, h, mark) ==> t.remaining != []
    ensures InvalidationHit(t, h, mark) ==> t.config.action.Some?
  {}

  /** Every tick: a symbol without a position loses its configuration, one without a configuration is
      left alone, and any other is answered by its prices. */
  lemma TickAnswered(s: Sym, i: TickInput)
    ensures Tick(s, i) ==
            if s.holding.None? then Outcome(Sym(None, None), NoTrigger, false)
            else if s.track.None? then Outcome(s, NoTrigger, false)
            else Answer(s.track.value, s.holding.value, i)
  {
    if s.holding.Some? && s.track.Some? {
      var t, h := s.track.value, s.holding.value;
      PreparedIs(t, h, i.mark, i.atr);
      DecisionIs(t, h, i);
      WatchKeeps(t, h, i.mark, i.atr);
      hide Prepared, Decide, Watched, StopHit, InvalidationHit, LevelHit, TargetHit, TrailHit;
      hide CloseOut, FireLevel, ApplyAction, ClosesWhole, ClosesLevel, Invalidates;
      var w := Watched(t, h, i.mark, i.atr);
      OrdersAre(w, h, i, SlHit);
      OrdersAre(w, h, i, TpHit);
      OrdersAre(w, h, i, TrailingHit);
      HitsHave(t, h, i.mark);
    }
  }

  /** The invalidation by hand does the same to the tracked state as it is, without being spent. */
  lemma HandAnswered(t: Track, h: Holding, action: Action, i: TickInput)
    ensures ApplyAction(t, h, action, i.mark, i.fate, false) == Invalidates(t, action, h, i, false)
  {
    hide Product;
  }

  /** An order at a price that fills takes an exit exactly when one of the five prices is reached. */
  lemma NoTriggerIff(s: Sym, i: TickInput)
    requires Live(s) && i.mark > 0.0 && i.fate.Fills?
    ensures var t, h := s.track.value, s.holding.value;
            Tick(s, i).trigger.NoTrigger? <==>
            && !StopHit(t, h, i.mark) && !InvalidationHit(t, h, i.mark) && !LevelHit(t, h, i.mark)
            && !TargetHit(t, h, i.mark) && !TrailHit(t, h, i)
    ensures Tick(s, i).trigger.NoTrigger? ==>
              Tick(s, i).sym == Sym(Some(Watched(s.track.value, s.holding.value, i.mark, i.atr)), s.holding)
  {
    TickAnswered(s, i);
    hide Tick, StopNow, TrailNow, BestNow, AtrNow, Product;
  }

  /** A single target reached in favour, with the stop clear of the mark and no invalidation due, closes
      everything at the first tick whose order fills. */
  lemma TargetCloses(s: Sym, i: TickInput)
    requires Live(s) && s.track.value.remaining == [] && TargetHit(s.track.value, s.holding.value, i.mark)
    requires !StopHit(s.track.value, s.holding.value, i.mark)
    requires !InvalidationHit(s.track.value, s.holding.value, i.mark)
    requires i.mark > 0.0 && i.fate.Fills?
    ensures Tick(s, i) == Outcome(Sym(None, None), TpHit, false)
  {
    TickAnswered(s, i);
  }

  // ---------- The service ----------

  /** A configuration as it is registered: its own exits, and nothing of earlier ticks. */
  function Registered(config: Config): Track {
    Track(config, None, None, config.stopLoss, config.takeProfit, config.levels, None, false)
  }

  /** A served symbol: skipped without a price or a configuration; else its tick's answer, reported
      unless the call raised, with what a raised full close dropped registered anew. */
  lemma ServeAnswered(s: Sym, i: CycleInput)
    ensures ServeAndReport(s, i) ==
            if s.track.None? || i.mark.None? then Served(s, None)
            else if s.holding.None? then Served(Sym(None, None), Some(NoTrigger))
            else
              var input := TickInput(i.mark.value, None, i.fate);
              var o := Answer(s.track.value, s.holding.value, input);
              if !o.raised then Served(o.sym, Some(o.trigger))
              else if o.sym.track.Some? then Served(o.sym, None)
              else Served(Sym(Some(Registered(s.track.value.config)), o.sym.holding), None)
  {
    if i.mark.Some? { TickAnswered(s, TickInput(i.mark.value, None, i.fate)); }
    hide Tick, Answer;
  }
}
