/**
 Exit configuration and its pure rules: validation, trailing distance, break-even and the
 mapping from an approved decision (backend/position_manager).
 */
module ExitRules {
  import opened Decimals

  datatype Level = Level(price: real, fraction: real) {
    predicate Valid() { price > 0.0 && 0.0 < fraction <= 1.0 }
  }

  datatype Action = Action(newSl: Option<real>, fraction: real) {
    predicate Valid() {
      && (newSl.Some? ==> newSl.value > 0.0)
      && 0.0 <= fraction <= 1.0
      && (newSl.Some? || fraction > 0.0)
    }
  }

  datatype TrailingMode = Fixed | Percent | Atr

  predicate Positive(x: Option<real>) { x.Some? ==> x.value > 0.0 }

  datatype Config = Config(
    stopLoss: Option<real>, takeProfit: Option<real>, levels: seq<Level>,
    trailingDelta: Option<real>, trailingPercent: Option<real>, trailingAtr: Option<real>,
    atrMultiplier: Option<real>, atrDynamic: bool, atrAlpha: Option<real>,
    beTrigger: Option<real>, beOffset: real,
    action: Option<Action>, invalidationPrice: Option<real>)
  {
    predicate HasAtr() { trailingAtr.Some? || atrDynamic }

    /** The trailing mode follows from which parameter is set. */
    function Mode(): Option<TrailingMode> {
      if trailingDelta.Some? then Some(Fixed)
      else if trailingPercent.Some? then Some(Percent)
      else if HasAtr() then Some(Atr)
      else None
    }

    predicate FieldsValid() {
      && Positive(stopLoss) && Positive(takeProfit)
      && (forall i :: 0 <= i < |levels| ==> levels[i].Valid())
      && Positive(trailingDelta) && Positive(trailingAtr) && Positive(atrMultiplier)
      && (trailingPercent.Some? ==> 0.0 < trailingPercent.value < 1.0)
      && (atrAlpha.Some? ==> 0.0 < atrAlpha.value <= 1.0)
      && Positive(beTrigger) && beOffset >= 0.0
      && (action.Some? ==> action.value.Valid()) && Positive(invalidationPrice)
    }

    /** Everything the schema checks when a configuration is built. */
    predicate Valid() {
      && FieldsValid()
      && !(takeProfit.Some? && levels != [])
      && !(trailingDelta.Some? && trailingPercent.Some?)
      && !((trailingDelta.Some? || trailingPercent.Some?) && HasAtr())
      && ((atrMultiplier.Some? || atrAlpha.Some?) ==> HasAtr())
      && (stopLoss.Some? || takeProfit.Some? || levels != [] || Mode().Some?)
      && (beOffset > 0.0 ==> beTrigger.Some?)
      && (beTrigger.Some? ==> beOffset < beTrigger.value)
      && (invalidationPrice.Some? ==> action.Some?)
    }
  }

  /** What validation guarantees: one trailing parameter family at most, and the mode it names; a single
      target or levels but not both; at least one way out; a break-even that lies short of its own
      trigger; and an invalidation price only with something to do. */
  lemma ValidMeans(c: Config)
    requires c.Valid()
    ensures c.Mode().None? <==> c.trailingDelta.None? && c.trailingPercent.None? && c.trailingAtr.None? && !c.atrDynamic
    ensures c.Mode() == Some(Fixed) <==> c.trailingDelta.Some?
    ensures c.Mode() == Some(Percent) <==> c.trailingPercent.Some?
    ensures c.Mode() == Some(Atr) <==> c.trailingAtr.Some? || c.atrDynamic
    ensures (c.atrMultiplier.Some? || c.atrAlpha.Some?) ==> c.Mode() == Some(Atr)
    ensures c.takeProfit.Some? ==> c.levels == []
    ensures c.stopLoss.Some? || c.takeProfit.Some? || c.levels != [] || c.Mode().Some?
    ensures c.beTrigger.Some? ==> 0.0 <= c.beOffset < c.beTrigger.value
    ensures c.beTrigger.None? ==> c.beOffset == 0.0
    ensures c.invalidationPrice.Some? ==> c.action.Some?
    ensures c.action.Some? ==> c.action.value.newSl.Some? || 0.0 < c.action.value.fraction <= 1.0
    ensures forall l <- c.levels :: l.price > 0.0 && 0.0 < l.fraction <= 1.0
    ensures Positive(c.stopLoss) && Positive(c.takeProfit) && Positive(c.invalidationPrice)
    ensures Positive(c.trailingDelta) && Positive(c.trailingAtr) && Positive(c.atrMultiplier)
    ensures c.trailingPercent.Some? ==> 0.0 < c.trailingPercent.value < 1.0
    ensures c.atrAlpha.Some? ==> 0.0 < c.atrAlpha.value <= 1.0
  {}

  // ---------- Price comparisons by side ----------

  /** The price has moved against the position to `level` or beyond. */
  predicate Against(side: Side, mark: real, level: real) {
    if side.Buy? then mark <= level else mark >= level
  }

  /** The price has moved in favour of the position to `level` or beyond. */
  predicate InFavour(side: Side, mark: real, level: real) {
    if side.Buy? then mark >= level else mark <= level
  }

  /** Stop `b` protects at least as much as stop `a`. */
  predicate AtLeastAsTight(side: Side, a: real, b: real) {
    if side.Buy? then a <= b else b <= a
  }

  // ---------- Trailing ----------

  function HighWater(side: Side, mark: real, previous: Option<real>): real {
    match previous
    case None => mark
    case Some(h) => if side.Buy? then Max(mark, h) else Min(mark, h)
  }

  function PercentDelta(reference: real, percent: real): real { reference * percent }

  function AtrDelta(atr: real, multiplier: real): real { atr * multiplier }

  /** Distance between the high-water mark and the stop. */
  function TrailingDelta(config: Config, mode: TrailingMode, highWater: real, atr: Option<real>): real
    requires config.Mode() == Some(mode) && (mode.Atr? ==> atr.Some?)
  {
    match mode
    case Fixed => config.trailingDelta.value
    case Percent => PercentDelta(highWater, config.trailingPercent.value)
    case Atr => AtrDelta(atr.value, if config.atrMultiplier.Some? then config.atrMultiplier.value else 1.0)
  }

  function StopAt(side: Side, highWater: real, delta: real): real {
    if side.Buy? then highWater - delta else highWater + delta
  }

  /** Exponential smoothing of the live ATR; the first value is taken as is. */
  function Smooth(alpha: real, atr: real, previous: Option<real>): real {
    match previous
    case None => atr
    case Some(p) => alpha * atr + (1.0 - alpha) * p
  }

  /** Smoothing stays within any interval that holds its inputs. */
  lemma SmoothBetween(alpha: real, atr: real, previous: Option<real>, lo: real, hi: real)
    requires 0.0 < alpha <= 1.0 && lo <= atr <= hi && (previous.Some? ==> lo <= previous.value <= hi)
    ensures lo <= Smooth(alpha, atr, previous) <= hi
  {
    if previous.Some? {
      var p := previous.value;
      MulNonNegative(alpha, atr - lo);
      MulNonNegative(1.0 - alpha, p - lo);
      MulNonNegative(alpha, hi - atr);
      MulNonNegative(1.0 - alpha, hi - p);
      assert alpha * (atr - lo) + (1.0 - alpha) * (p - lo) == Smooth(alpha, atr, previous) - lo;
      assert alpha * (hi - atr) + (1.0 - alpha) * (hi - p) == hi - Smooth(alpha, atr, previous);
    }
  }

  // ---------- Break-even ----------

  /** The new stop if the price moved far enough in favour and the stop is not already better. */
  function BreakEven(
    side: Side, entry: real, mark: real, trigger: real, sl: Option<real>, offset: real
  ): Option<real> {
    var armed := if side.Buy? then entry + trigger else entry - trigger;
    var target := if side.Buy? then entry + offset else entry - offset;
    if !InFavour(side, mark, armed) then None
    else if sl.Some? && AtLeastAsTight(side, target, sl.value) then None
    else Some(target)
  }

  /** A move to break-even tightens the stop and leaves the current price on the safe side of it. */
  lemma BreakEvenTightensSafely(
    side: Side, entry: real, mark: real, trigger: real, sl: Option<real>, offset: real
  )
    requires offset < trigger && BreakEven(side, entry, mark, trigger, sl, offset).Some?
    ensures var moved := BreakEven(side, entry, mark, trigger, sl, offset).value;
            && !Against(side, mark, moved)
            && (sl.Some? ==> AtLeastAsTight(side, sl.value, moved) && moved != sl.value)
  {}

  // ---------- Building a configuration for an approved decision ----------

  /** The validated position_management section of config.yaml. */
  datatype Defaults = Defaults(
    trailingEnabled: bool, trailingMode: TrailingMode, trailingPercent: real, atrMultiplier: real,
    breakEvenEnabled: bool, beTriggerMultiplier: real, beOffsetPercent: real)
  {
    predicate Valid() {
      && !trailingMode.Fixed?
      && 0.0 < trailingPercent < 1.0 && atrMultiplier > 0.0
      && beTriggerMultiplier > 0.0 && 0.0 < beOffsetPercent < 1.0
    }
  }

  function ClampedOffset(feeBuffer: real, trigger: real): real { Min(feeBuffer, trigger * 0.5) }

  /** `build_position_config`; None where it raises for missing data. */
  function BuildConfig(
    stopLoss: real, takeProfit: real, useTrailing: bool, useBreakEven: bool,
    defaults: Defaults, entry: real, atr: Option<real>
  ): Option<Config> {
    var trailing := useTrailing && defaults.trailingEnabled;
    var breakEven := useBreakEven && defaults.breakEvenEnabled;
    if trailing && defaults.trailingMode.Fixed? then None
    else if trailing && defaults.trailingMode.Atr? && atr.None? then None
    else if breakEven && atr.None? then None
    else
      var percent := if trailing && defaults.trailingMode.Percent? then Some(defaults.trailingPercent) else None;
      var byAtr := trailing && defaults.trailingMode.Atr?;
      var trigger := if breakEven then Some(AtrDelta(atr.value, defaults.beTriggerMultiplier)) else None;
      var offset := if breakEven
                    then ClampedOffset(PercentDelta(entry, defaults.beOffsetPercent), trigger.value) else 0.0;
      Some(Config(Some(stopLoss), Some(takeProfit), [], None, percent,
                  if byAtr then atr else None, if byAtr then Some(defaults.atrMultiplier) else None,
                  false, None, trigger, offset, None, None))
  }

  lemma ProductPositive(x: real, y: real)
    requires x > 0.0 && y > 0.0
    ensures PercentDelta(x, y) > 0.0 && AtrDelta(x, y) > 0.0
  {}

  /** With a positive ATR and validated defaults, opening a position never fails on its exits. */
  lemma {:induction false} BuiltConfigIsValid(
    stopLoss: real, takeProfit: real, useTrailing: bool, useBreakEven: bool,
    defaults: Defaults, entry: real, atr: real
  )
    requires stopLoss > 0.0 && takeProfit > 0.0 && entry > 0.0 && atr > 0.0 && defaults.Valid()
    ensures var built := BuildConfig(stopLoss, takeProfit, useTrailing, useBreakEven, defaults, entry, Some(atr));
            && built.Some? && built.value.Valid()
            && (built.value.beTrigger.Some? <==> useBreakEven && defaults.breakEvenEnabled)
            && (built.value.beTrigger.Some? ==>
                  0.0 < built.value.beOffset && 2.0 * built.value.beOffset <= built.value.beTrigger.value)
            && built.value.stopLoss == Some(stopLoss) && built.value.takeProfit == Some(takeProfit)
            && built.value.levels == [] && built.value.action.None? && !built.value.atrDynamic
            && (built.value.beTrigger.Some? ==>
                  && built.value.beTrigger.value == Product(atr, defaults.beTriggerMultiplier)
                  && (2.0 * built.value.beOffset < built.value.beTrigger.value ==>
                        built.value.beOffset == Product(entry, defaults.beOffsetPercent))
                  && built.value.beOffset <= Product(entry, defaults.beOffsetPercent))
            && (built.value.Mode() == Some(Percent) ==> built.value.trailingPercent == Some(defaults.trailingPercent))
            && (built.value.Mode() == Some(Atr) ==>
                  built.value.trailingAtr == Some(atr) && built.value.atrMultiplier == Some(defaults.atrMultiplier))
            && built.value.Mode() ==
               if useTrailing && defaults.trailingEnabled then Some(defaults.trailingMode) else None
  {
    ProductPositive(atr, defaults.beTriggerMultiplier);
    ProductPositive(entry, defaults.beOffsetPercent);
  }
}
