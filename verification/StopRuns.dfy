/**
 Stops only tighten: the high-water mark is the extreme of all prices seen, static trailing
 stops and break-even never move against the position, and no stop fires on the very tick
 that improves it (backend/position_manager/trailing.py, break_even.py, manager.py).
 */
module StopRuns {
  import opened Decimals
  import opened ExitRules
  import opened ExitMachine
  import opened ExitRuns

  // ---------- High-water mark ----------

  /** The running extreme of the marks ticked. */
  function Extreme(side: Side, start: Option<real>, inputs: seq<TickInput>): Option<real>
    decreases |inputs|
  {
    if inputs == [] then start
    else Extreme(side, Some(HighWater(side, inputs[0].mark, start)), inputs[1..])
  }

  predicate Marked(x: real, inputs: seq<TickInput>) { exists i :: 0 <= i < |inputs| && inputs[i].mark == x }

  /** The extreme is one of the marks (or the start) and no mark lies beyond it. */
  lemma {:induction false} ExtremeIsBest(side: Side, start: Option<real>, inputs: seq<TickInput>)
    requires start.Some? || inputs != []
    ensures var e := Extreme(side, start, inputs);
            && e.Some?
            && (e == start || Marked(e.value, inputs))
            && (start.Some? ==> InFavour(side, e.value, start.value))
            && (forall i :: 0 <= i < |inputs| ==> InFavour(side, e.value, inputs[i].mark))
    decreases |inputs|
  {
    if inputs != [] {
      var next := Some(HighWater(side, inputs[0].mark, start));
      ExtremeIsBest(side, next, inputs[1..]);
      var e := Extreme(side, start, inputs);
      if Marked(e.value, inputs[1..]) {
        var i :| 0 <= i < |inputs[1..]| && inputs[1..][i].mark == e.value;
        assert inputs[i + 1].mark == e.value;
      } else {
        assert next == start || inputs[0].mark == e.value;
      }
      forall i | 0 <= i < |inputs| ensures InFavour(side, e.value, inputs[i].mark) {
        if i > 0 { assert inputs[i] == inputs[1..][i - 1]; }
      }
    }
  }

  /** Stops and marks of a surviving configuration come from the prepared state alone. */
  lemma TickStops(s: Sym, i: TickInput)
    requires Live(s) && Tick(s, i).sym.track.Some?
    ensures var p := Prepared(s.track.value, s.holding.value, i.mark, i.atr).track;
            var t := Tick(s, i).sym.track.value;
            && t.config == s.track.value.config && t.highWater == p.highWater
            && t.trailingStop == p.trailingStop && t.smoothedAtr == p.smoothedAtr
            && (t.sl == p.sl || (ExitOf(s, i).Invalidate? && t.config.action.value.newSl == t.sl && t.sl.Some?))
  {
    PreparedValid(s.track.value, s.holding.value, i.mark, i.atr);
    var p := Prepared(s.track.value, s.holding.value, i.mark, i.atr);
    ExecuteKeeps(p.track, s.holding.value, ExitOf(s, i), i.mark, i.fate);
  }

  /** While trailing is on, the high-water mark is the extreme of every mark since registration. */
  lemma {:induction false} HighWaterIsExtreme(s: Sym, inputs: seq<TickInput>, side: Side)
    requires s.Valid() && s.track.Some? && Ticks(s, inputs).track.Some?
    requires s.track.value.config.Mode().Some? && (s.holding.Some? ==> s.holding.value.side == side)
    ensures Ticks(s, inputs).track.value.highWater == Extreme(side, s.track.value.highWater, inputs)
    decreases |inputs|
  {
    if inputs != [] {
      SurvivorWasLive(s, inputs);
      TickKeeps(s, inputs[0]);
      TickStops(s, inputs[0]);
      HighWaterIsExtreme(Tick(s, inputs[0]).sym, inputs[1..], side);
    }
  }

  // ---------- Static trailing stops ----------

  /** FIXED, PERCENT, or ATR from the snapshot taken at registration. */
  predicate StaticTrailing(config: Config) {
    config.Mode().Some? && (config.Mode() == Some(Atr) ==> !config.atrDynamic)
  }

  function StaticStop(config: Config, side: Side, highWater: real): real
    requires StaticTrailing(config)
  {
    StopAt(side, highWater, TrailingDelta(config, config.Mode().value, highWater, config.trailingAtr))
  }

  predicate StopFollows(t: Track, side: Side)
    requires StaticTrailing(t.config)
  {
    t.trailingStop == if t.highWater.Some? then Some(StaticStop(t.config, side, t.highWater.value)) else None
  }

  lemma PercentStopMonotone(side: Side, a: real, b: real, percent: real)
    requires 0.0 < percent < 1.0 && InFavour(side, b, a)
    ensures AtLeastAsTight(side, StopAt(side, a, PercentDelta(a, percent)), StopAt(side, b, PercentDelta(b, percent)))
  {
    if side.Buy? {
      MulNonNegative(b - a, 1.0 - percent);
      assert (b - a) * (1.0 - percent) == (b - b * percent) - (a - a * percent);
    } else {
      MulNonNegative(a - b, 1.0 + percent);
      assert (a - b) * (1.0 + percent) == (a + a * percent) - (b + b * percent);
    }
  }

  lemma StaticStopMonotone(config: Config, side: Side, a: real, b: real)
    requires config.Valid() && StaticTrailing(config) && InFavour(side, b, a)
    ensures AtLeastAsTight(side, StaticStop(config, side, a), StaticStop(config, side, b))
  {
    if config.Mode() == Some(Percent) { PercentStopMonotone(side, a, b, config.trailingPercent.value); }
  }

  lemma {:induction false} StopFollowsHighWater(s: Sym, inputs: seq<TickInput>, side: Side)
    requires s.Valid() && s.track.Some? && Ticks(s, inputs).track.Some?
    requires StaticTrailing(s.track.value.config) && StopFollows(s.track.value, side)
    requires s.holding.Some? ==> s.holding.value.side == side
    ensures Ticks(s, inputs).track.value.config == s.track.value.config
    ensures StopFollows(Ticks(s, inputs).track.value, side)
    decreases |inputs|
  {
    if inputs != [] {
      SurvivorWasLive(s, inputs);
      TickKeeps(s, inputs[0]);
      TickStops(s, inputs[0]);
      StopFollowsHighWater(Tick(s, inputs[0]).sym, inputs[1..], side);
    }
  }

  /** Over any run of ticks a static trailing stop never moves against the position. */
  lemma {:induction false} StaticStopRatchets(s: Sym, inputs: seq<TickInput>, side: Side)
    requires s.Valid() && s.track.Some? && Ticks(s, inputs).track.Some?
    requires StaticTrailing(s.track.value.config) && StopFollows(s.track.value, side)
    requires s.track.value.trailingStop.Some? && (s.holding.Some? ==> s.holding.value.side == side)
    ensures var end := Ticks(s, inputs).track.value.trailingStop;
            end.Some? && AtLeastAsTight(side, s.track.value.trailingStop.value, end.value)
  {
    var a := s.track.value.highWater;
    StopFollowsHighWater(s, inputs, side);
    HighWaterIsExtreme(s, inputs, side);
    ExtremeIsBest(side, a, inputs);
    StaticStopMonotone(s.track.value.config, side, a.value, Extreme(side, a, inputs).value);
  }

  /** A registration satisfies the premises of the ratchet. */
  lemma FreshFollows(config: Config, side: Side)
    requires StaticTrailing(config)
    ensures StopFollows(Fresh(config), side)
  {}

  lemma {:induction false} TicksKeepSide(s: Sym, inputs: seq<TickInput>, side: Side)
    requires s.Valid() && (s.holding.Some? ==> s.holding.value.side == side)
    ensures var t := Ticks(s, inputs); t.Valid() && (t.holding.Some? ==> t.holding.value.side == side)
    decreases |inputs|
  {
    if inputs != [] {
      TickValid(s, inputs[0]);
      if Live(s) { TickKeeps(s, inputs[0]); }
      TicksKeepSide(Tick(s, inputs[0]).sym, inputs[1..], side);
    }
  }

  /** From a registration on, the stop exists after the first tick and every later one is as tight. */
  lemma {:induction false} RegisteredStopRatchets(
    config: Config, h: Holding, before: seq<TickInput>, after: seq<TickInput>
  )
    requires config.Valid() && h.Valid() && StaticTrailing(config) && before != []
    requires Ticks(Ticks(Sym(Some(Fresh(config)), Some(h)), before), after).track.Some?
    ensures var first := Ticks(Sym(Some(Fresh(config)), Some(h)), before);
            && first.track.Some? && first.track.value.trailingStop.Some?
            && var last := Ticks(first, after).track.value;
               last.trailingStop.Some?
               && AtLeastAsTight(h.side, first.track.value.trailingStop.value, last.trailingStop.value)
  {
    hide Ticks;
    var s := Sym(Some(Fresh(config)), Some(h));
    var first := Ticks(s, before);
    if first.track.None? { GoneStaysGone(first, after); }
    FreshFollows(config, h.side);
    TicksKeepSide(s, before, h.side);
    StopFollowsHighWater(s, before, h.side);
    HighWaterIsExtreme(s, before, h.side);
    ExtremeIsBest(h.side, None, before);
    StaticStopRatchets(first, after, h.side);
  }

  /** A tick that sets a new extreme never fires the trailing stop, in any mode. */
  lemma NewExtremeNeverFires(s: Sym, i: TickInput)
    requires Live(s) && i.mark > 0.0 && s.track.value.config.Mode().Some?
    requires HighWater(s.holding.value.side, i.mark, s.track.value.highWater) == i.mark
    ensures ExitOf(s, i) != CloseAll(TrailingHit)
  {
    var t, side := s.track.value, s.holding.value.side;
    PreparedValid(t, s.holding.value, i.mark, i.atr);
    var mode := t.config.Mode().value;
    var atr := AtrInUse(t, i.atr);
    if !(mode.Atr? && atr.None?) {
      if mode.Percent? { ProductPositive(i.mark, t.config.trailingPercent.value); }
      if mode.Atr? {
        ProductPositive(atr.value, if t.config.atrMultiplier.Some? then t.config.atrMultiplier.value else 1.0);
      }
      assert TrailingDelta(t.config, mode, i.mark, atr) > 0.0;
    }
  }

  // ---------- Dynamic ATR ----------

  predicate Within(x: Option<real>, lo: real, hi: real) { x.Some? ==> lo <= x.value <= hi }

  /** The smoothed ATR stays in every interval that holds its seed and the accepted inputs. */
  lemma {:induction false} SmoothedAtrBounded(s: Sym, inputs: seq<TickInput>, lo: real, hi: real)
    requires s.Valid() && s.track.Some? && Ticks(s, inputs).track.Some?
    requires Within(PreviousAtr(s.track.value), lo, hi) && Within(s.track.value.config.trailingAtr, lo, hi)
    requires forall i :: 0 <= i < |inputs| ==> Within(AcceptedAtr(inputs[i].atr), lo, hi)
    ensures Within(PreviousAtr(Ticks(s, inputs).track.value), lo, hi)
    decreases |inputs|
  {
    if inputs != [] {
      var t, i := s.track.value, inputs[0];
      SurvivorWasLive(s, inputs);
      TickKeeps(s, i);
      TickStops(s, i);
      if NextAtr(t, i.atr) != t.smoothedAtr {
        SmoothBetween(Alpha(t.config), i.atr.value, PreviousAtr(t), lo, hi);
      }
      SmoothedAtrBounded(Tick(s, i).sym, inputs[1..], lo, hi);
    }
  }

  // ---------- Break-even ----------

  /** A tick that moves the stop to break-even never closes on that stop. */
  lemma BreakEvenNeverFiresAtOnce(s: Sym, i: TickInput)
    requires Live(s)
    requires Prepared(s.track.value, s.holding.value, i.mark, i.atr).track.sl != s.track.value.sl
    ensures ExitOf(s, i) != CloseAll(SlHit)
  {
    var t, h := s.track.value, s.holding.value;
    var u := Trail(t, h.side, i.mark, i.atr).track;
    BreakEvenTightensSafely(h.side, h.entry, i.mark, t.config.beTrigger.value, u.sl, t.config.beOffset);
  }

  lemma PreparedTightens(t: Track, h: Holding, mark: real, atr: Option<real>)
    requires t.Valid() && t.sl.Some?
    ensures var sl := Prepared(t, h, mark, atr).track.sl;
            sl.Some? && AtLeastAsTight(h.side, t.sl.value, sl.value)
  {
    var u := Trail(t, h.side, mark, atr).track;
    if t.config.beTrigger.Some? {
      if BreakEven(h.side, h.entry, mark, t.config.beTrigger.value, u.sl, t.config.beOffset).Some? {
        BreakEvenTightensSafely(h.side, h.entry, mark, t.config.beTrigger.value, u.sl, t.config.beOffset);
      }
    }
  }

  /** A price at or through the stored stop closes everything, even on a tick that also moves the
      stop: nothing comes before it and no update lets the stop step aside. */
  lemma ReachedStopCloses(s: Sym, i: TickInput)
    requires Live(s) && s.track.value.sl.Some?
    requires Against(s.holding.value.side, i.mark, s.track.value.sl.value)
    ensures ExitOf(s, i) == CloseAll(SlHit)
    ensures i.mark > 0.0 && i.fate.Fills? ==> Tick(s, i) == Outcome(Sym(None, None), SlHit, false)
  {
    PreparedTightens(s.track.value, s.holding.value, i.mark, i.atr);
  }

  /** A price at or through a static trailing stop never leaves the tick without an exit. */
  lemma ReachedTrailingStopActs(s: Sym, i: TickInput)
    requires Live(s) && StaticTrailing(s.track.value.config)
    requires StopFollows(s.track.value, s.holding.value.side) && s.track.value.trailingStop.Some?
    requires Against(s.holding.value.side, i.mark, s.track.value.trailingStop.value)
    ensures ExitOf(s, i) != Stay
  {
    var t, side := s.track.value, s.holding.value.side;
    var h := t.highWater.value;
    PreparedValid(t, s.holding.value, i.mark, i.atr);
    var next := HighWater(side, i.mark, t.highWater);
    StaticStopMonotone(t.config, side, h, next);
    assert Prepared(t, s.holding.value, i.mark, i.atr).stop == Some(StaticStop(t.config, side, next));
  }

  /** Unless the invalidation action names a stop, the effective stop-loss only tightens. */
  lemma {:induction false} StopLossRatchets(s: Sym, inputs: seq<TickInput>, side: Side)
    requires s.Valid() && s.track.Some? && Ticks(s, inputs).track.Some? && s.track.value.sl.Some?
    requires s.track.value.config.action.Some? ==> s.track.value.config.action.value.newSl.None?
    requires s.holding.Some? ==> s.holding.value.side == side
    ensures var end := Ticks(s, inputs).track.value.sl;
            end.Some? && AtLeastAsTight(side, s.track.value.sl.value, end.value)
    decreases |inputs|
  {
    if inputs != [] {
      SurvivorWasLive(s, inputs);
      TickKeeps(s, inputs[0]);
      TickStops(s, inputs[0]);
      PreparedTightens(s.track.value, s.holding.value, inputs[0].mark, inputs[0].atr);
      StopLossRatchets(Tick(s, inputs[0]).sym, inputs[1..], side);
    }
  }
}
