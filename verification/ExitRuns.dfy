/**
 What a registered configuration guarantees over every run of ticks: levels are taken once
 and in order, quantities follow the closed form, invalidation fires once, trailing stops
 and break-even only tighten (backend/position_manager/manager.py).
 */
module ExitRuns {
  import opened Decimals
  import opened ExitRules
  import opened ExitMachine

  /** The symbol after a run of ticks without re-registration. */
  function Ticks(s: Sym, inputs: seq<TickInput>): Sym
    decreases |inputs|
  {
    if inputs == [] then s else Ticks(Tick(s, inputs[0]).sym, inputs[1..])
  }

  predicate Live(s: Sym) { s.Valid() && s.track.Some? && s.holding.Some? }

  function ExitOf(s: Sym, i: TickInput): Exit
    requires Live(s)
  {
    var p := Prepared(s.track.value, s.holding.value, i.mark, i.atr);
    Decide(p.track, s.holding.value.side, i.mark, p.stop)
  }

  /** Once the configuration is gone, ticks do nothing more. */
  lemma {:induction false} GoneStaysGone(s: Sym, inputs: seq<TickInput>)
    requires s.track.None?
    ensures Ticks(s, inputs) == s
    decreases |inputs|
  {
    if inputs != [] {
      assert Tick(s, inputs[0]).sym == s;
      GoneStaysGone(s, inputs[1..]);
    }
  }

  /** An exit touches only the stop-loss, the pending levels and the fired mark. */
  lemma ExecuteKeeps(t: Track, h: Holding, exit: Exit, mark: real, fate: Fate)
    requires exit.TakeLevel? ==> t.remaining != []
    requires exit.Invalidate? ==> t.config.action.Some?
    ensures var o := Execute(t, h, exit, mark, fate).sym;
            && (o.track.Some? ==>
                  var u := o.track.value;
                  u == t.(sl := u.sl, remaining := u.remaining, fired := u.fired))
            && (o.track.Some? && o.track.value.sl != t.sl ==>
                  && exit.Invalidate? && t.config.action.value.newSl.Some?
                  && o.track.value.sl == t.config.action.value.newSl)
            && (o.holding.Some? ==> o.holding.value == h.(quantity := o.holding.value.quantity))
  {}

  /** What every tick of a live symbol keeps while the configuration survives. */
  lemma TickKeeps(s: Sym, i: TickInput)
    requires Live(s)
    ensures var t := Tick(s, i).sym;
            && t.Valid()
            && (t.track.Some? ==> t.track.value.config == s.track.value.config)
            && (t.holding.Some? ==> t.holding.value == s.holding.value.(quantity := t.holding.value.quantity))
  {
    TickValid(s, i);
    PreparedValid(s.track.value, s.holding.value, i.mark, i.atr);
    var p := Prepared(s.track.value, s.holding.value, i.mark, i.atr);
    ExecuteKeeps(p.track, s.holding.value, ExitOf(s, i), i.mark, i.fate);
  }

  /** A surviving configuration has seen an open position at every tick before the last. */
  lemma SurvivorWasLive(s: Sym, inputs: seq<TickInput>)
    requires s.Valid() && inputs != [] && Ticks(s, inputs).track.Some?
    ensures Live(s) && Tick(s, inputs[0]).sym.track.Some?
  {
    if Tick(s, inputs[0]).sym.track.None? {
      GoneStaysGone(Tick(s, inputs[0]).sym, inputs[1..]);
    }
  }

  // ---------- Take-profit levels ----------

  predicate TakesLevel(s: Sym, i: TickInput) {
    Live(s) && ExitOf(s, i).TakeLevel? && Succeeds(i.mark, i.fate)
  }

  /** The level this tick takes, if any. */
  function TakenAt(s: Sym, i: TickInput): seq<Level> {
    if TakesLevel(s, i) then s.track.value.remaining[..1] else []
  }

  /** The levels taken by successful orders, in order. */
  function Taken(s: Sym, inputs: seq<TickInput>): seq<Level>
    decreases |inputs|
  {
    if inputs == [] then [] else
    TakenAt(s, inputs[0]) + Taken(Tick(s, inputs[0]).sym, inputs[1..])
  }

  lemma TakesPending(s: Sym, i: TickInput)
    requires Live(s)
    ensures ExitOf(s, i).TakeLevel? ==> s.track.value.remaining != []
  {
    PreparedValid(s.track.value, s.holding.value, i.mark, i.atr);
  }

  lemma TickLevels(s: Sym, i: TickInput)
    requires Live(s) && Tick(s, i).sym.track.Some?
    ensures TakesLevel(s, i) ==> s.track.value.remaining != []
    ensures Tick(s, i).sym.track.value.remaining ==
            if TakesLevel(s, i) then s.track.value.remaining[1..] else s.track.value.remaining
  {
    PreparedValid(s.track.value, s.holding.value, i.mark, i.atr);
  }

  lemma {:induction false} TakenNothingWhenGone(s: Sym, inputs: seq<TickInput>)
    requires s.track.None?
    ensures Taken(s, inputs) == []
    decreases |inputs|
  {
    if inputs != [] { TakenNothingWhenGone(Tick(s, inputs[0]).sym, inputs[1..]); }
  }

  /**
   Over any run, whatever fails, the levels taken are a prefix of those pending at its start
   and the levels pending at its end are exactly the rest: none is skipped, repeated or lost.
   */
  lemma {:induction false} LevelsTakenInOrder(s: Sym, inputs: seq<TickInput>)
    requires s.Valid() && s.track.Some?
    ensures var pending, taken := s.track.value.remaining, Taken(s, inputs);
            && taken <= pending
            && (Ticks(s, inputs).track.Some? ==> Ticks(s, inputs).track.value.remaining == pending[|taken|..])
    decreases |inputs|
  {
    if inputs != [] {
      var t := Tick(s, inputs[0]).sym;
      TickValid(s, inputs[0]);
      if Live(s) { TakesPending(s, inputs[0]); }
      if t.track.None? {
        TakenNothingWhenGone(t, inputs[1..]);
        GoneStaysGone(t, inputs[1..]);
      } else {
        TickLevels(s, inputs[0]);
        LevelsTakenInOrder(t, inputs[1..]);
      }
    }
  }

  // ---------- Quantity ----------

  function Held(s: Sym): real { if s.holding.Some? then s.holding.value.quantity else 0.0 }

  function Both(x: real, y: real): real { x * y }

  function Left(quantity: real, fraction: real): real { quantity * (1.0 - fraction) }

  /** The share of a position that survives taking these levels one after another. */
  function Kept(levels: seq<Level>): real {
    if levels == [] then 1.0 else Both(Left(1.0, levels[0].fraction), Kept(levels[1..]))
  }

  function Scaled(quantity: real, kept: real, spared: real): real { quantity * kept * spared }

  /** The share an invalidation in this stretch of ticks spared. */
  function Spared(config: Config, before: bool, after: bool): real {
    if !before && after && config.action.Some? then Left(1.0, config.action.value.fraction) else 1.0
  }

  lemma LeftIsRest(quantity: real, fraction: real)
    requires quantity > 0.0 && fraction <= 1.0
    ensures Left(quantity, fraction) == quantity - Product(quantity, fraction)
    ensures Product(quantity, fraction) >= quantity <==> fraction == 1.0
  {
    assert quantity * (1.0 - fraction) == quantity - quantity * fraction;
    if fraction < 1.0 { assert quantity * (1.0 - fraction) > 0.0; }
  }

  lemma HeldAfterOrder(h: Holding, fraction: real, mark: real, fate: Fate)
    requires h.Valid() && 0.0 <= fraction <= 1.0 && mark > 0.0 && fate.Fills?
    ensures Held(Sym(None, AfterOrder(h, Product(h.quantity, fraction), mark, fate))) == Left(h.quantity, fraction)
  {
    LeftIsRest(h.quantity, fraction);
  }

  /** One tick scales the held quantity by what it took and by what it spared. */
  lemma TickQuantity(s: Sym, i: TickInput)
    requires Live(s) && Tick(s, i).sym.track.Some? && i.fate.AllOrNothing()
    ensures var before, after := s.track.value, Tick(s, i).sym.track.value;
            Held(Tick(s, i).sym) ==
              if TakesLevel(s, i) then Left(Held(s), before.remaining[0].fraction)
              else if !before.fired && after.fired then Left(Held(s), before.config.action.value.fraction)
              else Held(s)
    ensures TakesLevel(s, i) ==> Tick(s, i).sym.track.value.fired == s.track.value.fired
    ensures s.track.value.fired ==> Tick(s, i).sym.track.value.fired
    ensures !s.track.value.fired && Tick(s, i).sym.track.value.fired ==> s.track.value.config.action.Some?
  {
    var t, h := s.track.value, s.holding.value;
    PreparedValid(t, h, i.mark, i.atr);
    if ExitOf(s, i).TakeLevel? && Succeeds(i.mark, i.fate) {
      HeldAfterOrder(h, t.remaining[0].fraction, i.mark, i.fate);
    } else if ExitOf(s, i).Invalidate? {
      if t.config.action.value.fraction > 0.0 {
        if Succeeds(i.mark, i.fate) { HeldAfterOrder(h, t.config.action.value.fraction, i.mark, i.fate); }
      } else {
        LeftIsRest(h.quantity, 0.0);
      }
    }
  }

  lemma TakeFirst(q: real, rest: real, kept: real, spared: real)
    ensures q * rest * kept * spared == q * (rest * kept) * spared
  {
    assert q * rest * kept == q * (rest * kept);
  }

  /** One tick followed by the closed form of the rest, in numbers. */
  lemma Compose(
    q: real, q': real, takes: bool, f: real, spares: bool, g: real, kept: real, spared: real
  )
    requires !(takes && spares) && (spares ==> spared == 1.0)
    requires q' == if takes then Left(q, f) else if spares then Left(q, g) else q
    ensures Scaled(q', kept, spared)
         == Scaled(q, if takes then Both(Left(1.0, f), kept) else kept, if spares then Left(1.0, g) else spared)
  {
    if takes {
      TakeFirst(q, 1.0 - f, kept, spared);
    } else if spares {
      assert q * (1.0 - g) * kept == q * kept * (1.0 - g);
    }
  }

  lemma KeptCons(level: Level, rest: seq<Level>)
    ensures Kept([level] + rest) == Both(Left(1.0, level.fraction), Kept(rest))
  {
    assert ([level] + rest)[1..] == rest;
  }

  predicate AllOrNothing(inputs: seq<TickInput>) {
    forall i :: 0 <= i < |inputs| ==> inputs[i].fate.AllOrNothing()
  }

  lemma NothingHappened(q: real, config: Config, fired: bool)
    ensures Scaled(q, Kept([]), Spared(config, fired, fired)) == q
  {}

  /** The first tick scales what the rest of the run keeps. */
  lemma QuantityStep(s: Sym, i: TickInput, taken: seq<Level>, fired: bool)
    requires Live(s) && Tick(s, i).sym.track.Some? && i.fate.AllOrNothing()
    requires Tick(s, i).sym.track.value.fired ==> fired
    ensures var before, after := s.track.value, Tick(s, i).sym.track.value;
            && (before.fired ==> fired)
            && Scaled(Held(Tick(s, i).sym), Kept(taken), Spared(before.config, after.fired, fired))
            == Scaled(Held(s),
                      Kept((if TakesLevel(s, i) then [before.remaining[0]] else []) + taken),
                      Spared(before.config, before.fired, fired))
  {
    var before, after := s.track.value, Tick(s, i).sym.track.value;
    var takes, spares := TakesLevel(s, i), !before.fired && after.fired;
    var f := if takes then before.remaining[0].fraction else 0.0;
    var g := if spares then before.config.action.value.fraction else 0.0;
    TickQuantity(s, i);
    Compose(Held(s), Held(Tick(s, i).sym), takes, f, spares, g,
            Kept(taken), Spared(before.config, after.fired, fired));
    if takes { KeptCons(before.remaining[0], taken); } else { assert [] + taken == taken; }
  }

  /**
   While only these ticks trade and orders fill exactly when they return, the position is its
   starting quantity times one minus each level taken, times what the invalidation spared.
   */
  lemma {:induction false} QuantityClosedForm(s: Sym, inputs: seq<TickInput>)
    requires s.Valid() && s.track.Some? && Ticks(s, inputs).track.Some?
    requires AllOrNothing(inputs)
    ensures var end := Ticks(s, inputs);
            && (s.track.value.fired ==> end.track.value.fired)
            && Held(end) == Scaled(Held(s), Kept(Taken(s, inputs)),
                                   Spared(s.track.value.config, s.track.value.fired, end.track.value.fired))
    decreases |inputs|
  {
    hide Tick, Scaled, Kept, Spared;
    NothingHappened(Held(s), s.track.value.config, s.track.value.fired);
    if inputs != [] {
      var t, i := Tick(s, inputs[0]).sym, inputs[0];
      SurvivorWasLive(s, inputs);
      TickKeeps(s, i);
      QuantityClosedForm(t, inputs[1..]);
      TickLevels(s, i);
      assert TakesLevel(s, i) ==> s.track.value.remaining[..1] == [s.track.value.remaining[0]];
      QuantityStep(s, i, Taken(t, inputs[1..]), Ticks(s, inputs).track.value.fired);
    }
  }

  // ---------- Through the last level ----------

  lemma {:induction false} TicksSnoc(s: Sym, inputs: seq<TickInput>, i: TickInput)
    ensures Ticks(s, inputs + [i]) == Tick(Ticks(s, inputs), i).sym
    ensures Taken(s, inputs + [i]) == Taken(s, inputs) + TakenAt(Ticks(s, inputs), i)
    decreases |inputs|
  {
    hide Tick, TakenAt;
    if inputs == [] {
      assert [i][1..] == [];
      assert Taken(s, [i]) == TakenAt(s, i) + [];
    } else {
      assert (inputs + [i])[0] == inputs[0] && (inputs + [i])[1..] == inputs[1..] + [i];
      TicksSnoc(Tick(s, inputs[0]).sym, inputs[1..], i);
    }
  }

  lemma Regrouped(x: real, y: real, z: real)
    ensures Both(x, Both(y, z)) == Both(Both(x, y), z)
  {}

  lemma {:induction false} KeptSnoc(levels: seq<Level>, level: Level)
    ensures Kept(levels + [level]) == Both(Kept(levels), Left(1.0, level.fraction))
  {
    if levels == [] {
      KeptCons(level, []);
      assert [level] + [] == [level];
    } else {
      var all := levels + [level];
      assert all[0] == levels[0] && all[1..] == levels[1..] + [level];
      KeptSnoc(levels[1..], level);
      Regrouped(Left(1.0, levels[0].fraction), Kept(levels[1..]), Left(1.0, level.fraction));
    }
  }

  lemma LastFactor(q: real, kept: real, spared: real, f: real)
    ensures Left(Scaled(q, kept, spared), f) == Scaled(q, Both(kept, Left(1.0, f)), spared)
  {
    var rest := 1.0 - f;
    assert q * kept * spared * rest == q * (kept * rest) * spared;
  }

  /** The last level drops the configuration and scales the position like any other. */
  lemma LastLevelTick(s: Sym, i: TickInput)
    requires TakesLevel(s, i) && |s.track.value.remaining| == 1 && i.fate.AllOrNothing()
    ensures Tick(s, i).sym.track.None?
    ensures Held(Tick(s, i).sym) == Left(Held(s), s.track.value.remaining[0].fraction)
    ensures TakenAt(s, i) == s.track.value.remaining
  {
    var t, h := s.track.value, s.holding.value;
    hide Prepared, Decide, Product, AfterOrder;
    PreparedValid(t, h, i.mark, i.atr);
    HeldAfterOrder(h, t.remaining[0].fraction, i.mark, i.fate);
  }

  /** The closed form covers a run to its end: once the last level is taken, every pending level has
      been, and the position is what all of them and the invalidation left of it. */
  lemma {:induction false} QuantityThroughLastLevel(s: Sym, inputs: seq<TickInput>, i: TickInput)
    requires s.Valid() && s.track.Some? && Ticks(s, inputs).track.Some?
    requires AllOrNothing(inputs) && i.fate.AllOrNothing()
    requires TakesLevel(Ticks(s, inputs), i) && |Ticks(s, inputs).track.value.remaining| == 1
    ensures var before, end := s.track.value, Ticks(s, inputs + [i]);
            && end.track.None? && Taken(s, inputs + [i]) == before.remaining
            && Held(end) == Scaled(Held(s), Kept(before.remaining),
                                   Spared(before.config, before.fired, Ticks(s, inputs).track.value.fired))
  {
    hide Tick, Scaled, Kept, Left, Both, Spared, TakesLevel, TakenAt;
    var before, near := s.track.value, Ticks(s, inputs);
    var taken, last := Taken(s, inputs), near.track.value.remaining[0];
    TicksSnoc(s, inputs, i);
    LastLevelTick(near, i);
    LevelsTakenInOrder(s, inputs);
    QuantityClosedForm(s, inputs);
    assert before.remaining == taken + [last];
    KeptSnoc(taken, last);
    LastFactor(Held(s), Kept(taken), Spared(before.config, before.fired, near.track.value.fired), last.fraction);
  }

  // ---------- Invalidation ----------

  function Invalidations(s: Sym, inputs: seq<TickInput>): nat
    decreases |inputs|
  {
    if inputs == [] then 0 else
    (if Tick(s, inputs[0]).trigger.Invalidated? then 1 else 0)
    + Invalidations(Tick(s, inputs[0]).sym, inputs[1..])
  }

  predicate MayInvalidate(s: Sym) { s.track.Some? && !s.track.value.fired }

  lemma TickInvalidates(s: Sym, i: TickInput)
    requires s.Valid()
    ensures Tick(s, i).trigger.Invalidated? ==> MayInvalidate(s) && !MayInvalidate(Tick(s, i).sym)
    ensures MayInvalidate(Tick(s, i).sym) ==> MayInvalidate(s)
  {
    hide Trail, MoveToBreakEven, Product, Shrink;
    if Live(s) { PreparedValid(s.track.value, s.holding.value, i.mark, i.atr); }
  }

  /** Between registrations the automatic invalidation applies at most once. */
  lemma {:induction false} InvalidatesAtMostOnce(s: Sym, inputs: seq<TickInput>)
    requires s.Valid()
    ensures Invalidations(s, inputs) <= if MayInvalidate(s) then 1 else 0
    decreases |inputs|
  {
    if inputs != [] {
      TickValid(s, inputs[0]);
      TickInvalidates(s, inputs[0]);
      InvalidatesAtMostOnce(Tick(s, inputs[0]).sym, inputs[1..]);
    }
  }
}
