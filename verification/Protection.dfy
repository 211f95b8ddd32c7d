/**
 When a live position keeps its exit configuration. While every close order that returns has
 filled, and every invalidation by hand fills, it does so over every run exactly when there are
 no take-profit levels or one of them closes everything. An order that returns short loses it
 exactly when its exit dropped the configuration, and so does an unfilled full close by hand,
 even one that raises (backend/position_manager/tick_service.py,
 backend/position_manager/manager.py).
 */
module Protection {
  import opened Decimals
  import opened ExitRules
  import opened ExitMachine
  import opened ExitRuns

  /** There are no levels, or one of them closes everything. */
  predicate SomeCloses(levels: seq<Level>) {
    levels != [] ==> exists i :: 0 <= i < |levels| && levels[i].fraction == 1.0
  }

  predicate LastCloses(levels: seq<Level>) { levels != [] ==> levels[|levels| - 1].fraction == 1.0 }

  /** No open position without exits. */
  predicate Protected(s: Sym) { s.holding.Some? ==> s.track.Some? }

  /** All of the order was executed, whether or not its call returned. */
  predicate OrderFills(mark: real, fate: Fate) { mark > 0.0 && (fate.Fills? || (fate.Raises? && fate.share == 1.0)) }

  // ---------- Runs ----------

  /** `trigger_setup_invalidation`: the configured action applied by hand, outside the tick service. */
  function ByHand(s: Sym, mark: real, fate: Fate): Sym {
    if s.track.None? || s.holding.None? || s.track.value.config.action.None? then s
    else ApplyAction(s.track.value, s.holding.value, s.track.value.config.action.value, mark, fate, false).sym
  }

  /** What may happen to a symbol between and during tick-service cycles. */
  datatype Event =
    | Cycle(input: CycleInput)
    | Register(config: Config, holding: Holding)   // an entry filled: position and exits appear
    | UpdateSl(sl: real)
    | UpdateTp(tp: real)
    | InvalidateByHand(mark: real, fate: Fate)
    | ClosedElsewhere                              // by hand or by liquidation
  {
    predicate Valid() {
      && (Register? ==> config.Valid() && holding.Valid())
      && (Cycle? ==> input.Valid()) && (InvalidateByHand? ==> fate.Valid())
    }

    /** The close order of a cycle has filled if it returned; that of an invalidation by hand has filled. */
    predicate Filled() {
      (Cycle? ==> !input.fate.ReturnsShort?) && (InvalidateByHand? ==> OrderFills(mark, fate))
    }
  }

  function Step(s: Sym, e: Event): Sym {
    match e
    case Cycle(input) => Serve(s, input)
    case Register(config, holding) => Sym(Some(Fresh(config)), Some(holding))
    case UpdateSl(sl) => if s.track.None? then s else s.(track := Some(s.track.value.(sl := Some(sl))))
    case UpdateTp(tp) =>
      if s.track.None? then s else s.(track := Some(s.track.value.(remaining := [], tp := Some(tp))))
    case InvalidateByHand(mark, fate) => ByHand(s, mark, fate)
    case ClosedElsewhere => s.(holding := None)
  }

  function Run(s: Sym, es: seq<Event>): Sym
    decreases |es|
  {
    if es == [] then s else Run(Step(s, es[0]), es[1..])
  }

  // ---------- One cycle, case by case ----------

  function TickOf(i: CycleInput): TickInput
    requires i.mark.Some?
  {
    TickInput(i.mark.value, None, i.fate)
  }

  /** The exits after which the manager drops the configuration, whatever became of the order. */
  predicate FullExit(t: Track, exit: Exit) {
    || exit.CloseAll?
    || (exit.TakeLevel? && |t.remaining| == 1)
    || (exit.Invalidate? && t.config.action.Some? && t.config.action.value.fraction >= 1.0)
  }

  /** The fraction of the position an exit orders closed. */
  function Ordered(t: Track, exit: Exit): real {
    match exit
    case Stay => 0.0
    case CloseAll(_) => 1.0
    case TakeLevel => if t.remaining != [] then t.remaining[0].fraction else 0.0
    case Invalidate => if t.config.action.Some? then t.config.action.value.fraction else 0.0
  }

  lemma PortionOfWhole(quantity: real, fraction: real)
    requires fraction == 1.0
    ensures Product(quantity, fraction) == quantity
  {}

  lemma PortionSmaller(quantity: real, fraction: real)
    requires quantity > 0.0 && fraction < 1.0
    ensures Product(quantity, fraction) < quantity
  {
    assert quantity * (1.0 - fraction) > 0.0;
  }

  lemma PortionPositive(quantity: real, fraction: real)
    requires quantity > 0.0 && fraction > 0.0
    ensures Product(quantity, fraction) > 0.0
  {}

  /** An order for a fraction of a position ends it exactly when it fills and orders everything. */
  lemma OrderEndsIff(h: Holding, fraction: real, mark: real, fate: Fate)
    requires h.Valid() && fate.Valid() && 0.0 < fraction <= 1.0
    ensures AfterOrder(h, Product(h.quantity, fraction), mark, fate).None?
            <==> (OrderFills(mark, fate) && fraction == 1.0)
  {
    if fraction == 1.0 { PortionOfWhole(h.quantity, fraction); } else { PortionSmaller(h.quantity, fraction); }
    if !fate.Fills? {
      PortionPositive(h.quantity, fraction);
      if fate.share < 1.0 { PortionSmaller(Product(h.quantity, fraction), fate.share); }
      else { PortionOfWhole(Product(h.quantity, fraction), fate.share); }
    }
  }

  /** What one cycle leaves of the configuration, in terms of the exit it decided on. */
  lemma ServeTrack(s: Sym, i: CycleInput)
    requires Live(s) && i.mark.Some?
    ensures var t, exit, after := s.track.value, ExitOf(s, TickOf(i)), Serve(s, i).track;
            var returned := Succeeds(i.mark.value, i.fate);
            if FullExit(t, exit) then after == if returned then None else Some(Fresh(t.config))
            else && after.Some? && after.value.config == t.config
                 && after.value.remaining == if exit.TakeLevel? && returned then t.remaining[1..] else t.remaining
    ensures ExitOf(s, TickOf(i)).TakeLevel? ==> s.track.value.remaining != []
  {
    hide Prepared, Product, AfterOrder;
    PreparedValid(s.track.value, s.holding.value, i.mark.value, None);
  }

  lemma WholeOrder(h: Holding)
    ensures Product(h.quantity, 1.0) == h.quantity
  {}

  /** The position is gone afterwards exactly when an order for all of it filled. */
  lemma ServeHolding(s: Sym, i: CycleInput)
    requires Live(s) && i.Valid() && i.mark.Some?
    ensures Serve(s, i).holding.None? <==>
            (OrderFills(i.mark.value, i.fate) && Ordered(s.track.value, ExitOf(s, TickOf(i))) == 1.0)
  {
    hide Prepared, Product, AfterOrder;
    var t, h := s.track.value, s.holding.value;
    PreparedValid(t, h, i.mark.value, None);
    var fraction := Ordered(t, ExitOf(s, TickOf(i)));
    WholeOrder(h);
    if 0.0 < fraction <= 1.0 { OrderEndsIff(h, fraction, i.mark.value, i.fate); }
  }

  lemma OrderedAtMostAll(s: Sym, i: CycleInput)
    requires Live(s) && i.mark.Some?
    ensures Ordered(s.track.value, ExitOf(s, TickOf(i))) <= 1.0
  {}

  /** One cycle bares a position exactly when its exit dropped the configuration for an order that
      returned, and that order was short or was not for everything. */
  lemma {:induction false} BaredIff(s: Sym, i: CycleInput)
    requires Live(s) && i.Valid() && i.mark.Some?
    ensures var t, exit := s.track.value, ExitOf(s, TickOf(i));
            !Protected(Serve(s, i)) <==>
            && FullExit(t, exit) && Succeeds(i.mark.value, i.fate)
            && (i.fate.ReturnsShort? || Ordered(t, exit) < 1.0)
  {
    hide Serve, Decide;
    ServeTrack(s, i);
    ServeHolding(s, i);
    OrderedAtMostAll(s, i);
  }

  // ---------- An invalidation by hand ----------

  /** The configured action closes everything. */
  predicate ClosesByHand(t: Track) { t.config.action.Some? && t.config.action.value.fraction >= 1.0 }

  lemma OrderLeavesValid(h: Holding, quantity: real, mark: real, fate: Fate)
    requires h.Valid()
    ensures var after := AfterOrder(h, quantity, mark, fate); after.Some? ==> after.value.Valid()
  {}

  /** What it leaves: the configuration unless the action is a full close, whatever became of the order. */
  lemma HandLeaves(s: Sym, mark: real, fate: Fate)
    requires Live(s) && fate.Valid()
    ensures var t, after := s.track.value, ByHand(s, mark, fate);
            && after.Valid()
            && (after.track.None? <==> ClosesByHand(t))
            && (after.track.Some? ==>
                  after.track.value.config == t.config && after.track.value.remaining == t.remaining)
            && (after.holding.None? <==> ClosesByHand(t) && OrderFills(mark, fate))
  {
    hide Product, AfterOrder;
    var t, h := s.track.value, s.holding.value;
    if t.config.action.Some? && t.config.action.value.fraction > 0.0 {
      OrderEndsIff(h, t.config.action.value.fraction, mark, fate);
      OrderLeavesValid(h, Product(h.quantity, t.config.action.value.fraction), mark, fate);
    }
  }

  /** It bares a position exactly when it is a full close whose order did not fill: here even an order
      that raised is not made good, since no cycle registers the configuration again. */
  lemma {:induction false} HandBaredIff(s: Sym, mark: real, fate: Fate)
    requires Live(s) && fate.Valid()
    ensures !Protected(ByHand(s, mark, fate)) <==> ClosesByHand(s.track.value) && !OrderFills(mark, fate)
  {
    hide ByHand;
    HandLeaves(s, mark, fate);
  }

  // ---------- Runs in which returned orders have filled ----------

  /** While a position is open, the levels still pending and those a re-registration restores
      contain one that closes everything. */
  predicate Safe(s: Sym) {
    s.holding.Some? && s.track.Some? ==>
      SomeCloses(s.track.value.remaining) && SomeCloses(s.track.value.config.levels)
  }

  lemma TailCloses(levels: seq<Level>)
    requires |levels| > 1 && SomeCloses(levels) && levels[0].fraction != 1.0
    ensures SomeCloses(levels[1..])
  {
    var i :| 0 <= i < |levels| && levels[i].fraction == 1.0;
    assert levels[1..][i - 1].fraction == 1.0;
  }

  lemma ServeProtects(s: Sym, i: CycleInput)
    requires s.Valid() && Safe(s) && Protected(s) && i.Valid() && !i.fate.ReturnsShort?
    ensures Serve(s, i).Valid() && Safe(Serve(s, i)) && Protected(Serve(s, i))
  {
    ServeValid(s, i);
    if Live(s) && i.mark.Some? {
      hide Serve, Decide;
      var levels := s.track.value.remaining;
      ServeTrack(s, i);
      ServeHolding(s, i);
      BaredIff(s, i);
      if |levels| > 1 && levels[0].fraction != 1.0 { TailCloses(levels); }
    }
  }

  lemma HandProtects(s: Sym, mark: real, fate: Fate)
    requires s.Valid() && Safe(s) && Protected(s) && fate.Valid() && OrderFills(mark, fate)
    ensures ByHand(s, mark, fate).Valid() && Safe(ByHand(s, mark, fate)) && Protected(ByHand(s, mark, fate))
  {
    if Live(s) { HandLeaves(s, mark, fate); }
  }

  predicate AllSafe(es: seq<Event>) {
    forall i :: 0 <= i < |es| ==>
      es[i].Valid() && es[i].Filled() && (es[i].Register? ==> SomeCloses(es[i].config.levels))
  }

  /**
   Protection is never lost: over any sequence of cycles with arbitrary price failures and close
   orders that raise before, during or after their fill, dynamic updates, invalidations by hand
   that fill, re-registrations and outside closes, a position that is still open still has its
   exits, provided every registered list of levels is empty or has one that closes everything
   and the close orders of cycles that return have filled.
   */
  lemma {:induction false} ProtectionNeverLost(s: Sym, es: seq<Event>)
    requires s.Valid() && Safe(s) && Protected(s) && AllSafe(es)
    ensures Protected(Run(s, es))
    decreases |es|
  {
    hide Serve, ByHand;
    if es != [] {
      if es[0].Cycle? { ServeProtects(s, es[0].input); }
      if es[0].InvalidateByHand? { HandProtects(s, es[0].mark, es[0].fate); }
      ProtectionNeverLost(Step(s, es[0]), es[1..]);
    }
  }

  // ---------- Exactly which levels protect ----------

  /** A price in favour of everything: past the level and clear of every stop. */
  function FavourableMark(t: Track, h: Holding): real
    requires t.remaining != []
  {
    var sl := if t.sl.Some? then t.sl.value else 1.0;
    var inv := if t.config.invalidationPrice.Some? then t.config.invalidationPrice.value else 1.0;
    if h.side.Buy? then Max(t.remaining[0].price, Max(sl, inv)) + 1.0
    else Min(t.remaining[0].price, Min(sl, inv)) / 2.0
  }

  /** At that price the next action is the pending level, whatever trailing and break-even did,
      and the stop stays a positive price. */
  lemma FavourableFiresLevel(t: Track, h: Holding)
    requires t.Valid() && h.Valid() && t.remaining != [] && Positive(t.sl)
    ensures var mark := FavourableMark(t, h);
            var p := Prepared(t, h, mark, None);
            mark > 0.0 && Decide(p.track, h.side, mark, p.stop) == TakeLevel && Positive(p.track.sl)
  {
    var mark := FavourableMark(t, h);
    PreparedValid(t, h, mark, None);
    var u := Trail(t, h.side, mark, None).track;
    if u.config.beTrigger.Some? {
      var trigger, offset := u.config.beTrigger.value, u.config.beOffset;
      if BreakEven(h.side, h.entry, mark, trigger, u.sl, offset).Some? {
        BreakEvenTightensSafely(h.side, h.entry, mark, trigger, u.sl, offset);
      }
    }
  }

  /** A cycle at that price whose order fills. */
  function Favourable(s: Sym): CycleInput
    requires Live(s) && s.track.value.remaining != []
  {
    CycleInput(Some(FavourableMark(s.track.value, s.holding.value)), Fills)
  }

  /** It takes the next level, and the position survives a level that closes less than everything. */
  lemma FavourableStep(s: Sym)
    requires Live(s) && Positive(s.track.value.sl)
    requires s.track.value.remaining != [] && s.track.value.remaining[0].fraction < 1.0
    ensures var levels, t := s.track.value.remaining, Serve(s, Favourable(s));
            && t.Valid() && t.holding.Some?
            && if |levels| == 1 then t.track.None?
               else t.track.Some? && t.track.value.remaining == levels[1..] && Positive(t.track.value.sl)
  {
    var t, h, i := s.track.value, s.holding.value, Favourable(s);
    FavourableFiresLevel(t, h);
    ServeValid(s, i);
    ServeHolding(s, i);
    hide Prepared, Product, AfterOrder, Decide;
    PreparedValid(t, h, i.mark.value, None);
  }

  /** Cycles of the service and nothing else, with orders that fill or raise. */
  predicate FilledCycles(es: seq<Event>) {
    forall i :: 0 <= i < |es| ==> es[i].Cycle? && es[i].Valid() && es[i].Filled()
  }

  /** Levels that all leave something open can be taken one after another until none is left. */
  lemma {:induction false} LevelsRunOut(s: Sym) returns (es: seq<Event>)
    requires Live(s) && Positive(s.track.value.sl) && !SomeCloses(s.track.value.remaining)
    ensures FilledCycles(es) && !Protected(Run(s, es))
    decreases |s.track.value.remaining|
  {
    hide Serve, FavourableMark;
    var levels := s.track.value.remaining;
    var next := Serve(s, Favourable(s));
    assert levels[0].Valid() && levels[0].fraction < 1.0;
    FavourableStep(s);
    if |levels| == 1 {
      es := [Cycle(Favourable(s))];
      assert Run(next, es[1..]) == next;
    } else {
      assert forall i :: 0 <= i < |levels| - 1 ==> levels[1..][i] == levels[i + 1];
      var rest := LevelsRunOut(next);
      es := [Cycle(Favourable(s))] + rest;
      assert es[1..] == rest;
    }
  }

  /** Registering a configuration for a position. */
  function Registered(config: Config, h: Holding): Sym { Sym(Some(Fresh(config)), Some(h)) }

  /** Everything that may follow a registration until the next, with orders that fill or raise. */
  predicate UntilNextRegistration(es: seq<Event>) {
    forall i :: 0 <= i < |es| ==> es[i].Valid() && es[i].Filled() && !es[i].Register?
  }

  lemma ProtectsUntilNext(config: Config, h: Holding, es: seq<Event>)
    requires config.Valid() && h.Valid() && SomeCloses(config.levels) && UntilNextRegistration(es)
    ensures Protected(Run(Registered(config, h), es))
  {
    ProtectionNeverLost(Registered(config, h), es);
  }

  /**
   A registered configuration protects its position over every run of cycles, and over every run
   of cycles, updates, invalidations by hand and outside closes, exactly when it has no levels or
   one of them closes everything.
   */
  lemma {:induction false} LevelsProtectIff(config: Config, h: Holding)
    requires config.Valid() && h.Valid()
    ensures (forall es :: FilledCycles(es) ==> Protected(Run(Registered(config, h), es)))
            <==> SomeCloses(config.levels)
    ensures (forall es :: UntilNextRegistration(es) ==> Protected(Run(Registered(config, h), es)))
            <==> SomeCloses(config.levels)
  {
    hide Run, Protected;
    var s := Registered(config, h);
    if SomeCloses(config.levels) {
      forall es | UntilNextRegistration(es) ensures Protected(Run(s, es)) { ProtectsUntilNext(config, h, es); }
      forall es | FilledCycles(es) ensures Protected(Run(s, es)) { ProtectsUntilNext(config, h, es); }
    } else {
      var es := LevelsRunOut(s);
      assert FilledCycles(es) && UntilNextRegistration(es) && !Protected(Run(s, es));
    }
  }

  // ---------- Exactly when one cycle can lose protection ----------

  /** A single pending level that leaves something open. */
  predicate LosesNext(t: Track) { |t.remaining| == 1 && t.remaining[0].fraction < 1.0 }

  lemma SkippedCycle(s: Sym, i: CycleInput)
    requires s.track.None? || i.mark.None?
    ensures Serve(s, i) == s
  {}

  /** While returned orders have filled, one cycle is safe for every price and failure exactly when it
      cannot fire a last partial level. */
  lemma {:induction false} CycleSafeIff(s: Sym)
    requires Live(s) && Positive(s.track.value.sl)
    ensures (forall i: CycleInput :: i.Valid() && !i.fate.ReturnsShort? ==> Protected(Serve(s, i)))
            <==> !LosesNext(s.track.value)
  {
    hide Serve, Decide, FavourableMark;
    if LosesNext(s.track.value) {
      FavourableStep(s);
      assert Favourable(s).Valid() && !Protected(Serve(s, Favourable(s)));
    } else {
      forall i: CycleInput | i.Valid() && !i.fate.ReturnsShort? ensures Protected(Serve(s, i)) {
        if i.mark.Some? { BaredIff(s, i); OrderedAtMostAll(s, i); } else { SkippedCycle(s, i); }
      }
    }
  }

  // ---------- Orders that return short ----------

  /** This cycle drops the configuration for an order that returned without filling completely. */
  predicate ShortClose(s: Sym, i: CycleInput) {
    && Live(s) && i.mark.Some? && i.mark.value > 0.0 && i.fate.ReturnsShort?
    && FullExit(s.track.value, ExitOf(s, TickOf(i)))
  }

  /** A full close by hand whose order did not fill. */
  predicate LostByHand(s: Sym, mark: real, fate: Fate) {
    Live(s) && ClosesByHand(s.track.value) && !OrderFills(mark, fate)
  }

  /** Along the run every order for which a configuration was dropped for good filled: those of cycles
      if they returned, those by hand in any case. */
  predicate Delivered(s: Sym, es: seq<Event>)
    decreases |es|
  {
    es != [] ==>
      && !(es[0].Cycle? && ShortClose(s, es[0].input))
      && !(es[0].InvalidateByHand? && LostByHand(s, es[0].mark, es[0].fate))
      && Delivered(Step(s, es[0]), es[1..])
  }

  /** The position has its exits at every point of the run. */
  predicate Throughout(s: Sym, es: seq<Event>)
    decreases |es|
  {
    Protected(s) && (es != [] ==> Throughout(Step(s, es[0]), es[1..]))
  }

  predicate EndsInClose(s: Sym) {
    s.track.Some? ==> LastCloses(s.track.value.remaining) && LastCloses(s.track.value.config.levels)
  }

  predicate AllEndInClose(es: seq<Event>) {
    forall i :: 0 <= i < |es| ==> es[i].Valid() && (es[i].Register? ==> LastCloses(es[i].config.levels))
  }

  lemma GoneOrClosed(s: Sym, i: CycleInput)
    requires s.holding.None?
    ensures Serve(s, i).holding.None? && (Serve(s, i) == s || Serve(s, i).track.None?)
  {}

  lemma ServeBaredIff(s: Sym, i: CycleInput)
    requires s.Valid() && EndsInClose(s) && Protected(s) && i.Valid()
    ensures Serve(s, i).Valid() && EndsInClose(Serve(s, i))
    ensures Protected(Serve(s, i)) <==> !ShortClose(s, i)
  {
    ServeValid(s, i);
    if !Live(s) {
      GoneOrClosed(s, i);
    } else if i.mark.None? {
      SkippedCycle(s, i);
    } else {
      hide Serve, Decide;
      ServeTrack(s, i);
      BaredIff(s, i);
    }
  }

  lemma HandKeepsEnd(s: Sym, mark: real, fate: Fate)
    requires s.Valid() && EndsInClose(s) && Protected(s) && fate.Valid()
    ensures ByHand(s, mark, fate).Valid() && EndsInClose(ByHand(s, mark, fate))
    ensures Protected(ByHand(s, mark, fate)) <==> !LostByHand(s, mark, fate)
  {
    if Live(s) { HandLeaves(s, mark, fate); }
  }

  /** With levels that end in a full close, and close orders that end in any way, a position keeps its
      exits throughout a run exactly when no cycle dropped a configuration for an order that returned
      short, and no full close by hand failed to fill. */
  lemma {:induction false} ProtectedThroughoutIff(s: Sym, es: seq<Event>)
    requires s.Valid() && EndsInClose(s) && Protected(s) && AllEndInClose(es)
    ensures Throughout(s, es) <==> Delivered(s, es)
    decreases |es|
  {
    hide Serve, ByHand, ShortClose, LostByHand;
    if es != [] {
      var t := Step(s, es[0]);
      if es[0].Cycle? { ServeBaredIff(s, es[0].input); }
      if es[0].InvalidateByHand? { HandKeepsEnd(s, es[0].mark, es[0].fate); }
      if Protected(t) { ProtectedThroughoutIff(t, es[1..]); }
    }
  }

  // ---------- Levels that come back ----------

  /**
   With some levels taken, a cycle puts taken levels back exactly when its exit was a full close
   (stop, target, trailing, full invalidation or last level) whose order raised: the service
   then registers the original configuration again.
   */
  lemma {:induction false} LevelsReviveIff(s: Sym, i: CycleInput)
    requires Live(s) && |s.track.value.remaining| < |s.track.value.config.levels|
    ensures var t, after := s.track.value, Serve(s, i).track;
            (after.Some? && |after.value.remaining| > |t.remaining|) <==>
            && i.mark.Some? && FullExit(t, ExitOf(s, TickOf(i))) && !Succeeds(i.mark.value, i.fate)
    ensures i.mark.Some? && FullExit(s.track.value, ExitOf(s, TickOf(i))) && !Succeeds(i.mark.value, i.fate) ==>
              Serve(s, i).track == Some(Fresh(s.track.value.config))
  {
    hide Serve, Decide;
    if i.mark.Some? { ServeTrack(s, i); } else { SkippedCycle(s, i); }
  }

  /** The last level is such a close: some price fires it, and if its order raises all come back. */
  lemma FailedLastLevelRevivesAll(s: Sym, fate: Fate)
    requires Live(s) && Positive(s.track.value.sl)
    requires |s.track.value.remaining| == 1 && fate.Raises?
    ensures var i := CycleInput(Some(FavourableMark(s.track.value, s.holding.value)), fate);
            Serve(s, i).track == Some(Fresh(s.track.value.config))
  {
    hide Serve;
    FavourableFiresLevel(s.track.value, s.holding.value);
    ServeTrack(s, CycleInput(Some(FavourableMark(s.track.value, s.holding.value)), fate));
  }
}
