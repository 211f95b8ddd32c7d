/**
 Runs of the account under the risk engine: proposals that may open trades, positions that leave
 the exchange, and closes that record a trade's profit. The position count comes from the
 exchange and the losses from the recorded trades, so what the loss rules promise depends on
 whether a position that is gone has been recorded as closed.
 */
module LossRatchet {
  import opened Decimals
  import opened FeeGate
  import opened RiskEngine

  /** Trades recorded as closed, oldest first; trades recorded as open; symbols the exchange holds. */
  datatype Desk = Desk(closed: seq<Trade>, live: seq<Trade>, held: set<string>)

  const EMPTY: Desk := Desk([], [], {})

  /**
   Propose carries what the cycle reads besides the recorded trades: the losses, the funding
   rate, the fee rates, the open profit of the symbol, and how many positions the count reports
   beyond the symbols held (None when the count is unreliable). `filled` says whether the
   executed order opened a trade. Vanish: the exchange no longer holds the symbol, by a stop, a
   target, a liquidation or by hand. Close records the open trade at an index as closed.
   */
  datatype Event =
    | Propose(d: Proposal, seen: Evidence, surplus: Option<nat>, filled: bool)
    | Vanish(symbol: string)
    | Close(index: nat, pnl: Option<real>)
  {
    predicate Valid() { this.Propose? ==> seen.Valid() }
  }

  /** The last index below `n` of a trade on this symbol, or -1. */
  function LastIndex(closed: seq<Trade>, n: nat, symbol: string): (r: int)
    requires n <= |closed|
    ensures -1 <= r < n
    ensures r >= 0 ==> closed[r].symbol == symbol
    ensures forall k :: r < k < n ==> closed[k].symbol != symbol
  {
    if n == 0 then -1
    else if closed[n - 1].symbol == symbol then n - 1
    else LastIndex(closed, n - 1, symbol)
  }

  function LastTrade(closed: seq<Trade>): Option<Trade> {
    if closed == [] then None else Some(closed[|closed| - 1])
  }

  function LastOnSymbol(closed: seq<Trade>, symbol: string): Option<Trade> {
    var i := LastIndex(closed, |closed|, symbol);
    if i < 0 then None else Some(closed[i])
  }

  /** The evidence a proposal is judged on: the recorded trades plus what the event carries. */
  function Judged(desk: Desk, event: Event): Evidence
    requires event.Propose?
  {
    event.seen.(
    last := LastOnSymbol(desk.closed, event.d.symbol),
    lastAccount := LastTrade(desk.closed),
    openCount := if event.surplus.None? then None else Some(|desk.held| + event.surplus.value))
  }

  function Step(desk: Desk, limits: Limits, event: Event): Desk
    requires event.Valid()
  {
    match event
    case Propose(d, _, _, filled) =>
      var v := Validate(d, limits, Judged(desk, event));
      if v.Executable() && filled
      then desk.(live := desk.live + [Trade(d.symbol, v.margin, v.leverage, |desk.closed|, None)],
                 held := desk.held + {d.symbol})
      else desk
    case Vanish(symbol) => desk.(held := desk.held - {symbol})
    case Close(i, pnl) =>
      if i < |desk.live|
      then desk.(closed := desk.closed + [desk.live[i].(pnl := pnl)], live := desk.live[..i] + desk.live[i + 1..])
      else desk
  }

  predicate AllValid(events: seq<Event>) { forall e <- events :: e.Valid() }

  function Run(desk: Desk, limits: Limits, events: seq<Event>): Desk
    requires AllValid(events)
    decreases |events|
  {
    if events == [] then desk else Run(Step(desk, limits, events[0]), limits, events[1..])
  }

  // ---------- What holds of every trade when it opens ----------

  /** Neither rule was broken against the trades closed when this one was opened. */
  predicate Disciplined(t: Trade, closed: seq<Trade>) {
    && t.openedAfter <= |closed|
    && (t.openedAfter > 0 && closed[t.openedAfter - 1].Lost() ==>
          t.leverage <= closed[t.openedAfter - 1].leverage)
    && var i := LastIndex(closed, t.openedAfter, t.symbol);
       (i >= 0 && closed[i].Lost() ==> t.margin <= closed[i].margin)
  }

  ghost predicate AllDisciplined(desk: Desk) {
    && (forall k :: 0 <= k < |desk.closed| ==>
                      desk.closed[k].openedAfter <= k && Disciplined(desk.closed[k], desk.closed))
    && (forall k :: 0 <= k < |desk.live| ==> Disciplined(desk.live[k], desk.closed))
  }

  lemma {:induction false} LastIndexExtends(closed: seq<Trade>, t: Trade, n: nat, symbol: string)
    requires n <= |closed|
    ensures LastIndex(closed + [t], n, symbol) == LastIndex(closed, n, symbol)
  {
    if n > 0 { LastIndexExtends(closed, t, n - 1, symbol); }
  }

  lemma DisciplineExtends(t: Trade, closed: seq<Trade>, next: Trade)
    requires Disciplined(t, closed)
    ensures Disciplined(t, closed + [next])
  {
    LastIndexExtends(closed, next, t.openedAfter, t.symbol);
  }

  /** An approved trade respects both rules at the moment it opens. */
  lemma ApprovalIsDisciplined(desk: Desk, limits: Limits, event: Event)
    requires event.Propose? && event.Valid()
    ensures var v := Validate(event.d, limits, Judged(desk, event));
            v.Executable() ==>
              && Disciplined(Trade(event.d.symbol, v.margin, v.leverage, |desk.closed|, None), desk.closed)
              && event.surplus.Some? && |desk.held| < limits.maxOpen
  {
    hide CheckLiquidation, CheckFees, CheckDrawdown, CheckFunding;
    var seen := Judged(desk, event);
    ExecutedWithinCaps(event.d, limits, seen);
    var checks := BlockChecks(event.d, limits, seen);
    assert checks[7] == CheckMaxOpen(seen.openCount, limits.maxOpen);
    assert checks[8] == CheckMartingale(event.d.margin, seen.last);
    assert checks[9] == CheckLeverageEscalation(event.d.leverage, seen.lastAccount);
  }

  lemma {:induction false} SubsetSize(a: set<string>, b: set<string>)
    requires a <= b
    ensures |a| <= |b|
  {
    assert b == a + (b - a);
  }

  lemma SameOpening(t: Trade, u: Trade, closed: seq<Trade>)
    requires Disciplined(t, closed) && u == t.(pnl := u.pnl)
    ensures Disciplined(u, closed) && u.openedAfter <= |closed|
  {}

  lemma StepKeepsDiscipline(desk: Desk, limits: Limits, event: Event)
    requires event.Valid() && AllDisciplined(desk)
    ensures AllDisciplined(Step(desk, limits, event))
    ensures var now, next := |desk.held|, |Step(desk, limits, event).held|;
            next <= if now < limits.maxOpen then limits.maxOpen else now
  {
    hide Validate, LastIndex, Disciplined;
    match event
    case Propose(_, _, _, _) => ApprovalIsDisciplined(desk, limits, event);
    case Vanish(symbol) => SubsetSize(desk.held - {symbol}, desk.held);
    case Close(i, pnl) =>
      if i < |desk.live| {
        var next := Step(desk, limits, event);
        var t := desk.live[i].(pnl := pnl);
        assert Disciplined(t, desk.closed) by { SameOpening(desk.live[i], t, desk.closed); }
        forall u: Trade | Disciplined(u, desk.closed) ensures Disciplined(u, next.closed) {
          DisciplineExtends(u, desk.closed, t);
        }
        assert t.openedAfter <= |desk.closed| by { SameOpening(desk.live[i], t, desk.closed); }
        forall k | 0 <= k < |next.live| ensures Disciplined(next.live[k], next.closed) {
          assert next.live[k] == if k < i then desk.live[k] else desk.live[k + 1];
        }
        forall k | 0 <= k < |next.closed|
          ensures next.closed[k].openedAfter <= k && Disciplined(next.closed[k], next.closed)
        {
          if k < |desk.closed| { assert next.closed[k] == desk.closed[k]; } else { assert next.closed[k] == t; }
        }
      }
  }

  /** Every trade of every run obeyed both rules against the trades recorded as closed when it opened,
      and the exchange never held more positions than the limit. */
  lemma {:induction false} EveryTradeDisciplined(desk: Desk, limits: Limits, events: seq<Event>)
    requires AllValid(events) && AllDisciplined(desk)
    ensures AllDisciplined(Run(desk, limits, events))
    ensures |desk.held| <= limits.maxOpen ==> |Run(desk, limits, events).held| <= limits.maxOpen
    decreases |events|
  {
    hide AllDisciplined, Step;
    if events != [] {
      StepKeepsDiscipline(desk, limits, events[0]);
      EveryTradeDisciplined(Step(desk, limits, events[0]), limits, events[1..]);
    }
  }

  // ---------- One position at a time ----------

  /** Each trade opened only after the one before it had closed. */
  ghost predicate OneAtATime(desk: Desk) {
    && |desk.live| <= 1
    && (forall k :: 0 <= k < |desk.closed| ==> desk.closed[k].openedAfter == k)
    && (forall k :: 0 <= k < |desk.live| ==> desk.live[k].openedAfter == |desk.closed|)
  }

  /** Every trade whose position is gone has been recorded as closed. */
  predicate Recorded(desk: Desk) { forall k :: 0 <= k < |desk.live| ==> desk.live[k].symbol in desk.held }

  /** So it is at every proposal of the run. */
  predicate RecordedInTime(desk: Desk, limits: Limits, events: seq<Event>)
    requires AllValid(events)
    decreases |events|
  {
    events != [] ==>
      && (events[0].Propose? ==> Recorded(desk))
      && RecordedInTime(Step(desk, limits, events[0]), limits, events[1..])
  }

  /** With room for one position, and closes recorded in time, no two trades ever overlap. */
  lemma {:induction false} CapOfOneSerializes(desk: Desk, limits: Limits, events: seq<Event>)
    requires AllValid(events) && RecordedInTime(desk, limits, events)
    requires limits.maxOpen <= 1 && OneAtATime(desk)
    ensures OneAtATime(Run(desk, limits, events))
    decreases |events|
  {
    if events != [] {
      var next := Step(desk, limits, events[0]);
      assert OneAtATime(next) by {
        hide Validate;
        if events[0].Propose? {
          ApprovalIsDisciplined(desk, limits, events[0]);
          if desk.live != [] { assert desk.live[0].symbol in desk.held; }
        }
      }
      CapOfOneSerializes(next, limits, events[1..]);
    }
  }

  /** From the first trade at `i` on, every trade before `j` was a loss. */
  ghost predicate LosingStreak(closed: seq<Trade>, i: nat, j: nat) {
    i <= j < |closed| && forall k :: i <= k < j ==> closed[k].Lost()
  }

  /** The same for the trades of one symbol. */
  ghost predicate LosingStreakOn(closed: seq<Trade>, symbol: string, i: nat, j: nat) {
    && i <= j < |closed| && closed[i].symbol == symbol && closed[j].symbol == symbol
    && forall k :: i <= k < j && closed[k].symbol == symbol ==> closed[k].Lost()
  }

  lemma {:induction false} LeverageNeverRises(desk: Desk, i: nat, j: nat)
    requires AllDisciplined(desk) && OneAtATime(desk) && LosingStreak(desk.closed, i, j)
    ensures desk.closed[j].leverage <= desk.closed[i].leverage
    decreases j
  {
    if i < j {
      LeverageNeverRises(desk, i, j - 1);
      assert Disciplined(desk.closed[j], desk.closed);
    }
  }

  lemma {:induction false} MarginNeverRises(desk: Desk, symbol: string, i: nat, j: nat)
    requires AllDisciplined(desk) && OneAtATime(desk) && LosingStreakOn(desk.closed, symbol, i, j)
    ensures desk.closed[j].margin <= desk.closed[i].margin
    decreases j
  {
    if i < j {
      var p := LastIndex(desk.closed, j, symbol);
      assert p >= i;
      MarginNeverRises(desk, symbol, i, p);
      assert Disciplined(desk.closed[j], desk.closed);
    }
  }

  /** Through consecutive losses of the account the executed leverage never rises. */
  ghost predicate LeverageRatchets(closed: seq<Trade>) {
    forall i: nat, j: nat :: LosingStreak(closed, i, j) ==> closed[j].leverage <= closed[i].leverage
  }

  /** Through consecutive losses of a symbol its executed margin never rises. */
  ghost predicate MarginRatchets(closed: seq<Trade>) {
    forall symbol: string, i: nat, j: nat :: LosingStreakOn(closed, symbol, i, j) ==>
      closed[j].margin <= closed[i].margin
  }

  /** What a run from an empty desk has recorded as closed. */
  function ClosedBy(limits: Limits, events: seq<Event>): seq<Trade>
    requires AllValid(events)
  {
    Run(EMPTY, limits, events).closed
  }

  lemma OrderedRatchets(desk: Desk)
    requires AllDisciplined(desk) && OneAtATime(desk)
    ensures LeverageRatchets(desk.closed) && MarginRatchets(desk.closed)
  {
    hide AllDisciplined, OneAtATime;
    forall i: nat, j: nat | LosingStreak(desk.closed, i, j) ensures desk.closed[j].leverage <= desk.closed[i].leverage {
      LeverageNeverRises(desk, i, j);
    }
    forall symbol: string, i: nat, j: nat | LosingStreakOn(desk.closed, symbol, i, j)
      ensures desk.closed[j].margin <= desk.closed[i].margin
    {
      MarginNeverRises(desk, symbol, i, j);
    }
  }

  /** With at most one open position and closes recorded in time, losses never escalate, on the account
      or on a symbol. */
  lemma {:induction false} LossesNeverEscalate(limits: Limits, events: seq<Event>)
    requires AllValid(events) && limits.maxOpen <= 1 && RecordedInTime(EMPTY, limits, events)
    ensures LeverageRatchets(ClosedBy(limits, events)) && MarginRatchets(ClosedBy(limits, events))
  {
    hide LeverageRatchets, MarginRatchets;
    EveryTradeDisciplined(EMPTY, limits, events);
    CapOfOneSerializes(EMPTY, limits, events);
    OrderedRatchets(Run(EMPTY, limits, events));
  }

  /** Where no position may open, nothing is ever recorded. */
  lemma {:induction false} NothingOpens(limits: Limits, events: seq<Event>)
    requires AllValid(events) && limits.maxOpen <= 0
    ensures Run(EMPTY, limits, events) == EMPTY
    decreases |events|
  {
    if events != [] {
      assert Step(EMPTY, limits, events[0]) == EMPTY by {
        hide Validate;
        if events[0].Propose? { ApprovalIsDisciplined(EMPTY, limits, events[0]); }
      }
      NothingOpens(limits, events[1..]);
    }
  }

  lemma NeverOpensRatchets(limits: Limits, events: seq<Event>)
    requires AllValid(events) && limits.maxOpen <= 0
    ensures LeverageRatchets(ClosedBy(limits, events)) && MarginRatchets(ClosedBy(limits, events))
  {
    NothingOpens(limits, events);
  }

  // ---------- Two runs that escalate ----------

  /** A plain long with a gross ratio of three, at the given margin and leverage. */
  function Sample(margin: real, leverage: int): Proposal {
    Proposal("BTCUSDT", true, Long, MarketEntry, 100.0, 90.0, 130.0, 20.0, margin, leverage, false)
  }

  /** Nothing to object to, with the given profit of the position open on the symbol, if any. */
  function Calm(openPnl: Option<real>): Evidence {
    Evidence(0.0, 0.0, None, Some(0), Some(FeeRates(0.0, 0.0)), openPnl, None, None)
  }

  function LimitsOf(maxOpen: int): Limits {
    Limits(10.0, 10, 100.0, 5.0, 20.0, 1.5, maxOpen,
           LiquidationRule(true, 5.0, 2.0, true, true), FundingRule(false, 0.001, true))
  }

  lemma SampleClearsFees(margin: real, leverage: int)
    requires 0.0 < margin <= 10.0 && 1 <= leverage <= 10
    ensures CheckFees(Sample(margin, leverage), Some(FeeRates(0.0, 0.0)), 1.5) == Pass
  {
    var plan, rates := Sample(margin, leverage).AsPlan(), FeeRates(0.0, 0.0);
    PositiveNotional(margin, leverage);
    assert NetReward(30.0, 100.0, 130.0, 0.0, 0.0) == 30.0;
    assert NetRisk(10.0, 100.0, 90.0, 0.0, 0.0) == 10.0;
    assert NetRatio(plan, rates) == 3.0;
    hide NetRatio, QuantizeUp, Product, NetReward, NetRisk;
    assert FloorRatio(NetRatio(plan, rates)) >= 2.9;
  }

  lemma SampleApproved(margin: real, leverage: int, maxOpen: int, count: nat, openPnl: Option<real>, seen: Evidence)
    requires 0.0 < margin <= 10.0 && 1 <= leverage <= 10 && count < maxOpen
    requires openPnl.Some? ==> openPnl.value >= 0.0
    requires seen == Calm(openPnl).(openCount := Some(count))
    ensures Validate(Sample(margin, leverage), LimitsOf(maxOpen), seen) == Approved(margin, leverage)
  {
    hide CheckFees;
    SampleClearsFees(margin, leverage);
    assert LiquidationPrice(100.0, 20.0, Long) == 80.0;
    assert BufferPercent(90.0, 80.0, Long) == 12.5;
  }

  function Offer(margin: real, leverage: int, openPnl: Option<real>): Event {
    Propose(Sample(margin, leverage), Calm(openPnl), Some(0), true)
  }

  /** While nothing has been recorded as closed, a sample proposal opens as long as there is room. */
  lemma SampleOpens(
    margin: real, leverage: int, openPnl: Option<real>, maxOpen: int, live: seq<Trade>, held: set<string>
  )
    requires 0.0 < margin <= 10.0 && 1 <= leverage <= 10 && |held| < maxOpen
    requires openPnl.Some? ==> openPnl.value >= 0.0
    ensures Offer(margin, leverage, openPnl).Valid()
    ensures Step(Desk([], live, held), LimitsOf(maxOpen), Offer(margin, leverage, openPnl))
         == Desk([], live + [Trade("BTCUSDT", margin, leverage, 0, None)], held + {"BTCUSDT"})
  {
    hide Validate;
    var seen := Judged(Desk([], live, held), Offer(margin, leverage, openPnl));
    SampleApproved(margin, leverage, maxOpen, |held|, openPnl, seen);
  }

  lemma FirstCloses(desk: Desk, limits: Limits, pnl: Option<real>)
    requires desk.live != []
    ensures Step(desk, limits, Close(0, pnl))
         == desk.(closed := desk.closed + [desk.live[0].(pnl := pnl)], live := desk.live[1..])
  {
    assert desk.live[..0] + desk.live[1..] == desk.live[1..];
  }

  lemma RunFirst(desk: Desk, limits: Limits, e: Event, rest: seq<Event>)
    requires e.Valid() && AllValid(rest)
    ensures AllValid([e] + rest)
    ensures Run(desk, limits, [e] + rest) == Run(Step(desk, limits, e), limits, rest)
    ensures RecordedInTime(desk, limits, [e] + rest) <==>
            (e.Propose? ==> Recorded(desk)) && RecordedInTime(Step(desk, limits, e), limits, rest)
  {
    hide Step;
    assert ([e] + rest)[1..] == rest;
  }

  function LostTrade(margin: real, leverage: int): Trade { Trade("BTCUSDT", margin, leverage, 0, Some(-1.0)) }

  const CLOSES: seq<Event> := [Close(0, Some(-1.0))] + ([Close(0, Some(-1.0))] + [])

  /** A larger second trade opens, and both end in a loss. */
  function SecondTrade(openPnl: Option<real>): seq<Event> { [Offer(8.0, 5, openPnl)] + CLOSES }

  lemma NothingLeft(desk: Desk, limits: Limits)
    ensures Run(desk, limits, []) == desk && RecordedInTime(desk, limits, [])
  {}

  lemma OfferProposes(margin: real, leverage: int, openPnl: Option<real>)
    ensures Offer(margin, leverage, openPnl).Propose?
  {}

  lemma SecondTradeEscalates(openPnl: Option<real>, maxOpen: int, held: set<string>)
    requires |held| < maxOpen && (openPnl.Some? ==> openPnl.value >= 0.0)
    ensures AllValid(SecondTrade(openPnl))
    ensures var desk := Desk([], [Trade("BTCUSDT", 5.0, 2, 0, None)], held);
            && Run(desk, LimitsOf(maxOpen), SecondTrade(openPnl)).closed == [LostTrade(5.0, 2), LostTrade(8.0, 5)]
            && (RecordedInTime(desk, LimitsOf(maxOpen), SecondTrade(openPnl)) <==> "BTCUSDT" in held)
  {
    hide Step, Offer, LimitsOf, Run;
    var a, b := Trade("BTCUSDT", 5.0, 2, 0, None), Trade("BTCUSDT", 8.0, 5, 0, None);
    var limits, close := LimitsOf(maxOpen), Close(0, Some(-1.0));
    var first := Desk([], [a], held);
    SampleOpens(8.0, 5, openPnl, maxOpen, [a], held);
    var second := Step(first, limits, Offer(8.0, 5, openPnl));
    assert second.live == [a, b] && second.live[1..] == [b];
    FirstCloses(second, limits, Some(-1.0));
    var third := Step(second, limits, close);
    assert third.closed == [LostTrade(5.0, 2)] && third.live == [b];
    FirstCloses(third, limits, Some(-1.0));
    var last := Step(third, limits, close);
    assert last.closed == [LostTrade(5.0, 2), LostTrade(8.0, 5)];
    NothingLeft(last, limits);
    RunFirst(third, limits, close, []);
    RunFirst(second, limits, close, [close] + []);
    OfferProposes(8.0, 5, openPnl);
    RunFirst(first, limits, Offer(8.0, 5, openPnl), CLOSES);
  }

  lemma BothRose(closed: seq<Trade>)
    requires |closed| == 2 && closed[0].Lost() && closed[1].leverage > closed[0].leverage
    requires closed[0].symbol == closed[1].symbol && closed[1].margin > closed[0].margin
    ensures !LeverageRatchets(closed) && !MarginRatchets(closed)
  {
    assert LosingStreak(closed, 0, 1) && LosingStreakOn(closed, closed[0].symbol, 0, 1);
  }

  /** Two trades open before either closes. */
  function Overlap(): seq<Event> { [Offer(5.0, 2, None)] + SecondTrade(Some(0.0)) }

  /** With room for two positions or more the promise fails both ways, although every close is recorded
      in time: the second trade opens before the first one's loss is known. */
  lemma OverlapEscalates(maxOpen: int)
    requires maxOpen >= 2
    ensures AllValid(Overlap()) && RecordedInTime(EMPTY, LimitsOf(maxOpen), Overlap())
    ensures !LeverageRatchets(ClosedBy(LimitsOf(maxOpen), Overlap()))
    ensures !MarginRatchets(ClosedBy(LimitsOf(maxOpen), Overlap()))
  {
    hide Step, Run, LeverageRatchets, MarginRatchets, Offer, LimitsOf, SecondTrade;
    SampleOpens(5.0, 2, None, maxOpen, [], {});
    assert [] + [Trade("BTCUSDT", 5.0, 2, 0, None)] == [Trade("BTCUSDT", 5.0, 2, 0, None)];
    SecondTradeEscalates(Some(0.0), maxOpen, {} + {"BTCUSDT"});
    RunFirst(EMPTY, LimitsOf(maxOpen), Offer(5.0, 2, None), SecondTrade(Some(0.0)));
    BothRose([LostTrade(5.0, 2), LostTrade(8.0, 5)]);
  }

  /** The first position is gone, but not yet recorded as closed, when the second opens. */
  function Unrecorded(): seq<Event> {
    [Offer(5.0, 2, None)] + ([Vanish("BTCUSDT")] + SecondTrade(None))
  }

  /** With room for any position at all the promise fails both ways once a close is recorded late. */
  lemma UnrecordedEscalates(maxOpen: int)
    requires maxOpen >= 1
    ensures AllValid(Unrecorded())
    ensures !LeverageRatchets(ClosedBy(LimitsOf(maxOpen), Unrecorded()))
    ensures !MarginRatchets(ClosedBy(LimitsOf(maxOpen), Unrecorded()))
  {
    hide Run, LeverageRatchets, MarginRatchets, Offer, LimitsOf, SecondTrade;
    var first := Desk([], [Trade("BTCUSDT", 5.0, 2, 0, None)], {"BTCUSDT"});
    SampleOpens(5.0, 2, None, maxOpen, [], {});
    assert Step(EMPTY, LimitsOf(maxOpen), Offer(5.0, 2, None)) == first;
    assert Step(first, LimitsOf(maxOpen), Vanish("BTCUSDT")) == first.(held := {});
    hide Step;
    SecondTradeEscalates(None, maxOpen, {});
    RunFirst(first, LimitsOf(maxOpen), Vanish("BTCUSDT"), SecondTrade(None));
    RunFirst(EMPTY, LimitsOf(maxOpen), Offer(5.0, 2, None), [Vanish("BTCUSDT")] + SecondTrade(None));
    BothRose([LostTrade(5.0, 2), LostTrade(8.0, 5)]);
  }

  // ---------- Exactly which limits keep the ratchet ----------

  /** A run under this limit; with `recorded`, one in which closes are recorded in time. */
  predicate Admitted(maxOpen: int, recorded: bool, limits: Limits, events: seq<Event>) {
    && limits.maxOpen == maxOpen && AllValid(events)
    && (recorded ==> RecordedInTime(EMPTY, limits, events))
  }

  ghost predicate LeverageNeverEscalates(maxOpen: int, recorded: bool) {
    forall limits: Limits, events: seq<Event> :: Admitted(maxOpen, recorded, limits, events) ==>
      LeverageRatchets(ClosedBy(limits, events))
  }

  ghost predicate MarginNeverEscalates(maxOpen: int, recorded: bool) {
    forall limits: Limits, events: seq<Event> :: Admitted(maxOpen, recorded, limits, events) ==>
      MarginRatchets(ClosedBy(limits, events))
  }

  /**
   Over every run, under every other limit, neither the account's leverage nor a symbol's margin
   rises through losses exactly when no position may open at all; over the runs in which every
   position that is gone is recorded as closed before the next proposal, exactly when at most
   one position may be open.
   */
  lemma {:induction false} RatchetHoldsIff(maxOpen: int)
    ensures LeverageNeverEscalates(maxOpen, false) <==> maxOpen <= 0
    ensures MarginNeverEscalates(maxOpen, false) <==> maxOpen <= 0
    ensures LeverageNeverEscalates(maxOpen, true) <==> maxOpen <= 1
    ensures MarginNeverEscalates(maxOpen, true) <==> maxOpen <= 1
  {
    hide ClosedBy, LosingStreak, LosingStreakOn;
    assert LimitsOf(maxOpen).maxOpen == maxOpen;
    if maxOpen <= 0 {
      forall limits: Limits, events: seq<Event> | Admitted(maxOpen, false, limits, events)
        ensures LeverageRatchets(ClosedBy(limits, events)) && MarginRatchets(ClosedBy(limits, events))
      {
        NeverOpensRatchets(limits, events);
      }
    } else {
      UnrecordedEscalates(maxOpen);
      assert Admitted(maxOpen, false, LimitsOf(maxOpen), Unrecorded());
    }
    if maxOpen <= 1 {
      forall limits: Limits, events: seq<Event> | Admitted(maxOpen, true, limits, events)
        ensures LeverageRatchets(ClosedBy(limits, events)) && MarginRatchets(ClosedBy(limits, events))
      {
        LossesNeverEscalate(limits, events);
      }
    } else {
      OverlapEscalates(maxOpen);
      assert Admitted(maxOpen, true, LimitsOf(maxOpen), Overlap());
    }
  }
}
