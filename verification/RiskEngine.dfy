/**
 The last gate before an order (backend/risk_engine): which proposals may trade, with which
 margin and leverage, and the quantity an approved plan is executed with
 (backend/execution/engine.py).
 */
module RiskEngine {
  import opened Decimals
  import opened FeeGate

  datatype Direction = Long | Short | NoTrade
  datatype EntryType = MarketEntry | LimitEntry | NoEntry

  /** The model's decision, as far as the risk engine reads it. */
  datatype Proposal = Proposal(
    symbol: string, execute: bool, direction: Direction, entryType: EntryType,
    entry: real, stop: real, target: real, liquidationDistance: real,
    margin: real, leverage: int, exitPlan: bool)
  {
    /** What the decision schema enforces on an executable decision. */
    predicate WellFormed() {
      && execute && !direction.NoTrade?
      && 0.0 < margin <= 10.0 && 1 <= leverage <= 10
      && stop > 0.0 && target > 0.0 && liquidationDistance >= 0.0
      && (if direction.Long? then stop < entry < target else target < entry < stop)
    }

    /** The estimator's view of a long or short; it raises on anything else. */
    function AsPlan(): Plan { Plan(direction.Long?, entryType.MarketEntry?, entry, stop, target) }
  }

  datatype LiquidationRule = LiquidationRule(
    enabled: bool, minDistance: real, minBuffer: real, blockUnknown: bool, blockPast: bool)

  datatype FundingRule = FundingRule(enabled: bool, maxAdverse: real, blockUnknown: bool)

  datatype Limits = Limits(
    maxMargin: real, leverageCap: int, initialBalance: real, maxDailyPercent: real, maxTotalPercent: real,
    minimumRatio: real, maxOpen: int, liquidation: LiquidationRule, funding: FundingRule)

  /** A recorded trade; `openedAfter` counts the trades already closed when it was opened. */
  datatype Trade = Trade(symbol: string, margin: real, leverage: int, openedAfter: nat, pnl: Option<real>) {
    predicate Lost() { pnl.Some? && pnl.value < 0.0 }
  }

  /** What the cycle reads before asking for a verdict. */
  datatype Evidence = Evidence(
    dailyLoss: real, totalLoss: real, fundingRate: Option<real>, openCount: Option<int>,
    rates: Option<FeeRates>, openPnl: Option<real>, last: Option<Trade>, lastAccount: Option<Trade>)
  {
    predicate Valid() { rates.Some? ==> rates.value.Valid() }
  }

  datatype Finding = Pass | Block | AdjustDown | Raise

  // ---------- Checks ----------

  function When(blocked: bool): Finding { if blocked then Block else Pass }

  function CheckDrawdown(loss: real, initialBalance: real, maxPercent: real): Finding {
    if initialBalance <= 0.0 then Block else When(loss / initialBalance * 100.0 >= maxPercent)
  }

  function LiquidationPrice(entry: real, distance: real, direction: Direction): real {
    if direction.Long? then entry * (1.0 - distance / 100.0) else entry * (1.0 + distance / 100.0)
  }

  predicate PastLiquidation(stop: real, liquidation: real, direction: Direction) {
    if direction.Long? then stop <= liquidation else stop >= liquidation
  }

  function BufferPercent(stop: real, liquidation: real, direction: Direction): real
    requires liquidation != 0.0
  {
    if direction.Long? then (stop - liquidation) / liquidation * 100.0 else (liquidation - stop) / liquidation * 100.0
  }

  /** `check_liquidation_safety`; Raise is the division by a liquidation price of zero. */
  function CheckLiquidation(d: Proposal, rule: LiquidationRule): Finding {
    if !rule.enabled || d.direction.NoTrade? then Pass
    else if d.execute && d.stop <= 0.0 then Block
    else if d.liquidationDistance == 0.0 then When(rule.blockUnknown)
    else if d.entry <= 0.0 then Block
    else
      var price := LiquidationPrice(d.entry, d.liquidationDistance, d.direction);
      if PastLiquidation(d.stop, price, d.direction) then When(rule.blockPast)
      else if d.liquidationDistance < rule.minDistance then AdjustDown
      else if price == 0.0 then Raise
      else if BufferPercent(d.stop, price, d.direction) < 0.0 then Block
      else if BufferPercent(d.stop, price, d.direction) < rule.minBuffer then AdjustDown
      else Pass
  }

  function CheckFunding(d: Proposal, rate: Option<real>, rule: FundingRule): Finding {
    if !rule.enabled || d.direction.NoTrade? then Pass
    else if rate.None? then When(rule.blockUnknown)
    else When((if d.direction.Long? then rate.value else -rate.value) >= rule.maxAdverse)
  }

  function CheckFees(d: Proposal, rates: Option<FeeRates>, minimum: real): Finding
    requires rates.Some? ==> rates.value.Valid()
  {
    if d.entryType.NoEntry? || rates.None? then Block
    else if d.direction.NoTrade? then Raise
    else
      var estimate := EstimateFees(d.AsPlan(), Product(d.margin, d.leverage as real), rates.value);
      if estimate.None? then Raise else When(!Passes(estimate, minimum))
  }

  function CheckMaxOpen(count: Option<int>, maxOpen: int): Finding {
    When(count.None? || count.value >= maxOpen)
  }

  function CheckMartingale(margin: real, last: Option<Trade>): Finding {
    if margin <= 0.0 || (last.Some? && last.value.margin <= 0.0) then Raise
    else When(last.Some? && last.value.Lost() && margin > last.value.margin)
  }

  function CheckLeverageEscalation(leverage: int, last: Option<Trade>): Finding {
    if leverage <= 0 || (last.Some? && last.value.leverage <= 0) then Raise
    else When(last.Some? && last.value.Lost() && leverage > last.value.leverage)
  }

  function BlockChecks(d: Proposal, limits: Limits, seen: Evidence): seq<Finding>
    requires seen.Valid()
  {
    [ When(d.stop <= 0.0),
      When(d.target <= 0.0 && !d.exitPlan),
      CheckDrawdown(seen.dailyLoss, limits.initialBalance, limits.maxDailyPercent),
      CheckDrawdown(seen.totalLoss, limits.initialBalance, limits.maxTotalPercent),
      CheckLiquidation(d, limits.liquidation),
      CheckFunding(d, seen.fundingRate, limits.funding),
      CheckFees(d, seen.rates, limits.minimumRatio),
      CheckMaxOpen(seen.openCount, limits.maxOpen),
      CheckMartingale(d.margin, seen.last),
      CheckLeverageEscalation(d.leverage, seen.lastAccount),
      When(seen.openPnl.Some? && seen.openPnl.value < 0.0)
    ]
  }

  // ---------- Verdict ----------

  datatype Verdict = NoOperar | Blocked | Raised
    | AdjustedDown(margin: real, leverage: int)
    | Approved(margin: real, leverage: int)
  {
    predicate Executable() { AdjustedDown? || Approved? }
  }

  /** The ranges the result schema enforces on parameters that will trade. */
  predicate Tradable(margin: real, leverage: int) { 0.0 < margin <= 10.0 && 1 <= leverage <= 10 }

  /** `validate`: refusals first, then the caps, then approval as proposed. */
  function Validate(d: Proposal, limits: Limits, seen: Evidence): Verdict
    requires seen.Valid()
  {
    if !d.execute then (if 0.0 <= d.margin <= 10.0 && 1 <= d.leverage <= 10 then NoOperar else Raised)
    else if !Tradable(d.margin, d.leverage) then Raised
    else
      var checks := BlockChecks(d, limits, seen);
      if Raise in checks then Raised
      else if Block in checks then Blocked
      else if d.margin > limits.maxMargin || d.leverage > limits.leverageCap then
        var margin := Min(d.margin, limits.maxMargin);
        var leverage := if d.leverage <= limits.leverageCap then d.leverage else limits.leverageCap;
        if Tradable(margin, leverage) then AdjustedDown(margin, leverage) else Raised
      else Approved(d.margin, d.leverage)
  }

  lemma NonNegativeQuotient(x: real, y: real)
    requires x >= 0.0 && y > 0.0
    ensures x / y >= 0.0 && x / y * y == x
  {}

  lemma Ratio(margin: real, leverage: int, entry: real)
    requires margin >= 0.0 && leverage >= 0 && entry > 0.0
    ensures margin * leverage as real / entry >= 0.0
    ensures margin * leverage as real / entry * entry == margin * leverage as real
  {
    MulNonNegative(margin, leverage as real);
    NonNegativeQuotient(margin * leverage as real, entry);
  }

  /** `_compute_quantity`: the contract quantity of an approved plan, rounded down. */
  function Quantity(margin: real, leverage: int, entry: real): (q: real)
    requires margin >= 0.0 && leverage >= 0 && entry > 0.0
    ensures OnGrid(q) && q >= 0.0
  {
    Ratio(margin, leverage, entry);
    QuantizeDown(margin * leverage as real / entry)
  }

  // ---------- What a verdict guarantees ----------

  /** An executed plan never exceeds the proposal, the configured caps or the hard limits,
      and keeps the proposal exactly when it already fits. */
  lemma ExecutedWithinCaps(d: Proposal, limits: Limits, seen: Evidence)
    requires seen.Valid()
    ensures var v := Validate(d, limits, seen);
            v.Executable() ==>
              && 0.0 < v.margin <= d.margin && v.margin <= limits.maxMargin && v.margin <= 10.0
              && 1 <= v.leverage <= d.leverage && v.leverage <= limits.leverageCap && v.leverage <= 10
              && (v.margin == d.margin || v.margin == limits.maxMargin)
              && (v.leverage == d.leverage || v.leverage == limits.leverageCap)
              && (v.Approved? <==> v.margin == d.margin && v.leverage == d.leverage)
  {
    hide BlockChecks;
  }

  lemma ScaleUp(x: real, y: real, z: real)
    requires x <= y && z > 0.0
    ensures x * z <= y * z
  {}

  lemma ScaleUpStrictly(x: real, y: real, z: real)
    requires x < y && z > 0.0
    ensures x * z < y * z
  {}

  /** The executed notional never exceeds the approved one, and wastes less than one step of quantity. */
  lemma NotionalWithinApproval(margin: real, leverage: int, entry: real)
    requires margin >= 0.0 && leverage >= 0 && entry > 0.0
    ensures Product(Quantity(margin, leverage, entry), entry) <= Product(margin, leverage as real)
    ensures Product(margin, leverage as real) < Product(Quantity(margin, leverage, entry) + ULP, entry)
  {
    hide QuantizeDown;
    Ratio(margin, leverage, entry);
    var exact := margin * leverage as real / entry;
    ScaleUp(Quantity(margin, leverage, entry), exact, entry);
    ScaleUpStrictly(exact, Quantity(margin, leverage, entry) + ULP, entry);
  }

  /** An executed order's stop triggers before its estimated liquidation, and no unknown distance trades. */
  lemma StopBeforeLiquidation(d: Proposal, limits: Limits, seen: Evidence)
    requires seen.Valid() && d.WellFormed()
    requires limits.liquidation.enabled && limits.liquidation.blockUnknown && limits.liquidation.blockPast
    ensures Validate(d, limits, seen).Executable() ==>
              && d.liquidationDistance > 0.0
              && var price := LiquidationPrice(d.entry, d.liquidationDistance, d.direction);
                 if d.direction.Long? then price < d.stop < d.entry else d.entry < d.stop < price
  {
    hide LiquidationPrice, BufferPercent;
    assert BlockChecks(d, limits, seen)[4] == CheckLiquidation(d, limits.liquidation);
  }

  lemma PositiveNotional(margin: real, leverage: int)
    requires margin > 0.0 && leverage >= 1
    ensures Product(margin, leverage as real) > 0.0
  {}

  /** Whatever margin and leverage are executed, the trade still clears the fee gate, and does so exactly. */
  lemma FeeGateSurvivesAdjustment(d: Proposal, limits: Limits, seen: Evidence)
    requires seen.Valid()
    ensures var v := Validate(d, limits, seen);
            v.Executable() ==>
              && seen.rates.Some? && d.AsPlan().Coherent()
              && NetRatio(d.AsPlan(), seen.rates.value) >= limits.minimumRatio
              && Passes(EstimateFees(d.AsPlan(), Product(v.margin, v.leverage as real), seen.rates.value),
                        limits.minimumRatio)
  {
    hide EstimateFees, Passes, NetRatio;
    assert BlockChecks(d, limits, seen)[6] == CheckFees(d, seen.rates, limits.minimumRatio);
    var v := Validate(d, limits, seen);
    if v.Executable() {
      ExecutedWithinCaps(d, limits, seen);
      PositiveNotional(d.margin, d.leverage);
      PositiveNotional(v.margin, v.leverage);
      PassIsExact(d.AsPlan(), Product(d.margin, d.leverage as real), seen.rates.value, limits.minimumRatio);
      VerdictIgnoresNotional(d.AsPlan(), Product(d.margin, d.leverage as real),
                             Product(v.margin, v.leverage as real), seen.rates.value, limits.minimumRatio);
    }
  }

  // ---------- Exactly which proposals trade ----------

  /** The loss is a smaller share of the initial balance than allowed. */
  predicate LossWithin(loss: real, initialBalance: real, maxPercent: real) {
    initialBalance > 0.0 && loss * 100.0 < maxPercent * initialBalance
  }

  predicate FundingAffordable(d: Proposal, rate: Option<real>, rule: FundingRule) {
    rule.enabled ==>
      match rate
      case None => !rule.blockUnknown
      case Some(r) => if d.direction.Long? then r < rule.maxAdverse else r > -rule.maxAdverse
  }

  /** A long whose estimated liquidation price is not positive, though a stop could never pass it. */
  predicate CannotLiquidate(d: Proposal) { d.direction.Long? && d.liquidationDistance >= 100.0 }

  /** The stop lies as far from the entry as the liquidation, or farther, in percent of the entry. */
  predicate PastByPrices(d: Proposal) {
    Product(d.entry, d.liquidationDistance)
    <= 100.0 * (if d.direction.Long? then d.entry - d.stop else d.stop - d.entry)
  }

  lemma PastIs(d: Proposal)
    requires d.WellFormed()
    ensures PastLiquidation(d.stop, LiquidationPrice(d.entry, d.liquidationDistance, d.direction), d.direction)
            <==> PastByPrices(d)
  {
    var x, y := d.entry, d.liquidationDistance;
    assert x * (1.0 - y / 100.0) == x - x * y / 100.0;
    assert x * (1.0 + y / 100.0) == x + x * y / 100.0;
  }

  /** The liquidation rule in its own terms, without the thresholds that adjust nothing. */
  predicate LiquidationAcceptable(d: Proposal, rule: LiquidationRule) {
    rule.enabled ==>
      if d.liquidationDistance == 0.0 then !rule.blockUnknown
      else if PastByPrices(d) then !rule.blockPast
      else !(CannotLiquidate(d) && rule.minDistance <= d.liquidationDistance)
  }

  /** After a loss neither margin nor leverage rises; a recorded trade must itself make sense. */
  predicate NoEscalation(d: Proposal, seen: Evidence) {
    && (seen.last.Some? ==> seen.last.value.margin > 0.0
                            && (seen.last.value.Lost() ==> d.margin <= seen.last.value.margin))
    && (seen.lastAccount.Some? ==> seen.lastAccount.value.leverage > 0
                                   && (seen.lastAccount.value.Lost() ==> d.leverage <= seen.lastAccount.value.leverage))
  }

  /** The proposal's prices as the fee gate reads them. */
  function PlanOf(d: Proposal): Plan
    requires !d.direction.NoTrade?
  {
    Plan(d.direction == Long, d.entryType == MarketEntry, d.entry, d.stop, d.target)
  }

  predicate FeesLeaveEnough(d: Proposal, rates: Option<FeeRates>, minimum: real)
    requires d.WellFormed() && (rates.Some? ==> rates.value.Valid())
  {
    !d.entryType.NoEntry? && rates.Some? && Floor4(RatioAfterFees(PlanOf(d), rates.value)) >= minimum
  }

  /** Every rule but the caps permits the proposal. */
  predicate RulesPermit(d: Proposal, limits: Limits, seen: Evidence)
    requires d.WellFormed() && seen.Valid()
  {
    && LossWithin(seen.dailyLoss, limits.initialBalance, limits.maxDailyPercent)
    && LossWithin(seen.totalLoss, limits.initialBalance, limits.maxTotalPercent)
    && LiquidationAcceptable(d, limits.liquidation)
    && FundingAffordable(d, seen.fundingRate, limits.funding)
    && FeesLeaveEnough(d, seen.rates, limits.minimumRatio)
    && seen.openCount.Some? && seen.openCount.value < limits.maxOpen
    && NoEscalation(d, seen)
    && (seen.openPnl.Some? ==> seen.openPnl.value >= 0.0)
  }

  predicate Permitted(d: Proposal, limits: Limits, seen: Evidence)
    requires d.WellFormed() && seen.Valid()
  {
    RulesPermit(d, limits, seen) && limits.maxMargin > 0.0 && limits.leverageCap >= 1
  }

  lemma SignOfProduct(x: real, y: real)
    requires x > 0.0
    ensures x * y > 0.0 <==> y > 0.0
    ensures x * y == 0.0 <==> y == 0.0
  {}

  lemma DrawdownMeans(loss: real, initialBalance: real, maxPercent: real)
    ensures CheckDrawdown(loss, initialBalance, maxPercent) == When(!LossWithin(loss, initialBalance, maxPercent))
  {
    if initialBalance > 0.0 {
      var share := loss / initialBalance;
      assert share * initialBalance == loss;
      SignOfProduct(initialBalance, maxPercent - share * 100.0);
      assert initialBalance * (maxPercent - share * 100.0) == maxPercent * initialBalance - loss * 100.0;
    }
  }

  lemma FeesMean(d: Proposal, rates: Option<FeeRates>, minimum: real)
    requires d.WellFormed() && (rates.Some? ==> rates.value.Valid())
    ensures CheckFees(d, rates, minimum) == When(!FeesLeaveEnough(d, rates, minimum))
  {
    hide NetRatio, FloorRatio, QuantizeUp, Product, Floor4, RatioAfterFees;
    PositiveNotional(d.margin, d.leverage);
    if rates.Some? { GateIff(d.AsPlan(), Product(d.margin, d.leverage as real), rates.value, minimum); }
  }

  lemma FeesNeverAdjust(d: Proposal, rates: Option<FeeRates>, minimum: real)
    requires rates.Some? ==> rates.value.Valid()
    ensures !CheckFees(d, rates, minimum).AdjustDown?
  {}

  function Harmless(f: Finding): Finding { if f.AdjustDown? then Pass else f }

  /** The list of findings holds neither Block nor Raise exactly when none of its checks does. */
  lemma NothingBlocks(d: Proposal, limits: Limits, seen: Evidence)
    requires d.WellFormed() && seen.Valid()
    ensures (Raise !in BlockChecks(d, limits, seen) && Block !in BlockChecks(d, limits, seen)) <==>
            && CheckDrawdown(seen.dailyLoss, limits.initialBalance, limits.maxDailyPercent).Pass?
            && CheckDrawdown(seen.totalLoss, limits.initialBalance, limits.maxTotalPercent).Pass?
            && Harmless(CheckLiquidation(d, limits.liquidation)).Pass?
            && CheckFunding(d, seen.fundingRate, limits.funding).Pass?
            && CheckFees(d, seen.rates, limits.minimumRatio).Pass?
            && CheckMaxOpen(seen.openCount, limits.maxOpen).Pass?
            && CheckMartingale(d.margin, seen.last).Pass?
            && CheckLeverageEscalation(d.leverage, seen.lastAccount).Pass?
            && (seen.openPnl.Some? ==> seen.openPnl.value >= 0.0)
  {
    hide CheckLiquidation;
    var all := BlockChecks(d, limits, seen);
    FeesNeverAdjust(d, seen.rates, limits.minimumRatio);
    hide CheckFees, CheckDrawdown;
    assert forall f: Finding :: f in all <==>
             f == all[0] || f == all[1] || f == all[2] || f == all[3] || f == all[4] || f == all[5]
             || f == all[6] || f == all[7] || f == all[8] || f == all[9] || f == all[10];
  }

  lemma LiquidationPriceSign(entry: real, distance: real)
    requires entry > 0.0 && distance >= 0.0
    ensures LiquidationPrice(entry, distance, Short) > 0.0
    ensures LiquidationPrice(entry, distance, Long) > 0.0 <==> distance < 100.0
    ensures LiquidationPrice(entry, distance, Long) == 0.0 <==> distance == 100.0
  {
    SignOfProduct(entry, 1.0 - distance / 100.0);
    SignOfProduct(entry, 1.0 + distance / 100.0);
  }

  lemma BufferSign(x: real, price: real)
    requires x > 0.0 && price != 0.0
    ensures x / price * 100.0 < 0.0 <==> price < 0.0
  {
    var q := x / price;
    assert q * price == x;
  }

  /** Up to AdjustDown, which `validate` ignores here, the check is its flags and one surprise:
      a long that cannot be liquidated is blocked or raises, unless the distance threshold exceeds it. */
  lemma LiquidationFinding(d: Proposal, rule: LiquidationRule)
    requires d.WellFormed()
    ensures
      Harmless(CheckLiquidation(d, rule)) ==
      if !rule.enabled then Pass
      else if d.liquidationDistance == 0.0 then When(rule.blockUnknown)
      else if PastLiquidation(d.stop, LiquidationPrice(d.entry, d.liquidationDistance, d.direction), d.direction)
      then When(rule.blockPast)
      else if CannotLiquidate(d) && rule.minDistance <= d.liquidationDistance
      then (if d.liquidationDistance == 100.0 then Raise else Block)
      else Pass
  {
    hide LiquidationPrice;
    var price := LiquidationPrice(d.entry, d.liquidationDistance, d.direction);
    LiquidationPriceSign(d.entry, d.liquidationDistance);
    if price != 0.0 && !PastLiquidation(d.stop, price, d.direction) {
      BufferSign(if d.direction.Long? then d.stop - price else price - d.stop, price);
    }
  }

  /** A well-formed proposal trades exactly when every rule, stated in its own terms, permits it. */
  lemma ExecutableIff(d: Proposal, limits: Limits, seen: Evidence)
    requires d.WellFormed() && seen.Valid()
    ensures Validate(d, limits, seen).Executable() <==> Permitted(d, limits, seen)
  {
    hide CheckLiquidation, CheckFees, CheckDrawdown;
    hide LiquidationPrice, PastLiquidation, PastByPrices, CannotLiquidate, LossWithin, FeesLeaveEnough;
    DrawdownMeans(seen.dailyLoss, limits.initialBalance, limits.maxDailyPercent);
    DrawdownMeans(seen.totalLoss, limits.initialBalance, limits.maxTotalPercent);
    FeesMean(d, seen.rates, limits.minimumRatio);
    LiquidationFinding(d, limits.liquidation);
    PastIs(d);
    NothingBlocks(d, limits, seen);
  }

  /** Recorded trades that make no sense. */
  predicate BrokenHistory(seen: Evidence) {
    || (seen.last.Some? && seen.last.value.margin <= 0.0)
    || (seen.lastAccount.Some? && seen.lastAccount.value.leverage <= 0)
  }

  lemma FundingNeverRaises(d: Proposal, rate: Option<real>, rule: FundingRule)
    ensures !CheckFunding(d, rate, rule).Raise?
  {}

  lemma RaisesAmong(d: Proposal, limits: Limits, seen: Evidence)
    requires d.WellFormed() && seen.Valid()
    ensures Raise in BlockChecks(d, limits, seen) <==>
            CheckLiquidation(d, limits.liquidation).Raise? || BrokenHistory(seen)
  {
    hide CheckLiquidation, CheckFunding;
    FeesMean(d, seen.rates, limits.minimumRatio);
    FundingNeverRaises(d, seen.fundingRate, limits.funding);
    hide CheckFees, CheckDrawdown, FeesLeaveEnough;
    var all := BlockChecks(d, limits, seen);
    DrawdownMeans(seen.dailyLoss, limits.initialBalance, limits.maxDailyPercent);
    DrawdownMeans(seen.totalLoss, limits.initialBalance, limits.maxTotalPercent);
    hide LossWithin;
    assert forall f: Finding :: f in all <==>
             f == all[0] || f == all[1] || f == all[2] || f == all[3] || f == all[4] || f == all[5]
             || f == all[6] || f == all[7] || f == all[8] || f == all[9] || f == all[10];
  }

  lemma ZeroPriceNotPast(d: Proposal)
    requires d.WellFormed() && d.direction.Long? && d.liquidationDistance == 100.0
    ensures !PastLiquidation(d.stop, LiquidationPrice(d.entry, d.liquidationDistance, d.direction), d.direction)
  {
    LiquidationPriceSign(d.entry, d.liquidationDistance);
    hide LiquidationPrice;
  }

  lemma SameRules(d: Proposal, limits: Limits, seen: Evidence)
    requires d.WellFormed() && seen.Valid()
    ensures RulesPermit(d, limits.(maxMargin := 10.0, leverageCap := 10), seen) == RulesPermit(d, limits, seen)
  {}

  /** Apart from the ranges of the proposal itself, a verdict neither raises in its checks nor blocks
      exactly when the rules permit, whatever the caps. */
  lemma WhenRefused(d: Proposal, limits: Limits, seen: Evidence)
    requires d.WellFormed() && seen.Valid()
    ensures (Raise !in BlockChecks(d, limits, seen) && Block !in BlockChecks(d, limits, seen))
            <==> RulesPermit(d, limits, seen)
  {
    var open := limits.(maxMargin := 10.0, leverageCap := 10);
    assert BlockChecks(d, open, seen) == BlockChecks(d, limits, seen);
    ExecutableIff(d, open, seen);
    hide BlockChecks, RulesPermit;
    assert RulesPermit(d, open, seen) == RulesPermit(d, limits, seen) by { SameRules(d, limits, seen); }
  }

  /** A validation raises instead of refusing exactly on a long at the very distance where its liquidation
      price is zero, on broken recorded trades, or when only the caps leave nothing to trade with. */
  lemma RaisedIff(d: Proposal, limits: Limits, seen: Evidence)
    requires d.WellFormed() && seen.Valid()
    ensures Validate(d, limits, seen).Raised? <==>
            || (limits.liquidation.enabled && d.direction.Long? && d.liquidationDistance == 100.0
                && limits.liquidation.minDistance <= 100.0)
            || BrokenHistory(seen)
            || (RulesPermit(d, limits, seen) && (limits.maxMargin <= 0.0 || limits.leverageCap < 1))
  {
    hide CheckLiquidation, LiquidationPrice, PastLiquidation, FeesLeaveEnough, LossWithin;
    RaisesAmong(d, limits, seen);
    ExecutableIff(d, limits, seen);
    LiquidationFinding(d, limits.liquidation);
    LiquidationPriceSign(d.entry, d.liquidationDistance);
    if d.direction.Long? && d.liquidationDistance == 100.0 { ZeroPriceNotPast(d); }
    hide CannotLiquidate, BlockChecks;
    WhenRefused(d, limits, seen);
  }

  /** For any decision at all: one that is not to be executed is passed on as such, and one that trades was
      to be executed and has an entry, a stop and a target, whatever its exit plan says. */
  lemma DefencesHold(d: Proposal, limits: Limits, seen: Evidence)
    requires seen.Valid()
    ensures Validate(d, limits, seen).NoOperar? <==> !d.execute && 0.0 <= d.margin <= 10.0 && 1 <= d.leverage <= 10
    ensures Validate(d, limits, seen).Executable() ==>
              d.execute && !d.direction.NoTrade? && d.entry > 0.0 && d.stop > 0.0 && d.target > 0.0
              && !d.entryType.NoEntry?
  {
    FeeGateSurvivesAdjustment(d, limits, seen);
    assert BlockChecks(d, limits, seen)[6] == CheckFees(d, seen.rates, limits.minimumRatio);
    hide BlockChecks, EstimateFees, Passes, NetRatio;
  }

  // ---------- The liquidation thresholds adjust nothing ----------

  predicate SameFlags(a: LiquidationRule, b: LiquidationRule) {
    a.enabled == b.enabled && a.blockUnknown == b.blockUnknown && a.blockPast == b.blockPast
  }

  function OtherChecks(d: Proposal, limits: Limits, seen: Evidence): seq<Finding>
    requires seen.Valid()
  {
    BlockChecks(d, limits, seen)[..4] + BlockChecks(d, limits, seen)[5..]
  }

  /** Membership in the list of findings, spelled out around the liquidation check. */
  lemma MembersOf(d: Proposal, limits: Limits, seen: Evidence)
    requires seen.Valid()
    ensures forall f: Finding :: f in BlockChecks(d, limits, seen) <==>
              f == CheckLiquidation(d, limits.liquidation) || f in OtherChecks(d, limits, seen)
  {
    hide CheckLiquidation, CheckFees, CheckDrawdown, CheckFunding;
    hide CheckMartingale, CheckLeverageEscalation, CheckMaxOpen;
    var all := BlockChecks(d, limits, seen);
    assert all == all[..4] + [CheckLiquidation(d, limits.liquidation)] + all[5..];
    assert OtherChecks(d, limits, seen) == all[..4] + all[5..];
  }

  /** The two liquidation thresholds never reduce a margin or a leverage: changing them changes no
      verdict, except where a long that cannot be liquidated falls on different sides of them. */
  lemma ThresholdsAdjustNothing(d: Proposal, limits: Limits, other: LiquidationRule, seen: Evidence)
    requires seen.Valid() && d.WellFormed() && SameFlags(limits.liquidation, other)
    requires CannotLiquidate(d) ==>
               (limits.liquidation.minDistance <= d.liquidationDistance <==> other.minDistance <= d.liquidationDistance)
    ensures Validate(d, limits, seen) == Validate(d, limits.(liquidation := other), seen)
  {
    hide CheckLiquidation, CheckFees, LiquidationPrice, PastLiquidation, CannotLiquidate;
    LiquidationFinding(d, limits.liquidation);
    LiquidationFinding(d, other);
    MembersOf(d, limits, seen);
    MembersOf(d, limits.(liquidation := other), seen);
  }

  /** A long with a liquidation price at or below zero never trades under the usual thresholds. */
  lemma UnliquidatableLongRefused(d: Proposal, limits: Limits, seen: Evidence)
    requires seen.Valid() && d.WellFormed() && CannotLiquidate(d)
    requires limits.liquidation.enabled && limits.liquidation.minDistance <= d.liquidationDistance
    ensures !Validate(d, limits, seen).Executable()
    ensures d.liquidationDistance == 100.0 ==> Validate(d, limits, seen).Raised?
  {
    hide CheckLiquidation, CheckFees, LiquidationPrice;
    LiquidationFinding(d, limits.liquidation);
    LiquidationPriceSign(d.entry, d.liquidationDistance);
    assert BlockChecks(d, limits, seen)[4] == CheckLiquidation(d, limits.liquidation);
  }
}
