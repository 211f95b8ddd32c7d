/**
 Pre-trade fee projection and the gate on the net risk/reward ratio
 (backend/core/fees.py, backend/risk_engine/checks.py).
 */
module FeeGate {
  import opened Decimals

  datatype FeeRates = FeeRates(maker: real, taker: real) {
    predicate Valid() { 0.0 <= maker < 1.0 && 0.0 <= taker < 1.0 }
  }

  /** A proposed trade: long or short, market or limit entry, and its three prices. */
  datatype Plan = Plan(long: bool, market: bool, entry: real, stop: real, target: real) {
    function Reward(): real { if long then target - entry else entry - target }
    function Risk(): real { if long then entry - stop else stop - entry }

    predicate Coherent() { entry > 0.0 && stop > 0.0 && target > 0.0 && Reward() > 0.0 && Risk() > 0.0 }

    function EntryRate(rates: FeeRates): real { if market then rates.taker else rates.maker }
  }

  datatype FeeEstimate = FeeEstimate(
    entryFee: real, exitFeeAtTarget: real, exitFeeAtStop: real, grossRatio: real, netRatio: real)

  /** Rounds a ratio down to four decimals. */
  function FloorRatio(x: real): (r: real)
    ensures r <= x < r + 0.0001
  {
    (x * 10000.0).Floor as real / 10000.0
  }

  // ---------- Ratios per unit of the contract ----------

  function NetReward(reward: real, entry: real, target: real, entryRate: real, exitRate: real): real {
    reward - entry * entryRate - target * exitRate
  }

  function NetRisk(risk: real, entry: real, stop: real, entryRate: real, exitRate: real): real {
    risk + entry * entryRate + stop * exitRate
  }

  function Quotient(x: real, y: real): real
    requires y > 0.0
  {
    x / y
  }

  lemma NetRiskPositive(risk: real, entry: real, stop: real, entryRate: real, exitRate: real)
    requires risk > 0.0 && entry > 0.0 && stop > 0.0 && 0.0 <= entryRate && 0.0 <= exitRate
    ensures NetRisk(risk, entry, stop, entryRate, exitRate) >= risk
  {
    MulNonNegative(entry, entryRate);
    MulNonNegative(stop, exitRate);
  }

  /** The exact ratio of reward to risk after fees. */
  function NetRatio(plan: Plan, rates: FeeRates): real
    requires plan.Coherent() && rates.Valid()
  {
    NetRiskPositive(plan.Risk(), plan.entry, plan.stop, plan.EntryRate(rates), rates.taker);
    Quotient(NetReward(plan.Reward(), plan.entry, plan.target, plan.EntryRate(rates), rates.taker),
             NetRisk(plan.Risk(), plan.entry, plan.stop, plan.EntryRate(rates), rates.taker))
  }

  lemma FeesNonNegative(plan: Plan, notional: real, rates: FeeRates)
    requires rates.Valid() && plan.Coherent() && notional > 0.0
    ensures Product(notional, plan.EntryRate(rates)) >= 0.0
    ensures Product(Product(notional / plan.entry, plan.target), rates.taker) >= 0.0
    ensures Product(Product(notional / plan.entry, plan.stop), rates.taker) >= 0.0
  {
    MulNonNegative(notional, plan.EntryRate(rates));
    MulNonNegative(notional / plan.entry, plan.target);
    MulNonNegative(notional / plan.entry, plan.stop);
    MulNonNegative(Product(notional / plan.entry, plan.target), rates.taker);
    MulNonNegative(Product(notional / plan.entry, plan.stop), rates.taker);
  }

  /** `estimate_fees`; None where it raises. Fees are rounded up, ratios down. */
  function EstimateFees(plan: Plan, notional: real, rates: FeeRates): (r: Option<FeeEstimate>)
    requires rates.Valid()
    ensures r.Some? <==> notional > 0.0 && plan.Coherent()
  {
    if notional <= 0.0 || !plan.Coherent() then None
    else
      var quantity := notional / plan.entry;
      FeesNonNegative(plan, notional, rates);
      Some(FeeEstimate(
             QuantizeUp(Product(notional, plan.EntryRate(rates))),
             QuantizeUp(Product(Product(quantity, plan.target), rates.taker)),
             QuantizeUp(Product(Product(quantity, plan.stop), rates.taker)),
             FloorRatio(Quotient(plan.Reward(), plan.Risk())),
             FloorRatio(NetRatio(plan, rates))))
  }

  /** `check_fee_gate`: passes on an estimate whose rounded net ratio reaches the minimum. */
  predicate Passes(estimate: Option<FeeEstimate>, minimum: real) {
    estimate.Some? && estimate.value.netRatio >= minimum
  }

  // ---------- Soundness ----------

  lemma QuotientMonotone(a: real, b: real, c: real, d: real)
    requires b > 0.0 && d > 0.0 && a * d <= c * b
    ensures Quotient(a, b) <= Quotient(c, d)
  {
    var x, y := a / b, c / d;
    assert x * b == a && y * d == c;
    if x > y {
      assert (x - y) * (b * d) > 0.0;
      assert a * d == x * b * d && c * b == y * d * b;
    }
  }

  lemma Divide(a: real, b: real)
    requires a <= b
    ensures a / 10000.0 <= b / 10000.0
  {}

  lemma FloorMonotone(x: real, y: real)
    requires x <= y
    ensures FloorRatio(x) <= FloorRatio(y)
  {
    var a, b := (x * 10000.0).Floor, (y * 10000.0).Floor;
    assert a <= b;
    Divide(a as real, b as real);
  }

  lemma Spread(x: real, y: real, z: real)
    ensures (x - y) * z == x * z - y * z
  {
  }

  lemma CrossCompare(reward: real, risk: real, netReward: real, netRisk: real)
    requires reward > 0.0 && risk > 0.0 && netReward <= reward && netRisk >= risk
    ensures netReward * risk <= reward * netRisk
  {
    MulNonNegative(reward - netReward, risk);
    MulNonNegative(reward, netRisk - risk);
    Spread(reward, netReward, risk);
    Spread(netRisk, risk, reward);
  }

  lemma NetBelow(reward: real, risk: real, entry: real, stop: real, target: real, m: real, f: real)
    requires reward > 0.0 && risk > 0.0 && entry > 0.0 && stop > 0.0 && target > 0.0 && 0.0 <= m && 0.0 <= f
    ensures NetRisk(risk, entry, stop, m, f) > 0.0
    ensures NetReward(reward, entry, target, m, f) * risk <= reward * NetRisk(risk, entry, stop, m, f)
  {
    NetRiskPositive(risk, entry, stop, m, f);
    MulNonNegative(entry, m);
    MulNonNegative(target, f);
    CrossCompare(reward, risk, NetReward(reward, entry, target, m, f), NetRisk(risk, entry, stop, m, f));
  }

  lemma NetRatioBelow(plan: Plan, rates: FeeRates)
    requires rates.Valid() && plan.Coherent()
    ensures NetRatio(plan, rates) <= Quotient(plan.Reward(), plan.Risk())
  {
    hide NetReward, NetRisk, Quotient;
    var m, f := plan.EntryRate(rates), rates.taker;
    NetBelow(plan.Reward(), plan.Risk(), plan.entry, plan.stop, plan.target, m, f);
    QuotientMonotone(NetReward(plan.Reward(), plan.entry, plan.target, m, f),
                     NetRisk(plan.Risk(), plan.entry, plan.stop, m, f), plan.Reward(), plan.Risk());
  }

  /** Fees only hurt: the net ratio never exceeds the gross ratio. */
  lemma {:induction false} NetBelowGross(plan: Plan, notional: real, rates: FeeRates)
    requires rates.Valid() && plan.Coherent() && notional > 0.0
    ensures EstimateFees(plan, notional, rates).Some?
    ensures var e := EstimateFees(plan, notional, rates).value; e.netRatio <= e.grossRatio
  {
    hide FloorRatio, Quotient, NetRatio, QuantizeUp, Product;
    NetRatioBelow(plan, rates);
    FloorMonotone(NetRatio(plan, rates), Quotient(plan.Reward(), plan.Risk()));
  }

  /** The verdict does not depend on the notional, so adjusting margin or leverage cannot change it. */
  lemma {:induction false} VerdictIgnoresNotional(plan: Plan, a: real, b: real, rates: FeeRates, minimum: real)
    requires rates.Valid() && a > 0.0 && b > 0.0
    ensures Passes(EstimateFees(plan, a, rates), minimum) <==> Passes(EstimateFees(plan, b, rates), minimum)
  {
    assert EstimateFees(plan, a, rates).Some? <==> EstimateFees(plan, b, rates).Some?;
  }

  /** A pass is never an artefact of rounding: the exact ratio reaches the minimum. */
  lemma {:induction false} PassIsExact(plan: Plan, notional: real, rates: FeeRates, minimum: real)
    requires rates.Valid() && plan.Coherent()
    ensures Passes(EstimateFees(plan, notional, rates), minimum) ==> NetRatio(plan, rates) >= minimum
  {
    hide NetRatio, FloorRatio, QuantizeUp, Product;
    assert FloorRatio(NetRatio(plan, rates)) <= NetRatio(plan, rates);
  }

  // ---------- Cheaper fees never block ----------

  /** Net reward plus net risk is the span between target and stop, less fees below its size. */
  lemma SpanAfterFees(plan: Plan, m: real, f: real)
    requires plan.Coherent() && 0.0 <= f < 1.0
    ensures NetReward(plan.Reward(), plan.entry, plan.target, m, f)
            + NetRisk(plan.Risk(), plan.entry, plan.stop, m, f) >= 0.0
  {
    if plan.long {
      MulNonNegative(plan.target - plan.stop, 1.0 - f);
      assert (plan.target - plan.stop) * (1.0 - f) == plan.target - plan.stop - plan.target * f + plan.stop * f;
    } else {
      MulNonNegative(plan.stop - plan.target, 1.0 + f);
      assert (plan.stop - plan.target) * (1.0 + f) == plan.stop - plan.target + plan.stop * f - plan.target * f;
    }
  }

  lemma ShiftBoth(n: real, d: real, saved: real)
    requires n + d >= 0.0 && saved >= 0.0
    ensures n * (d - saved) <= (n + saved) * d
  {
    MulNonNegative(saved, n + d);
    assert (n + saved) * d - n * (d - saved) == saved * (n + d);
  }

  /** Lowering the entry rate: the cross product grows by a positive multiple of reward plus risk. */
  lemma CheaperEntry(plan: Plan, m: real, m': real, f: real)
    requires plan.Coherent() && 0.0 <= m' <= m < 1.0 && 0.0 <= f < 1.0
    ensures NetReward(plan.Reward(), plan.entry, plan.target, m, f) * NetRisk(plan.Risk(), plan.entry, plan.stop, m', f)
         <= NetReward(plan.Reward(), plan.entry, plan.target, m', f) * NetRisk(plan.Risk(), plan.entry, plan.stop, m, f)
  {
    var n := NetReward(plan.Reward(), plan.entry, plan.target, m, f);
    var d := NetRisk(plan.Risk(), plan.entry, plan.stop, m, f);
    var saved := plan.entry * m - plan.entry * m';
    assert saved >= 0.0 by { MulNonNegative(plan.entry, m - m'); }
    SpanAfterFees(plan, m, f);
    ShiftBoth(n, d, saved);
    assert NetReward(plan.Reward(), plan.entry, plan.target, m', f) == n + saved;
    assert NetRisk(plan.Risk(), plan.entry, plan.stop, m', f) == d - saved;
  }

  lemma ExitSpan(plan: Plan, m: real, f: real)
    requires plan.Coherent() && 0.0 <= m < 1.0
    ensures plan.target * NetRisk(plan.Risk(), plan.entry, plan.stop, m, f)
            + plan.stop * NetReward(plan.Reward(), plan.entry, plan.target, m, f) >= 0.0
  {
    var e, s, t := plan.entry, plan.stop, plan.target;
    if plan.long {
      assert t * (e - s + e * m + s * f) + s * (t - e - e * m - t * f) == (t - s) * (e + e * m);
      MulNonNegative(e, m);
      MulNonNegative(t - s, e + e * m);
    } else {
      assert t * (s - e + e * m + s * f) + s * (e - t - e * m - t * f) == (s - t) * (e - e * m);
      MulNonNegative(e, 1.0 - m);
      MulNonNegative(s - t, e - e * m);
    }
  }

  lemma ShiftScaled(n: real, d: real, target: real, stop: real, cut: real)
    requires target * d + stop * n >= 0.0 && cut >= 0.0
    ensures n * (d - stop * cut) <= (n + target * cut) * d
  {
    MulNonNegative(cut, target * d + stop * n);
    assert (n + target * cut) * d - n * (d - stop * cut) == cut * (target * d + stop * n);
  }

  /** Lowering the exit rate alone. */
  lemma CheaperExit(plan: Plan, m: real, f: real, f': real)
    requires plan.Coherent() && 0.0 <= m < 1.0 && 0.0 <= f' <= f < 1.0
    ensures NetReward(plan.Reward(), plan.entry, plan.target, m, f) * NetRisk(plan.Risk(), plan.entry, plan.stop, m, f')
         <= NetReward(plan.Reward(), plan.entry, plan.target, m, f') * NetRisk(plan.Risk(), plan.entry, plan.stop, m, f)
  {
    var n := NetReward(plan.Reward(), plan.entry, plan.target, m, f);
    var d := NetRisk(plan.Risk(), plan.entry, plan.stop, m, f);
    var cut := f - f';
    ExitSpan(plan, m, f);
    ShiftScaled(n, d, plan.target, plan.stop, cut);
    assert plan.target * f' == plan.target * f - plan.target * cut;
    assert plan.stop * f' == plan.stop * f - plan.stop * cut;
  }

  /** The exact net ratio never falls when a fee rate falls, whatever its sign. */
  lemma {:induction false} CheaperIsBetter(plan: Plan, high: FeeRates, low: FeeRates)
    requires plan.Coherent() && high.Valid() && low.Valid() && low.maker <= high.maker && low.taker <= high.taker
    ensures NetRatio(plan, high) <= NetRatio(plan, low)
  {
    hide NetReward, NetRisk, Quotient;
    var m, m', f, f' := plan.EntryRate(high), plan.EntryRate(low), high.taker, low.taker;
    NetRiskPositive(plan.Risk(), plan.entry, plan.stop, m, f);
    NetRiskPositive(plan.Risk(), plan.entry, plan.stop, m', f);
    NetRiskPositive(plan.Risk(), plan.entry, plan.stop, m', f');
    CheaperEntry(plan, m, m', f);
    QuotientMonotone(NetReward(plan.Reward(), plan.entry, plan.target, m, f),
                     NetRisk(plan.Risk(), plan.entry, plan.stop, m, f),
                     NetReward(plan.Reward(), plan.entry, plan.target, m', f),
                     NetRisk(plan.Risk(), plan.entry, plan.stop, m', f));
    CheaperExit(plan, m', f, f');
    QuotientMonotone(NetReward(plan.Reward(), plan.entry, plan.target, m', f),
                     NetRisk(plan.Risk(), plan.entry, plan.stop, m', f),
                     NetReward(plan.Reward(), plan.entry, plan.target, m', f'),
                     NetRisk(plan.Risk(), plan.entry, plan.stop, m', f'));
  }

  /** Lowering fee rates never turns a pass into a block, for any minimum. */
  lemma {:induction false} CheaperNeverBlocks(
    plan: Plan, notional: real, high: FeeRates, low: FeeRates, minimum: real
  )
    requires high.Valid() && low.Valid() && low.maker <= high.maker && low.taker <= high.taker
    ensures Passes(EstimateFees(plan, notional, high), minimum) ==> Passes(EstimateFees(plan, notional, low), minimum)
  {
    hide NetRatio, Quotient, FloorRatio, QuantizeUp, Product;
    if notional > 0.0 && plan.Coherent() {
      CheaperIsBetter(plan, high, low);
      FloorMonotone(NetRatio(plan, high), NetRatio(plan, low));
    }
  }

  // ---------- The gate in prices and rates ----------

  /** Rounded down to the ten-thousandth. */
  function Floor4(x: real): real { (x * 10000.0).Floor as real / 10000.0 }

  function Over(x: real, y: real): real
    requires y != 0.0
  {
    x / y
  }

  /** Stop and target on the sides the direction needs, all prices positive. */
  predicate SoundPrices(plan: Plan) {
    && plan.entry > 0.0 && plan.stop > 0.0 && plan.target > 0.0
    && if plan.long then plan.stop < plan.entry < plan.target else plan.target < plan.entry < plan.stop
  }

  /** Fees of a round trip per unit: a market entry pays taker, a limit entry maker, every exit taker. */
  function TripFees(plan: Plan, exit: real, rates: FeeRates): real {
    if plan.market then Product(rates.taker, plan.entry + exit)
    else Product(rates.maker, plan.entry) + Product(rates.taker, exit)
  }

  function Distance(x: real, y: real): real { if x < y then y - x else x - y }

  lemma TripFeesNonNegative(plan: Plan, exit: real, rates: FeeRates)
    requires rates.Valid() && plan.entry > 0.0 && exit > 0.0
    ensures TripFees(plan, exit, rates) >= 0.0
  {
    MulNonNegative(rates.taker, plan.entry + exit);
    MulNonNegative(rates.maker, plan.entry);
    MulNonNegative(rates.taker, exit);
  }

  /** What the trade makes at its target, after fees, for each unit it loses at its stop, fees included. */
  function RatioAfterFees(plan: Plan, rates: FeeRates): real
    requires SoundPrices(plan) && rates.Valid()
  {
    TripFeesNonNegative(plan, plan.stop, rates);
    Over(Distance(plan.entry, plan.target) - TripFees(plan, plan.target, rates),
         Distance(plan.entry, plan.stop) + TripFees(plan, plan.stop, rates))
  }

  lemma FeesSplit(entry: real, exit: real, m: real, f: real)
    ensures entry * m + exit * f == Product(m, entry) + Product(f, exit)
    ensures m == f ==> Product(m, entry) + Product(f, exit) == Product(f, entry + exit)
  {}

  lemma RatioIs(plan: Plan, rates: FeeRates)
    requires rates.Valid()
    ensures plan.Coherent() <==> SoundPrices(plan)
    ensures plan.Coherent() ==> NetRatio(plan, rates) == RatioAfterFees(plan, rates)
  {
    if plan.Coherent() {
      var m := if plan.market then rates.taker else rates.maker;
      FeesSplit(plan.entry, plan.target, m, rates.taker);
      FeesSplit(plan.entry, plan.stop, m, rates.taker);
      NetRiskPositive(plan.Risk(), plan.entry, plan.stop, plan.EntryRate(rates), rates.taker);
      hide Product;
      assert NetReward(plan.Reward(), plan.entry, plan.target, plan.EntryRate(rates), rates.taker)
          == Distance(plan.entry, plan.target) - TripFees(plan, plan.target, rates);
      assert NetRisk(plan.Risk(), plan.entry, plan.stop, plan.EntryRate(rates), rates.taker)
          == Distance(plan.entry, plan.stop) + TripFees(plan, plan.stop, rates);
    }
  }

  lemma FloorsAre(x: real)
    ensures FloorRatio(x) == Floor4(x)
  {}

  /** The gate in its own terms: sound prices, and the ratio after fees, rounded down to four decimals, at
      the minimum or above. */
  lemma GateIff(plan: Plan, notional: real, rates: FeeRates, minimum: real)
    requires rates.Valid()
    ensures Passes(EstimateFees(plan, notional, rates), minimum) <==>
            notional > 0.0 && SoundPrices(plan) && Floor4(RatioAfterFees(plan, rates)) >= minimum
  {
    hide Quotient, NetRatio, FloorRatio, Floor4, RatioAfterFees, QuantizeUp, Product;
    RatioIs(plan, rates);
    if plan.Coherent() { FloorsAre(NetRatio(plan, rates)); }
  }

  predicate RoundsUp(exact: real, rounded: real) { OnGrid(rounded) && exact <= rounded < exact + ULP }

  /** Every figure of an estimate: each fee is its own notional at its own rate, rounded up by less than
      one step, and the gross ratio is that of the bare distances, rounded down. */
  lemma EstimateIs(plan: Plan, notional: real, rates: FeeRates)
    requires rates.Valid() && notional > 0.0 && SoundPrices(plan)
    ensures EstimateFees(plan, notional, rates).Some?
    ensures var e, q := EstimateFees(plan, notional, rates).value, Over(notional, plan.entry);
            && RoundsUp(Product(notional, if plan.market then rates.taker else rates.maker), e.entryFee)
            && RoundsUp(Product(Product(q, plan.target), rates.taker), e.exitFeeAtTarget)
            && RoundsUp(Product(Product(q, plan.stop), rates.taker), e.exitFeeAtStop)
            && e.grossRatio == Floor4(Over(Distance(plan.entry, plan.target), Distance(plan.entry, plan.stop)))
            && e.netRatio == Floor4(RatioAfterFees(plan, rates))
  {
    hide NetRatio, Floor4, FloorRatio, RatioAfterFees, QuantizeUp, Product;
    RatioIs(plan, rates);
    FloorsAre(NetRatio(plan, rates));
    FloorsAre(Quotient(plan.Reward(), plan.Risk()));
    FeesNonNegative(plan, notional, rates);
  }
}
