/**
 The fill simulator's price and fee models, the pre-trade slippage estimator, and the
 proof that the two price the same market order alike.
 */
module CostModels {
  import opened Decimals

  /** The order kinds the models tell apart; STOP covers both triggered order types. */
  datatype Kind = Market | Limit | Stop

  datatype Book = Book(bid: real, ask: real) {
    predicate Coherent() { 0.0 < bid < ask }
  }

  /** Half of the bid-ask spread: what crossing the book costs per unit. */
  function HalfSpread(book: Book): (h: real)
    requires book.Coherent()
    ensures h > 0.0 && book.bid + h == book.ask - h
  {
    (book.ask - book.bid) / 2.0
  }

  /** A reference price moved `bps` basis points against the order. */
  function AdversePrice(price: real, side: Side, bps: real): real {
    var factor := bps / 10000.0;
    if side.Buy? then price * (1.0 + factor) else price * (1.0 - factor)
  }

  datatype SlippageModel = SlippageModel(bps: real) {
    /** Fill price after the adverse basis-point move; LIMIT fills at its price. */
    function Apply(price: real, side: Side, kind: Kind): real {
      if kind.Limit? then Quantize(price) else Quantize(AdversePrice(price, side, bps))
    }
  }

  function FeeOn(notional: real, rate: real): real { Quantize(Product(notional, rate)) }

  datatype FeeModel = FeeModel(taker: real, maker: real) {
    predicate Valid() { 0.0 <= taker < 1.0 && 0.0 <= maker < 1.0 }

    function Rate(kind: Kind): real { if kind.Limit? then maker else taker }

    function Calculate(notional: real, kind: Kind): real {
      FeeOn(notional, Rate(kind))
    }
  }

  lemma FeeOnNonNegative(notional: real, rate: real)
    requires 0.0 <= notional && 0.0 <= rate
    ensures 0.0 <= FeeOn(notional, rate)
  {
    MulNonNegative(notional, rate);
    QuantizeNonNegative(Product(notional, rate));
  }

  /** A fee is never negative on a non-negative notional. */
  lemma FeeNonNegative(fees: FeeModel, notional: real, kind: Kind)
    requires fees.Valid() && 0.0 <= notional
    ensures 0.0 <= fees.Calculate(notional, kind)
  {
    FeeOnNonNegative(notional, fees.Rate(kind));
  }

  /** Moves a simulated fill half a spread against the order when the book is known. */
  function CrossSpread(fill: real, side: Side, book: Option<Book>): real
    requires book.Some? ==> book.value.Coherent()
  {
    match book
    case None => fill
    case Some(b) => Quantize(if side.Buy? then fill + HalfSpread(b) else fill - HalfSpread(b))
  }

  /** The price at which the simulator fills a market order. */
  function SimulatedFill(model: SlippageModel, price: real, side: Side, book: Option<Book>): real
    requires book.Some? ==> book.value.Coherent()
  {
    CrossSpread(model.Apply(price, side, Market), side, book)
  }

  datatype SlippageEstimate =
    SlippageEstimate(total: real, halfSpread: real, impact: real, expectedFill: real, book: Book)

  /** BUY expects to pay above the reference price, SELL to receive below it. */
  function ExpectedFill(side: Side, spread: real, reference: real, impact: real): real {
    var adverse := spread + impact;
    Quantize(if side.Buy? then reference + adverse else reference - adverse)
  }

  /** The given basis points of an amount. */
  function BpsOf(amount: real, bps: real): real { amount * bps / 10000.0 }

  /** How much of the contract a notional buys. */
  function Units(notional: real, price: real): real
    requires price > 0.0
  {
    notional / price
  }

  /** `estimate_slippage`; None where the program raises on incoherent input. */
  function EstimateSlippage(
    side: Side, kind: Kind, notional: real, book: Book, reference: real, impactBps: real
  ): (r: Option<SlippageEstimate>)
    ensures r.Some? <==> notional > 0.0 && book.Coherent() && reference > 0.0 && impactBps >= 0.0
  {
    if notional <= 0.0 || book.bid <= 0.0 || book.ask <= 0.0 || book.bid >= book.ask
      || reference <= 0.0 || impactBps < 0.0 then None
    else if !kind.Market? then
      Some(SlippageEstimate(0.0, 0.0, 0.0, Quantize(reference), book))
    else
      var quantity := Units(notional, reference);
      var spread := HalfSpread(book);
      var impact := BpsOf(reference, impactBps);
      Some(SlippageEstimate(
             Quantize(Product(spread + impact, quantity)),
             Quantize(Product(spread, quantity)),
             Quantize(Product(impact, quantity)),
             ExpectedFill(side, spread, reference, impact),
             book))
  }

  /** Rounding in two steps instead of one moves the result by at most one step. */
  lemma RoundTwice(x: real, shift: real)
    ensures Abs(Quantize(Quantize(x) + shift) - Quantize(x + shift)) <= ULP
  {
    GridGap(Quantize(Quantize(x) + shift), Quantize(x + shift));
  }

  lemma AdverseIsImpact(price: real, side: Side, bps: real, impact: real)
    requires impact == price * bps / 10000.0
    ensures AdversePrice(price, side, bps) == if side.Buy? then price + impact else price - impact
  {}

  lemma FillsAlike(side: Side, h: real, price: real, impact: real)
    ensures ExpectedFill(side, h, price, impact)
         == Quantize(if side.Buy? then price + impact + h else price - impact - h)
  {
    assert price + (h + impact) == price + impact + h;
    assert price - (h + impact) == price - impact - h;
  }

  lemma FillNearExpected(side: Side, book: Book, price: real, bps: real, impact: real)
    requires book.Coherent() && impact == price * bps / 10000.0
    ensures Abs(SimulatedFill(SlippageModel(bps), price, side, Some(book))
                - ExpectedFill(side, HalfSpread(book), price, impact)) <= ULP
  {
    var shift := if side.Buy? then HalfSpread(book) else -HalfSpread(book);
    var moved := if side.Buy? then price + impact else price - impact;
    AdverseIsImpact(price, side, bps, impact);
    QuantizeEqual(AdversePrice(price, side, bps), moved);
    FillsAlike(side, HalfSpread(book), price, impact);
    RoundTwice(moved, shift);
  }

  /**
   Estimator and simulator agree: for the same book, reference price and basis points, the
   simulated fill of a market order is within 1e-8 of the fill the risk engine was shown.
   */
  lemma {:induction false} FillMatchesEstimate(
    side: Side, notional: real, book: Book, price: real, bps: real
  )
    requires notional > 0.0 && book.Coherent() && price > 0.0 && bps >= 0.0
    ensures EstimateSlippage(side, Market, notional, book, price, bps).Some?
    ensures
      var estimate := EstimateSlippage(side, Market, notional, book, price, bps).value;
      Abs(SimulatedFill(SlippageModel(bps), price, side, Some(estimate.book)) - estimate.expectedFill)
      <= ULP
  {
    FillNearExpected(side, book, price, bps, price * bps / 10000.0);
  }

  lemma Distributes(x: real, y: real, z: real)
    ensures Product(x + y, z) == Product(x, z) + Product(y, z)
  {}

  /** The rounded total differs from the sum of its rounded components by at most 1e-8. */
  lemma {:induction false} EstimateComponentsAddUp(
    side: Side, kind: Kind, notional: real, book: Book, price: real, bps: real
  )
    requires notional > 0.0 && book.Coherent() && price > 0.0 && bps >= 0.0
    ensures EstimateSlippage(side, kind, notional, book, price, bps).Some?
    ensures
      var e := EstimateSlippage(side, kind, notional, book, price, bps).value;
      Abs(e.total - (e.halfSpread + e.impact)) <= ULP
  {
    var e := EstimateSlippage(side, kind, notional, book, price, bps).value;
    if kind.Market? {
      var q, spread, impact := Units(notional, price), HalfSpread(book), BpsOf(price, bps);
      Distributes(spread, impact, q);
      hide Quantize, OnGrid, Product, Units, BpsOf, ExpectedFill;
      GridClosed(e.halfSpread, e.impact);
      GridGap(e.total, e.halfSpread + e.impact);
    }
  }

  predicate HalfStepFrom(rounded: real, exact: real) { 2.0 * Abs(rounded - exact) <= ULP }

  /** A cost per unit over the units a notional buys. */
  function PerUnit(cost: real, notional: real, price: real): real
    requires price > 0.0
  {
    cost * notional / price
  }

  lemma CostsAre(spread: real, notional: real, price: real, bps: real)
    requires price > 0.0
    ensures var q, impact := Units(notional, price), BpsOf(price, bps);
            && Product(impact, q) == BpsOf(notional, bps) && Product(spread, q) == PerUnit(spread, notional, price)
            && Product(spread + impact, q) == BpsOf(notional, bps) + PerUnit(spread, notional, price)
  {
    var q, impact := notional / price, price * bps / 10000.0;
    assert price * q == notional;
    assert impact * q == price * q * bps / 10000.0;
    assert (spread + impact) * q == spread * q + impact * q;
  }

  /** The estimate's amounts: the impact costs the basis points of the notional, the spread half its width
      for every unit bought, and an order that is not at market costs nothing. */
  lemma {:induction false} EstimateAmounts(side: Side, kind: Kind, notional: real, book: Book, price: real, bps: real)
    requires notional > 0.0 && book.Coherent() && price > 0.0 && bps >= 0.0
    ensures EstimateSlippage(side, kind, notional, book, price, bps).Some?
    ensures var e := EstimateSlippage(side, kind, notional, book, price, bps).value;
            var impact, spread := BpsOf(notional, bps), PerUnit((book.ask - book.bid) / 2.0, notional, price);
            && e.book == book
            && if kind.Market?
               then HalfStepFrom(e.impact, impact) && HalfStepFrom(e.halfSpread, spread)
                    && HalfStepFrom(e.total, impact + spread)
               else e.total == 0.0 && e.halfSpread == 0.0 && e.impact == 0.0 && e.expectedFill == Quantize(price)
  {
    hide Quantize, BpsOf, PerUnit, ExpectedFill, Product, Units;
    CostsAre(HalfSpread(book), notional, price, bps);
  }
}
