/** From capital to lots: `capital/allocation.py`, `capital/event_days.py` and the
    `Sizer` of `capital/sizing.py`. `Decimal` and `Fraction` amounts are exact reals. */
module Sizing {
  import opened Wrappers
  import opened Slicing

  datatype Money = Money(amount: real, currency: string)

  // ----------------------------------------------------------- exact rounding

  /** `ROUND_DOWN` and Python's `int()`: toward zero. */
  function Trunc(x: real): int {
    if x >= 0.0 then x.Floor else -((-x).Floor)
  }

  lemma MulMono(a: real, b: real, c: real)
    requires a <= b && 0.0 <= c
    ensures a * c <= b * c
  {
    assert 0.0 <= (b - a) * c;
  }

  lemma MulStrict(a: real, b: real, c: real)
    requires a < b && 0.0 < c
    ensures a * c < b * c
  {
    assert 0.0 < (b - a) * c;
  }

  // ----------------------------------------------------------------- requests

  /** `Money.__mul__`: an amount times a factor. */
  function Part(amount: real, factor: real): real {
    amount * factor
  }

  lemma PartMono(amount: real, amount': real, factor: real, factor': real)
    requires 0.0 <= amount <= amount' && 0.0 <= factor <= factor'
    ensures 0.0 <= Part(amount, factor) <= Part(amount', factor')
  {
    MulMono(0.0, factor, amount);
    MulMono(factor, factor', amount);
    MulMono(amount, amount', factor');
  }

  function Notional(instrument: Instrument, price: real, quantity: int): real {
    price * (quantity as real) * instrument.multiplier
  }

  datatype Request =
    Request(instrument: Instrument, price: Money, capital: Money, stop: Option<Money>)
  {
    /** The checks an allocation request makes on itself. */
    function Checked(): Option<SizingError> {
      if price.amount <= 0.0 then Some(PriceNotPositive)
      else if capital.currency != price.currency then Some(CurrencyMismatch)
      else None
    }

    function CostPerLot(): real { Notional(instrument, price.amount, instrument.lotSize) }
  }

  /** `utilisation` and `risk fraction` lie in (0, 1]; a fixed count is not negative. */
  datatype AllocatorRow =
    | FixedLots(lots: int)
    | CapitalLots(utilisation: real)
    | RiskAware(fraction: real)

  type Allocator = a: AllocatorRow |
    match a
    case FixedLots(lots) => lots >= 0
    case CapitalLots(u) => 0.0 < u <= 1.0
    case RiskAware(f) => 0.0 < f <= 1.0
    witness FixedLots(0)

  /** Whole lots of cost `each` that a budget affords. */
  function UnitsWithin(budget: real, each: real): int {
    if each <= 0.0 then 0 else Trunc(budget / each)
  }

  /** What the allocator answers for a request that passed its own checks. */
  function Afforded(allocator: Allocator, request: Request): Result<int, SizingError>
    requires request.Checked().None?
  {
    match allocator
    case FixedLots(lots) => Success(lots)
    case CapitalLots(u) =>
      Success(UnitsWithin(Part(request.capital.amount, u), request.CostPerLot()))
    case RiskAware(f) =>
      if request.stop.None? || request.stop.value.amount <= 0.0 then Success(0)
      else
        var risk := Notional(request.instrument, request.stop.value.amount, request.instrument.lotSize);
        if risk > 0.0 && request.stop.value.currency != request.capital.currency then Failure(CurrencyMismatch)
        else Success(UnitsWithin(Part(request.capital.amount, f), risk))
  }

  /** Whole units of `each` that a budget holds. */
  lemma WholeUnits(budget: real, each: real, n: int)
    requires 0.0 <= budget && 0.0 < each && n == UnitsWithin(budget, each)
    ensures n >= 0
    ensures (n as real) * each <= budget < ((n + 1) as real) * each
  {
    var ratio := budget / each;
    assert ratio * each == budget;
    RatioNotNegative(ratio, each);
    assert n == ratio.Floor;
    Between(n as real, ratio, (n + 1) as real, each, budget);
  }

  lemma Between(low: real, ratio: real, high: real, each: real, budget: real)
    requires low <= ratio < high && 0.0 < each && ratio * each == budget
    ensures low * each <= budget < high * each
  {
    MulMono(low, ratio, each);
    MulStrict(ratio, high, each);
  }

  lemma RatioNotNegative(ratio: real, each: real)
    requires 0.0 < each && 0.0 <= ratio * each
    ensures 0.0 <= ratio
  {
    if ratio < 0.0 {
      MulStrict(ratio, 0.0, each);
    }
  }

  // -------------------------------------------------------------------- sizer

  datatype IntentRow = IntentRow(instrument: string, ratioNumerator: int, ratioDenominator: int)
  {
    function Ratio(): real
      requires ratioDenominator >= 1
    {
      ratioNumerator as real / ratioDenominator as real
    }
  }

  /** A leg ratio is positive. */
  type Intent = i: IntentRow | i.ratioNumerator >= 1 && i.ratioDenominator >= 1
    witness IntentRow("", 1, 1)

  datatype Refusal = ScaledToNone(lots: int, because: Option<string>) | CapitalAffordsNone

  datatype Sized =
    Sized(lots: int, quantity: int, slices: seq<int>, notional: Money, refusal: Option<Refusal>)

  function Scaled(lots: int, factor: real): int {
    Trunc(Part(lots as real, factor))
  }

  function Capped(lots: int, cap: Option<nat>): int {
    if cap.Some? && cap.value < lots then cap.value else lots
  }

  /** Floor the leg ratio, floor the scale, then cap. */
  function SizedLots(afforded: int, ratio: real, scale: real, cap: Option<nat>): int {
    Capped(Scaled(Scaled(afforded, ratio), scale), cap)
  }

  class Sizer {
    const allocator: Allocator
    const maxLots: Option<nat>

    constructor (allocator: Allocator, maxLots: Option<nat>)
      ensures this.allocator == allocator && this.maxLots == maxLots
    {
      this.allocator, this.maxLots := allocator, maxLots;
    }

    method Size(intent: Intent, instrument: Instrument, price: Money, capital: Money,
                stop: Option<Money>, scale: real, reason: Option<string>)
      returns (r: Result<Sized, SizingError>)
      ensures r == Failure(WrongInstrument) <==> intent.instrument != instrument.id
      ensures intent.instrument == instrument.id ==>
        var request := Request(instrument, price, capital, stop);
        if request.Checked().Some? then r == Failure(request.Checked().value)
        else if Afforded(allocator, request).Failure? then r == Failure(CurrencyMismatch)
        else
          var afforded := Afforded(allocator, request).value;
          var lots := SizedLots(afforded, intent.Ratio(), scale, maxLots);
          if afforded < 0 then r == Failure(NegativeLots)
          else if scale < 0.0 then r == Failure(NegativeScale)
          else if r.Failure? then
            && r.error == FreezeBelowOneLot && lots > 0
            && forall orders :: !LegalSplit(instrument, lots * instrument.lotSize, orders)
          else
            && r.value.lots == lots >= 0
            && r.value.quantity == lots * instrument.lotSize
            && r.value.notional == Money(Notional(instrument, price.amount, r.value.quantity), price.currency)
            && (lots > 0 ==> BestSplit(instrument, r.value.quantity, r.value.slices) && r.value.refusal.None?)
            && (lots == 0 ==> r.value.slices == [] && r.value.refusal == Some(
                RefusalFor(Scaled(afforded, intent.Ratio()), scale, reason)))
    {
      if intent.instrument != instrument.id {
        return Failure(WrongInstrument);
      }
      var request := Request(instrument, price, capital, stop);
      if request.Checked().Some? {
        return Failure(request.Checked().value);
      }
      var answer := Afforded(allocator, request);
      if answer.Failure? {
        return Failure(answer.error);
      }
      var lots := answer.value;
      if lots < 0 {
        return Failure(NegativeLots);
      }
      if intent.Ratio() != 1.0 {
        lots := Scaled(lots, intent.Ratio());
      }
      if scale < 0.0 {
        return Failure(NegativeScale);
      }
      var scaled := if scale == 1.0 then lots else Scaled(lots, scale);
      SizedNotNegative(answer.value, intent.Ratio(), scale, maxLots);
      if maxLots.Some? && maxLots.value < scaled {
        scaled := maxLots.value;
      }
      if scaled == 0 {
        return Success(Sized(0, 0, [], Money(0.0, price.currency),
                             Some(RefusalFor(lots, scale, reason))));
      }
      var quantity := scaled * instrument.lotSize;
      MultipleIsAligned(scaled, instrument.lotSize);
      var slices := SliceForFreezeLimit(quantity, instrument);
      if slices.Failure? {
        return Failure(slices.error);
      }
      return Success(Sized(scaled, quantity, slices.value,
                           Money(Notional(instrument, price.amount, quantity), price.currency), None));
    }
  }

  /** The words a leg sized to nothing is refused with. */
  function RefusalFor(ratioed: int, scale: real, reason: Option<string>): Refusal {
    if ratioed > 0 && scale < 1.0 then ScaledToNone(ratioed, reason) else CapitalAffordsNone
  }

  lemma ScaledNotNegative(lots: int, factor: real)
    requires lots >= 0 && factor >= 0.0
    ensures Scaled(lots, factor) >= 0
    ensures factor <= 1.0 ==> Scaled(lots, factor) <= lots
    ensures factor == 1.0 ==> Scaled(lots, factor) == lots
  {
    PartMono(0.0, lots as real, factor, factor);
    if factor <= 1.0 {
      PartMono(lots as real, lots as real, factor, 1.0);
    }
  }

  lemma SizedNotNegative(afforded: int, ratio: real, scale: real, cap: Option<nat>)
    requires afforded >= 0 && ratio >= 0.0 && scale >= 0.0
    ensures SizedLots(afforded, ratio, scale, cap) >= 0
    ensures ratio <= 1.0 && scale <= 1.0 ==> SizedLots(afforded, ratio, scale, cap) <= afforded
    ensures ratio == 1.0 && scale == 1.0 && cap.None? ==> SizedLots(afforded, ratio, scale, cap) == afforded
  {
    ScaledNotNegative(afforded, ratio);
    ScaledNotNegative(Scaled(afforded, ratio), scale);
  }

  /** A cap is the most there can be, and touches nothing below it. */
  lemma CapTaken(afforded: int, ratio: real, scale: real, cap: nat)
    ensures var capped, free := SizedLots(afforded, ratio, scale, Some(cap)), SizedLots(afforded, ratio, scale, None);
      capped <= cap && capped <= free && (capped == cap || capped == free)
  {
  }

  // ----------------------------------------------------------- what is refused

  /** A request is refused for its price first, then for its capital's currency. */
  lemma RequestChecked(request: Request)
    ensures request.Checked() == Some(PriceNotPositive) <==> request.price.amount <= 0.0
    ensures request.Checked() == Some(CurrencyMismatch) <==>
      request.price.amount > 0.0 && request.capital.currency != request.price.currency
    ensures request.Checked().None? <==> request.price.amount > 0.0 && request.capital.currency == request.price.currency
  {
  }

  /** A fixed count is answered as it is, capital always answers, and risk refuses exactly a stop in
      another currency. */
  lemma AllocatorAnswers(allocator: Allocator, request: Request)
    requires request.Checked().None?
    ensures allocator.FixedLots? ==> Afforded(allocator, request) == Success(allocator.lots)
    ensures Afforded(allocator, request).Failure? <==>
      allocator.RiskAware? && request.stop.Some? && request.stop.value.amount > 0.0
      && request.stop.value.currency != request.capital.currency
    ensures Afforded(allocator, request).Failure? ==> Afforded(allocator, request).error == CurrencyMismatch
  {
    if allocator.RiskAware? && request.stop.Some? && request.stop.value.amount > 0.0 {
      NotionalOfLots(request.instrument, request.stop.value.amount, 1);
    }
  }

  /** What a quantity is worth: the price of one at multiplier one, in proportion to each of price,
      quantity and multiplier. */
  lemma NotionalScales(instrument: Instrument, price: real, factor: real, quantity: int, more: int)
    ensures Notional(instrument, factor * price, quantity) == factor * Notional(instrument, price, quantity)
    ensures Notional(instrument, price, quantity + more) == Notional(instrument, price, quantity) + Notional(instrument, price, more)
    ensures var unit: Instrument := instrument.(multiplier := 1.0);
      Notional(unit, price, 1) == price && Notional(instrument, price, quantity) == instrument.multiplier * Notional(unit, price, quantity)
  {
    var q, r, m := quantity as real, more as real, instrument.multiplier;
    assert (quantity + more) as real == q + r;
    assert (factor * price) * q * m == factor * (price * q * m);
    assert price * (q + r) == price * q + price * r;
    assert (price * q + price * r) * m == (price * q) * m + (price * r) * m;
    assert price * q * 1.0 == price * q;
  }

  // ------------------------------------------------------------ what it costs

  lemma ScaledMono(lots: int, lots': int, factor: real, factor': real)
    requires 0 <= lots <= lots' && 0.0 <= factor <= factor'
    ensures 0 <= Scaled(lots, factor) <= Scaled(lots', factor')
  {
    PartMono(lots as real, lots' as real, factor, factor');
  }

  lemma SizedMono(afforded: int, afforded': int, ratio: real, scale: real, scale': real, cap: Option<nat>)
    requires 0 <= afforded <= afforded' && 0.0 <= ratio && 0.0 <= scale <= scale'
    ensures SizedLots(afforded, ratio, scale, cap) <= SizedLots(afforded', ratio, scale', cap)
  {
    ScaledMono(afforded, afforded', ratio, ratio);
    ScaledMono(Scaled(afforded, ratio), Scaled(afforded', ratio), scale, scale');
  }

  lemma NotionalOfLots(instrument: Instrument, price: real, lots: int)
    requires price > 0.0
    ensures Notional(instrument, price, instrument.lotSize) > 0.0
    ensures Notional(instrument, price, lots * instrument.lotSize)
         == (lots as real) * Notional(instrument, price, instrument.lotSize)
  {
    var size := instrument.lotSize as real;
    MulStrict(0.0, price, size);
    MulStrict(0.0, price * size, instrument.multiplier);
    assert (lots * instrument.lotSize) as real == (lots as real) * size;
    assert price * ((lots as real) * size) == (lots as real) * (price * size);
    assert ((lots as real) * (price * size)) * instrument.multiplier
        == (lots as real) * ((price * size) * instrument.multiplier);
  }

  function AtLeastZero(x: real): real { if x < 0.0 then 0.0 else x }

  /** The cap is within what was afforded, or the scale, applied to the whole lots the ratio leaves,
      comes to less than one lot more than was afforded. */
  predicate Fits(afforded: int, ratio: real, scale: real, cap: Option<nat>) {
    || (cap.Some? && cap.value <= afforded)
    || Part(Part(afforded as real, ratio).Floor as real, scale) < (afforded + 1) as real
  }

  lemma FitsExactly(afforded: int, ratio: real, scale: real, cap: Option<nat>)
    requires afforded >= 0 && ratio >= 0.0 && scale >= 0.0
    ensures SizedLots(afforded, ratio, scale, cap) <= afforded <==> Fits(afforded, ratio, scale, cap)
  {
    PartMono(0.0, afforded as real, ratio, ratio);
    ScaledNotNegative(afforded, ratio);
    PartMono(0.0, Scaled(afforded, ratio) as real, scale, scale);
  }

  /** At full scale and without a cap, the ratio alone decides. */
  lemma FitsByRatio(afforded: int, ratio: real)
    requires afforded >= 0 && ratio >= 0.0
    ensures Fits(afforded, ratio, 1.0, None) <==> Part(afforded as real, ratio) < (afforded + 1) as real
  {
    PartOfAll(Part(afforded as real, ratio).Floor as real);
    FloorBelow(Part(afforded as real, ratio), afforded + 1);
  }

  lemma PartOfAll(x: real)
    ensures Part(x, 1.0) == x
  {
  }

  lemma FloorBelow(x: real, n: int)
    ensures x.Floor as real < n as real <==> x < n as real
  {
    var f := x.Floor;
    assert f as real <= x < (f + 1) as real;
    if f < n {
      assert (f + 1) as real <= n as real;
    } else {
      assert f as real >= n as real;
    }
  }

  /** `lots` lots that cost (or lose) `cost`, of which one more makes `further`, against a budget:
      never more than the budget times ratio and scale, hence within the budget unless those exceed
      one; within the budget exactly when they fit; and when nothing reduced or enlarged what the
      budget affords, one lot more would not. A negative budget buys nothing. */
  ghost predicate KeepsBudget(lots: int, cost: real, further: real, budget: real, ratio: real, scale: real,
                              fits: bool, asAfforded: bool)
  {
    && lots >= 0
    && cost <= Part(Part(AtLeastZero(budget), ratio), scale)
    && (ratio <= 1.0 && scale <= 1.0 ==> cost <= AtLeastZero(budget))
    && (cost <= AtLeastZero(budget) <==> fits)
    && (asAfforded ==> budget < further)
    && (budget < 0.0 ==> lots == 0)
  }

  predicate AsAfforded(ratio: real, scale: real, cap: Option<nat>) {
    ratio == 1.0 && scale == 1.0 && cap.None?
  }

  /** The same for whole lots of an instrument at a price, by the inputs: what the budget affords,
      ratio, scale and cap. */
  ghost predicate LotsKeepBudget(instrument: Instrument, price: real, lots: int, budget: real, afforded: int,
                                 ratio: real, scale: real, cap: Option<nat>)
  {
    KeepsBudget(lots, Notional(instrument, price, lots * instrument.lotSize),
      Notional(instrument, price, (lots + 1) * instrument.lotSize), budget, ratio, scale,
      Fits(afforded, ratio, scale, cap), AsAfforded(ratio, scale, cap))
  }

  lemma SizedBelow(afforded: int, ratio: real, scale: real, cap: Option<nat>)
    requires afforded >= 0 && ratio >= 0.0 && scale >= 0.0
    ensures SizedLots(afforded, ratio, scale, cap) as real <= Part(Part(afforded as real, ratio), scale)
  {
    var exact, kept := Part(afforded as real, ratio), Scaled(afforded, ratio) as real;
    PartMono(0.0, afforded as real, ratio, ratio);
    PartMono(kept, exact, scale, scale);
    ScaledNotNegative(Scaled(afforded, ratio), scale);
  }

  lemma PartsTimes(lots: real, ratio: real, scale: real, each: real)
    ensures Part(Part(lots, ratio), scale) * each == Part(Part(lots * each, ratio), scale)
  {
    assert ((lots * ratio) * scale) * each == ((lots * each) * ratio) * scale;
  }

  lemma CostBelow(each: real, budget: real, afforded: int, lots: int, ratio: real, scale: real)
    requires 0.0 < each && afforded >= 0 && ratio >= 0.0 && scale >= 0.0
    requires (afforded as real) * each <= budget
    requires lots as real <= Part(Part(afforded as real, ratio), scale)
    ensures (lots as real) * each <= Part(Part(budget, ratio), scale)
  {
    var exact := Part(Part(afforded as real, ratio), scale);
    MulMono(lots as real, exact, each);
    PartsTimes(afforded as real, ratio, scale, each);
    MulMono(0.0, afforded as real, each);
    PartMono((afforded as real) * each, budget, ratio, ratio);
    PartMono(Part((afforded as real) * each, ratio), Part(budget, ratio), scale, scale);
  }

  lemma WithinExactly(each: real, budget: real, afforded: int, lots: int)
    requires 0.0 < each && (afforded as real) * each <= budget < ((afforded + 1) as real) * each
    ensures (lots as real) * each <= budget <==> lots <= afforded
  {
    if lots <= afforded {
      MulMono(lots as real, afforded as real, each);
    } else {
      MulMono((afforded + 1) as real, lots as real, each);
    }
  }

  /** Below zero, rounding toward zero affords nothing or less. */
  lemma NegativeAffordsNothing(budget: real, each: real)
    requires budget < 0.0 < each
    ensures UnitsWithin(budget, each) <= 0
  {
    var ratio := budget / each;
    assert ratio * each == budget;
    if ratio >= 0.0 {
      MulMono(0.0, ratio, each);
    }
  }

  /** Rounding is toward zero on both sides: a budget below zero is answered with a negative count,
      which the sizer refuses, only from a whole lot below. */
  lemma NegativeFromAWholeLot(budget: real, each: real)
    requires budget < 0.0 < each
    ensures UnitsWithin(budget, each) < 0 <==> budget <= -each
  {
    var ratio := budget / each;
    assert ratio * each == budget;
    assert UnitsWithin(budget, each) == Trunc(ratio);
    NegativeRatio(ratio, each, budget);
    TruncBelowZero(ratio);
  }

  lemma NegativeRatio(ratio: real, each: real, budget: real)
    requires budget < 0.0 < each && ratio * each == budget
    ensures ratio < 0.0
    ensures ratio <= -1.0 <==> budget <= -each
  {
    var bound := -1.0;
    var edge := bound * each;
    assert edge == -each;
    Ordered(0.0, ratio, each, 0.0, budget);
    Ordered(bound, ratio, each, edge, budget);
  }

  /** Multiplying by something positive keeps the order. */
  lemma Ordered(x: real, y: real, each: real, xs: real, ys: real)
    requires 0.0 < each && xs == x * each && ys == y * each
    ensures y <= x <==> ys <= xs
    ensures y < x <==> ys < xs
  {
    if y < x {
      MulStrict(y, x, each);
    } else if x < y {
      MulStrict(x, y, each);
    }
  }

  lemma TruncBelowZero(x: real)
    requires x < 0.0
    ensures Trunc(x) < 0 <==> x <= -1.0
  {
  }

  /** The budget rounded down to whole lots, on either side of zero. */
  lemma AffordedFits(budget: real, each: real, afforded: int)
    requires 0.0 < each && afforded >= 0 && afforded == UnitsWithin(budget, each)
    ensures Part(afforded as real, each) <= AtLeastZero(budget) < Part((afforded + 1) as real, each)
    ensures budget < 0.0 ==> afforded == 0
  {
    if budget < 0.0 {
      NegativeAffordsNothing(budget, each);
      assert 0.0 * each == 0.0 && 1.0 * each == each;
    } else {
      WholeUnits(budget, each, afforded);
    }
  }

  lemma NothingStaysNothing(ratio: real, scale: real, cap: Option<nat>)
    ensures SizedLots(0, ratio, scale, cap) == 0
  {
    assert Part(0.0, ratio) == 0.0 && Part(0.0, scale) == 0.0;
  }

  lemma LotsKept(each: real, budget: real, afforded: int, lots: int, ratio: real, scale: real, asAfforded: bool)
    requires 0.0 < each && ratio >= 0.0 && scale >= 0.0 && afforded >= 0 && lots >= 0
    requires Part(afforded as real, each) <= AtLeastZero(budget) < Part((afforded + 1) as real, each)
    requires lots as real <= Part(Part(afforded as real, ratio), scale)
    requires (ratio <= 1.0 && scale <= 1.0 ==> lots <= afforded) && (asAfforded ==> lots == afforded)
    requires budget < 0.0 ==> lots == 0
    ensures KeepsBudget(lots, Part(lots as real, each), Part((lots + 1) as real, each), budget, ratio, scale,
      lots <= afforded, asAfforded)
  {
    CostBelow(each, AtLeastZero(budget), afforded, lots, ratio, scale);
    WithinExactly(each, AtLeastZero(budget), afforded, lots);
  }

  lemma LotsBounds(afforded: int, ratio: real, scale: real, cap: Option<nat>)
    requires afforded >= 0 && ratio >= 0.0 && scale >= 0.0
    ensures var lots := SizedLots(afforded, ratio, scale, cap);
      && lots >= 0 && lots as real <= Part(Part(afforded as real, ratio), scale)
      && (ratio <= 1.0 && scale <= 1.0 ==> lots <= afforded)
      && (AsAfforded(ratio, scale, cap) ==> lots == afforded)
      && (afforded == 0 ==> lots == 0)
      && (lots <= afforded <==> Fits(afforded, ratio, scale, cap))
  {
    FitsExactly(afforded, ratio, scale, cap);
    SizedNotNegative(afforded, ratio, scale, cap);
    SizedBelow(afforded, ratio, scale, cap);
    NothingStaysNothing(ratio, scale, cap);
  }

  lemma EachKept(each: real, budget: real, afforded: int, ratio: real, scale: real, cap: Option<nat>)
    requires 0.0 < each && ratio >= 0.0 && scale >= 0.0 && afforded >= 0 && afforded == UnitsWithin(budget, each)
    ensures var lots := SizedLots(afforded, ratio, scale, cap);
      KeepsBudget(lots, Part(lots as real, each), Part((lots + 1) as real, each), budget, ratio, scale,
        Fits(afforded, ratio, scale, cap), AsAfforded(ratio, scale, cap))
  {
    AffordedFits(budget, each, afforded);
    LotsBounds(afforded, ratio, scale, cap);
    LotsKept(each, budget, afforded, SizedLots(afforded, ratio, scale, cap), ratio, scale, AsAfforded(ratio, scale, cap));
  }

  lemma BudgetKept(instrument: Instrument, price: real, budget: real, afforded: int,
                   ratio: real, scale: real, cap: Option<nat>)
    requires price > 0.0 && ratio >= 0.0 && scale >= 0.0 && afforded >= 0
    requires afforded == UnitsWithin(budget, Notional(instrument, price, instrument.lotSize))
    ensures LotsKeepBudget(instrument, price, SizedLots(afforded, ratio, scale, cap), budget, afforded, ratio, scale, cap)
  {
    var lots, each := SizedLots(afforded, ratio, scale, cap), Notional(instrument, price, instrument.lotSize);
    NotionalOfLots(instrument, price, 1);
    EachKept(each, budget, afforded, ratio, scale, cap);
    KeptInLots(instrument, price, lots, budget, ratio, scale, Fits(afforded, ratio, scale, cap), AsAfforded(ratio, scale, cap));
  }

  lemma KeptInLots(instrument: Instrument, price: real, lots: int, budget: real, ratio: real, scale: real,
                   fits: bool, asAfforded: bool)
    requires price > 0.0
    requires var each := Notional(instrument, price, instrument.lotSize);
      KeepsBudget(lots, Part(lots as real, each), Part((lots + 1) as real, each), budget, ratio, scale, fits, asAfforded)
    ensures KeepsBudget(lots, Notional(instrument, price, lots * instrument.lotSize),
      Notional(instrument, price, (lots + 1) * instrument.lotSize), budget, ratio, scale, fits, asAfforded)
  {
    PartOfLots(instrument, price, lots);
    PartOfLots(instrument, price, lots + 1);
  }

  lemma PartOfLots(instrument: Instrument, price: real, lots: int)
    requires price > 0.0
    ensures Notional(instrument, price, lots * instrument.lotSize)
         == Part(lots as real, Notional(instrument, price, instrument.lotSize))
  {
    NotionalOfLots(instrument, price, lots);
  }

  /** A position sized by capital costs at most the capital put to use times ratio and scale; see
      `KeepsBudget`. */
  lemma CapitalBudget(request: Request, utilisation: real, ratio: real, scale: real, cap: Option<nat>,
                      afforded: int)
    requires request.Checked().None? && 0.0 < utilisation <= 1.0
    requires ratio >= 0.0 && scale >= 0.0
    requires Afforded(CapitalLots(utilisation), request) == Success(afforded) && afforded >= 0
    ensures LotsKeepBudget(request.instrument, request.price.amount, SizedLots(afforded, ratio, scale, cap),
      Part(request.capital.amount, utilisation), afforded, ratio, scale, cap)
    ensures request.capital.amount >= 0.0 ==> 0.0 <= Part(request.capital.amount, utilisation) <= request.capital.amount
  {
    BudgetKept(request.instrument, request.price.amount, Part(request.capital.amount, utilisation), afforded, ratio, scale, cap);
    if request.capital.amount >= 0.0 {
      PartMono(request.capital.amount, request.capital.amount, utilisation, 1.0);
    }
  }

  /** A position sized by risk loses at its stop at most the capital risked times ratio and scale;
      see `KeepsBudget`. Without a stop there is no position. */
  lemma RiskBudget(request: Request, fraction: real, ratio: real, scale: real, cap: Option<nat>,
                   afforded: int)
    requires request.Checked().None? && 0.0 < fraction <= 1.0
    requires ratio >= 0.0 && scale >= 0.0
    requires Afforded(RiskAware(fraction), request) == Success(afforded) && afforded >= 0
    ensures
      if request.stop.None? || request.stop.value.amount <= 0.0 then
        SizedLots(afforded, ratio, scale, cap) == 0
      else
        LotsKeepBudget(request.instrument, request.stop.value.amount, SizedLots(afforded, ratio, scale, cap),
          Part(request.capital.amount, fraction), afforded, ratio, scale, cap)
  {
    if request.stop.None? || request.stop.value.amount <= 0.0 {
      NothingStaysNothing(ratio, scale, cap);
    } else {
      var stop := request.stop.value.amount;
      NotionalOfLots(request.instrument, stop, 1);
      BudgetKept(request.instrument, stop, Part(request.capital.amount, fraction), afforded, ratio, scale, cap);
    }
  }

  lemma TwiceOneLot()
    ensures SizedLots(1, 2.0, 1.0, None) == 2
  {
    assert Scaled(1, 2.0) == 2;
    ScaledNotNegative(2, 1.0);
  }

  /** A leg at twice its partner's size overspends whatever capital affords one lot. */
  lemma DoubleLegOverspends(request: Request, utilisation: real)
    requires request.Checked().None? && 0.0 < utilisation <= 1.0 && request.capital.amount >= 0.0
    requires Afforded(CapitalLots(utilisation), request) == Success(1)
    ensures SizedLots(1, 2.0, 1.0, None) == 2
    ensures Notional(request.instrument, request.price.amount, 2 * request.instrument.lotSize)
          > Part(request.capital.amount, utilisation)
  {
    TwiceOneLot();
    CapitalBudget(request, utilisation, 2.0, 1.0, None, 1);
  }

  lemma MoreBudgetMoreUnits(budget: real, budget': real, each: real)
    requires 0.0 <= budget <= budget'
    ensures 0 <= UnitsWithin(budget, each) <= UnitsWithin(budget', each)
  {
    if each > 0.0 {
      var n, n' := UnitsWithin(budget, each), UnitsWithin(budget', each);
      WholeUnits(budget, each, n);
      WholeUnits(budget', each, n');
      FewerUnits(n, n', budget, budget', each);
    }
  }

  lemma FewerUnits(n: int, n': int, budget: real, budget': real, each: real)
    requires 0.0 < each && (n as real) * each <= budget <= budget' < ((n' + 1) as real) * each
    ensures n <= n'
  {
    Cancel(n as real, (n' + 1) as real, each);
  }

  lemma Cancel(x: real, y: real, each: real)
    requires 0.0 < each && x * each < y * each
    ensures x < y
  {
    if y <= x {
      MulMono(y, x, each);
    }
  }

  /** More capital never means a smaller position, nor does a larger scale. */
  lemma MoreCapitalMoreLots(allocator: Allocator, request: Request, capital: real,
                            ratio: real, scale: real, scale': real, cap: Option<nat>, afforded: int)
    requires request.Checked().None? && 0.0 <= request.capital.amount <= capital
    requires 0.0 <= ratio && 0.0 <= scale <= scale'
    requires Afforded(allocator, request) == Success(afforded)
    ensures
      var more := Afforded(allocator, request.(capital := Money(capital, request.capital.currency)));
      && more.Success?
      && SizedLots(afforded, ratio, scale, cap) <= SizedLots(more.value, ratio, scale', cap)
  {
    MoreCapitalMoreAfforded(allocator, request, capital, afforded);
    var more := Afforded(allocator, request.(capital := Money(capital, request.capital.currency)));
    SizedMono(afforded, more.value, ratio, scale, scale', cap);
  }

  lemma MoreCapitalMoreAfforded(allocator: Allocator, request: Request, capital: real, afforded: int)
    requires request.Checked().None? && 0.0 <= request.capital.amount <= capital
    requires Afforded(allocator, request) == Success(afforded)
    ensures
      var more := Afforded(allocator, request.(capital := Money(capital, request.capital.currency)));
      more.Success? && 0 <= afforded <= more.value
  {
    match allocator {
      case FixedLots(_) =>
      case CapitalLots(u) =>
        PartMono(request.capital.amount, capital, u, u);
        MoreBudgetMoreUnits(Part(request.capital.amount, u), Part(capital, u), request.CostPerLot());
      case RiskAware(f) =>
        if request.stop.Some? && request.stop.value.amount > 0.0 {
          PartMono(request.capital.amount, capital, f, f);
          MoreBudgetMoreUnits(Part(request.capital.amount, f), Part(capital, f),
            Notional(request.instrument, request.stop.value.amount, request.instrument.lotSize));
        }
    }
  }

  /** Flooring the ratio and then the scale gives up at most one lot against flooring once. */
  lemma FlooringTwice(lots: int, ratio: real, scale: real)
    requires lots >= 0 && ratio >= 0.0 && 0.0 <= scale <= 1.0
    ensures var once := Trunc(Part(Part(lots as real, ratio), scale));
      once - 1 <= Scaled(Scaled(lots, ratio), scale) <= once
  {
    var exact := Part(lots as real, ratio);
    var kept := Scaled(lots, ratio) as real;
    PartMono(0.0, lots as real, ratio, ratio);
    PartMono(kept, exact, scale, scale);
    OnePartMore(kept, exact, scale);
  }

  lemma OnePartMore(kept: real, exact: real, scale: real)
    requires 0.0 <= kept <= exact <= kept + 1.0 && 0.0 <= scale <= 1.0
    ensures Part(exact, scale) <= Part(kept, scale) + 1.0
  {
    PartMono(exact, kept + 1.0, scale, scale);
    assert Part(kept + 1.0, scale) == Part(kept, scale) + scale;
  }

  // ----------------------------------------------------------------- refusals

  /** Whether the words match what happened: capital is blamed only when it afforded nothing,
      and the scale only when the scale took the last lot. */
  ghost predicate Honest(refusal: Refusal, afforded: int, ratio: real, scale: real) {
    match refusal
    case CapitalAffordsNone => afforded == 0
    case ScaledToNone(lots, _) => lots > 0 && Scaled(lots, scale) == 0
  }

  /** A leg sized to nothing is refused with the wrong words exactly when the capital afforded
      something, and the ratio left less than one lot of it, or the scale was no reduction, or the
      scale left a lot and a cap of zero took that. */
  lemma RefusalHonesty(afforded: int, ratio: real, scale: real, cap: Option<nat>, reason: Option<string>)
    requires afforded >= 0 && ratio > 0.0 && scale >= 0.0
    requires SizedLots(afforded, ratio, scale, cap) == 0
    ensures var ratioed := Scaled(afforded, ratio);
      !Honest(RefusalFor(ratioed, scale, reason), afforded, ratio, scale)
      <==> afforded > 0 && (|| Part(afforded as real, ratio) < 1.0
                            || scale >= 1.0
                            || (cap == Some(0) && Part(ratioed as real, scale) >= 1.0))
  {
    ScaledNotNegative(afforded, ratio);
    assert Part(0.0, ratio) == 0.0;
  }

  /** A leg the scale took is refused naming the lots the ratio left and the reason given. */
  lemma RefusalNames(ratioed: int, scale: real, reason: Option<string>, lots: int, because: Option<string>)
    ensures RefusalFor(ratioed, scale, reason) == ScaledToNone(lots, because) <==>
      ratioed > 0 && scale < 1.0 && lots == ratioed && because == reason
    ensures RefusalFor(ratioed, scale, reason).CapitalAffordsNone? <==> ratioed <= 0 || scale >= 1.0
  {
  }

  /** One affordable lot of a half-size hedge is reported as capital affording none. */
  lemma HalfLotHedgeBlamesCapital()
    ensures SizedLots(1, 0.5, 1.0, None) == 0
    ensures !Honest(RefusalFor(Scaled(1, 0.5), 1.0, None), 1, 0.5, 1.0)
  {
    assert Scaled(1, 0.5) == 0;
  }
}
