/** Instruments, and splitting a quantity into orders the exchange accepts
    (`slice_for_freeze_limit` of `capital/sizing.py`). */
module Slicing {
  import opened Wrappers

  datatype SizingError =
    | WrongInstrument | PriceNotPositive | CurrencyMismatch
    | NegativeLots | NegativeScale | PartLot | FreezeBelowOneLot

  datatype InstrumentRow =
    InstrumentRow(id: string, lotSize: int, multiplier: real, freeze: Option<int>)

  /** What an instrument's own constructor lets through. */
  type Instrument = i: InstrumentRow |
    i.lotSize >= 1 && i.multiplier > 0.0 && (i.freeze.Some? ==> i.freeze.value >= 1)
    witness InstrumentRow("", 1, 1.0, None)

  function Sum(s: seq<int>): int {
    if s == [] then 0 else Sum(s[..|s| - 1]) + s[|s| - 1]
  }

  /** An order the exchange accepts: positive, whole lots, within the freeze limit. */
  ghost predicate LegalOrder(instrument: Instrument, order: int) {
    && order > 0
    && order % instrument.lotSize == 0
    && (instrument.freeze.Some? ==> order <= instrument.freeze.value)
  }

  ghost predicate LegalSplit(instrument: Instrument, quantity: int, orders: seq<int>) {
    && Sum(orders) == quantity
    && forall i :: 0 <= i < |orders| ==> LegalOrder(instrument, orders[i])
  }

  /** All orders alike, except that the last may be smaller. */
  ghost predicate EvenButLast(orders: seq<int>) {
    && (forall i :: 0 <= i < |orders| - 1 ==> orders[i] == orders[0])
    && (orders != [] ==> orders[|orders| - 1] <= orders[0])
  }

  /** The largest whole-lot order within a limit. */
  function LotCap(limit: int, lotSize: int): int
    requires lotSize >= 1
  {
    (limit / lotSize) * lotSize
  }

  lemma MulMono(a: int, b: int, c: int)
    requires a <= b && 0 <= c
    ensures a * c <= b * c
  {
    assert 0 <= (b - a) * c;
  }

  lemma Euclid(n: int, d: int)
    requires d >= 1
    ensures n == (n / d) * d + n % d && 0 <= n % d < d
  {
  }

  /** Quotient and remainder are unique. */
  lemma DivUnique(q: int, rem: int, d: int)
    requires d >= 1 && 0 <= rem < d
    ensures (q * d + rem) / d == q && (q * d + rem) % d == rem
  {
    var n := q * d + rem;
    var q', rem' := n / d, n % d;
    Euclid(n, d);
    assert (q - q') * d == rem' - rem && (q' - q) * d == rem - rem';
    if q < q' {
      MulMono(1, q' - q, d);
    } else if q' < q {
      MulMono(1, q - q', d);
    }
  }

  lemma MultipleIsAligned(k: int, lotSize: int)
    requires lotSize >= 1
    ensures (k * lotSize) % lotSize == 0
  {
    DivUnique(k, 0, lotSize);
  }

  lemma WholeLotsWithinCap(order: int, limit: int, lotSize: int)
    requires lotSize >= 1 && 0 < order <= limit && order % lotSize == 0
    ensures order <= LotCap(limit, lotSize)
  {
    Euclid(order, lotSize);
    Euclid(limit, lotSize);
    var q, cap := order / lotSize, limit / lotSize;
    assert (cap + 1) * lotSize == cap * lotSize + lotSize;
    if q > cap {
      MulMono(cap + 1, q, lotSize);
    }
    MulMono(q, cap, lotSize);
  }

  lemma AlignedDifference(n: int, m: int, lotSize: int)
    requires lotSize >= 1 && n % lotSize == 0 && m % lotSize == 0
    ensures (n - m) % lotSize == 0
  {
    assert n - m == (n / lotSize - m / lotSize) * lotSize;
    MultipleIsAligned(n / lotSize - m / lotSize, lotSize);
  }

  /** Whole-lot orders add up to whole lots. */
  lemma {:induction false} WholeLotSum(orders: seq<int>, lotSize: int)
    requires lotSize >= 1
    requires forall i :: 0 <= i < |orders| ==> orders[i] % lotSize == 0
    ensures Sum(orders) % lotSize == 0
  {
    if orders != [] {
      var last := |orders| - 1;
      WholeLotSum(orders[..last], lotSize);
      AlignedDifference(0, orders[last], lotSize);
      AlignedDifference(Sum(orders[..last]), -orders[last], lotSize);
    }
  }

  /** No legal split can put more than the cap into each of its orders. */
  lemma {:induction false} SplitBound(instrument: Instrument, orders: seq<int>, cap: int)
    requires instrument.freeze.Some? && cap == LotCap(instrument.freeze.value, instrument.lotSize)
    requires forall i :: 0 <= i < |orders| ==> LegalOrder(instrument, orders[i])
    ensures Sum(orders) <= |orders| * cap
  {
    if orders != [] {
      var last := |orders| - 1;
      WholeLotsWithinCap(orders[last], instrument.freeze.value, instrument.lotSize);
      SplitBound(instrument, orders[..last], cap);
    }
  }

  lemma {:induction false} SumOfEqual(slices: seq<int>, each: int)
    requires forall i :: 0 <= i < |slices| ==> slices[i] == each
    ensures Sum(slices) == |slices| * each
  {
    if slices != [] {
      SumOfEqual(slices[..|slices| - 1], each);
    }
  }

  lemma ExtendSplit(slices: seq<int>, order: int)
    ensures Sum(slices + [order]) == Sum(slices) + order
  {
    assert (slices + [order])[..|slices|] == slices;
  }

  /** The split to send: legal, filled from the front with the largest order the exchange
      takes, and no legal split uses fewer orders. */
  ghost predicate BestSplit(instrument: Instrument, quantity: int, orders: seq<int>) {
    && LegalSplit(instrument, quantity, orders)
    && EvenButLast(orders)
    && (|orders| > 1 ==> forall order :: LegalOrder(instrument, order) ==> order <= orders[0])
    && forall other :: LegalSplit(instrument, quantity, other) ==> |orders| <= |other|
  }

  lemma FewestOrders(instrument: Instrument, slices: seq<int>, rest: int, cap: int, other: seq<int>)
    requires instrument.freeze.Some? && cap == LotCap(instrument.freeze.value, instrument.lotSize)
    requires forall i :: 0 <= i < |slices| ==> slices[i] == cap
    requires 0 < rest && 0 < cap
    requires LegalSplit(instrument, Sum(slices) + rest, other)
    ensures |slices| + 1 <= |other|
  {
    SumOfEqual(slices, cap);
    SplitBound(instrument, other, cap);
    if |other| <= |slices| {
      MulMono(|other|, |slices|, cap);
    }
  }

  lemma FullThenRestLegal(instrument: Instrument, slices: seq<int>, rest: int, cap: int)
    requires instrument.freeze.Some? && cap == LotCap(instrument.freeze.value, instrument.lotSize)
    requires forall i :: 0 <= i < |slices| ==> slices[i] == cap
    requires 0 < rest <= cap && rest % instrument.lotSize == 0
    ensures LegalSplit(instrument, Sum(slices) + rest, slices + [rest])
  {
    MultipleIsAligned(instrument.freeze.value / instrument.lotSize, instrument.lotSize);
    Euclid(instrument.freeze.value, instrument.lotSize);
    ExtendSplit(slices, rest);
    assert LegalOrder(instrument, cap) && LegalOrder(instrument, rest);
  }

  /** Full orders followed by the rest cannot be beaten. */
  lemma FullThenRest(instrument: Instrument, slices: seq<int>, rest: int, cap: int)
    requires instrument.freeze.Some? && cap == LotCap(instrument.freeze.value, instrument.lotSize)
    requires forall i :: 0 <= i < |slices| ==> slices[i] == cap
    requires 0 < rest <= cap && rest % instrument.lotSize == 0
    ensures BestSplit(instrument, Sum(slices) + rest, slices + [rest])
  {
    FullThenRestLegal(instrument, slices, rest, cap);
    forall order | LegalOrder(instrument, order) ensures order <= cap {
      WholeLotsWithinCap(order, instrument.freeze.value, instrument.lotSize);
    }
    forall other | LegalSplit(instrument, Sum(slices) + rest, other)
      ensures |slices| + 1 <= |other|
    {
      FewestOrders(instrument, slices, rest, cap, other);
    }
  }

  lemma OneOrder(instrument: Instrument, quantity: int)
    requires LegalOrder(instrument, quantity)
    ensures BestSplit(instrument, quantity, [quantity])
  {
    assert Sum([quantity]) == quantity;
    forall other | LegalSplit(instrument, quantity, other) ensures 1 <= |other| {
      assert Sum(other) > 0;
    }
  }

  lemma NoSplit(instrument: Instrument, quantity: int, orders: seq<int>)
    requires quantity > 0
    requires
      || quantity % instrument.lotSize != 0
      || (instrument.freeze.Some? && LotCap(instrument.freeze.value, instrument.lotSize) <= 0)
    ensures !LegalSplit(instrument, quantity, orders)
  {
    if LegalSplit(instrument, quantity, orders) {
      WholeLotSum(orders, instrument.lotSize);
      SplitBound(instrument, orders, LotCap(instrument.freeze.value, instrument.lotSize));
      MulMono(LotCap(instrument.freeze.value, instrument.lotSize), 0, |orders|);
    }
  }

  /** Splits a quantity into exchange-acceptable orders.

      A refusal of an aligned quantity means no legal split exists; a success is a legal
      split with the fewest possible orders. */
  method SliceForFreezeLimit(quantity: int, instrument: Instrument)
    returns (r: Result<seq<int>, SizingError>)
    ensures quantity <= 0 ==> r == Success([])
    ensures quantity > 0 ==>
      (r == Failure(PartLot) <==> quantity % instrument.lotSize != 0)
    ensures r.Failure? ==>
      r.error in {PartLot, FreezeBelowOneLot}
      && forall orders :: !LegalSplit(instrument, quantity, orders)
    ensures r.Success? && quantity > 0 ==> BestSplit(instrument, quantity, r.value)
  {
    if quantity <= 0 {
      return Success([]);
    }
    var lotSize := instrument.lotSize;
    if quantity % lotSize != 0 {
      forall orders { NoSplit(instrument, quantity, orders); }
      return Failure(PartLot);
    }
    if instrument.freeze.None? || quantity <= instrument.freeze.value {
      OneOrder(instrument, quantity);
      return Success([quantity]);
    }
    var perSlice := LotCap(instrument.freeze.value, lotSize);
    if perSlice <= 0 {
      forall orders { NoSplit(instrument, quantity, orders); }
      return Failure(FreezeBelowOneLot);
    }

    MultipleIsAligned(instrument.freeze.value / lotSize, lotSize);
    var slices: seq<int> := [];
    var remaining := quantity;
    while remaining > perSlice
      invariant 0 < remaining && remaining % lotSize == 0
      invariant Sum(slices) + remaining == quantity
      invariant forall i :: 0 <= i < |slices| ==> slices[i] == perSlice
    {
      ExtendSplit(slices, perSlice);
      AlignedDifference(remaining, perSlice, lotSize);
      slices := slices + [perSlice];
      remaining := remaining - perSlice;
    }
    FullThenRest(instrument, slices, remaining, perSlice);
    return Success(slices + [remaining]);
  }
}
