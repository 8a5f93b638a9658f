/** Client-side profit and loss (`frontend/src/utils/pnlEngine.ts`). */
module Pnl {
  import opened Wrappers
  import opened LiveTypes
  import opened Rounding

  // ------------------------------------------------------------------- trades

  datatype Mode = Live | Paper | Mixed

  predicate ModeMatches(isPaper: bool, mode: Mode) {
    match mode
    case Live => !isPaper
    case Paper => isPaper
    case Mixed => true
  }

  type Ticks = map<string, real>

  function LtpOf(ticks: Ticks, exchange: string, symbol: string): Option<real> {
    var key := exchange + ":" + symbol;
    if key in ticks && ticks[key] > 0.0 then Some(ticks[key]) else None
  }

  datatype PnlValue = PnlValue(value: real, stale: bool)

  /** (ltp - entry) x quantity x sign x multiplier */
  function Gain(t: Trade, ltp: real): real {
    (ltp - t.entry) * t.filledQuantity * (if t.short then -1.0 else 1.0)
      * (if t.contractMultiplier > 0.0 then t.contractMultiplier else 1.0)
  }

  function TradeUnrealizedPnl(t: Trade, ticks: Ticks): PnlValue {
    if t.state.IsTerminal() || t.filledQuantity <= 0.0 || t.entry <= 0.0 then PnlValue(0.0, false)
    else
      match LtpOf(ticks, t.exchange, t.tradingSymbol)
      case None => PnlValue(Round2(t.profitLoss.GetOr(0.0)), true)
      case Some(ltp) => PnlValue(Round2(Gain(t, ltp)), false)
  }

  /** A price counts when a tick of the trade's exchange and symbol is above zero. */
  ghost predicate Ticked(t: Trade, ticks: Ticks, ltp: real) {
    t.exchange + ":" + t.tradingSymbol in ticks && ticks[t.exchange + ":" + t.tradingSymbol] == ltp && ltp > 0.0
  }

  /** What a long trade makes at a price, and a short one makes on the way down. */
  function Made(t: Trade, ltp: real): real {
    var size := t.filledQuantity * (if t.contractMultiplier > 0.0 then t.contractMultiplier else 1.0);
    if t.short then (t.entry - ltp) * size else (ltp - t.entry) * size
  }

  /** An open trade with a live price is worth, to the cent, the move since entry in its own
      direction times what it holds: a long never loses above its entry, nor a short below. */
  lemma OpenTradeGains(t: Trade, ticks: Ticks, ltp: real)
    requires !t.state.Completed? && !t.state.Cancelled? && t.filledQuantity > 0.0 && t.entry > 0.0
    requires Ticked(t, ticks, ltp)
    ensures TradeUnrealizedPnl(t, ticks) == PnlValue(Round2(Made(t, ltp)), false)
    ensures -0.005 <= TradeUnrealizedPnl(t, ticks).value - Made(t, ltp) <= 0.005
    ensures (if t.short then ltp <= t.entry else ltp >= t.entry) ==> TradeUnrealizedPnl(t, ticks).value >= 0.0
  {
    GainIsMade(t, ltp);
    RoundedIsWhole(Made(t, ltp));
    if if t.short then ltp <= t.entry else ltp >= t.entry {
      MadeInDirection(t, ltp);
    }
  }

  lemma GainIsMade(t: Trade, ltp: real)
    ensures Gain(t, ltp) == Made(t, ltp)
  {
    var m := if t.contractMultiplier > 0.0 then t.contractMultiplier else 1.0;
    var move, quantity := ltp - t.entry, t.filledQuantity;
    assert (move * quantity) * m == move * (quantity * m);
    assert t.entry - ltp == -move && (-move) * (quantity * m) == -(move * (quantity * m));
    assert ((move * quantity) * -1.0) * m == -((move * quantity) * m);
    assert (move * quantity) * 1.0 == move * quantity;
  }

  lemma MadeInDirection(t: Trade, ltp: real)
    requires t.filledQuantity > 0.0 && (if t.short then ltp <= t.entry else ltp >= t.entry)
    ensures Made(t, ltp) >= 0.0 && Round2(Made(t, ltp)) >= 0.0
  {
    var m := if t.contractMultiplier > 0.0 then t.contractMultiplier else 1.0;
    assert t.filledQuantity * m > 0.0;
    NonNegative(if t.short then t.entry - ltp else ltp - t.entry, t.filledQuantity * m);
  }

  lemma NonNegative(x: real, y: real)
    requires x >= 0.0 && y >= 0.0
    ensures x * y >= 0.0
  {
  }

  /** A finished trade, or one with nothing filled or no entry, has nothing unrealized; an open one
      without a live price shows the server's last figure, and is marked stale. */
  lemma UnpricedTrade(t: Trade, ticks: Ticks)
    ensures t.state.Completed? || t.state.Cancelled? || t.filledQuantity <= 0.0 || t.entry <= 0.0 ==>
      TradeUnrealizedPnl(t, ticks) == PnlValue(0.0, false)
    ensures (!t.state.Completed? && !t.state.Cancelled? && t.filledQuantity > 0.0 && t.entry > 0.0
             && forall ltp :: !Ticked(t, ticks, ltp)) ==>
      TradeUnrealizedPnl(t, ticks) == PnlValue(Round2(if t.profitLoss.Some? then t.profitLoss.value else 0.0), true)
  {
    var ltp := LtpOf(ticks, t.exchange, t.tradingSymbol);
    if ltp.Some? {
      assert Ticked(t, ticks, ltp.value);
    }
  }

  /** A short trade mirrors the long one at every price, to the cent: rounding half a cent goes
      up for both. Bought at the price it trades at, neither has gained. */
  lemma ShortMirrorsLong(t: Trade, ticks: Ticks, ltp: real)
    requires !t.state.IsTerminal() && t.filledQuantity > 0.0 && t.entry > 0.0
    requires LtpOf(ticks, t.exchange, t.tradingSymbol) == Some(ltp)
    ensures var long, short := TradeUnrealizedPnl(t.(short := false), ticks), TradeUnrealizedPnl(t.(short := true), ticks);
      && !long.stale && !short.stale
      && 0.0 <= long.value + short.value <= 0.01
      && (ltp == t.entry ==> long.value == short.value == 0.0)
  {
    var up, down := Gain(t.(short := false), ltp), Gain(t.(short := true), ltp);
    GainMirrors(t, ltp);
    CentsMirror(up);
    CountsAsCents(0.0, 0);
  }

  lemma GainMirrors(t: Trade, ltp: real)
    ensures Gain(t.(short := true), ltp) == -Gain(t.(short := false), ltp)
    ensures ltp == t.entry ==> Gain(t.(short := false), ltp) == 0.0
  {
    var base := (ltp - t.entry) * t.filledQuantity;
    var m := if t.contractMultiplier > 0.0 then t.contractMultiplier else 1.0;
    assert base * -1.0 == -base && base * 1.0 == base;
    assert (-base) * m == -(base * m);
  }

  lemma CentsMirror(x: real)
    ensures 0.0 <= Round2(x) + Round2(-x) <= 0.01
  {
    assert 0 <= Cents(x) + Cents(-x) <= 1;
  }

  /** How trades are valued. */
  type Pricing = Trade -> PnlValue

  function Priced(ticks: Ticks): Pricing {
    (t: Trade) => TradeUnrealizedPnl(t, ticks)
  }

  ghost predicate PricesInCents(price: Pricing) {
    forall t :: WholeCents(price(t).value)
  }

  lemma PricedInCents(ticks: Ticks)
    ensures PricesInCents(Priced(ticks))
  {
    forall t ensures WholeCents(Priced(ticks)(t).value) {
      var ltp := LtpOf(ticks, t.exchange, t.tradingSymbol);
      RoundedIsWhole(t.profitLoss.GetOr(0.0));
      RoundedIsWhole(Gain(t, ltp.GetOr(0.0)));
      CountsAsCents(0.0, 0);
    }
  }

  function StrategyOf(t: Trade): string {
    if t.strategy == "" then "(none)" else t.strategy
  }

  // ------------------------------------------------------------------- tallies

  /** The exact sums behind a summary. */
  datatype Totals = Totals(
    trades: nat, open: nat, active: nat, completed: nat, cancelled: nat,
    realized: real, unrealized: real, charges: real, stale: bool)

  const NOTHING := Totals(0, 0, 0, 0, 0, 0.0, 0.0, 0.0, false)

  function Plus(a: Totals, b: Totals): Totals {
    Totals(a.trades + b.trades, a.open + b.open, a.active + b.active, a.completed + b.completed,
           a.cancelled + b.cancelled, a.realized + b.realized, a.unrealized + b.unrealized,
           a.charges + b.charges, a.stale || b.stale)
  }

  function OneTrade(t: Trade, price: Pricing): Totals {
    var pnl := price(t);
    Totals(1, if t.state.Open? then 1 else 0, if t.state.Active? then 1 else 0,
           if t.state.Completed? then 1 else 0, if t.state.Cancelled? then 1 else 0,
           if t.state.IsTerminal() then t.profitLoss.GetOr(0.0) else 0.0,
           if t.state.IsTerminal() then 0.0 else pnl.value,
           t.charges.GetOr(0.0), !t.state.IsTerminal() && pnl.stale)
  }

  /** Which trades a tally takes. */
  type Filter = Trade -> bool

  function InMode(mode: Mode): Filter { (t: Trade) => ModeMatches(t.isPaperTrading, mode) }

  function Finished(mode: Mode): Filter {
    (t: Trade) => ModeMatches(t.isPaperTrading, mode) && t.state.IsTerminal()
  }

  function Keyed(f: Filter, key: Trade -> string, k: string): Filter { (t: Trade) => f(t) && key(t) == k }

  /** The sums over those of the first `n` trades that a filter keeps. */
  function Tally(trades: seq<Trade>, price: Pricing, f: Filter, n: nat): Totals
    requires n <= |trades|
  {
    if n == 0 then NOTHING
    else
      var before := Tally(trades, price, f, n - 1);
      if f(trades[n - 1]) then Plus(before, OneTrade(trades[n - 1], price)) else before
  }

  lemma PlusMoves(a: Totals, b: Totals, one: Totals)
    ensures Plus(Plus(a, b), one) == Plus(Plus(a, one), b) == Plus(a, Plus(b, one))
  {
  }

  lemma PlusNothing(a: Totals)
    ensures Plus(a, NOTHING) == a
  {
  }

  /** `a` and `b` divide what `whole` keeps. */
  ghost predicate Divide(t: Trade, whole: Filter, a: Filter, b: Filter) {
    (whole(t) <==> a(t) || b(t)) && !(a(t) && b(t))
  }

  lemma {:induction false} TallyDivides(trades: seq<Trade>, price: Pricing, whole: Filter, a: Filter, b: Filter, n: nat)
    requires n <= |trades| && forall t :: t in trades ==> Divide(t, whole, a, b)
    ensures Tally(trades, price, whole, n) == Plus(Tally(trades, price, a, n), Tally(trades, price, b, n))
  {
    if n == 0 {
      PlusNothing(NOTHING);
    } else {
      assert Divide(trades[n - 1], whole, a, b);
      TallyDivides(trades, price, whole, a, b, n - 1);
      PlusMoves(Tally(trades, price, a, n - 1), Tally(trades, price, b, n - 1), OneTrade(trades[n - 1], price));
    }
  }

  lemma {:induction false} UnrealizedTallyIsWhole(trades: seq<Trade>, price: Pricing, f: Filter, n: nat)
    requires n <= |trades| && PricesInCents(price)
    ensures WholeCents(Tally(trades, price, f, n).unrealized)
  {
    CountsAsCents(0.0, 0);
    if n > 0 {
      UnrealizedTallyIsWhole(trades, price, f, n - 1);
      WholePlusWhole(Tally(trades, price, f, n - 1).unrealized, OneTrade(trades[n - 1], price).unrealized);
    }
  }

  /** Tallies depend on a filter only through the trades at hand. */
  lemma {:induction false} TallySame(trades: seq<Trade>, price: Pricing, f: Filter, g: Filter, n: nat)
    requires n <= |trades| && forall t :: t in trades ==> f(t) == g(t)
    ensures Tally(trades, price, f, n) == Tally(trades, price, g, n)
  {
    if n > 0 {
      assert trades[n - 1] in trades;
      TallySame(trades, price, f, g, n - 1);
    }
  }

  function Select(trades: seq<Trade>, keep: Filter, n: nat): seq<Trade>
    requires n <= |trades|
  {
    if n == 0 then []
    else if keep(trades[n - 1]) then Select(trades, keep, n - 1) + [trades[n - 1]]
    else Select(trades, keep, n - 1)
  }

  function Both(f: Filter, g: Filter): Filter { (t: Trade) => f(t) && g(t) }

  lemma {:induction false} TallyOfPrefix(a: seq<Trade>, b: seq<Trade>, price: Pricing, f: Filter, n: nat)
    requires n <= |a|
    ensures Tally(a + b, price, f, n) == Tally(a, price, f, n)
  {
    if n > 0 {
      TallyOfPrefix(a, b, price, f, n - 1);
    }
  }

  /** Filtering the list first, or in the tally, is the same. */
  lemma {:induction false} TallyOfSelect(trades: seq<Trade>, price: Pricing, keep: Filter, f: Filter, n: nat)
    requires n <= |trades|
    ensures Tally(Select(trades, keep, n), price, f, |Select(trades, keep, n)|) == Tally(trades, price, Both(f, keep), n)
  {
    if n > 0 {
      TallyOfSelect(trades, price, keep, f, n - 1);
      TallyOfPrefix(Select(trades, keep, n - 1), [trades[n - 1]], price, f, |Select(trades, keep, n - 1)|);
    }
  }

  // ----------------------------------------------------- what a tally amounts to

  function CountOf(trades: seq<Trade>, p: Filter, n: nat): nat
    requires n <= |trades|
  {
    |set i | 0 <= i < n && p(trades[i])|
  }

  function SumOver(trades: seq<Trade>, figure: Trade -> real, n: nat): real
    requires n <= |trades|
  {
    if n == 0 then 0.0 else SumOver(trades, figure, n - 1) + figure(trades[n - 1])
  }

  lemma CountStep(trades: seq<Trade>, p: Filter, n: nat)
    requires n < |trades|
    ensures CountOf(trades, p, n + 1) == CountOf(trades, p, n) + (if p(trades[n]) then 1 else 0)
  {
    var before, after := set i | 0 <= i < n && p(trades[i]), set i | 0 <= i < n + 1 && p(trades[i]);
    assert after == if p(trades[n]) then before + {n} else before;
  }

  /** The figures that a trade brings to a tally, and those it does not. */
  function RealizedOf(f: Filter): Trade -> real {
    (t: Trade) => if f(t) && (t.state.Completed? || t.state.Cancelled?) && t.profitLoss.Some? then t.profitLoss.value else 0.0
  }

  function UnrealizedOf(f: Filter, price: Pricing): Trade -> real {
    (t: Trade) => if f(t) && !t.state.Completed? && !t.state.Cancelled? then price(t).value else 0.0
  }

  function ChargesOf(f: Filter): Trade -> real {
    (t: Trade) => if f(t) && t.charges.Some? then t.charges.value else 0.0
  }

  ghost predicate Counts(trades: seq<Trade>, f: Filter, n: nat, sums: Totals)
    requires n <= |trades|
  {
    && sums.trades == CountOf(trades, f, n)
    && sums.open == CountOf(trades, (t: Trade) => f(t) && t.state == Open, n)
    && sums.active == CountOf(trades, (t: Trade) => f(t) && t.state == Active, n)
    && sums.completed == CountOf(trades, (t: Trade) => f(t) && t.state == Completed, n)
    && sums.cancelled == CountOf(trades, (t: Trade) => f(t) && t.state == Cancelled, n)
  }

  ghost predicate Sums(trades: seq<Trade>, price: Pricing, f: Filter, n: nat, sums: Totals)
    requires n <= |trades|
  {
    && sums.realized == SumOver(trades, RealizedOf(f), n)
    && sums.unrealized == SumOver(trades, UnrealizedOf(f, price), n)
    && sums.charges == SumOver(trades, ChargesOf(f), n)
    && (sums.stale <==>
          exists i :: 0 <= i < n && f(trades[i]) && !trades[i].state.Completed? && !trades[i].state.Cancelled? && price(trades[i]).stale)
  }

  lemma {:induction false} TallyCounts(trades: seq<Trade>, price: Pricing, f: Filter, n: nat)
    requires n <= |trades|
    ensures Counts(trades, f, n, Tally(trades, price, f, n))
  {
    if n > 0 {
      TallyCounts(trades, price, f, n - 1);
      CountStep(trades, f, n - 1);
      CountStep(trades, (t: Trade) => f(t) && t.state == Open, n - 1);
      CountStep(trades, (t: Trade) => f(t) && t.state == Active, n - 1);
      CountStep(trades, (t: Trade) => f(t) && t.state == Completed, n - 1);
      CountStep(trades, (t: Trade) => f(t) && t.state == Cancelled, n - 1);
    }
  }

  lemma {:induction false} TallySums(trades: seq<Trade>, price: Pricing, f: Filter, n: nat)
    requires n <= |trades|
    ensures Sums(trades, price, f, n, Tally(trades, price, f, n))
  {
    if n > 0 {
      TallySums(trades, price, f, n - 1);
    }
  }

  // ------------------------------------------------------------------ summaries

  datatype Summary = Summary(
    realizedPnl: real, unrealizedPnl: real, totalPnl: real, charges: real, netPnl: real,
    open: nat, active: nat, completed: nat, cancelled: nat, stale: bool)

  /** The rounding at the end of an aggregation. */
  function Publish(sums: Totals): Summary {
    var realized, unrealized, charges := Round2(sums.realized), Round2(sums.unrealized), Round2(sums.charges);
    var total := Round2(realized + unrealized);
    Summary(realized, unrealized, total, charges, Round2(total - charges),
            sums.open, sums.active, sums.completed, sums.cancelled, sums.stale)
  }

  function Aggregate(trades: seq<Trade>, ticks: Ticks, mode: Mode): Summary {
    Publish(Tally(trades, Priced(ticks), InMode(mode), |trades|))
  }

  method AggregatePnl(trades: seq<Trade>, ticks: Ticks, mode: Mode) returns (s: Summary)
    ensures s == Aggregate(trades, ticks, mode)
  {
    var open, active, completed, cancelled := 0, 0, 0, 0;
    var realized, unrealized, charges, stale := 0.0, 0.0, 0.0, false;
    ghost var count := 0;
    for n := 0 to |trades|
      invariant Totals(count, open, active, completed, cancelled, realized, unrealized, charges, stale)
             == Tally(trades, Priced(ticks), InMode(mode), n)
    {
      var trade := trades[n];
      if ModeMatches(trade.isPaperTrading, mode) {
        count := count + 1;
        match trade.state {
          case Open => open := open + 1;
          case Active => active := active + 1;
          case Completed => completed := completed + 1;
          case Cancelled => cancelled := cancelled + 1;
          case Other(_) =>
        }
        charges := charges + trade.charges.GetOr(0.0);
        if trade.state.IsTerminal() {
          realized := realized + trade.profitLoss.GetOr(0.0);
        } else {
          var pnl := TradeUnrealizedPnl(trade, ticks);
          unrealized := unrealized + pnl.value;
          stale := stale || pnl.stale;
        }
      }
    }
    realized, unrealized, charges := Round2(realized), Round2(unrealized), Round2(charges);
    var total := Round2(realized + unrealized);
    s := Summary(realized, unrealized, total, charges, Round2(total - charges), open, active, completed, cancelled, stale);
  }

  function Selected(mode: Mode): Filter { (t: Trade) => mode.Mixed? || (mode.Paper? <==> t.isPaperTrading) }

  /** An aggregate counts the trades of its mode by state, sums what the finished ones made, what
      the others stand at and what all of them cost, each rounded once; total and net are exact
      differences of the published figures; one stale price makes it stale. */
  lemma AggregateMeans(trades: seq<Trade>, ticks: Ticks, mode: Mode)
    ensures var s, n := Aggregate(trades, ticks, mode), |trades|;
      && s.open == CountOf(trades, (t: Trade) => Selected(mode)(t) && t.state == Open, n)
      && s.active == CountOf(trades, (t: Trade) => Selected(mode)(t) && t.state == Active, n)
      && s.completed == CountOf(trades, (t: Trade) => Selected(mode)(t) && t.state == Completed, n)
      && s.cancelled == CountOf(trades, (t: Trade) => Selected(mode)(t) && t.state == Cancelled, n)
      && s.realizedPnl == Round2(SumOver(trades, RealizedOf(Selected(mode)), n))
      && s.unrealizedPnl == SumOver(trades, UnrealizedOf(Selected(mode), Priced(ticks)), n)
      && s.charges == Round2(SumOver(trades, ChargesOf(Selected(mode)), n))
      && s.totalPnl == s.realizedPnl + s.unrealizedPnl && s.netPnl == s.totalPnl - s.charges
      && (s.stale <==> exists i :: 0 <= i < n && Selected(mode)(trades[i]) && TradeUnrealizedPnl(trades[i], ticks).stale)
  {
    var price, f := Priced(ticks), Selected(mode);
    TallySame(trades, price, InMode(mode), f, |trades|);
    var sums := Tally(trades, price, f, |trades|);
    TallyCounts(trades, price, f, |trades|);
    TallySums(trades, price, f, |trades|);
    PricedInCents(ticks);
    UnrealizedTallyIsWhole(trades, price, f, |trades|);
    PublishedExactly(sums);
    forall t { UnpricedTrade(t, ticks); }
  }

  lemma PublishedExactly(sums: Totals)
    requires WholeCents(sums.unrealized)
    ensures var s := Publish(sums);
      && s.unrealizedPnl == sums.unrealized
      && s.totalPnl == s.realizedPnl + s.unrealizedPnl && s.netPnl == s.totalPnl - s.charges
  {
    WholeRoundsToItself(sums.unrealized);
    RoundedIsWhole(sums.realized);
    RoundedIsWhole(sums.charges);
    WholePlusWhole(Round2(sums.realized), sums.unrealized);
    WholeRoundsToItself(Round2(sums.realized) + sums.unrealized);
    WholePlusWhole(Round2(sums.realized) + sums.unrealized, Round2(sums.charges));
    WholeRoundsToItself(Round2(sums.realized) + sums.unrealized - Round2(sums.charges));
  }

  datatype BrokerSummary =
    BrokerSummary(broker: string, realizedPnl: Option<real>, realizedCharges: Option<real>, completed: Option<nat>, cancelled: Option<nat>)

  datatype ServerAgg = ServerAgg(realizedPnl: real, realizedCharges: real, completed: nat, cancelled: nat)

  /** The sums over the first `n` broker roll-ups, or over those of one broker when it is named. */
  function ServerTally(brokers: seq<BrokerSummary>, broker: string, n: nat): ServerAgg
    requires n <= |brokers|
  {
    if n == 0 then ServerAgg(0.0, 0.0, 0, 0)
    else
      var before, b := ServerTally(brokers, broker, n - 1), brokers[n - 1];
      if broker != "" && b.broker != broker then before
      else ServerAgg(before.realizedPnl + b.realizedPnl.GetOr(0.0), before.realizedCharges + b.realizedCharges.GetOr(0.0),
                     before.completed + b.completed.GetOr(0), before.cancelled + b.cancelled.GetOr(0))
  }

  method AggregateServerSummary(brokers: seq<BrokerSummary>, broker: string) returns (agg: ServerAgg)
    ensures agg == ServerTally(brokers, broker, |brokers|)
  {
    agg := ServerAgg(0.0, 0.0, 0, 0);
    for n := 0 to |brokers|
      invariant agg == ServerTally(brokers, broker, n)
    {
      var b := brokers[n];
      if broker != "" && b.broker != broker {
        continue;
      }
      agg := ServerAgg(agg.realizedPnl + b.realizedPnl.GetOr(0.0), agg.realizedCharges + b.realizedCharges.GetOr(0.0),
                       agg.completed + b.completed.GetOr(0), agg.cancelled + b.cancelled.GetOr(0));
    }
  }

  function ComposeSummary(client: Summary, server: ServerAgg): Summary {
    var realized, charges := Round2(server.realizedPnl), Round2(client.charges + server.realizedCharges);
    var total := Round2(realized + client.unrealizedPnl);
    Summary(realized, client.unrealizedPnl, total, charges, Round2(total - charges),
            client.open, client.active, server.completed, server.cancelled, client.stale)
  }

  /** The same figures, except that charges and net may be a cent apart. */
  ghost predicate WithinACent(a: Summary, b: Summary) {
    && a == b.(charges := a.charges, netPnl := a.netPnl)
    && -0.01 <= a.charges - b.charges <= 0.01
    && a.netPnl - b.netPnl == b.charges - a.charges
  }

  /** The net of whole cents is exact. */
  lemma NetIsExact(realized: real, unrealized: real, charges: real)
    ensures var total := Round2(Round2(realized) + Round2(unrealized));
      Round2(total - Round2(charges)) == total - Round2(charges)
  {
    var total := Round2(Round2(realized) + Round2(unrealized));
    RoundedIsWhole(Round2(realized) + Round2(unrealized));
    RoundedIsWhole(charges);
    WholePlusWhole(total, Round2(charges));
    CountsAsCents(total - Round2(charges), Cents(total - Round2(charges)));
  }

  /** Composing from exact parts: the live trades published, the finished ones as sums. */
  lemma ComposeFromParts(live: Totals, done: Totals)
    requires live.realized == 0.0 && live.completed == live.cancelled == 0
    requires done.unrealized == 0.0 && done.open == done.active == 0 && !done.stale
    ensures var split := ComposeSummary(Publish(live), ServerAgg(done.realized, done.charges, done.completed, done.cancelled));
      var whole := Publish(Plus(live, done));
      WithinACent(split, whole) && (WholeCents(live.charges) ==> split == whole)
  {
    RoundingTwice(live.charges, done.charges);
    NetIsExact(done.realized, live.unrealized, Round2(live.charges) + done.charges);
    NetIsExact(done.realized, live.unrealized, live.charges + done.charges);
  }

  // ------------------------------------------------------------------ partitions

  ghost predicate Distinct(names: seq<string>) {
    forall i, j :: 0 <= i < j < |names| ==> names[i] != names[j]
  }

  function Among(f: Filter, key: Trade -> string, names: set<string>): Filter {
    (t: Trade) => f(t) && key(t) in names
  }

  function NameSet(names: seq<string>, m: nat): (s: set<string>)
    requires m <= |names|
    ensures forall x :: x in s <==> exists i :: 0 <= i < m && names[i] == x
  {
    set i | 0 <= i < m :: names[i]
  }

  /** The tallies of the first `m` keys, added up. */
  function TallyKeys(trades: seq<Trade>, price: Pricing, f: Filter, key: Trade -> string, names: seq<string>, m: nat): Totals
    requires m <= |names|
  {
    if m == 0 then NOTHING
    else Plus(TallyKeys(trades, price, f, key, names, m - 1),
              Tally(trades, price, Keyed(f, key, names[m - 1]), |trades|))
  }

  lemma {:induction false} TallyNone(trades: seq<Trade>, price: Pricing, f: Filter, n: nat)
    requires n <= |trades| && forall t :: t in trades ==> !f(t)
    ensures Tally(trades, price, f, n) == NOTHING
  {
    if n > 0 {
      assert trades[n - 1] in trades;
      TallyNone(trades, price, f, n - 1);
    }
  }

  /** Tallies by key add up to the tally of every trade with one of the keys. */
  lemma {:induction false} KeysPartition(trades: seq<Trade>, price: Pricing, f: Filter, key: Trade -> string, names: seq<string>, m: nat)
    requires m <= |names| && Distinct(names)
    ensures TallyKeys(trades, price, f, key, names, m)
         == Tally(trades, price, Among(f, key, NameSet(names, m)), |trades|)
  {
    if m == 0 {
      TallyNone(trades, price, Among(f, key, NameSet(names, 0)), |trades|);
    } else {
      KeysPartition(trades, price, f, key, names, m - 1);
      var name := names[m - 1];
      var whole, a, b := Among(f, key, NameSet(names, m)), Among(f, key, NameSet(names, m - 1)), Keyed(f, key, name);
      assert name !in NameSet(names, m - 1);
      assert NameSet(names, m) == NameSet(names, m - 1) + {name};
      forall t | t in trades ensures Divide(t, whole, a, b) {}
      TallyDivides(trades, price, whole, a, b, |trades|);
    }
  }

  // ------------------------------------------------------- split against whole

  function BrokerOf(t: Trade): string { t.broker }

  /** A server's roll-up of one broker: its finished trades in a mode. */
  function RollUp(trades: seq<Trade>, price: Pricing, mode: Mode, broker: string): BrokerSummary {
    var sums := Tally(trades, price, Keyed(Finished(mode), BrokerOf, broker), |trades|);
    BrokerSummary(broker, Some(sums.realized), Some(sums.charges), Some(sums.completed), Some(sums.cancelled))
  }

  function RollUps(trades: seq<Trade>, price: Pricing, mode: Mode, names: seq<string>): seq<BrokerSummary> {
    seq(|names|, i requires 0 <= i < |names| => RollUp(trades, price, mode, names[i]))
  }

  function AggOf(sums: Totals): ServerAgg {
    ServerAgg(sums.realized, sums.charges, sums.completed, sums.cancelled)
  }

  function OfBroker(broker: string): Filter { (t: Trade) => broker == "" || t.broker == broker }

  lemma {:induction false} AllBrokersSum(trades: seq<Trade>, price: Pricing, mode: Mode, names: seq<string>, m: nat)
    requires m <= |names|
    ensures ServerTally(RollUps(trades, price, mode, names), "", m)
         == AggOf(TallyKeys(trades, price, Finished(mode), BrokerOf, names, m))
  {
    if m > 0 {
      AllBrokersSum(trades, price, mode, names, m - 1);
    }
  }

  lemma {:induction false} OneBrokerSum(trades: seq<Trade>, price: Pricing, mode: Mode, names: seq<string>, broker: string, m: nat)
    requires m <= |names| && Distinct(names) && broker != ""
    ensures ServerTally(RollUps(trades, price, mode, names), broker, m) ==
      if broker in names[..m] then AggOf(Tally(trades, price, Keyed(Finished(mode), BrokerOf, broker), |trades|))
      else ServerAgg(0.0, 0.0, 0, 0)
  {
    if m > 0 {
      OneBrokerSum(trades, price, mode, names, broker, m - 1);
      assert names[..m] == names[..m - 1] + [names[m - 1]];
      if names[m - 1] == broker {
        assert broker !in names[..m - 1];
      }
    }
  }

  /** The server's roll-ups of all brokers, or of the one chosen, are the finished trades'. */
  lemma ServerSums(trades: seq<Trade>, price: Pricing, mode: Mode, names: seq<string>, broker: string)
    requires Distinct(names)
    requires forall t :: t in trades && Finished(mode)(t) ==> t.broker in names
    ensures ServerTally(RollUps(trades, price, mode, names), broker, |names|)
         == AggOf(Tally(trades, price, Both(Finished(mode), OfBroker(broker)), |trades|))
  {
    var f := Both(Finished(mode), OfBroker(broker));
    if broker == "" {
      AllBrokersSum(trades, price, mode, names, |names|);
      KeysPartition(trades, price, Finished(mode), BrokerOf, names, |names|);
      TallySame(trades, price, f, Among(Finished(mode), BrokerOf, NameSet(names, |names|)), |trades|);
    } else {
      OneBrokerSum(trades, price, mode, names, broker, |names|);
      assert names[..|names|] == names;
      TallySame(trades, price, f, Keyed(Finished(mode), BrokerOf, broker), |trades|);
      if broker !in names {
        TallyNone(trades, price, f, |trades|);
      }
    }
  }

  function Unterminated(broker: string): Filter {
    (t: Trade) => (broker == "" || t.broker == broker) && !t.state.IsTerminal()
  }

  /** The tiles composed from the unfinished trades and the server's roll-ups are those of all
      the trades: exactly in realized, unrealized and total, every count and staleness, and
      within a cent in charges and net, which differ only by the second rounding. */
  lemma SplitFeedMatchesWhole(trades: seq<Trade>, ticks: Ticks, mode: Mode, names: seq<string>, broker: string)
    requires Distinct(names)
    requires forall t :: t in trades && Finished(mode)(t) ==> t.broker in names
    ensures
      var mine, unfinished := Select(trades, OfBroker(broker), |trades|), Select(trades, Unterminated(broker), |trades|);
      var server := ServerTally(RollUps(trades, Priced(ticks), mode, names), broker, |names|);
      var split, whole := ComposeSummary(Aggregate(unfinished, ticks, mode), server), Aggregate(mine, ticks, mode);
      && WithinACent(split, whole)
      && (WholeCents(Tally(unfinished, Priced(ticks), InMode(mode), |unfinished|).charges) ==> split == whole)
  {
    var price := Priced(ticks);
    ServerSums(trades, price, mode, names, broker);
    TallyOfSelect(trades, price, OfBroker(broker), InMode(mode), |trades|);
    TallyOfSelect(trades, price, Unterminated(broker), InMode(mode), |trades|);
    var whole, live, done := Both(InMode(mode), OfBroker(broker)), Both(InMode(mode), Unterminated(broker)),
      Both(Finished(mode), OfBroker(broker));
    forall t | t in trades ensures Divide(t, whole, live, done) {}
    TallyDivides(trades, price, whole, live, done, |trades|);
    SplitShapes(trades, price, mode, broker, |trades|);
    ComposeFromParts(Tally(trades, price, live, |trades|), Tally(trades, price, done, |trades|));
  }

  /** Finished trades bring only realized figures, the others only unrealized ones. */
  lemma {:induction false} SplitShapes(trades: seq<Trade>, price: Pricing, mode: Mode, broker: string, n: nat)
    requires n <= |trades|
    ensures var done := Tally(trades, price, Both(Finished(mode), OfBroker(broker)), n);
      done.unrealized == 0.0 && done.open == done.active == 0 && !done.stale
    ensures var live := Tally(trades, price, Both(InMode(mode), Unterminated(broker)), n);
      live.realized == 0.0 && live.completed == live.cancelled == 0
  {
    if n > 0 {
      SplitShapes(trades, price, mode, broker, n - 1);
    }
  }

  // ------------------------------------------------------------------- mode split

  ghost predicate AddsUp(mixed: Summary, live: Summary, paper: Summary) {
    && mixed.open == live.open + paper.open && mixed.active == live.active + paper.active
    && mixed.completed == live.completed + paper.completed && mixed.cancelled == live.cancelled + paper.cancelled
    && mixed.stale == (live.stale || paper.stale)
    && mixed.unrealizedPnl == live.unrealizedPnl + paper.unrealizedPnl
    && -0.01 <= mixed.realizedPnl - (live.realizedPnl + paper.realizedPnl) <= 0.01
    && -0.01 <= mixed.charges - (live.charges + paper.charges) <= 0.01
  }

  lemma TotalsAddUp(live: Totals, paper: Totals)
    requires WholeCents(live.unrealized) && WholeCents(paper.unrealized)
    ensures AddsUp(Publish(Plus(live, paper)), Publish(live), Publish(paper))
  {
    WholeRoundsToItself(live.unrealized);
    WholeRoundsToItself(paper.unrealized);
    WholePlusWhole(live.unrealized, paper.unrealized);
    WholeRoundsToItself(live.unrealized + paper.unrealized);
    RoundedSum(live.realized, paper.realized);
    RoundedSum(live.charges, paper.charges);
  }

  /** Live plus paper is mixed: exactly in the counts and in unrealized, and within a cent in
      realized and in charges. */
  lemma ModesAddUp(trades: seq<Trade>, ticks: Ticks)
    ensures AddsUp(Aggregate(trades, ticks, Mixed), Aggregate(trades, ticks, Live), Aggregate(trades, ticks, Paper))
  {
    var price := Priced(ticks);
    forall t | t in trades ensures Divide(t, InMode(Mixed), InMode(Live), InMode(Paper)) {}
    TallyDivides(trades, price, InMode(Mixed), InMode(Live), InMode(Paper), |trades|);
    PricedInCents(ticks);
    UnrealizedTallyIsWhole(trades, price, InMode(Live), |trades|);
    UnrealizedTallyIsWhole(trades, price, InMode(Paper), |trades|);
    TotalsAddUp(Tally(trades, price, InMode(Live), |trades|), Tally(trades, price, InMode(Paper), |trades|));
  }

  // ----------------------------------------------------------- strategy summaries

  datatype StrategyRow =
    StrategyRow(strategy: string, tradesCount: nat, activeCount: nat, realizedPnl: real, unrealizedPnl: real, netPnl: real)

  /** A row before its last rounding. */
  function RawRow(k: string, sums: Totals): StrategyRow {
    StrategyRow(k, sums.trades, sums.open + sums.active, sums.realized, sums.unrealized,
                Round2(sums.realized + sums.unrealized))
  }

  function Rounded(row: StrategyRow): StrategyRow {
    row.(realizedPnl := Round2(row.realizedPnl), unrealizedPnl := Round2(row.unrealizedPnl))
  }

  /** The strategies of the kept trades, in the order they first appear. */
  function Strategies(trades: seq<Trade>, f: Filter, n: nat): seq<string>
    requires n <= |trades|
  {
    if n == 0 then []
    else
      var before, t := Strategies(trades, f, n - 1), trades[n - 1];
      if f(t) && StrategyOf(t) !in before then before + [StrategyOf(t)] else before
  }

  lemma {:induction false} StrategiesAre(trades: seq<Trade>, f: Filter, n: nat)
    requires n <= |trades|
    ensures Distinct(Strategies(trades, f, n))
    ensures forall k :: k in Strategies(trades, f, n) <==> exists i :: 0 <= i < n && f(trades[i]) && StrategyOf(trades[i]) == k
  {
    if n > 0 {
      StrategiesAre(trades, f, n - 1);
    }
  }

  function RowOf(trades: seq<Trade>, ticks: Ticks, mode: Mode, k: string, n: nat): StrategyRow
    requires n <= |trades|
  {
    RawRow(k, Tally(trades, Priced(ticks), Keyed(InMode(mode), StrategyOf, k), n))
  }

  /** One trade more of a row's strategy. */
  function Bumped(row: StrategyRow, t: Trade, pnl: PnlValue): StrategyRow {
    var realized := if t.state.IsTerminal() then row.realizedPnl + t.profitLoss.GetOr(0.0) else row.realizedPnl;
    var unrealized := if t.state.IsTerminal() then row.unrealizedPnl else row.unrealizedPnl + pnl.value;
    row.(tradesCount := row.tradesCount + 1,
         activeCount := row.activeCount + (if t.state.Active? || t.state.Open? then 1 else 0),
         realizedPnl := realized, unrealizedPnl := unrealized, netPnl := Round2(realized + unrealized))
  }

  lemma BumpedIsPlus(k: string, sums: Totals, t: Trade, price: Pricing)
    ensures RawRow(k, Plus(sums, OneTrade(t, price))) == Bumped(RawRow(k, sums), t, price(t))
  {
  }

  lemma RowStep(trades: seq<Trade>, ticks: Ticks, mode: Mode, k: string, n: nat)
    requires n < |trades|
    ensures RowOf(trades, ticks, mode, k, n + 1) ==
      if ModeMatches(trades[n].isPaperTrading, mode) && StrategyOf(trades[n]) == k then
        Bumped(RowOf(trades, ticks, mode, k, n), trades[n], TradeUnrealizedPnl(trades[n], ticks))
      else RowOf(trades, ticks, mode, k, n)
  {
    BumpedIsPlus(k, Tally(trades, Priced(ticks), Keyed(InMode(mode), StrategyOf, k), n), trades[n], Priced(ticks));
  }

  lemma NewRow(trades: seq<Trade>, ticks: Ticks, mode: Mode, k: string, n: nat)
    requires n <= |trades| && k !in Strategies(trades, InMode(mode), n)
    ensures RowOf(trades, ticks, mode, k, n) == StrategyRow(k, 0, 0, 0.0, 0.0, 0.0)
  {
    FirstOfKey(trades, Priced(ticks), InMode(mode), k, n);
    CountsAsCents(0.0, 0);
  }

  method AddToRow(row: StrategyRow, trade: Trade, ticks: Ticks) returns (r: StrategyRow)
    ensures r == Bumped(row, trade, TradeUnrealizedPnl(trade, ticks))
  {
    r := row.(tradesCount := row.tradesCount + 1);
    if trade.state.IsTerminal() {
      r := r.(realizedPnl := r.realizedPnl + trade.profitLoss.GetOr(0.0));
    } else {
      if trade.state.Active? || trade.state.Open? {
        r := r.(activeCount := r.activeCount + 1);
      }
      r := r.(unrealizedPnl := r.unrealizedPnl + TradeUnrealizedPnl(trade, ticks).value);
    }
    r := r.(netPnl := Round2(r.realizedPnl + r.unrealizedPnl - 0.0));
  }

  /** The rows built from the first `n` trades, by strategy, and the strategies in order. */
  ghost predicate RowsSoFar(byStrategy: map<string, StrategyRow>, order: seq<string>, trades: seq<Trade>, ticks: Ticks, mode: Mode, n: nat)
    requires n <= |trades|
  {
    && order == Strategies(trades, InMode(mode), n)
    && (forall k :: k in byStrategy <==> k in order)
    && (forall k :: k in byStrategy ==> byStrategy[k] == RowOf(trades, ticks, mode, k, n))
  }

  lemma TradeOfOtherMode(byStrategy: map<string, StrategyRow>, order: seq<string>, trades: seq<Trade>, ticks: Ticks, mode: Mode, n: nat)
    requires n < |trades| && RowsSoFar(byStrategy, order, trades, ticks, mode, n)
    requires !ModeMatches(trades[n].isPaperTrading, mode)
    ensures RowsSoFar(byStrategy, order, trades, ticks, mode, n + 1)
  {
    forall k { RowStep(trades, ticks, mode, k, n); }
  }

  lemma TradeOfMode(byStrategy: map<string, StrategyRow>, order: seq<string>, trades: seq<Trade>, ticks: Ticks, mode: Mode, n: nat,
                    row: StrategyRow)
    requires n < |trades| && RowsSoFar(byStrategy, order, trades, ticks, mode, n)
    requires ModeMatches(trades[n].isPaperTrading, mode)
    requires row == Bumped(RowOf(trades, ticks, mode, StrategyOf(trades[n]), n), trades[n], TradeUnrealizedPnl(trades[n], ticks))
    ensures var key := StrategyOf(trades[n]);
      RowsSoFar(byStrategy[key := row], if key in order then order else order + [key], trades, ticks, mode, n + 1)
  {
    forall k { RowStep(trades, ticks, mode, k, n); }
  }

  method StrategySummaries(trades: seq<Trade>, ticks: Ticks, mode: Mode) returns (rows: seq<StrategyRow>)
    ensures var names := Strategies(trades, InMode(mode), |trades|);
      && |rows| == |names|
      && forall i :: 0 <= i < |rows| ==> rows[i] == Rounded(RowOf(trades, ticks, mode, names[i], |trades|))
  {
    var byStrategy: map<string, StrategyRow> := map[];
    var order: seq<string> := [];
    for n := 0 to |trades|
      invariant RowsSoFar(byStrategy, order, trades, ticks, mode, n)
    {
      var trade := trades[n];
      if !ModeMatches(trade.isPaperTrading, mode) {
        TradeOfOtherMode(byStrategy, order, trades, ticks, mode, n);
        continue;
      }
      var key := StrategyOf(trade);
      var row := StrategyRow(key, 0, 0, 0.0, 0.0, 0.0);
      ghost var rowsBefore, orderBefore := byStrategy, order;
      if key in byStrategy {
        row := byStrategy[key];
      } else {
        NewRow(trades, ticks, mode, key, n);
        order := order + [key];
      }
      row := AddToRow(row, trade, ticks);
      TradeOfMode(rowsBefore, orderBefore, trades, ticks, mode, n, row);
      byStrategy := byStrategy[key := row];
    }
    rows := [];
    for n := 0 to |order|
      invariant |rows| == n
      invariant forall i :: 0 <= i < n ==> rows[i] == Rounded(RowOf(trades, ticks, mode, order[i], |trades|))
    {
      rows := rows + [Rounded(byStrategy[order[n]])];
    }
  }

  lemma FirstOfKey(trades: seq<Trade>, price: Pricing, f: Filter, key: string, n: nat)
    requires n <= |trades| && key !in Strategies(trades, f, n)
    ensures Tally(trades, price, Keyed(f, StrategyOf, key), n) == NOTHING
  {
    StrategiesAre(trades, f, n);
    NoneOfKey(trades, price, f, key, n);
  }

  lemma {:induction false} NoneOfKey(trades: seq<Trade>, price: Pricing, f: Filter, key: string, n: nat)
    requires n <= |trades| && forall i :: 0 <= i < n ==> !(f(trades[i]) && StrategyOf(trades[i]) == key)
    ensures Tally(trades, price, Keyed(f, StrategyOf, key), n) == NOTHING
  {
    if n > 0 {
      NoneOfKey(trades, price, f, key, n - 1);
    }
  }

  function InStrategy(mode: Mode, k: string): Filter {
    (t: Trade) => Selected(mode)(t) && (if t.strategy == "" then k == "(none)" else k == t.strategy)
  }

  /** `row` counts the trades of a filter, and those still on, and sums what they made and what they
      stand at; its net is the two together, before charges. */
  ghost predicate Summarises(row: StrategyRow, trades: seq<Trade>, price: Pricing, f: Filter) {
    var realized, unrealized := SumOver(trades, RealizedOf(f), |trades|), SumOver(trades, UnrealizedOf(f, price), |trades|);
    && row.tradesCount == CountOf(trades, f, |trades|)
    && row.activeCount == CountOf(trades, (t: Trade) => f(t) && t.state == Open, |trades|)
                        + CountOf(trades, (t: Trade) => f(t) && t.state == Active, |trades|)
    && row.realizedPnl == Round2(realized) && row.unrealizedPnl == unrealized && row.netPnl == Round2(realized + unrealized)
  }

  /** A strategy's row is about exactly its trades of the mode. */
  lemma StrategyRowMeans(trades: seq<Trade>, ticks: Ticks, mode: Mode, k: string)
    ensures var row := Rounded(RowOf(trades, ticks, mode, k, |trades|));
      row.strategy == k && Summarises(row, trades, Priced(ticks), InStrategy(mode, k))
  {
    SameStrategyFilter(trades, ticks, mode, k);
    PricedInCents(ticks);
    UnrealizedTallyIsWhole(trades, Priced(ticks), InStrategy(mode, k), |trades|);
    RowOfTally(trades, Priced(ticks), InStrategy(mode, k), k);
  }

  lemma SameStrategyFilter(trades: seq<Trade>, ticks: Ticks, mode: Mode, k: string)
    ensures RowOf(trades, ticks, mode, k, |trades|) == RawRow(k, Tally(trades, Priced(ticks), InStrategy(mode, k), |trades|))
  {
    forall t | t in trades ensures Keyed(InMode(mode), StrategyOf, k)(t) == InStrategy(mode, k)(t) {
      assert InMode(mode)(t) == Selected(mode)(t);
    }
    TallySame(trades, Priced(ticks), Keyed(InMode(mode), StrategyOf, k), InStrategy(mode, k), |trades|);
  }

  lemma RowOfTally(trades: seq<Trade>, price: Pricing, f: Filter, k: string)
    requires WholeCents(Tally(trades, price, f, |trades|).unrealized)
    ensures var row := Rounded(RawRow(k, Tally(trades, price, f, |trades|)));
      row.strategy == k && Summarises(row, trades, price, f)
  {
    TallyCounts(trades, price, f, |trades|);
    TallySums(trades, price, f, |trades|);
    WholeRoundsToItself(Tally(trades, price, f, |trades|).unrealized);
  }

  /** The figures of the first `m` rows, added up. */
  datatype RowSums = RowSums(trades: nat, active: nat, realized: real, unrealized: real)

  function SumRows(rows: seq<StrategyRow>, m: nat): RowSums
    requires m <= |rows|
  {
    if m == 0 then RowSums(0, 0, 0.0, 0.0)
    else
      var before, row := SumRows(rows, m - 1), rows[m - 1];
      RowSums(before.trades + row.tradesCount, before.active + row.activeCount,
              before.realized + row.realizedPnl, before.unrealized + row.unrealizedPnl)
  }

  ghost predicate RowsOf(rows: seq<StrategyRow>, trades: seq<Trade>, ticks: Ticks, mode: Mode, names: seq<string>) {
    |rows| == |names| && forall i :: 0 <= i < |rows| ==> rows[i] == Rounded(RowOf(trades, ticks, mode, names[i], |trades|))
  }

  lemma {:induction false} RowsSum(rows: seq<StrategyRow>, trades: seq<Trade>, ticks: Ticks, mode: Mode, names: seq<string>, m: nat)
    requires m <= |names| && RowsOf(rows, trades, ticks, mode, names)
    ensures var sums := TallyKeys(trades, Priced(ticks), InMode(mode), StrategyOf, names, m);
      && SumRows(rows, m).trades == sums.trades
      && SumRows(rows, m).active == sums.open + sums.active
      && SumRows(rows, m).unrealized == sums.unrealized
      && -0.005 * (m as real) <= SumRows(rows, m).realized - sums.realized <= 0.005 * (m as real)
  {
    if m > 0 {
      RowsSum(rows, trades, ticks, mode, names, m - 1);
      var sums := Tally(trades, Priced(ticks), Keyed(InMode(mode), StrategyOf, names[m - 1]), |trades|);
      PricedInCents(ticks);
      UnrealizedTallyIsWhole(trades, Priced(ticks), Keyed(InMode(mode), StrategyOf, names[m - 1]), |trades|);
      WholeRoundsToItself(sums.unrealized);
      RoundedIsWhole(sums.realized);
      assert rows[m - 1] == Rounded(RawRow(names[m - 1], sums));
    }
  }

  /** The rows partition the trades of the mode: their counts and unrealized figures add up to
      the aggregate's exactly, their realized ones to within half a cent a row and half a cent. */
  lemma RowsConserve(rows: seq<StrategyRow>, trades: seq<Trade>, ticks: Ticks, mode: Mode)
    requires RowsOf(rows, trades, ticks, mode, Strategies(trades, InMode(mode), |trades|))
    ensures var sums, whole := SumRows(rows, |rows|), Aggregate(trades, ticks, mode);
      && sums.trades == Tally(trades, Priced(ticks), InMode(mode), |trades|).trades
      && sums.active == whole.open + whole.active
      && sums.unrealized == whole.unrealizedPnl
      && -0.005 * ((|rows| + 1) as real) <= sums.realized - whole.realizedPnl <= 0.005 * ((|rows| + 1) as real)
  {
    var price, f := Priced(ticks), InMode(mode);
    var names := Strategies(trades, f, |trades|);
    StrategiesAre(trades, f, |trades|);
    RowsSum(rows, trades, ticks, mode, names, |names|);
    KeysPartition(trades, price, f, StrategyOf, names, |names|);
    forall t | t in trades ensures f(t) == Among(f, StrategyOf, NameSet(names, |names|))(t) {
      var i :| 0 <= i < |trades| && trades[i] == t;
      if f(t) {
        assert StrategyOf(t) in names;
      }
    }
    TallySame(trades, price, f, Among(f, StrategyOf, NameSet(names, |names|)), |trades|);
    PricedInCents(ticks);
    UnrealizedTallyIsWhole(trades, price, f, |trades|);
    WholeRoundsToItself(Tally(trades, price, f, |trades|).unrealized);
    RoundedIsWhole(Tally(trades, price, f, |trades|).realized);
  }
}
