/** The order trades are listed in (`sortTrades` of `frontend/src/utils/formatters.ts`). An
    absent text field is the empty string, an absent start time is zero. */
module TradeOrder {
  import opened Sorting

  datatype Trade = Trade(
    strategy: string, comboId: string, hedgeCorrelationID: string, pairTradeCorrelationID: string,
    tradingSymbol: string, direction: string, startTimestamp: real)

  /** The combo spans the whole structure, so it comes first. */
  function CorrelationID(t: Trade): string {
    if t.comboId != "" then t.comboId
    else if t.hedgeCorrelationID != "" then t.hedgeCorrelationID
    else t.pairTradeCorrelationID
  }

  function StrategyName(t: Trade): string { t.strategy }

  /** The latest start among the first `n` trades with a key; never below zero. */
  function Latest(trades: seq<Trade>, key: Trade -> string, k: string, n: nat): real
    requires n <= |trades|
  {
    if n == 0 then 0.0
    else
      var before, t := Latest(trades, key, k, n - 1), trades[n - 1];
      if key(t) == k && t.startTimestamp > before then t.startTimestamp else before
  }

  function StrategyTime(trades: seq<Trade>, t: Trade): real {
    Latest(trades, StrategyName, t.strategy, |trades|)
  }

  /** A correlated trade sorts by its group's latest start, any other by its own. */
  function SortTime(trades: seq<Trade>, t: Trade): real {
    if CorrelationID(t) != "" then Latest(trades, CorrelationID, CorrelationID(t), |trades|) else t.startTimestamp
  }

  predicate SameGroup(a: Trade, b: Trade) {
    CorrelationID(a) != "" && CorrelationID(a) == CorrelationID(b)
  }

  /** What the comparator looks at. */
  datatype Key = Key(strategyTime: real, strategy: string, group: string, time: real, direction: string, symbol: string)

  function KeyOf(trades: seq<Trade>, t: Trade): Key {
    Key(StrategyTime(trades, t), t.strategy, CorrelationID(t), SortTime(trades, t), t.direction, t.tradingSymbol)
  }

  function Within(lc: Locale, a: Key, b: Key): real {
    if a.group != "" && a.group == b.group then
      if a.direction != b.direction then lc(a.direction, b.direction) else lc(a.symbol, b.symbol)
    else if a.time != b.time then b.time - a.time
    else lc(a.direction, b.direction)
  }

  function Compare(lc: Locale, a: Key, b: Key): real {
    if a.strategy != b.strategy then
      if a.strategyTime != b.strategyTime then b.strategyTime - a.strategyTime else lc(a.strategy, b.strategy)
    else Within(lc, a, b)
  }

  function Comparator(lc: Locale, trades: seq<Trade>): (Trade, Trade) -> real {
    (a: Trade, b: Trade) => Compare(lc, KeyOf(trades, a), KeyOf(trades, b))
  }

  // -------------------------------------------------------------- consistency

  /** Trades `a` and `b` of a group that their symbols tell apart, and `c` from outside it, all
      alike in strategy, sort time and direction: `a` and `b` differ, but `c` is level with both. */
  ghost predicate Clash(trades: seq<Trade>, a: Trade, b: Trade, c: Trade) {
    && a.strategy == b.strategy == c.strategy
    && SameGroup(a, b) && !SameGroup(a, c)
    && SortTime(trades, a) == SortTime(trades, c)
    && a.direction == b.direction == c.direction
    && a.tradingSymbol != b.tradingSymbol
  }

  ghost predicate ClashFree(trades: seq<Trade>) {
    forall a, b, c :: a in trades && b in trades && c in trades ==> !Clash(trades, a, b, c)
  }

  /** Keys that can come from one list: times belong to strategies and to groups. */
  ghost predicate Coherent(a: Key, b: Key) {
    && (a.strategy == b.strategy ==> a.strategyTime == b.strategyTime)
    && (a.group != "" && a.group == b.group ==> a.time == b.time)
  }

  lemma WithinMirrors(lc: Locale, a: Key, b: Key)
    requires IsLocale(lc)
    ensures Compare(lc, a, b) <= 0.0 <==> Compare(lc, b, a) >= 0.0
  {
    assert lc(a.direction, b.direction) <= 0.0 <==> lc(b.direction, a.direction) >= 0.0;
    assert lc(a.symbol, b.symbol) <= 0.0 <==> lc(b.symbol, a.symbol) >= 0.0;
    assert lc(a.strategy, b.strategy) <= 0.0 <==> lc(b.strategy, a.strategy) >= 0.0;
  }

  lemma LocaleTransitive(lc: Locale, a: string, b: string, c: string)
    requires IsLocale(lc) && lc(a, b) <= 0.0 && lc(b, c) <= 0.0
    ensures lc(a, c) <= 0.0
    ensures a == c ==> b == a
  {
    if a == c {
      assert lc(b, a) >= 0.0 && lc(b, a) <= 0.0;
    }
  }

  /** Inside one strategy the comparator goes round in no circle, unless the outer two are of a
      group and the middle one clashes with them. */
  lemma WithinTransitive(lc: Locale, x: Key, y: Key, z: Key)
    requires IsLocale(lc) && Coherent(x, y) && Coherent(y, z) && Coherent(x, z)
    requires Within(lc, x, y) <= 0.0 && Within(lc, y, z) <= 0.0
    requires x.group != "" && x.group == z.group != y.group && x.time == y.time && x.direction == y.direction == z.direction
      ==> x.symbol == z.symbol
    ensures Within(lc, x, z) <= 0.0
  {
    var xy, yz, xz := x.group != "" && x.group == y.group, y.group != "" && y.group == z.group,
      x.group != "" && x.group == z.group;
    assert x.symbol == z.symbol ==> lc(x.symbol, z.symbol) == 0.0;
    assert x.direction == y.direction ==> lc(x.direction, y.direction) == 0.0;
    assert y.direction == z.direction ==> lc(y.direction, z.direction) == 0.0;
    if xy && yz {
      LocaleTransitive(lc, x.direction, y.direction, z.direction);
      if x.direction == z.direction {
        LocaleTransitive(lc, x.symbol, y.symbol, z.symbol);
      }
    } else if xz {
      LocaleTransitive(lc, x.direction, y.direction, z.direction);
    } else if x.time == y.time && y.time == z.time {
      LocaleTransitive(lc, x.direction, y.direction, z.direction);
    }
  }

  lemma CompareTransitive(lc: Locale, x: Key, y: Key, z: Key)
    requires IsLocale(lc) && Coherent(x, y) && Coherent(y, z) && Coherent(x, z)
    requires Compare(lc, x, y) <= 0.0 && Compare(lc, y, z) <= 0.0
    requires x.strategy == y.strategy == z.strategy ==>
      x.group != "" && x.group == z.group != y.group && x.time == y.time && x.direction == y.direction == z.direction
      ==> x.symbol == z.symbol
    ensures Compare(lc, x, z) <= 0.0
  {
    if x.strategy == y.strategy && y.strategy == z.strategy {
      WithinTransitive(lc, x, y, z);
    } else if x.strategyTime == y.strategyTime && y.strategyTime == z.strategyTime {
      assert x.strategy == y.strategy ==> lc(x.strategy, y.strategy) == 0.0;
      assert y.strategy == z.strategy ==> lc(y.strategy, z.strategy) == 0.0;
      LocaleTransitive(lc, x.strategy, y.strategy, z.strategy);
    }
  }

  /** The comparator orders a list consistently exactly when no three of its trades clash. */
  lemma ConsistentExactly(lc: Locale, trades: seq<Trade>)
    requires IsLocale(lc)
    ensures ConsistentOn(Comparator(lc, trades), trades) <==> ClashFree(trades)
  {
    var cmp := Comparator(lc, trades);
    forall a, b ensures cmp(a, b) <= 0.0 <==> cmp(b, a) >= 0.0 {
      WithinMirrors(lc, KeyOf(trades, a), KeyOf(trades, b));
    }
    if ClashFree(trades) {
      forall x, y, z | x in trades && y in trades && z in trades && cmp(x, y) <= 0.0 && cmp(y, z) <= 0.0
        ensures cmp(x, z) <= 0.0
      {
        assert !Clash(trades, x, z, y);
        CompareTransitive(lc, KeyOf(trades, x), KeyOf(trades, y), KeyOf(trades, z));
      }
    } else {
      var a, b, c :| a in trades && b in trades && c in trades && Clash(trades, a, b, c);
      ClashGoesRound(lc, trades, a, b, c);
    }
  }

  lemma ClashGoesRound(lc: Locale, trades: seq<Trade>, a: Trade, b: Trade, c: Trade)
    requires IsLocale(lc) && a in trades && b in trades && c in trades && Clash(trades, a, b, c)
    ensures !ConsistentOn(Comparator(lc, trades), trades)
  {
    var cmp := Comparator(lc, trades);
    assert lc(c.direction, a.direction) == 0.0 && lc(a.direction, c.direction) == 0.0;
    assert lc(c.direction, b.direction) == 0.0 && lc(b.direction, c.direction) == 0.0;
    assert cmp(a, c) == 0.0 && cmp(c, b) == 0.0 && cmp(b, c) == 0.0 && cmp(c, a) == 0.0;
    assert cmp(a, b) == lc(a.tradingSymbol, b.tradingSymbol) && cmp(b, a) == lc(b.tradingSymbol, a.tradingSymbol);
    assert lc(a.tradingSymbol, b.tradingSymbol) != 0.0;
  }

  /** Two legs of a combo and a trade beside it, started together and all long. */
  lemma ThreeTradesClash(lc: Locale, strategy: string, start: real)
    requires IsLocale(lc)
    ensures var a := Trade(strategy, "combo", "", "", "NIFTY", "LONG", start);
      var b, c := a.(tradingSymbol := "SENSEX"), a.(comboId := "", tradingSymbol := "GOLD");
      start >= 0.0 ==> Clash([a, b, c], a, b, c) && !ConsistentOn(Comparator(lc, [a, b, c]), [a, b, c])
  {
    if start >= 0.0 {
      var a := Trade(strategy, "combo", "", "", "NIFTY", "LONG", start);
      var b, c := a.(tradingSymbol := "SENSEX"), a.(comboId := "", tradingSymbol := "GOLD");
      var trades := [a, b, c];
      LatestIsGreatest(trades, CorrelationID, "combo", 3);
      assert CorrelationID(trades[0]) == "combo" && CorrelationID(trades[2]) == "";
      assert "NIFTY"[0] != "SENSEX"[0];
      assert Clash(trades, a, b, c);
      ClashGoesRound(lc, trades, a, b, c);
    }
  }

  // -------------------------------------------------------------- arrangement

  /** Within a strategy, a correlated trade and one from outside its group never share a sort time. */
  ghost predicate NoTies(trades: seq<Trade>) {
    forall a, b :: a in trades && b in trades && a.strategy == b.strategy && CorrelationID(a) != "" && !SameGroup(a, b)
      ==> SortTime(trades, a) != SortTime(trades, b)
  }

  lemma NoTiesClashFree(trades: seq<Trade>)
    requires NoTies(trades)
    ensures ClashFree(trades)
  {
    forall a, b, c | a in trades && b in trades && c in trades ensures !Clash(trades, a, b, c) {
      assert a.strategy == c.strategy && CorrelationID(a) != "" && !SameGroup(a, c)
        ==> SortTime(trades, a) != SortTime(trades, c);
    }
  }

  /** In any sorted arrangement the strategies come in descending latest time, each in one piece. */
  lemma StrategiesInOrder(lc: Locale, trades: seq<Trade>, out: seq<Trade>, i: nat, k: nat, j: nat)
    requires IsLocale(lc) && Sorted(Comparator(lc, trades), out)
    requires i < k < j < |out|
    ensures StrategyTime(trades, out[i]) >= StrategyTime(trades, out[k])
    ensures out[i].strategy == out[j].strategy ==> out[k].strategy == out[i].strategy
  {
    var cmp := Comparator(lc, trades);
    assert cmp(out[i], out[k]) <= 0.0 && cmp(out[k], out[j]) <= 0.0;
    StrategiesAhead(lc, KeyOf(trades, out[i]), KeyOf(trades, out[k]));
    StrategiesAhead(lc, KeyOf(trades, out[k]), KeyOf(trades, out[j]));
    if out[i].strategy == out[j].strategy {
      LocaleTransitive(lc, out[i].strategy, out[k].strategy, out[j].strategy);
    }
  }

  /** What stands ahead is of a strategy with a later time, or with the same and a name ahead. */
  lemma StrategiesAhead(lc: Locale, a: Key, b: Key)
    requires IsLocale(lc) && Coherent(a, b) && Compare(lc, a, b) <= 0.0
    ensures a.strategyTime >= b.strategyTime
    ensures a.strategyTime == b.strategyTime ==> lc(a.strategy, b.strategy) <= 0.0
  {
    assert lc(a.strategy, a.strategy) == 0.0;
  }

  /** Between two trades of a group stands an outsider only if it shares their sort time and its
      direction lies between theirs. */
  lemma OnlyTiesSplitGroups(lc: Locale, trades: seq<Trade>, out: seq<Trade>, i: nat, k: nat, j: nat)
    requires IsLocale(lc) && Sorted(Comparator(lc, trades), out)
    requires i < k < j < |out| && out[i].strategy == out[j].strategy && SameGroup(out[i], out[j])
    ensures out[k].strategy == out[i].strategy
    ensures !SameGroup(out[i], out[k]) ==>
      && SortTime(trades, out[k]) == SortTime(trades, out[i])
      && lc(out[i].direction, out[k].direction) <= 0.0 && lc(out[k].direction, out[j].direction) <= 0.0
  {
    var cmp := Comparator(lc, trades);
    StrategiesInOrder(lc, trades, out, i, k, j);
    assert cmp(out[i], out[k]) <= 0.0 && cmp(out[k], out[j]) <= 0.0;
  }

  /** Within a strategy, outside a group, later sort times come first, and at one sort time the
      directions stand in order. */
  lemma TimesDescend(lc: Locale, trades: seq<Trade>, out: seq<Trade>, i: nat, j: nat)
    requires IsLocale(lc) && Sorted(Comparator(lc, trades), out)
    requires i < j < |out| && out[i].strategy == out[j].strategy && !SameGroup(out[i], out[j])
    ensures SortTime(trades, out[i]) >= SortTime(trades, out[j])
    ensures SortTime(trades, out[i]) == SortTime(trades, out[j]) ==> lc(out[i].direction, out[j].direction) <= 0.0
  {
    assert Comparator(lc, trades)(out[i], out[j]) <= 0.0;
  }

  /** Legs of a group that go the same way stand in the order of their symbols. */
  lemma LegsBySymbol(lc: Locale, trades: seq<Trade>, out: seq<Trade>, i: nat, j: nat)
    requires IsLocale(lc) && Sorted(Comparator(lc, trades), out)
    requires i < j < |out| && out[i].strategy == out[j].strategy && SameGroup(out[i], out[j])
    ensures lc(out[i].direction, out[j].direction) <= 0.0
    ensures out[i].direction == out[j].direction ==> lc(out[i].tradingSymbol, out[j].tradingSymbol) <= 0.0
  {
    assert Comparator(lc, trades)(out[i], out[j]) <= 0.0;
    assert lc(out[i].direction, out[i].direction) == 0.0;
  }

  /** Strategies that started last at the same time stand in the order of their names. */
  lemma StrategiesByName(lc: Locale, trades: seq<Trade>, out: seq<Trade>, i: nat, j: nat)
    requires IsLocale(lc) && Sorted(Comparator(lc, trades), out)
    requires i < j < |out| && StrategyTime(trades, out[i]) == StrategyTime(trades, out[j])
    ensures lc(out[i].strategy, out[j].strategy) <= 0.0
  {
    assert Comparator(lc, trades)(out[i], out[j]) <= 0.0;
    StrategiesAhead(lc, KeyOf(trades, out[i]), KeyOf(trades, out[j]));
  }

  /** A combo binds whatever else its legs carry; without one the hedge does, then the pair; and a
      trade with none of them stands for itself, at its own start. */
  lemma WhatBinds(a: Trade, b: Trade, trades: seq<Trade>)
    ensures a.comboId != "" ==> CorrelationID(a) == a.comboId
    ensures a.comboId == "" && a.hedgeCorrelationID != "" ==> CorrelationID(a) == a.hedgeCorrelationID
    ensures a.comboId == a.hedgeCorrelationID == "" ==> CorrelationID(a) == a.pairTradeCorrelationID
    ensures a.comboId != "" && b.comboId != "" ==> (SameGroup(a, b) <==> a.comboId == b.comboId)
    ensures a.comboId == a.hedgeCorrelationID == a.pairTradeCorrelationID == "" ==>
      !SameGroup(a, b) && SortTime(trades, a) == a.startTimestamp
  {
  }

  /** And such an outsider does split a group: it may stay between the two. */
  lemma TieSplitsGroupExactly(lc: Locale, a: Trade, c: Trade, b: Trade)
    requires IsLocale(lc) && SameGroup(a, b) && !SameGroup(a, c) && a.strategy == b.strategy == c.strategy
    requires lc(a.direction, b.direction) < 0.0
    ensures var trades := [a, c, b];
      Sorted(Comparator(lc, trades), trades) <==>
        && SortTime(trades, a) == SortTime(trades, c)
        && lc(a.direction, c.direction) <= 0.0 && lc(c.direction, b.direction) <= 0.0
  {
    var trades := [a, c, b];
    var cmp, outer, inner := Comparator(lc, trades), SortTime(trades, a), SortTime(trades, c);
    SortedThree(cmp, a, c, b);
    assert SortTime(trades, b) == outer;
    assert cmp(a, b) == lc(a.direction, b.direction);
    assert cmp(a, c) == if outer != inner then inner - outer else lc(a.direction, c.direction);
    assert cmp(c, b) == if inner != outer then outer - inner else lc(c.direction, b.direction);
  }

  lemma SortedThree(cmp: (Trade, Trade) -> real, a: Trade, b: Trade, c: Trade)
    ensures Sorted(cmp, [a, b, c]) <==> cmp(a, b) <= 0.0 && cmp(b, c) <= 0.0 && cmp(a, c) <= 0.0
  {
    var s := [a, b, c];
    assert s[0] == a && s[1] == b && s[2] == c;
    if Sorted(cmp, s) {
      assert cmp(s[0], s[1]) <= 0.0 && cmp(s[1], s[2]) <= 0.0 && cmp(s[0], s[2]) <= 0.0;
    }
  }

  /** Without ties, every correlation group stands in one piece inside its strategy. */
  lemma GroupsInOnePiece(lc: Locale, trades: seq<Trade>, out: seq<Trade>, i: nat, k: nat, j: nat)
    requires IsLocale(lc) && NoTies(trades) && Permutes(out, trades) && Sorted(Comparator(lc, trades), out)
    requires i < k < j < |out| && out[i].strategy == out[j].strategy && SameGroup(out[i], out[j])
    ensures out[k].strategy == out[i].strategy && SameGroup(out[i], out[k])
  {
    SameElements(out, trades);
    assert out[i] in out && out[k] in out && out[i] in trades && out[k] in trades;
    OnlyTiesSplitGroups(lc, trades, out, i, k, j);
  }

  /** In a group, LONG comes before SHORT. */
  lemma LongBeforeShort(lc: Locale, trades: seq<Trade>, out: seq<Trade>, i: nat, j: nat)
    requires IsLocale(lc) && Sorted(Comparator(lc, trades), out) && lc("LONG", "SHORT") < 0.0
    requires i < j < |out| && out[i].strategy == out[j].strategy && SameGroup(out[i], out[j])
    ensures !(out[i].direction == "SHORT" && out[j].direction == "LONG")
  {
    assert Comparator(lc, trades)(out[i], out[j]) <= 0.0;
    assert lc("SHORT", "LONG") <= 0.0 <==> lc("LONG", "SHORT") >= 0.0;
  }

  // --------------------------------------------------------------------- sort

  function TimeOf(times: map<string, real>, k: string): real {
    if k in times then times[k] else 0.0
  }

  /** One pass that notes the latest start of each key. */
  method LatestTimes(trades: seq<Trade>, key: Trade -> string, skipEmpty: bool) returns (times: map<string, real>)
    ensures forall k :: !(skipEmpty && k == "") ==> TimeOf(times, k) == Latest(trades, key, k, |trades|)
  {
    times := map[];
    for n := 0 to |trades|
      invariant forall k :: !(skipEmpty && k == "") ==> TimeOf(times, k) == Latest(trades, key, k, n)
    {
      var k := key(trades[n]);
      if !(skipEmpty && k == "") && trades[n].startTimestamp > TimeOf(times, k) {
        times := times[k := trades[n].startTimestamp];
      }
    }
  }

  /** `latest` is the greatest start among the trades of a key, or zero when none is above it. */
  lemma {:induction false} LatestIsGreatest(trades: seq<Trade>, key: Trade -> string, k: string, n: nat)
    requires n <= |trades|
    ensures var latest := Latest(trades, key, k, n);
      && latest >= 0.0
      && (forall i :: 0 <= i < n && key(trades[i]) == k ==> trades[i].startTimestamp <= latest)
      && (latest == 0.0 || exists i :: 0 <= i < n && key(trades[i]) == k && trades[i].startTimestamp == latest)
  {
    if n > 0 {
      LatestIsGreatest(trades, key, k, n - 1);
    }
  }

  /** A permutation always; sorted, with level trades in their old order, when no trades clash. */
  method SortTrades(lc: Locale, trades: seq<Trade>) returns (out: seq<Trade>)
    requires IsLocale(lc)
    ensures Permutes(out, trades)
    ensures ClashFree(trades) ==> Sorted(Comparator(lc, trades), out) && KeepsTies(Comparator(lc, trades), trades, out)
  {
    if trades == [] {
      return trades;
    }
    var strategyTimes := LatestTimes(trades, StrategyName, false);
    var groupTimes := LatestTimes(trades, CorrelationID, true);
    var key := (t: Trade) =>
      Key(TimeOf(strategyTimes, t.strategy), t.strategy, CorrelationID(t),
          if CorrelationID(t) != "" then TimeOf(groupTimes, CorrelationID(t)) else t.startTimestamp,
          t.direction, t.tradingSymbol);
    out := SortBy((a: Trade, b: Trade) => Compare(lc, key(a), key(b)), trades);
    forall t ensures key(t) == KeyOf(trades, t) {}
    SortSame((a: Trade, b: Trade) => Compare(lc, key(a), key(b)), Comparator(lc, trades), trades);
    SortPermutes(Comparator(lc, trades), trades);
    if ClashFree(trades) {
      ConsistentExactly(lc, trades);
      SortSorts(Comparator(lc, trades), trades);
      SortKeepsTies(Comparator(lc, trades), trades);
    }
  }
}
