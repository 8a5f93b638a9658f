/** Algo positions against broker positions (`frontend/src/utils/positionCompare.ts`). */
module PositionCompare {
  import opened Wrappers
  import opened LiveTypes
  import opened Rounding
  import opened Sorting

  const PNL_MISMATCH_THRESHOLD_PERCENT := 10.0

  datatype Mismatch = Mismatch(
    tradingSymbol: string, productType: string, existsInAlgo: bool, existsInBroker: bool,
    algoQty: real, brokerQty: real, worthlessQty: real, adjustedBrokerQty: real, qtyDifference: real,
    hasQtyMismatch: bool, hasSymbolMismatch: bool, algoAvgPrice: real, brokerAvgPrice: real,
    algoPnl: real, brokerPnl: real, pnlDifference: real, hasPnlMismatch: bool)
  {
    predicate Flagged() { hasQtyMismatch || hasSymbolMismatch }

    function Key(): string { tradingSymbol + [SEPARATOR] + productType }
  }

  // --------------------------------------------------------------- kept rows

  /** The last live row of each key among the first `n`. */
  function Kept(positions: seq<Position>, n: nat): map<string, Position>
    requires n <= |positions|
  {
    if n == 0 then map[]
    else
      var before, pos := Kept(positions, n - 1), positions[n - 1];
      if pos.isPaperTrading then before else before[SymbolKey(pos) := pos]
  }

  /** Their keys, in the order they first appear. */
  function KeyOrder(positions: seq<Position>, n: nat): seq<string>
    requires n <= |positions|
  {
    if n == 0 then []
    else
      var before, pos := KeyOrder(positions, n - 1), positions[n - 1];
      if pos.isPaperTrading || SymbolKey(pos) in before then before else before + [SymbolKey(pos)]
  }

  /** Keys of the algo rows, then those only the broker has. */
  function Union(first: seq<string>, second: seq<string>, n: nat): seq<string>
    requires n <= |second|
  {
    if n == 0 then first
    else
      var before := Union(first, second, n - 1);
      if second[n - 1] in before then before else before + [second[n - 1]]
  }

  ghost predicate Distinct(keys: seq<string>) {
    forall i, j :: 0 <= i < j < |keys| ==> keys[i] != keys[j]
  }

  lemma {:induction false} KeptInOrder(positions: seq<Position>, n: nat)
    requires n <= |positions|
    ensures Distinct(KeyOrder(positions, n))
    ensures forall k :: k in KeyOrder(positions, n) <==> k in Kept(positions, n)
  {
    if n > 0 {
      KeptInOrder(positions, n - 1);
    }
  }

  lemma {:induction false} KeptFrom(positions: seq<Position>, n: nat, k: string)
    requires n <= |positions|
    ensures k in Kept(positions, n) ==> SymbolKey(Kept(positions, n)[k]) == k
    ensures k in Kept(positions, n) <==>
      exists i :: 0 <= i < n && !positions[i].isPaperTrading && SymbolKey(positions[i]) == k
  {
    if n > 0 {
      KeptFrom(positions, n - 1, k);
    }
  }

  lemma KeptByKey(positions: seq<Position>, n: nat)
    requires n <= |positions|
    ensures Distinct(KeyOrder(positions, n))
    ensures forall k :: k in KeyOrder(positions, n) <==> k in Kept(positions, n)
    ensures forall k :: k in Kept(positions, n) ==> SymbolKey(Kept(positions, n)[k]) == k
    ensures forall k :: k in Kept(positions, n) <==>
      exists i :: 0 <= i < n && !positions[i].isPaperTrading && SymbolKey(positions[i]) == k
  {
    KeptInOrder(positions, n);
    forall k { KeptFrom(positions, n, k); }
  }

  lemma {:induction false} UnionHas(first: seq<string>, second: seq<string>, n: nat)
    requires n <= |second| && Distinct(first)
    ensures Distinct(Union(first, second, n))
    ensures forall k :: k in Union(first, second, n) <==> k in first || exists i :: 0 <= i < n && second[i] == k
  {
    if n > 0 {
      UnionHas(first, second, n - 1);
    }
  }

  // --------------------------------------------------------------------- rows

  function Abs(x: real): real { if x < 0.0 then -x else x }

  function PnlDiffPercent(algoPnl: real, brokerPnl: real): real {
    if algoPnl != 0.0 then Abs(Round2(brokerPnl - algoPnl) / Abs(algoPnl)) * 100.0
    else if brokerPnl != 0.0 then 100.0
    else 0.0
  }

  function At(m: map<string, Position>, k: string): Option<Position> {
    if k in m then Some(m[k]) else None
  }

  function Net(pos: Option<Position>): real { if pos.Some? then pos.value.netQty else 0.0 }

  function Worthless(pos: Option<Position>): real { if pos.Some? then pos.value.worthlessQty.GetOr(0.0) else 0.0 }

  function Pnl(pos: Option<Position>): real { if pos.Some? then pos.value.totalPnl.GetOr(0.0) else 0.0 }

  function Avg(pos: Option<Position>): real { if pos.Some? then pos.value.netAvgPrice else 0.0 }

  function RowFor(algo: Option<Position>, broker: Option<Position>): Mismatch
    requires algo.Some? || broker.Some?
  {
    var one := if algo.Some? then algo.value else broker.value;
    var worthless := Worthless(algo);
    var difference := Net(broker) - Net(algo) - worthless;
    var explained := worthless != 0.0 && difference == 0.0;
    Mismatch(one.tradingSymbol, one.productType, algo.Some?, broker.Some?, Net(algo), Net(broker), worthless,
      Net(broker) - worthless, difference, difference != 0.0,
      !explained && algo.Some? != broker.Some?, Avg(algo), Avg(broker), Pnl(algo), Pnl(broker),
      Round2(Pnl(broker) - Pnl(algo)),
      !explained && PnlDiffPercent(Pnl(algo), Pnl(broker)) > PNL_MISMATCH_THRESHOLD_PERCENT)
  }

  /** A row is quiet about quantity exactly when the broker holds what algo and worthless legs
      together explain; when worthless legs are part of that, it is quiet about everything. */
  lemma ExplainedRaisesNothing(algo: Option<Position>, broker: Option<Position>)
    requires algo.Some? || broker.Some?
    ensures var row := RowFor(algo, broker);
      && (row.hasQtyMismatch <==> Net(broker) != Net(algo) + Worthless(algo))
      && (Worthless(algo) != 0.0 && Net(broker) == Net(algo) + Worthless(algo) ==>
            !row.Flagged() && !row.hasPnlMismatch)
      && row.qtyDifference == row.adjustedBrokerQty - row.algoQty
  {
  }

  /** A row on one side only goes unflagged exactly when worthless legs explain it. */
  lemma OneSidedUnflaggedExactly(algo: Option<Position>, broker: Option<Position>)
    requires algo.Some? != broker.Some?
    ensures !RowFor(algo, broker).Flagged() <==>
      algo.Some? && Worthless(algo) != 0.0 && algo.value.netQty + Worthless(algo) == 0.0
  {
  }

  /** An unexplained row is flagged on profit exactly when the difference, in whole cents, passes
      a tenth of what algo made, or algo made nothing and the broker something. */
  lemma PnlFlaggedExactly(algo: Option<Position>, broker: Option<Position>)
    requires algo.Some? || broker.Some?
    requires Worthless(algo) == 0.0 || Net(broker) != Net(algo) + Worthless(algo)
    ensures RowFor(algo, broker).hasPnlMismatch <==>
      if Pnl(algo) != 0.0 then 10.0 * Abs(Round2(Pnl(broker) - Pnl(algo))) > Abs(Pnl(algo))
      else Pnl(broker) != 0.0
  {
    if Pnl(algo) != 0.0 {
      PercentOf(Round2(Pnl(broker) - Pnl(algo)), Abs(Pnl(algo)));
    }
  }

  lemma PercentOf(difference: real, base: real)
    requires base > 0.0
    ensures Abs(difference / base) * 100.0 > 10.0 <==> 10.0 * Abs(difference) > base
  {
    var ratio := difference / base;
    assert ratio * base == difference;
    ScaledAbs(ratio, base);
    var size := Abs(ratio);
    TenthOf(size, base, Abs(difference));
  }

  lemma ScaledAbs(ratio: real, base: real)
    requires base > 0.0
    ensures Abs(ratio * base) == Abs(ratio) * base
  {
    if ratio < 0.0 {
      SignOfProduct(ratio, base);
    } else if ratio > 0.0 {
      SignOfProduct(ratio, base);
    }
  }

  lemma TenthOf(size: real, base: real, scaled: real)
    requires base > 0.0 && size * base == scaled
    ensures size * 100.0 > 10.0 <==> 10.0 * scaled > base
  {
    var excess := 10.0 * size - 1.0;
    assert excess * base == 10.0 * scaled - base;
    SignOfProduct(excess, base);
  }

  lemma SignOfProduct(x: real, y: real)
    requires y > 0.0
    ensures x * y > 0.0 <==> x > 0.0
    ensures x * y < 0.0 <==> x < 0.0
  {
  }

  ghost predicate Bound(keys: seq<string>, algo: map<string, Position>, broker: map<string, Position>) {
    forall i :: 0 <= i < |keys| ==> keys[i] in algo || keys[i] in broker
  }

  /** The rows of the first `n` keys. */
  function Rows(keys: seq<string>, algo: map<string, Position>, broker: map<string, Position>, n: nat): seq<Mismatch>
    requires n <= |keys| && Bound(keys, algo, broker)
  {
    if n == 0 then [] else Rows(keys, algo, broker, n - 1) + [RowFor(At(algo, keys[n - 1]), At(broker, keys[n - 1]))]
  }

  /** Flagged rows ahead of the others, each lot by symbol. */
  function Order(lc: Locale): (Mismatch, Mismatch) -> real {
    (a: Mismatch, b: Mismatch) =>
      if a.Flagged() != b.Flagged() then (if a.Flagged() then -1.0 else 1.0)
      else lc(a.tradingSymbol, b.tradingSymbol)
  }

  lemma OrderConsistent(lc: Locale, rows: seq<Mismatch>)
    requires IsLocale(lc)
    ensures ConsistentOn(Order(lc), rows)
  {
    var cmp := Order(lc);
    forall x, y ensures cmp(x, y) <= 0.0 <==> cmp(y, x) >= 0.0 {
      assert lc(x.tradingSymbol, y.tradingSymbol) <= 0.0 <==> lc(y.tradingSymbol, x.tradingSymbol) >= 0.0;
    }
    forall x, y, z | cmp(x, y) <= 0.0 && cmp(y, z) <= 0.0 ensures cmp(x, z) <= 0.0 {
      assert lc(x.tradingSymbol, y.tradingSymbol) <= 0.0 && lc(y.tradingSymbol, z.tradingSymbol) <= 0.0
        ==> lc(x.tradingSymbol, z.tradingSymbol) <= 0.0;
    }
  }

  // ---------------------------------------------------------------- comparison

  function AllKeys(algo: seq<Position>, broker: seq<Position>): seq<string> {
    Union(KeyOrder(algo, |algo|), KeyOrder(broker, |broker|), |KeyOrder(broker, |broker|)|)
  }

  /** Each key of a live row on either side, once, and no other. */
  lemma AllKeysOnce(algo: seq<Position>, broker: seq<Position>)
    ensures Distinct(AllKeys(algo, broker))
    ensures forall k :: k in AllKeys(algo, broker) <==> k in Kept(algo, |algo|) || k in Kept(broker, |broker|)
    ensures Bound(AllKeys(algo, broker), Kept(algo, |algo|), Kept(broker, |broker|))
  {
    KeptByKey(algo, |algo|);
    KeptByKey(broker, |broker|);
    UnionHas(KeyOrder(algo, |algo|), KeyOrder(broker, |broker|), |KeyOrder(broker, |broker|)|);
    var keys := AllKeys(algo, broker);
    forall i | 0 <= i < |keys| ensures keys[i] in Kept(algo, |algo|) || keys[i] in Kept(broker, |broker|) {
      assert keys[i] in keys;
    }
  }

  function Unsorted(algo: seq<Position>, broker: seq<Position>): seq<Mismatch> {
    AllKeysOnce(algo, broker);
    Rows(AllKeys(algo, broker), Kept(algo, |algo|), Kept(broker, |broker|), |AllKeys(algo, broker)|)
  }

  method KeepLive(positions: seq<Position>) returns (byKey: map<string, Position>, order: seq<string>)
    ensures byKey == Kept(positions, |positions|) && order == KeyOrder(positions, |positions|)
  {
    byKey, order := map[], [];
    for n := 0 to |positions|
      invariant byKey == Kept(positions, n) && order == KeyOrder(positions, n)
    {
      if !positions[n].isPaperTrading {
        var key := SymbolKey(positions[n]);
        if key !in order {
          order := order + [key];
        }
        byKey := byKey[key := positions[n]];
      }
    }
  }

  method ComputeMismatches(lc: Locale, algo: seq<Position>, broker: seq<Position>) returns (result: seq<Mismatch>)
    requires IsLocale(lc)
    ensures Permutes(result, Unsorted(algo, broker)) && Sorted(Order(lc), result)
    ensures KeepsTies(Order(lc), Unsorted(algo, broker), result)
  {
    AllKeysOnce(algo, broker);
    var algoByKey, keys := KeepLive(algo);
    var brokerByKey, brokerKeys := KeepLive(broker);
    ghost var algoKeys := keys;
    for n := 0 to |brokerKeys|
      invariant keys == Union(algoKeys, brokerKeys, n)
    {
      if brokerKeys[n] !in keys {
        keys := keys + [brokerKeys[n]];
      }
    }
    result := [];
    for n := 0 to |keys|
      invariant result == Rows(keys, algoByKey, brokerByKey, n)
    {
      result := result + [RowFor(At(algoByKey, keys[n]), At(brokerByKey, keys[n]))];
    }
    OrderConsistent(lc, result);
    SortSorts(Order(lc), result);
    SortPermutes(Order(lc), result);
    SortKeepsTies(Order(lc), result);
    result := SortBy(Order(lc), result);
  }

  // ------------------------------------------------------ what a result guarantees

  lemma {:induction false} RowsAt(keys: seq<string>, algo: map<string, Position>, broker: map<string, Position>, n: nat)
    requires n <= |keys| && Bound(keys, algo, broker)
    ensures |Rows(keys, algo, broker, n)| == n
    ensures forall i :: 0 <= i < n ==> Rows(keys, algo, broker, n)[i] == RowFor(At(algo, keys[i]), At(broker, keys[i]))
  {
    if n > 0 {
      RowsAt(keys, algo, broker, n - 1);
    }
  }

  /** Rows before sorting, by their keys. */
  lemma UnsortedByKey(algo: seq<Position>, broker: seq<Position>)
    ensures |Unsorted(algo, broker)| == |AllKeys(algo, broker)|
    ensures forall i :: 0 <= i < |Unsorted(algo, broker)| ==> Unsorted(algo, broker)[i].Key() == AllKeys(algo, broker)[i]
  {
    AllKeysOnce(algo, broker);
    KeptByKey(algo, |algo|);
    KeptByKey(broker, |broker|);
    var keys := AllKeys(algo, broker);
    RowsAt(keys, Kept(algo, |algo|), Kept(broker, |broker|), |keys|);
    forall i | 0 <= i < |keys| ensures Unsorted(algo, broker)[i].Key() == keys[i] {
      assert keys[i] in Kept(algo, |algo|) || keys[i] in Kept(broker, |broker|);
    }
  }

  ghost predicate LiveKey(positions: seq<Position>, k: string) {
    exists i :: 0 <= i < |positions| && !positions[i].isPaperTrading && SymbolKey(positions[i]) == k
  }

  lemma AllKeysLive(algo: seq<Position>, broker: seq<Position>, k: string)
    ensures k in AllKeys(algo, broker) <==> LiveKey(algo, k) || LiveKey(broker, k)
  {
    AllKeysOnce(algo, broker);
    KeptByKey(algo, |algo|);
    KeptByKey(broker, |broker|);
    assert k in Kept(algo, |algo|) <==> LiveKey(algo, k);
    assert k in Kept(broker, |broker|) <==> LiveKey(broker, k);
  }

  ghost predicate HasKey(rows: seq<Mismatch>, k: string) {
    exists i :: 0 <= i < |rows| && rows[i].Key() == k
  }

  lemma HasKeyPermutes(a: seq<Mismatch>, b: seq<Mismatch>, k: string)
    requires Permutes(a, b) && HasKey(a, k)
    ensures HasKey(b, k)
  {
    SameElements(a, b);
    var i :| 0 <= i < |a| && a[i].Key() == k;
    assert a[i] in b;
  }

  /** Each key of the live inputs appears in the result exactly once, and nothing else does. */
  lemma EachKeyOnce(algo: seq<Position>, broker: seq<Position>, result: seq<Mismatch>)
    requires Permutes(result, Unsorted(algo, broker))
    ensures forall k :: HasKey(result, k) <==> LiveKey(algo, k) || LiveKey(broker, k)
    ensures forall i, j :: 0 <= i < j < |result| ==> result[i].Key() != result[j].Key()
  {
    forall k ensures HasKey(result, k) <==> LiveKey(algo, k) || LiveKey(broker, k) {
      KeyInResult(algo, broker, result, k);
    }
    forall i, j | 0 <= i < j < |result| ensures result[i].Key() != result[j].Key() {
      KeysDiffer(algo, broker, result, i, j);
    }
  }

  lemma KeyInResult(algo: seq<Position>, broker: seq<Position>, result: seq<Mismatch>, k: string)
    requires Permutes(result, Unsorted(algo, broker))
    ensures HasKey(result, k) <==> LiveKey(algo, k) || LiveKey(broker, k)
  {
    var rows, keys := Unsorted(algo, broker), AllKeys(algo, broker);
    UnsortedByKey(algo, broker);
    AllKeysLive(algo, broker, k);
    if HasKey(result, k) {
      HasKeyPermutes(result, rows, k);
      var i :| 0 <= i < |rows| && rows[i].Key() == k;
      assert keys[i] == k;
    }
    if k in keys {
      var i :| 0 <= i < |keys| && keys[i] == k;
      assert rows[i].Key() == k;
      HasKeyPermutes(rows, result, k);
    }
  }

  lemma KeysDiffer(algo: seq<Position>, broker: seq<Position>, result: seq<Mismatch>, i: nat, j: nat)
    requires Permutes(result, Unsorted(algo, broker)) && i < j < |result|
    ensures result[i].Key() != result[j].Key()
  {
    var rows := Unsorted(algo, broker);
    SameElements(result, rows);
    if result[i].Key() == result[j].Key() {
      assert result[i] in rows && result[j] in rows;
      SameKeySameRow(algo, broker, result[i], result[j]);
      TwiceInMultiset(result, i, j);
      RowsDiffer(algo, broker);
      OnceInMultiset(rows, result[i]);
    }
  }

  lemma RowsDiffer(algo: seq<Position>, broker: seq<Position>)
    ensures forall i, j :: 0 <= i < j < |Unsorted(algo, broker)| ==> Unsorted(algo, broker)[i] != Unsorted(algo, broker)[j]
  {
    UnsortedByKey(algo, broker);
    AllKeysOnce(algo, broker);
    var rows, keys := Unsorted(algo, broker), AllKeys(algo, broker);
    forall i, j | 0 <= i < j < |rows| ensures rows[i] != rows[j] {
      assert rows[i].Key() == keys[i] && rows[j].Key() == keys[j];
    }
  }

  lemma SameKeySameRow(algo: seq<Position>, broker: seq<Position>, a: Mismatch, b: Mismatch)
    requires a in Unsorted(algo, broker) && b in Unsorted(algo, broker) && a.Key() == b.Key()
    ensures a == b
  {
    var rows, keys := Unsorted(algo, broker), AllKeys(algo, broker);
    UnsortedByKey(algo, broker);
    AllKeysOnce(algo, broker);
    var i :| 0 <= i < |rows| && rows[i] == a;
    var j :| 0 <= j < |rows| && rows[j] == b;
    assert keys[i] == keys[j];
  }

  lemma OnceInMultiset<T>(s: seq<T>, x: T)
    requires forall i, j :: 0 <= i < j < |s| ==> s[i] != s[j]
    ensures multiset(s)[x] <= 1
  {
    if s != [] {
      assert s == s[..|s| - 1] + [s[|s| - 1]];
      OnceInMultiset(s[..|s| - 1], x);
      assert s[|s| - 1] in multiset(s[..|s| - 1]) <==> s[|s| - 1] in s[..|s| - 1];
    }
  }

  /** Row `i` is the last live one of a key. */
  ghost predicate LastLive(positions: seq<Position>, n: nat, k: string, i: nat)
    requires n <= |positions|
  {
    && i < n && !positions[i].isPaperTrading && SymbolKey(positions[i]) == k
    && forall j :: i < j < n ==> positions[j].isPaperTrading || SymbolKey(positions[j]) != k
  }

  lemma {:induction false} KeptIsLast(positions: seq<Position>, n: nat, k: string)
    requires n <= |positions| && k in Kept(positions, n)
    ensures exists i: nat :: LastLive(positions, n, k, i) && Kept(positions, n)[k] == positions[i]
  {
    var pos := positions[n - 1];
    if !pos.isPaperTrading && SymbolKey(pos) == k {
      assert LastLive(positions, n, k, n - 1);
    } else {
      KeptIsLast(positions, n - 1, k);
      var i: nat :| LastLive(positions, n - 1, k, i) && Kept(positions, n - 1)[k] == positions[i];
      assert LastLive(positions, n, k, i);
    }
  }

  /** One side of a row: what its last live position of the key says, or nothing. */
  ghost predicate SideSays(positions: seq<Position>, k: string, listed: bool, quantity: real, average: real, pnl: real) {
    if listed then
      exists i: nat :: LastLive(positions, |positions|, k, i) && quantity == positions[i].netQty
        && average == positions[i].netAvgPrice && pnl == positions[i].totalPnl.GetOr(0.0)
    else !LiveKey(positions, k) && quantity == 0.0 && average == 0.0 && pnl == 0.0
  }

  ghost predicate WorthlessSays(positions: seq<Position>, k: string, worthless: real) {
    if LiveKey(positions, k) then
      exists i: nat :: LastLive(positions, |positions|, k, i) && worthless == positions[i].worthlessQty.GetOr(0.0)
    else worthless == 0.0
  }

  lemma SideOf(positions: seq<Position>, k: string)
    ensures var side := At(Kept(positions, |positions|), k);
      && SideSays(positions, k, side.Some?, Net(side), Avg(side), Pnl(side))
      && WorthlessSays(positions, k, Worthless(side)) && (side.Some? <==> LiveKey(positions, k))
  {
    KeptFrom(positions, |positions|, k);
    if k in Kept(positions, |positions|) {
      KeptIsLast(positions, |positions|, k);
    }
  }

  /** Worthless quantity makes up for the whole difference. */
  ghost predicate Explained(row: Mismatch) { row.worthlessQty != 0.0 && row.qtyDifference == 0.0 }

  /** The profits differ by more than a tenth of what algo made, or algo made nothing and the broker
      something. */
  ghost predicate PnlApart(row: Mismatch) {
    if row.algoPnl != 0.0 then 10.0 * Abs(row.pnlDifference) > Abs(row.algoPnl) else row.brokerPnl != 0.0
  }

  lemma RowIsOfKey(algo: seq<Position>, broker: seq<Position>, row: Mismatch)
    requires row in Unsorted(algo, broker)
    ensures var a, b := At(Kept(algo, |algo|), row.Key()), At(Kept(broker, |broker|), row.Key());
      (a.Some? || b.Some?) && row == RowFor(a, b)
  {
    var rows, keys := Unsorted(algo, broker), AllKeys(algo, broker);
    UnsortedByKey(algo, broker);
    AllKeysOnce(algo, broker);
    RowsAt(keys, Kept(algo, |algo|), Kept(broker, |broker|), |keys|);
    var i :| 0 <= i < |rows| && rows[i] == row;
    assert keys[i] == row.Key() && (keys[i] in Kept(algo, |algo|) || keys[i] in Kept(broker, |broker|));
  }

  /** What each row of a result says of its key: on either side, whether it is there and what the
      last live position says of it; the worthless quantity of the algo side; and from these alone
      the differences and the flags. */
  lemma RowSays(algo: seq<Position>, broker: seq<Position>, result: seq<Mismatch>, row: Mismatch)
    requires Permutes(result, Unsorted(algo, broker)) && row in result
    ensures SideSays(algo, row.Key(), row.existsInAlgo, row.algoQty, row.algoAvgPrice, row.algoPnl)
    ensures SideSays(broker, row.Key(), row.existsInBroker, row.brokerQty, row.brokerAvgPrice, row.brokerPnl)
    ensures WorthlessSays(algo, row.Key(), row.worthlessQty)
    ensures row.adjustedBrokerQty == row.brokerQty - row.worthlessQty
    ensures row.qtyDifference == row.brokerQty - row.algoQty - row.worthlessQty
    ensures row.pnlDifference == Round2(row.brokerPnl - row.algoPnl)
    ensures row.hasQtyMismatch <==> row.qtyDifference != 0.0
    ensures row.hasSymbolMismatch <==> !Explained(row) && row.existsInAlgo != row.existsInBroker
    ensures row.hasPnlMismatch <==> !Explained(row) && PnlApart(row)
  {
    SameElements(result, Unsorted(algo, broker));
    RowIsOfKey(algo, broker, row);
    SideOf(algo, row.Key());
    SideOf(broker, row.Key());
    RowForSays(At(Kept(algo, |algo|), row.Key()), At(Kept(broker, |broker|), row.Key()));
  }

  lemma RowForSays(algo: Option<Position>, broker: Option<Position>)
    requires algo.Some? || broker.Some?
    ensures var row := RowFor(algo, broker);
      && row.existsInAlgo == algo.Some? && row.existsInBroker == broker.Some?
      && row.algoQty == Net(algo) && row.brokerQty == Net(broker) && row.worthlessQty == Worthless(algo)
      && row.algoAvgPrice == Avg(algo) && row.brokerAvgPrice == Avg(broker)
      && row.algoPnl == Pnl(algo) && row.brokerPnl == Pnl(broker)
      && row.pnlDifference == Round2(row.brokerPnl - row.algoPnl)
      && row.adjustedBrokerQty == row.brokerQty - row.worthlessQty
      && row.qtyDifference == row.brokerQty - row.algoQty - row.worthlessQty
      && (row.hasQtyMismatch <==> row.qtyDifference != 0.0)
      && (row.hasSymbolMismatch <==> !Explained(row) && row.existsInAlgo != row.existsInBroker)
      && (row.hasPnlMismatch <==> !Explained(row) && PnlApart(row))
  {
    if Worthless(algo) == 0.0 || Net(broker) != Net(algo) + Worthless(algo) {
      PnlFlaggedExactly(algo, broker);
    }
  }

  function MismatchCount(rows: seq<Mismatch>): nat {
    if rows == [] then 0 else MismatchCount(rows[..|rows| - 1]) + (if rows[|rows| - 1].Flagged() then 1 else 0)
  }

  /** The flagged rows are exactly the first `mismatchCount` rows. */
  lemma {:induction false} FlaggedFirst(lc: Locale, rows: seq<Mismatch>)
    requires Sorted(Order(lc), rows)
    ensures MismatchCount(rows) <= |rows|
    ensures forall i :: 0 <= i < |rows| ==> (rows[i].Flagged() <==> i < MismatchCount(rows))
  {
    if rows != [] {
      var front, last := rows[..|rows| - 1], rows[|rows| - 1];
      FlaggedFirst(lc, front);
      if last.Flagged() {
        forall i | 0 <= i < |front| ensures front[i].Flagged() {
          assert Order(lc)(rows[i], rows[|rows| - 1]) <= 0.0;
        }
        assert |front| > 0 ==> front[|front| - 1].Flagged();
      }
    }
  }

  // ------------------------------------------------------------- conservation

  /** A figure summed over the kept rows of the first `n` keys. */
  function SumAt(m: map<string, Position>, f: Option<Position> -> real, keys: seq<string>, n: nat): real
    requires n <= |keys|
  {
    if n == 0 then 0.0 else SumAt(m, f, keys, n - 1) + f(At(m, keys[n - 1]))
  }

  lemma {:induction false} RowsSum(keys: seq<string>, algo: map<string, Position>, broker: map<string, Position>, n: nat)
    requires n <= |keys| && Bound(keys, algo, broker)
    ensures SumOf(QtyDifference, Rows(keys, algo, broker, n))
         == SumAt(broker, Net, keys, n) - SumAt(algo, Net, keys, n) - SumAt(algo, Worthless, keys, n)
  {
    if n > 0 {
      RowsSum(keys, algo, broker, n - 1);
      var before := Rows(keys, algo, broker, n - 1);
      assert Rows(keys, algo, broker, n)[..|Rows(keys, algo, broker, n)| - 1] == before;
    }
  }

  function QtyDifference(row: Mismatch): real { row.qtyDifference }

  /** The keys among the first `n` that have a row. */
  function Present(m: map<string, Position>, keys: seq<string>, n: nat): (p: seq<string>)
    requires n <= |keys|
    ensures forall k :: k in p <==> k in m && k in keys[..n]
  {
    if n == 0 then []
    else
      assert keys[..n] == keys[..n - 1] + [keys[n - 1]];
      if keys[n - 1] in m then Present(m, keys, n - 1) + [keys[n - 1]] else Present(m, keys, n - 1)
  }

  lemma {:induction false} PresentDistinct(m: map<string, Position>, keys: seq<string>, n: nat)
    requires n <= |keys| && Distinct(keys)
    ensures Distinct(Present(m, keys, n))
  {
    if n > 0 {
      PresentDistinct(m, keys, n - 1);
    }
  }

  lemma {:induction false} SumOfPresent(m: map<string, Position>, f: Option<Position> -> real, keys: seq<string>, n: nat)
    requires n <= |keys| && f(None) == 0.0
    ensures SumAt(m, f, keys, n) == SumOf((k: string) => f(At(m, k)), Present(m, keys, n))
  {
    if n > 0 {
      SumOfPresent(m, f, keys, n - 1);
      var before := Present(m, keys, n - 1);
      assert (before + [keys[n - 1]])[..|before|] == before;
    }
  }

  lemma DistinctPermute(a: seq<string>, b: seq<string>)
    requires Distinct(a) && Distinct(b) && forall k :: k in a <==> k in b
    ensures Permutes(a, b)
  {
    forall k ensures multiset(a)[k] == multiset(b)[k] {
      OnceInMultiset(a, k);
      OnceInMultiset(b, k);
      assert k in multiset(a) <==> k in a;
      assert k in multiset(b) <==> k in b;
    }
  }

  /** A figure summed over the live rows that are kept of a list. */
  function KeptSum(positions: seq<Position>, f: Option<Position> -> real): real {
    SumAt(Kept(positions, |positions|), f, KeyOrder(positions, |positions|), |KeyOrder(positions, |positions|)|)
  }

  /** It does not matter which further keys are looked at. */
  lemma SumOverMoreKeys(positions: seq<Position>, f: Option<Position> -> real, keys: seq<string>)
    requires f(None) == 0.0 && Distinct(keys)
    requires forall k :: k in Kept(positions, |positions|) ==> k in keys
    ensures SumAt(Kept(positions, |positions|), f, keys, |keys|) == KeptSum(positions, f)
  {
    var m, own := Kept(positions, |positions|), KeyOrder(positions, |positions|);
    KeptByKey(positions, |positions|);
    SumOfPresent(m, f, keys, |keys|);
    SumOfPresent(m, f, own, |own|);
    PresentDistinct(m, keys, |keys|);
    PresentDistinct(m, own, |own|);
    assert keys[..|keys|] == keys && own[..|own|] == own;
    DistinctPermute(Present(m, keys, |keys|), Present(m, own, |own|));
    SumPermutes((k: string) => f(At(m, k)), Present(m, keys, |keys|), Present(m, own, |own|));
  }

  /** The quantity differences add up to what the broker holds, less what algo holds, less the
      worthless legs, over the kept rows. */
  lemma DifferencesConserve(algo: seq<Position>, broker: seq<Position>, result: seq<Mismatch>)
    requires Permutes(result, Unsorted(algo, broker))
    ensures SumOf(QtyDifference, result) == KeptSum(broker, Net) - KeptSum(algo, Net) - KeptSum(algo, Worthless)
  {
    AllKeysOnce(algo, broker);
    var keys := AllKeys(algo, broker);
    SumPermutes(QtyDifference, result, Unsorted(algo, broker));
    RowsSum(keys, Kept(algo, |algo|), Kept(broker, |broker|), |keys|);
    SumOverMoreKeys(broker, Net, keys);
    SumOverMoreKeys(algo, Net, keys);
    SumOverMoreKeys(algo, Worthless, keys);
  }
}
