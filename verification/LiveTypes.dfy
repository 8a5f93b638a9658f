/** The rows and responses of the user portal (`frontend/src/types/user-live.ts`). */
module LiveTypes {
  import opened Wrappers

  datatype TradeState = Open | Active | Completed | Cancelled | Other(name: string) {
    predicate IsTerminal() { Completed? || Cancelled? }
  }

  datatype Trade = Trade(
    tradeID: string, broker: string, strategy: string, tradingSymbol: string, exchange: string,
    short: bool, state: TradeState, filledQuantity: real, entry: real, exit: real,
    profitLoss: Option<real>, charges: Option<real>, netProfitLoss: Option<real>,
    exitReason: Option<string>, isPaperTrading: bool, contractMultiplier: real)

  datatype Position = Position(
    productType: string, tradingSymbol: string, netQty: real, netAvgPrice: real, totalPnl: Option<real>,
    worthlessQty: Option<real>, isPaperTrading: bool)

  // --------------------------------------------------------------------- keys

  const SEPARATOR: char := '|'

  /** `${broker}|${tradingSymbol}|${productType}|${P or L}` */
  function PositionKey(broker: string, pos: Position): string {
    broker + [SEPARATOR] + (pos.tradingSymbol + [SEPARATOR]
      + (pos.productType + [SEPARATOR] + (if pos.isPaperTrading then "P" else "L")))
  }

  /** `${tradingSymbol}|${productType}` */
  function SymbolKey(pos: Position): string {
    pos.tradingSymbol + [SEPARATOR] + pos.productType
  }

  lemma SplitOnce(a: string, b: string, c: string, d: string)
    requires SEPARATOR !in a && SEPARATOR !in c
    requires a + [SEPARATOR] + b == c + [SEPARATOR] + d
    ensures a == c && b == d
  {
    var s, t := a + [SEPARATOR] + b, c + [SEPARATOR] + d;
    assert s[|a|] == SEPARATOR && t[|c|] == SEPARATOR;
    assert forall i :: 0 <= i < |a| ==> s[i] == a[i] != SEPARATOR;
    assert forall i :: 0 <= i < |c| ==> t[i] == c[i] != SEPARATOR;
    assert |a| == |c|;
    assert a == s[..|a|] && c == t[..|c|] && b == s[|a| + 1..] && d == t[|c| + 1..];
  }

  /** A position key tells broker, symbol, product and mode apart as long as no name holds the
      separator. */
  lemma PositionKeyInjective(broker: string, pos: Position, broker': string, pos': Position)
    requires SEPARATOR !in broker && SEPARATOR !in broker'
    requires SEPARATOR !in pos.tradingSymbol && SEPARATOR !in pos'.tradingSymbol
    requires SEPARATOR !in pos.productType && SEPARATOR !in pos'.productType
    ensures PositionKey(broker, pos) == PositionKey(broker', pos') <==>
      && broker == broker' && pos.tradingSymbol == pos'.tradingSymbol
      && pos.productType == pos'.productType && pos.isPaperTrading == pos'.isPaperTrading
  {
    if PositionKey(broker, pos) == PositionKey(broker', pos') {
      var mode := if pos.isPaperTrading then "P" else "L";
      var mode' := if pos'.isPaperTrading then "P" else "L";
      var product, product' := pos.productType + [SEPARATOR] + mode, pos'.productType + [SEPARATOR] + mode';
      SplitOnce(broker, pos.tradingSymbol + [SEPARATOR] + product, broker', pos'.tradingSymbol + [SEPARATOR] + product');
      SplitOnce(pos.tradingSymbol, product, pos'.tradingSymbol, product');
      SplitOnce(pos.productType, mode, pos'.productType, mode');
      assert mode[0] == mode'[0];
    }
  }

  /** The same for symbol and product. */
  lemma SymbolKeyInjective(pos: Position, pos': Position)
    requires SEPARATOR !in pos.tradingSymbol && SEPARATOR !in pos'.tradingSymbol
    ensures SymbolKey(pos) == SymbolKey(pos') <==>
      pos.tradingSymbol == pos'.tradingSymbol && pos.productType == pos'.productType
  {
    if SymbolKey(pos) == SymbolKey(pos') {
      SplitOnce(pos.tradingSymbol, pos.productType, pos'.tradingSymbol, pos'.productType);
    }
  }

  /** With a separator in a symbol or a product, different positions share both keys. */
  lemma SeparatorCollides(pos: Position, broker: string, a: string, b: string, c: string)
    ensures var left := pos.(tradingSymbol := a + [SEPARATOR] + b, productType := c);
      var right := pos.(tradingSymbol := a, productType := b + [SEPARATOR] + c);
      && left.tradingSymbol != right.tradingSymbol
      && SymbolKey(left) == SymbolKey(right) && PositionKey(broker, left) == PositionKey(broker, right)
  {
    var left := pos.(tradingSymbol := a + [SEPARATOR] + b, productType := c);
    var right := pos.(tradingSymbol := a, productType := b + [SEPARATOR] + c);
    assert SymbolKey(left) == SymbolKey(right);
    var mode := if pos.isPaperTrading then "P" else "L";
    assert PositionKey(broker, left) == broker + [SEPARATOR] + (SymbolKey(left) + ([SEPARATOR] + mode));
    assert PositionKey(broker, right) == broker + [SEPARATOR] + (SymbolKey(right) + ([SEPARATOR] + mode));
  }
}
