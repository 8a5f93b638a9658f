/** The live book of the portal (`frontend/src/store/userLiveStore.ts`): REST snapshots behind
    watermarks, with keyed updates on top. */
module LiveStore {
  import opened Wrappers
  import opened LiveTypes

  type Positions = map<string, Position>

  datatype BrokerPositions =
    BrokerPositions(broker: string, asOf: Option<real>, algo: seq<Position>, held: seq<Position>)

  datatype PositionsResponse = PositionsResponse(asOf: real, brokers: seq<BrokerPositions>)

  datatype TradesResponse = TradesResponse(asOf: real, brokers: seq<seq<Trade>>)

  datatype BrokerFunds = BrokerFunds(totalMargin: real, utilizedMargin: real, availableMargin: real)

  datatype StateResponse =
    StateResponse(asOf: real, trades: Option<TradesResponse>, positions: Option<PositionsResponse>,
                  margins: Option<map<string, BrokerFunds>>, capital: Option<map<string, real>>)

  // ------------------------------------------------------------ indexing rows

  /** The first `n` rows written one by one under their keys. */
  function KeyedTo(broker: string, rows: seq<Position>, n: nat): Positions
    requires n <= |rows|
  {
    if n == 0 then map[] else KeyedTo(broker, rows, n - 1)[PositionKey(broker, rows[n - 1]) := rows[n - 1]]
  }

  function Keyed(broker: string, rows: seq<Position>): Positions { KeyedTo(broker, rows, |rows|) }

  /** The rows of the first `n` brokers, one broker's over another's. */
  function AlgoTo(brokers: seq<BrokerPositions>, n: nat): Positions
    requires n <= |brokers|
  {
    if n == 0 then map[] else AlgoTo(brokers, n - 1) + Keyed(brokers[n - 1].broker, brokers[n - 1].algo)
  }

  function HeldTo(brokers: seq<BrokerPositions>, n: nat): Positions
    requires n <= |brokers|
  {
    if n == 0 then map[] else HeldTo(brokers, n - 1) + Keyed(brokers[n - 1].broker, brokers[n - 1].held)
  }

  function AsOfsTo(before: map<string, Option<real>>, brokers: seq<BrokerPositions>, n: nat): map<string, Option<real>>
    requires n <= |brokers|
  {
    if n == 0 then before else AsOfsTo(before, brokers, n - 1)[brokers[n - 1].broker := brokers[n - 1].asOf]
  }

  function AlgoOf(brokers: seq<BrokerPositions>): Positions { AlgoTo(brokers, |brokers|) }

  function HeldOf(brokers: seq<BrokerPositions>): Positions { HeldTo(brokers, |brokers|) }

  function AsOfs(before: map<string, Option<real>>, brokers: seq<BrokerPositions>): map<string, Option<real>> {
    AsOfsTo(before, brokers, |brokers|)
  }

  /** Row `i` is the last of the first `n` under a key. */
  ghost predicate LastKeyed(broker: string, rows: seq<Position>, n: nat, k: string, i: nat)
    requires n <= |rows|
  {
    i < n && PositionKey(broker, rows[i]) == k && forall j :: i < j < n ==> PositionKey(broker, rows[j]) != k
  }

  ghost predicate HasKey(broker: string, rows: seq<Position>, n: nat, k: string)
    requires n <= |rows|
  {
    exists i :: 0 <= i < n && PositionKey(broker, rows[i]) == k
  }

  /** One broker's rows: under each key of theirs the last one, and nothing else. */
  lemma {:induction false} KeyedHoldsLast(broker: string, rows: seq<Position>, n: nat, k: string)
    requires n <= |rows|
    ensures k in KeyedTo(broker, rows, n) <==> HasKey(broker, rows, n, k)
    ensures k in KeyedTo(broker, rows, n) ==>
      exists i: nat :: LastKeyed(broker, rows, n, k, i) && KeyedTo(broker, rows, n)[k] == rows[i]
  {
    if n > 0 {
      KeyedHoldsLast(broker, rows, n - 1, k);
      if PositionKey(broker, rows[n - 1]) == k {
        assert LastKeyed(broker, rows, n, k, n - 1);
      } else if k in KeyedTo(broker, rows, n - 1) {
        var i: nat :| LastKeyed(broker, rows, n - 1, k, i) && KeyedTo(broker, rows, n - 1)[k] == rows[i];
        assert LastKeyed(broker, rows, n, k, i);
      }
    }
  }

  /** Row `i` of broker `b` is the last of a key, of all the rows that the first `n` brokers list. */
  ghost predicate LastListed(brokers: seq<BrokerPositions>, list: BrokerPositions -> seq<Position>, n: nat, k: string, b: nat, i: nat)
    requires n <= |brokers|
  {
    && b < n && LastKeyed(brokers[b].broker, list(brokers[b]), |list(brokers[b])|, k, i)
    && forall c :: b < c < n ==> !HasKey(brokers[c].broker, list(brokers[c]), |list(brokers[c])|, k)
  }

  /** A table over several brokers' lists: under each key of theirs the last row, nothing else. */
  ghost predicate HoldsLastListed(brokers: seq<BrokerPositions>, list: BrokerPositions -> seq<Position>, n: nat, k: string, m: Positions)
    requires n <= |brokers|
  {
    && (k in m <==> exists b :: 0 <= b < n && HasKey(brokers[b].broker, list(brokers[b]), |list(brokers[b])|, k))
    && (k in m ==> exists b: nat, i: nat :: LastListed(brokers, list, n, k, b, i) && m[k] == list(brokers[b])[i])
  }

  lemma ListedMembers(brokers: seq<BrokerPositions>, list: BrokerPositions -> seq<Position>, n: nat, k: string, m: Positions)
    requires 0 < n <= |brokers| && HoldsLastListed(brokers, list, n - 1, k, m)
    ensures k in m + Keyed(brokers[n - 1].broker, list(brokers[n - 1]))
       <==> exists b :: 0 <= b < n && HasKey(brokers[b].broker, list(brokers[b]), |list(brokers[b])|, k)
  {
    KeyedHoldsLast(brokers[n - 1].broker, list(brokers[n - 1]), |list(brokers[n - 1])|, k);
  }

  lemma ListedStays(brokers: seq<BrokerPositions>, list: BrokerPositions -> seq<Position>, n: nat, k: string, b: nat, i: nat)
    requires 0 < n <= |brokers| && LastListed(brokers, list, n - 1, k, b, i)
    requires !HasKey(brokers[n - 1].broker, list(brokers[n - 1]), |list(brokers[n - 1])|, k)
    ensures LastListed(brokers, list, n, k, b, i)
  {
  }

  lemma ListedOneMore(brokers: seq<BrokerPositions>, list: BrokerPositions -> seq<Position>, n: nat, k: string, m: Positions)
    requires 0 < n <= |brokers| && HoldsLastListed(brokers, list, n - 1, k, m)
    ensures HoldsLastListed(brokers, list, n, k, m + Keyed(brokers[n - 1].broker, list(brokers[n - 1])))
  {
    var rows, broker := list(brokers[n - 1]), brokers[n - 1].broker;
    ListedMembers(brokers, list, n, k, m);
    KeyedHoldsLast(broker, rows, |rows|, k);
    if HasKey(broker, rows, |rows|, k) {
      var i: nat :| LastKeyed(broker, rows, |rows|, k, i) && Keyed(broker, rows)[k] == rows[i];
      assert LastListed(brokers, list, n, k, n - 1, i);
    } else if k in m {
      var b: nat, i: nat :| LastListed(brokers, list, n - 1, k, b, i) && m[k] == list(brokers[b])[i];
      ListedStays(brokers, list, n, k, b, i);
    }
  }

  /** A response's algo and broker tables hold, under each key of any of its brokers, the last row
      listed, and nothing else. */
  lemma {:induction false} TablesHoldLast(brokers: seq<BrokerPositions>, n: nat, k: string)
    requires n <= |brokers|
    ensures HoldsLastListed(brokers, (bp: BrokerPositions) => bp.algo, n, k, AlgoTo(brokers, n))
    ensures HoldsLastListed(brokers, (bp: BrokerPositions) => bp.held, n, k, HeldTo(brokers, n))
  {
    if n > 0 {
      TablesHoldLast(brokers, n - 1, k);
      ListedOneMore(brokers, (bp: BrokerPositions) => bp.algo, n, k, AlgoTo(brokers, n - 1));
      ListedOneMore(brokers, (bp: BrokerPositions) => bp.held, n, k, HeldTo(brokers, n - 1));
    }
  }

  /** A broker that the response does not name keeps its time. */
  lemma {:induction false} TimesElsewhereKept(before: map<string, Option<real>>, brokers: seq<BrokerPositions>, n: nat, name: string)
    requires n <= |brokers| && forall b :: 0 <= b < n ==> brokers[b].broker != name
    ensures name in AsOfsTo(before, brokers, n) <==> name in before
    ensures name in before ==> AsOfsTo(before, brokers, n)[name] == before[name]
  {
    if n > 0 {
      TimesElsewhereKept(before, brokers, n - 1, name);
    }
  }

  /** A broker's time is the last that the response gives for it. */
  lemma {:induction false} TimesHoldLast(before: map<string, Option<real>>, brokers: seq<BrokerPositions>, n: nat, b: nat)
    requires b < n <= |brokers| && forall c :: b < c < n ==> brokers[c].broker != brokers[b].broker
    ensures brokers[b].broker in AsOfsTo(before, brokers, n)
    ensures AsOfsTo(before, brokers, n)[brokers[b].broker] == brokers[b].asOf
  {
    if b < n - 1 {
      TimesHoldLast(before, brokers, n - 1, b);
    }
  }

  /** The first `n` rows written over a table, those without an id left out. */
  function IndexFirst(before: map<string, Trade>, trades: seq<Trade>, n: nat): map<string, Trade>
    requires n <= |trades|
  {
    if n == 0 then before
    else
      var m, t := IndexFirst(before, trades, n - 1), trades[n - 1];
      if t.tradeID == "" then m else m[t.tradeID := t]
  }

  function IndexRows(before: map<string, Trade>, trades: seq<Trade>): map<string, Trade> {
    IndexFirst(before, trades, |trades|)
  }

  function TradesTo(brokers: seq<seq<Trade>>, n: nat): map<string, Trade>
    requires n <= |brokers|
  {
    if n == 0 then map[] else IndexRows(TradesTo(brokers, n - 1), brokers[n - 1])
  }

  function IndexTrades(brokers: seq<seq<Trade>>): map<string, Trade> { TradesTo(brokers, |brokers|) }

  /** Row `i` is the last of the first `n` with a trade id. */
  ghost predicate LastRow(trades: seq<Trade>, n: nat, id: string, i: nat)
    requires n <= |trades|
  {
    i < n && trades[i].tradeID == id && forall j :: i < j < n ==> trades[j].tradeID != id
  }

  /** The first `n` rows put their last row under `id`, or leave it as it was. */
  ghost predicate HoldsLastRow(before: map<string, Trade>, trades: seq<Trade>, n: nat, id: string, after: map<string, Trade>)
    requires n <= |trades|
  {
    if id != "" && exists i :: 0 <= i < n && trades[i].tradeID == id then
      id in after && exists i: nat :: LastRow(trades, n, id, i) && after[id] == trades[i]
    else
      (id in after <==> id in before) && (id in before ==> after[id] == before[id])
  }

  lemma LastRowStays(trades: seq<Trade>, n: nat, id: string, i: nat)
    requires 0 < n <= |trades| && trades[n - 1].tradeID != id && LastRow(trades, n - 1, id, i)
    ensures LastRow(trades, n, id, i)
  {
  }

  /** A further row with another id, or with none, changes nothing under `id`. */
  lemma OtherRow(before: map<string, Trade>, trades: seq<Trade>, n: nat, id: string, m: map<string, Trade>)
    requires 0 < n <= |trades| && (trades[n - 1].tradeID != id || id == "") && HoldsLastRow(before, trades, n - 1, id, m)
    ensures HoldsLastRow(before, trades, n, id, m)
  {
    if id != "" && exists i :: 0 <= i < n - 1 && trades[i].tradeID == id {
      var i: nat :| LastRow(trades, n - 1, id, i) && m[id] == trades[i];
      LastRowStays(trades, n, id, i);
    }
  }

  /** A page leaves under each id its last row, touches no other id, and files no row without one. */
  lemma {:induction false} PageHoldsLast(before: map<string, Trade>, trades: seq<Trade>, n: nat, id: string)
    requires n <= |trades|
    ensures HoldsLastRow(before, trades, n, id, IndexFirst(before, trades, n))
  {
    if n > 0 {
      var t := trades[n - 1];
      if t.tradeID == id && id != "" {
        assert LastRow(trades, n, id, n - 1);
      } else {
        PageHoldsLast(before, trades, n - 1, id);
        OtherRow(before, trades, n, id, IndexFirst(before, trades, n - 1));
      }
    }
  }

  ghost predicate HasTrade(trades: seq<Trade>, id: string) {
    exists i :: 0 <= i < |trades| && trades[i].tradeID == id
  }

  lemma PageHas(before: map<string, Trade>, trades: seq<Trade>, id: string)
    ensures id in IndexRows(before, trades) <==> id in before || (id != "" && HasTrade(trades, id))
    ensures !HasTrade(trades, id) && id in before ==> IndexRows(before, trades)[id] == before[id]
  {
    PageHoldsLast(before, trades, |trades|, id);
  }

  /** The trades of several brokers: every id that any of them lists. */
  lemma {:induction false} TradesOfAll(brokers: seq<seq<Trade>>, n: nat, id: string)
    requires n <= |brokers|
    ensures id in TradesTo(brokers, n) <==> id != "" && exists b :: 0 <= b < n && HasTrade(brokers[b], id)
  {
    if n > 0 {
      TradesOfAll(brokers, n - 1, id);
      PageHas(TradesTo(brokers, n - 1), brokers[n - 1], id);
    }
  }

  /** Under it, the last row of the last broker that lists it. */
  lemma {:induction false} TradesHoldLast(brokers: seq<seq<Trade>>, n: nat, id: string, b: nat, i: nat)
    requires b < n <= |brokers| && id != "" && LastRow(brokers[b], |brokers[b]|, id, i)
    requires forall c :: b < c < n ==> !HasTrade(brokers[c], id)
    ensures id in TradesTo(brokers, n) && TradesTo(brokers, n)[id] == brokers[b][i]
  {
    if b < n - 1 {
      TradesHoldLast(brokers, n - 1, id, b, i);
      PageHas(TradesTo(brokers, n - 1), brokers[n - 1], id);
    } else {
      PageHoldsLast(TradesTo(brokers, n - 1), brokers[b], |brokers[b]|, id);
    }
  }

  /** A page appended again changes nothing. */
  lemma PageAgain(before: map<string, Trade>, trades: seq<Trade>)
    ensures IndexRows(IndexRows(before, trades), trades) == IndexRows(before, trades)
  {
    var once := IndexRows(before, trades);
    var twice := IndexRows(once, trades);
    forall id ensures id in twice <==> id in once
              ensures id in once ==> id in twice && twice[id] == once[id]
    {
      PageHoldsLast(before, trades, |trades|, id);
      PageHoldsLast(once, trades, |trades|, id);
    }
  }

  // ---------------------------------------------------------- positions, by feed

  /** The positions part of the store. */
  datatype Book = Book(algo: Positions, held: Positions, positionsAsOf: real, lastSnapshotAsOf: real)

  datatype Feed =
    | Snapshot(resp: PositionsResponse)
    | AlgoUpdate(broker: string, row: Position)
    | HeldUpdate(broker: string, row: Position)

  function ApplyPositions(book: Book, resp: PositionsResponse): Book {
    if resp.asOf <= book.positionsAsOf then book
    else book.(algo := AlgoOf(resp.brokers), held := HeldOf(resp.brokers), positionsAsOf := resp.asOf)
  }

  function ApplyFeed(book: Book, feed: Feed): Book {
    match feed
    case Snapshot(resp) => ApplyPositions(book, resp)
    case AlgoUpdate(broker, row) =>
      if row.tradingSymbol == "" then book else book.(algo := book.algo[PositionKey(broker, row) := row])
    case HeldUpdate(broker, row) =>
      if row.tradingSymbol == "" then book else book.(held := book.held[PositionKey(broker, row) := row])
  }

  /** The first `n` deliveries of a feed. */
  function Delivered(book: Book, feeds: seq<Feed>, n: nat): Book
    requires n <= |feeds|
  {
    if n == 0 then book else ApplyFeed(Delivered(book, feeds, n - 1), feeds[n - 1])
  }

  /** Only the updates of deliveries `from` to `n`, laid over a book. */
  function Overlaid(book: Book, feeds: seq<Feed>, from: nat, n: nat): Book
    requires from <= n <= |feeds|
  {
    if n == from then book
    else
      var before := Overlaid(book, feeds, from, n - 1);
      if feeds[n - 1].Snapshot? then before else ApplyFeed(before, feeds[n - 1])
  }

  /** Delivery `i` is the snapshot to win among the first `n`: newer than the book, none of them
      newer, and the first of its age. */
  ghost predicate Wins(book: Book, feeds: seq<Feed>, n: nat, i: nat)
    requires i < n <= |feeds|
  {
    && feeds[i].Snapshot? && feeds[i].resp.asOf > book.positionsAsOf
    && (forall j :: 0 <= j < n && feeds[j].Snapshot? ==> feeds[j].resp.asOf <= feeds[i].resp.asOf)
    && (forall j :: 0 <= j < i && feeds[j].Snapshot? ==> feeds[j].resp.asOf < feeds[i].resp.asOf)
  }

  ghost predicate AllStale(book: Book, feeds: seq<Feed>, n: nat)
    requires n <= |feeds|
  {
    forall j :: 0 <= j < n && feeds[j].Snapshot? ==> feeds[j].resp.asOf <= book.positionsAsOf
  }

  lemma {:induction false} StaleLeavesUpdates(book: Book, feeds: seq<Feed>, n: nat)
    requires n <= |feeds| && AllStale(book, feeds, n)
    ensures Delivered(book, feeds, n) == Overlaid(book, feeds, 0, n)
    ensures Delivered(book, feeds, n).positionsAsOf == book.positionsAsOf
  {
    if n > 0 {
      StaleLeavesUpdates(book, feeds, n - 1);
    }
  }

  lemma {:induction false} SomeoneWins(book: Book, feeds: seq<Feed>, n: nat) returns (i: nat)
    requires n <= |feeds| && !AllStale(book, feeds, n)
    ensures i < n && Wins(book, feeds, n, i)
  {
    if AllStale(book, feeds, n - 1) {
      return n - 1;
    }
    i := SomeoneWins(book, feeds, n - 1);
    if feeds[n - 1].Snapshot? && feeds[n - 1].resp.asOf > feeds[i].resp.asOf {
      i := n - 1;
    }
  }

  lemma {:induction false} OtherWatermarkUntouched(book: Book, feeds: seq<Feed>, n: nat)
    requires n <= |feeds|
    ensures Delivered(book, feeds, n).lastSnapshotAsOf == book.lastSnapshotAsOf
  {
    if n > 0 {
      OtherWatermarkUntouched(book, feeds, n - 1);
    }
  }

  lemma {:induction false} WinnerStays(book: Book, feeds: seq<Feed>, n: nat, i: nat)
    requires i < n <= |feeds| && Wins(book, feeds, n, i)
    ensures Delivered(book, feeds, n) == Overlaid(ApplyPositions(book, feeds[i].resp), feeds, i + 1, n)
  {
    WatermarkOf(book, feeds, n - 1);
    if i == n - 1 {
      OtherWatermarkUntouched(book, feeds, n - 1);
    } else {
      WinnerStays(book, feeds, n - 1, i);
    }
  }

  /** Whatever the order of delivery, the book ends as the rows of the snapshot that wins under
      the updates that came after it; with no newer snapshot, the old rows under all of them. */
  lemma NewestSnapshotWins(book: Book, feeds: seq<Feed>, n: nat)
    requires n <= |feeds|
    ensures AllStale(book, feeds, n) ==> Delivered(book, feeds, n) == Overlaid(book, feeds, 0, n)
    ensures !AllStale(book, feeds, n) ==> exists i: nat :: (i < n && Wins(book, feeds, n, i)
      && Delivered(book, feeds, n) == Overlaid(ApplyPositions(book, feeds[i].resp), feeds, i + 1, n))
  {
    if AllStale(book, feeds, n) {
      StaleLeavesUpdates(book, feeds, n);
    } else {
      var i := SomeoneWins(book, feeds, n);
      WinnerStays(book, feeds, n, i);
    }
  }

  /** The watermark is the greatest time among the book's own and the snapshots delivered. */
  lemma {:induction false} WatermarkOf(book: Book, feeds: seq<Feed>, n: nat)
    requires n <= |feeds|
    ensures var mark := Delivered(book, feeds, n).positionsAsOf;
      && mark >= book.positionsAsOf
      && (forall j :: 0 <= j < n && feeds[j].Snapshot? ==> feeds[j].resp.asOf <= mark)
      && (mark == book.positionsAsOf || exists j :: 0 <= j < n && feeds[j].Snapshot? && feeds[j].resp.asOf == mark)
  {
    if n > 0 {
      WatermarkOf(book, feeds, n - 1);
    }
  }

  // ------------------------------------------------------------- order of delivery

  ghost predicate SnapshotsOnly(feeds: seq<Feed>) {
    forall i :: 0 <= i < |feeds| ==> feeds[i].Snapshot?
  }

  /** Both deliveries bring the same responses, in whatever order and however often. */
  ghost predicate SameResponses(a: seq<Feed>, b: seq<Feed>) {
    (forall i :: 0 <= i < |a| ==> a[i] in b) && (forall i :: 0 <= i < |b| ==> b[i] in a)
  }

  /** No two different responses carry one time. */
  ghost predicate DistinctTimes(feeds: seq<Feed>) {
    forall i, j :: 0 <= i < |feeds| && 0 <= j < |feeds| && feeds[i].Snapshot? && feeds[j].Snapshot? ==>
      feeds[i].resp.asOf == feeds[j].resp.asOf ==> feeds[i] == feeds[j]
  }

  lemma {:induction false} OverlayOfNothing(book: Book, feeds: seq<Feed>, from: nat, n: nat)
    requires from <= n <= |feeds| && SnapshotsOnly(feeds)
    ensures Overlaid(book, feeds, from, n) == book
  {
    if from < n {
      OverlayOfNothing(book, feeds, from, n - 1);
    }
  }

  /** What snapshots alone leave: the winner's rows. */
  lemma SnapshotsLeaveWinner(book: Book, feeds: seq<Feed>) returns (i: nat)
    requires SnapshotsOnly(feeds) && !AllStale(book, feeds, |feeds|)
    ensures i < |feeds| && Wins(book, feeds, |feeds|, i)
    ensures Delivered(book, feeds, |feeds|) == ApplyPositions(book, feeds[i].resp)
  {
    i := SomeoneWins(book, feeds, |feeds|);
    WinnerStays(book, feeds, |feeds|, i);
    OverlayOfNothing(ApplyPositions(book, feeds[i].resp), feeds, i + 1, |feeds|);
  }

  lemma StaleInBoth(book: Book, a: seq<Feed>, b: seq<Feed>)
    requires SnapshotsOnly(a) && SnapshotsOnly(b) && SameResponses(a, b) && AllStale(book, a, |a|)
    ensures AllStale(book, b, |b|)
  {
    forall j | 0 <= j < |b| ensures b[j].resp.asOf <= book.positionsAsOf {
      assert b[j] in a;
    }
  }

  /** Delivery order and repeats are irrelevant when responses have times of their own. */
  lemma DeliveryOrderIrrelevant(book: Book, a: seq<Feed>, b: seq<Feed>)
    requires SnapshotsOnly(a) && SnapshotsOnly(b) && SameResponses(a, b) && DistinctTimes(a)
    ensures Delivered(book, a, |a|) == Delivered(book, b, |b|)
  {
    if AllStale(book, a, |a|) {
      StaleInBoth(book, a, b);
      StaleLeavesUpdates(book, a, |a|);
      StaleLeavesUpdates(book, b, |b|);
      OverlayOfNothing(book, a, 0, |a|);
      OverlayOfNothing(book, b, 0, |b|);
    } else {
      if AllStale(book, b, |b|) {
        StaleInBoth(book, b, a);
      }
      var i := SnapshotsLeaveWinner(book, a);
      var j := SnapshotsLeaveWinner(book, b);
      assert a[i] in b && b[j] in a;
      var k :| 0 <= k < |b| && b[k] == a[i];
      var m :| 0 <= m < |a| && a[m] == b[j];
      assert a[m].resp.asOf <= a[i].resp.asOf && b[k].resp.asOf <= b[j].resp.asOf;
    }
  }

  /** Two responses can be swapped exactly when their times differ, or they hold the same rows,
      or both come too late. */
  lemma SwapExactly(book: Book, p: PositionsResponse, q: PositionsResponse)
    ensures ApplyPositions(ApplyPositions(book, p), q) == ApplyPositions(ApplyPositions(book, q), p)
       <==> || p.asOf != q.asOf
            || (AlgoOf(p.brokers) == AlgoOf(q.brokers) && HeldOf(p.brokers) == HeldOf(q.brokers))
            || p.asOf <= book.positionsAsOf
  {
  }

  // ------------------------------------------------------------- the legacy path

  function ApplyState(book: Book, resp: StateResponse): Book {
    if resp.asOf <= book.lastSnapshotAsOf then book
    else
      var book := book.(lastSnapshotAsOf := resp.asOf);
      if resp.positions.None? then book
      else book.(algo := AlgoOf(resp.positions.value.brokers), held := HeldOf(resp.positions.value.brokers))
  }

  /** The two paths keep separate watermarks: positions just taken from the positions feed are
      replaced by a later-arriving state snapshot however old it is, unless that snapshot is
      stale on its own path, carries no positions, or holds the same rows. */
  lemma CrossPathExactly(book: Book, newer: PositionsResponse, legacy: StateResponse)
    requires newer.asOf > book.positionsAsOf
    ensures var kept := ApplyPositions(book, newer);
      var after := ApplyState(kept, legacy);
      (after.algo == kept.algo && after.held == kept.held) <==>
        || legacy.asOf <= book.lastSnapshotAsOf
        || legacy.positions.None?
        || (AlgoOf(legacy.positions.value.brokers) == AlgoOf(newer.brokers)
            && HeldOf(legacy.positions.value.brokers) == HeldOf(newer.brokers))
  {
  }

  /** Positions of time two arrive, then a state snapshot of time one: its row is what stays. */
  lemma OlderSnapshotOverwrites(broker: string, row: Position)
    ensures var newer, legacy := PositionsResponse(2.0, []),
        StateResponse(1.0, None, Some(PositionsResponse(1.0, [BrokerPositions(broker, None, [row], [])])), None, None);
      var kept := ApplyPositions(Book(map[], map[], 0.0, 0.0), newer);
      && legacy.asOf < newer.asOf == kept.positionsAsOf && kept.algo == map[]
      && ApplyState(kept, legacy) == Book(map[PositionKey(broker, row) := row], map[], 2.0, 1.0)
  {
    var brokers := [BrokerPositions(broker, None, [row], [])];
    assert KeyedTo(broker, [row], 0) == map[] && AlgoTo(brokers, 0) == map[] && HeldTo(brokers, 0) == map[];
    assert Keyed(broker, [row]) == map[PositionKey(broker, row) := row] && Keyed(broker, []) == map[];
    assert AlgoOf(brokers) == map[PositionKey(broker, row) := row] && HeldOf(brokers) == map[];
  }

  /** The other crossing: positions just taken from a state snapshot are replaced by a positions
      response however old it is, unless that response is stale on its own path or holds the same. */
  lemma CrossPathBackExactly(book: Book, newer: StateResponse, older: PositionsResponse)
    requires newer.asOf > book.lastSnapshotAsOf && newer.positions.Some?
    ensures var kept := ApplyState(book, newer);
      var after := ApplyPositions(kept, older);
      (after.algo == kept.algo && after.held == kept.held) <==>
        || older.asOf <= book.positionsAsOf
        || (AlgoOf(older.brokers) == AlgoOf(newer.positions.value.brokers)
            && HeldOf(older.brokers) == HeldOf(newer.positions.value.brokers))
  {
  }

  // ---------------------------------------------------------------- both paths mixed

  datatype Arrival = ByFeed(feed: Feed) | ByState(state: StateResponse)

  function Arrive(book: Book, arrival: Arrival): Book {
    match arrival
    case ByFeed(feed) => ApplyFeed(book, feed)
    case ByState(resp) => ApplyState(book, resp)
  }

  /** The book after the first `n` arrivals. */
  function Arrived(book: Book, arrivals: seq<Arrival>, n: nat): Book
    requires n <= |arrivals|
  {
    if n == 0 then book else Arrive(Arrived(book, arrivals, n - 1), arrivals[n - 1])
  }

  /** Newer than the book and than every arrival of its own path before it. */
  ghost predicate Fresh(book: Book, arrivals: seq<Arrival>, i: nat)
    requires i < |arrivals|
  {
    match arrivals[i]
    case ByFeed(Snapshot(resp)) =>
      && resp.asOf > book.positionsAsOf
      && forall j :: 0 <= j < i && FeedTime(arrivals[j]).Some? ==> FeedTime(arrivals[j]).value < resp.asOf
    case ByFeed(_) => false
    case ByState(resp) =>
      && resp.asOf > book.lastSnapshotAsOf
      && forall j :: 0 <= j < i && arrivals[j].ByState? ==> arrivals[j].state.asOf < resp.asOf
  }

  function FeedTime(arrival: Arrival): Option<real> {
    if arrival.ByFeed? && arrival.feed.Snapshot? then Some(arrival.feed.resp.asOf) else None
  }

  /** Fresh, and carrying positions. */
  ghost predicate SetsRows(book: Book, arrivals: seq<Arrival>, i: nat)
    requires i < |arrivals|
  {
    Fresh(book, arrivals, i) && (arrivals[i].ByState? ==> arrivals[i].state.positions.Some?)
  }

  /** The two position tables. */
  datatype Rows = Rows(algo: Positions, held: Positions)

  function RowsOf(book: Book): Rows { Rows(book.algo, book.held) }

  function RowsCarried(arrival: Arrival): Rows {
    match arrival
    case ByFeed(Snapshot(resp)) => Rows(AlgoOf(resp.brokers), HeldOf(resp.brokers))
    case ByState(resp) =>
      if resp.positions.Some? then Rows(AlgoOf(resp.positions.value.brokers), HeldOf(resp.positions.value.brokers))
      else Rows(map[], map[])
    case _ => Rows(map[], map[])
  }

  /** Only the updates among arrivals `from` to `n`, laid over the tables. */
  function RowsUpdated(rows: Rows, arrivals: seq<Arrival>, from: nat, n: nat): Rows
    requires from <= n <= |arrivals|
  {
    if n == from then rows
    else
      var before := RowsUpdated(rows, arrivals, from, n - 1);
      match arrivals[n - 1]
      case ByFeed(AlgoUpdate(broker, row)) =>
        if row.tradingSymbol == "" then before else before.(algo := before.algo[PositionKey(broker, row) := row])
      case ByFeed(HeldUpdate(broker, row)) =>
        if row.tradingSymbol == "" then before else before.(held := before.held[PositionKey(broker, row) := row])
      case _ => before
  }

  /** Each path's watermark is the greatest of its own times, whatever the other path brings. */
  lemma {:induction false} OwnWatermarks(book: Book, arrivals: seq<Arrival>, n: nat, t: real)
    requires n <= |arrivals|
    ensures t > Arrived(book, arrivals, n).positionsAsOf <==>
      (t > book.positionsAsOf && forall j :: 0 <= j < n && FeedTime(arrivals[j]).Some? ==> FeedTime(arrivals[j]).value < t)
    ensures t > Arrived(book, arrivals, n).lastSnapshotAsOf <==>
      (t > book.lastSnapshotAsOf && forall j :: 0 <= j < n && arrivals[j].ByState? ==> arrivals[j].state.asOf < t)
  {
    if n > 0 {
      OwnWatermarks(book, arrivals, n - 1, t);
    }
  }

  lemma RowsAfterArrival(book: Book, arrivals: seq<Arrival>, n: nat)
    requires n < |arrivals|
    ensures RowsOf(Arrived(book, arrivals, n + 1)) ==
      if SetsRows(book, arrivals, n) then RowsCarried(arrivals[n])
      else RowsUpdated(RowsOf(Arrived(book, arrivals, n)), arrivals, n, n + 1)
  {
    match arrivals[n] {
      case ByFeed(Snapshot(resp)) => OwnWatermarks(book, arrivals, n, resp.asOf);
      case ByFeed(_) =>
      case ByState(resp) => OwnWatermarks(book, arrivals, n, resp.asOf);
    }
  }

  lemma UpdateOneMore(rows: Rows, arrivals: seq<Arrival>, from: nat, n: nat)
    requires from <= n < |arrivals|
    ensures RowsUpdated(RowsUpdated(rows, arrivals, from, n), arrivals, n, n + 1) == RowsUpdated(rows, arrivals, from, n + 1)
  {
  }

  ghost predicate NoneSets(book: Book, arrivals: seq<Arrival>, n: nat)
    requires n <= |arrivals|
  {
    forall i :: 0 <= i < n ==> !SetsRows(book, arrivals, i)
  }

  ghost predicate LastToSet(book: Book, arrivals: seq<Arrival>, n: nat, i: nat)
    requires i < n <= |arrivals|
  {
    SetsRows(book, arrivals, i) && forall j :: i < j < n ==> !SetsRows(book, arrivals, j)
  }

  lemma {:induction false} OldRowsStand(book: Book, arrivals: seq<Arrival>, n: nat)
    requires n <= |arrivals| && NoneSets(book, arrivals, n)
    ensures RowsOf(Arrived(book, arrivals, n)) == RowsUpdated(RowsOf(book), arrivals, 0, n)
  {
    if n > 0 {
      OldRowsStand(book, arrivals, n - 1);
      RowsAfterArrival(book, arrivals, n - 1);
      UpdateOneMore(RowsOf(book), arrivals, 0, n - 1);
    }
  }

  lemma {:induction false} LastRowsStand(book: Book, arrivals: seq<Arrival>, n: nat, i: nat)
    requires i < n <= |arrivals| && LastToSet(book, arrivals, n, i)
    ensures RowsOf(Arrived(book, arrivals, n)) == RowsUpdated(RowsCarried(arrivals[i]), arrivals, i + 1, n)
  {
    RowsAfterArrival(book, arrivals, n - 1);
    if i < n - 1 {
      LastRowsStand(book, arrivals, n - 1, i);
      UpdateOneMore(RowsCarried(arrivals[i]), arrivals, i + 1, n - 1);
    }
  }

  lemma {:induction false} SomeoneSetsLast(book: Book, arrivals: seq<Arrival>, n: nat) returns (i: nat)
    requires n <= |arrivals| && !NoneSets(book, arrivals, n)
    ensures i < n && LastToSet(book, arrivals, n, i)
  {
    i := n - 1;
    if !SetsRows(book, arrivals, n - 1) {
      i := SomeoneSetsLast(book, arrivals, n - 1);
    }
  }

  /** However positions responses, state snapshots and updates are mixed, the tables end as those
      of the last arrival that was fresh on its own path, under the updates after it: last to
      arrive, not newest of both. With none, the old tables stand under all updates. */
  lemma MixedPathsEnd(book: Book, arrivals: seq<Arrival>, n: nat)
    requires n <= |arrivals|
    ensures NoneSets(book, arrivals, n) ==>
      RowsOf(Arrived(book, arrivals, n)) == RowsUpdated(RowsOf(book), arrivals, 0, n)
    ensures !NoneSets(book, arrivals, n) ==> exists i: nat :: (i < n && LastToSet(book, arrivals, n, i)
      && RowsOf(Arrived(book, arrivals, n)) == RowsUpdated(RowsCarried(arrivals[i]), arrivals, i + 1, n))
  {
    if NoneSets(book, arrivals, n) {
      OldRowsStand(book, arrivals, n);
    } else {
      var i := SomeoneSetsLast(book, arrivals, n);
      LastRowsStand(book, arrivals, n, i);
    }
  }

  // -------------------------------------------------------------- trade updates

  datatype TradeEvent = TradeEvent(
    tradeID: string, state: Option<TradeState>, filledQuantity: Option<real>, entryAvgPrice: Option<real>,
    exitAvgPrice: Option<real>, exitReason: Option<string>, charges: Option<real>, profitLoss: Option<real>,
    netProfitLoss: Option<real>)

  function OrElse<T>(first: Option<T>, second: Option<T>): Option<T> {
    if first.Some? then first else second
  }

  function Merge(existing: Trade, event: TradeEvent): Trade {
    existing.(
      state := event.state.GetOr(existing.state),
      filledQuantity := event.filledQuantity.GetOr(existing.filledQuantity),
      entry := event.entryAvgPrice.GetOr(existing.entry),
      exit := event.exitAvgPrice.GetOr(existing.exit),
      exitReason := OrElse(event.exitReason, existing.exitReason),
      charges := OrElse(event.charges, existing.charges),
      profitLoss := OrElse(event.profitLoss, existing.profitLoss),
      netProfitLoss := OrElse(event.netProfitLoss, existing.netProfitLoss))
  }

  function ApplyUpdate(trades: map<string, Trade>, event: TradeEvent): map<string, Trade> {
    if event.tradeID != "" && event.tradeID in trades then
      trades[event.tradeID := Merge(trades[event.tradeID], event)]
    else trades
  }

  /** The store after the first `n` updates of a log. */
  function Updated(trades: map<string, Trade>, log: seq<TradeEvent>, n: nat): map<string, Trade>
    requires n <= |log|
  {
    if n == 0 then trades else ApplyUpdate(Updated(trades, log, n - 1), log[n - 1])
  }

  /** The last value given for a field of a trade by the first `n` updates. */
  function LastGiven<T>(log: seq<TradeEvent>, n: nat, id: string, field: TradeEvent -> Option<T>): Option<T>
    requires n <= |log|
  {
    if n == 0 then None
    else if log[n - 1].tradeID == id && field(log[n - 1]).Some? then field(log[n - 1])
    else LastGiven(log, n - 1, id, field)
  }

  /** Every update of a trade in a log, folded into one. */
  function Folded(log: seq<TradeEvent>, n: nat, id: string): TradeEvent
    requires n <= |log|
  {
    TradeEvent(id,
      LastGiven(log, n, id, (e: TradeEvent) => e.state),
      LastGiven(log, n, id, (e: TradeEvent) => e.filledQuantity),
      LastGiven(log, n, id, (e: TradeEvent) => e.entryAvgPrice),
      LastGiven(log, n, id, (e: TradeEvent) => e.exitAvgPrice),
      LastGiven(log, n, id, (e: TradeEvent) => e.exitReason),
      LastGiven(log, n, id, (e: TradeEvent) => e.charges),
      LastGiven(log, n, id, (e: TradeEvent) => e.profitLoss),
      LastGiven(log, n, id, (e: TradeEvent) => e.netProfitLoss))
  }

  /** A log leaves each known trade with, in every field, the last value the log gave for it,
      and what it had where the log gave none; it adds and removes no trade. */
  lemma {:induction false} LogGivesLastValues(trades: map<string, Trade>, log: seq<TradeEvent>, n: nat, id: string)
    requires n <= |log|
    ensures Updated(trades, log, n).Keys == trades.Keys
    ensures id in trades ==>
      Updated(trades, log, n)[id] == if id == "" then trades[id] else Merge(trades[id], Folded(log, n, id))
  {
    if n > 0 {
      LogGivesLastValues(trades, log, n - 1, id);
    }
  }

  /** The same, field by field: an update moves each field of its trade by its own value alone, and
      what updates do not carry stays as it was. */
  lemma FieldsEndAsGiven(trades: map<string, Trade>, log: seq<TradeEvent>, n: nat, id: string)
    requires n <= |log| && id in trades && id != ""
    ensures id in Updated(trades, log, n)
    ensures var t, was := Updated(trades, log, n)[id], trades[id];
      && t.state == LastGiven(log, n, id, (e: TradeEvent) => e.state).GetOr(was.state)
      && t.filledQuantity == LastGiven(log, n, id, (e: TradeEvent) => e.filledQuantity).GetOr(was.filledQuantity)
      && t.entry == LastGiven(log, n, id, (e: TradeEvent) => e.entryAvgPrice).GetOr(was.entry)
      && t.exit == LastGiven(log, n, id, (e: TradeEvent) => e.exitAvgPrice).GetOr(was.exit)
      && KeepsLast(t.exitReason, was.exitReason, LastGiven(log, n, id, (e: TradeEvent) => e.exitReason))
      && KeepsLast(t.charges, was.charges, LastGiven(log, n, id, (e: TradeEvent) => e.charges))
      && KeepsLast(t.profitLoss, was.profitLoss, LastGiven(log, n, id, (e: TradeEvent) => e.profitLoss))
      && KeepsLast(t.netProfitLoss, was.netProfitLoss, LastGiven(log, n, id, (e: TradeEvent) => e.netProfitLoss))
      && t.tradeID == was.tradeID && t.broker == was.broker && t.strategy == was.strategy
      && t.tradingSymbol == was.tradingSymbol && t.exchange == was.exchange && t.short == was.short
      && t.isPaperTrading == was.isPaperTrading && t.contractMultiplier == was.contractMultiplier
  {
    LogGivesLastValues(trades, log, n, id);
  }

  /** The value given when there is one, else what there was. */
  ghost predicate KeepsLast<T>(now: Option<T>, was: Option<T>, given: Option<T>) {
    (given.Some? ==> now == given) && (given.None? ==> now == was)
  }

  /** Replaying a whole log changes nothing. */
  lemma ReplayChangesNothing(trades: map<string, Trade>, log: seq<TradeEvent>)
    ensures Updated(Updated(trades, log, |log|), log, |log|) == Updated(trades, log, |log|)
  {
    var once := Updated(trades, log, |log|);
    LogGivesLastValues(trades, log, |log|, "");
    LogGivesLastValues(once, log, |log|, "");
    forall id | id in once ensures Updated(once, log, |log|)[id] == once[id] {
      LogGivesLastValues(trades, log, |log|, id);
      LogGivesLastValues(once, log, |log|, id);
    }
  }

  /** Updates to different trades can come in either order. */
  lemma UpdatesCommute(trades: map<string, Trade>, a: TradeEvent, b: TradeEvent)
    requires a.tradeID != b.tradeID
    ensures ApplyUpdate(ApplyUpdate(trades, a), b) == ApplyUpdate(ApplyUpdate(trades, b), a)
  {
    if a.tradeID in trades && b.tradeID in trades && a.tradeID != "" && b.tradeID != "" {
      var ta, tb := Merge(trades[a.tradeID], a), Merge(trades[b.tradeID], b);
      assert trades[a.tradeID := ta][b.tradeID := tb] == trades[b.tradeID := tb][a.tradeID := ta];
    }
  }

  // ---------------------------------------------------------------------- store

  class UserLiveStore {
    var tradesById: map<string, Trade>
    var algoPositionsByKey: Positions
    var brokerPositionsByKey: Positions
    var brokerPositionsAsOf: map<string, Option<real>>
    var margins: map<string, BrokerFunds>
    var capital: map<string, real>
    var activeAsOf: real
    var positionsAsOf: real
    var lastSnapshotAsOf: real

    function State(): Book
      reads this
    {
      Book(algoPositionsByKey, brokerPositionsByKey, positionsAsOf, lastSnapshotAsOf)
    }

    constructor ()
      ensures State() == Book(map[], map[], 0.0, 0.0) && tradesById == map[] && activeAsOf == 0.0
      ensures brokerPositionsAsOf == map[] && margins == map[] && capital == map[]
    {
      margins, capital := map[], map[];
      tradesById, algoPositionsByKey, brokerPositionsByKey, brokerPositionsAsOf := map[], map[], map[], map[];
      activeAsOf, positionsAsOf, lastSnapshotAsOf := 0.0, 0.0, 0.0;
    }

    static method IndexPositions(before: map<string, Option<real>>, brokers: seq<BrokerPositions>)
      returns (algo: Positions, held: Positions, asOfs: map<string, Option<real>>)
      ensures algo == AlgoOf(brokers) && held == HeldOf(brokers) && asOfs == AsOfs(before, brokers)
    {
      algo, held, asOfs := map[], map[], before;
      for n := 0 to |brokers|
        invariant algo == AlgoTo(brokers, n) && held == HeldTo(brokers, n) && asOfs == AsOfsTo(before, brokers, n)
      {
        var bp := brokers[n];
        algo := WriteRows(algo, bp.broker, bp.algo);
        held := WriteRows(held, bp.broker, bp.held);
        asOfs := asOfs[bp.broker := bp.asOf];
      }
    }

    static method WriteRows(into: Positions, broker: string, rows: seq<Position>) returns (m: Positions)
      ensures m == into + Keyed(broker, rows)
    {
      m := into;
      for n := 0 to |rows|
        invariant m == into + KeyedTo(broker, rows, n)
      {
        m := m[PositionKey(broker, rows[n]) := rows[n]];
      }
    }

    method ApplyPositionsSnapshot(resp: PositionsResponse)
      modifies this`algoPositionsByKey, this`brokerPositionsByKey, this`brokerPositionsAsOf, this`positionsAsOf
      ensures State() == ApplyPositions(old(State()), resp)
      ensures brokerPositionsAsOf ==
        if resp.asOf <= old(positionsAsOf) then old(brokerPositionsAsOf) else AsOfs(old(brokerPositionsAsOf), resp.brokers)
    {
      if resp.asOf <= positionsAsOf {
        return;
      }
      algoPositionsByKey, brokerPositionsByKey, brokerPositionsAsOf := IndexPositions(brokerPositionsAsOf, resp.brokers);
      positionsAsOf := resp.asOf;
    }

    static method Index(brokers: seq<seq<Trade>>) returns (byId: map<string, Trade>)
      ensures byId == IndexTrades(brokers)
    {
      byId := map[];
      for n := 0 to |brokers|
        invariant byId == TradesTo(brokers, n)
      {
        byId := WriteTrades(byId, brokers[n]);
      }
    }

    static method WriteTrades(into: map<string, Trade>, trades: seq<Trade>) returns (m: map<string, Trade>)
      ensures m == IndexRows(into, trades)
    {
      m := into;
      for n := 0 to |trades|
        invariant m == IndexFirst(into, trades, n)
      {
        if trades[n].tradeID != "" {
          m := m[trades[n].tradeID := trades[n]];
        }
      }
    }

    method ApplyRestSnapshot(resp: StateResponse)
      modifies this`tradesById, this`algoPositionsByKey, this`brokerPositionsByKey, this`brokerPositionsAsOf,
               this`lastSnapshotAsOf, this`margins, this`capital
      ensures State() == ApplyState(old(State()), resp)
      ensures brokerPositionsAsOf ==
        if resp.asOf <= old(lastSnapshotAsOf) || resp.positions.None? then old(brokerPositionsAsOf)
        else AsOfs(old(brokerPositionsAsOf), resp.positions.value.brokers)
      ensures margins == if resp.asOf <= old(lastSnapshotAsOf) then old(margins) else resp.margins.GetOr(old(margins))
      ensures capital == if resp.asOf <= old(lastSnapshotAsOf) then old(capital) else resp.capital.GetOr(old(capital))
      ensures tradesById ==
        if resp.asOf <= old(lastSnapshotAsOf) || resp.trades.None? then old(tradesById)
        else IndexTrades(resp.trades.value.brokers)
    {
      if resp.asOf <= lastSnapshotAsOf {
        return;
      }
      lastSnapshotAsOf := resp.asOf;
      if resp.trades.Some? {
        tradesById := Index(resp.trades.value.brokers);
      }
      if resp.positions.Some? {
        algoPositionsByKey, brokerPositionsByKey, brokerPositionsAsOf :=
          IndexPositions(brokerPositionsAsOf, resp.positions.value.brokers);
      }
      margins, capital := resp.margins.GetOr(margins), resp.capital.GetOr(capital);
    }

    /** Replace the live trades, keeping finished ones that were loaded before. */
    method ApplyActiveSnapshot(resp: TradesResponse)
      modifies this`tradesById, this`activeAsOf
      ensures resp.asOf <= old(activeAsOf) ==> tradesById == old(tradesById) && activeAsOf == old(activeAsOf)
      ensures resp.asOf > old(activeAsOf) ==>
        && activeAsOf == resp.asOf
        && tradesById == (map id | id in old(tradesById) && old(tradesById)[id].state.IsTerminal() :: old(tradesById)[id])
                         + IndexTrades(resp.brokers)
    {
      if resp.asOf <= activeAsOf {
        return;
      }
      var incoming := Index(resp.brokers);
      tradesById := (map id | id in tradesById && tradesById[id].state.IsTerminal() :: tradesById[id]) + incoming;
      activeAsOf := resp.asOf;
    }

    method AppendCompletedPage(trades: seq<Trade>)
      modifies this`tradesById
      ensures tradesById == IndexRows(old(tradesById), trades)
    {
      tradesById := WriteTrades(tradesById, trades);
    }

    method SetCancelled(trades: seq<Trade>)
      modifies this`tradesById
      ensures tradesById == IndexRows(
        map id | id in old(tradesById) && !old(tradesById)[id].state.Cancelled? :: old(tradesById)[id], trades)
    {
      var kept := map id | id in tradesById && !tradesById[id].state.Cancelled? :: tradesById[id];
      tradesById := WriteTrades(kept, trades);
    }

    /** Answers false when the trade is unknown, so that the caller fetches it. */
    method ApplyTradeUpdate(event: TradeEvent) returns (known: bool)
      modifies this`tradesById
      ensures tradesById == ApplyUpdate(old(tradesById), event)
      ensures known <==> event.tradeID == "" || event.tradeID in old(tradesById)
    {
      if event.tradeID == "" {
        return true;
      }
      if event.tradeID !in tradesById {
        return false;
      }
      tradesById := tradesById[event.tradeID := Merge(tradesById[event.tradeID], event)];
      return true;
    }

    method ApplyAlgoPositionUpdate(broker: string, row: Position)
      modifies this`algoPositionsByKey
      ensures State() == ApplyFeed(old(State()), AlgoUpdate(broker, row))
    {
      if row.tradingSymbol != "" {
        algoPositionsByKey := algoPositionsByKey[PositionKey(broker, row) := row];
      }
    }

    method ApplyBrokerPositionUpdate(broker: string, row: Position)
      modifies this`brokerPositionsByKey
      ensures State() == ApplyFeed(old(State()), HeldUpdate(broker, row))
    {
      if row.tradingSymbol != "" {
        brokerPositionsByKey := brokerPositionsByKey[PositionKey(broker, row) := row];
      }
    }
  }
}
