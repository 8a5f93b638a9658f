/** Keeping the book on disk (`composition/persistence.py`): a cache of fingerprints that decides
    which rows are written, over a store whose writes can fail (`persistence/trade_store.py`). */
module Persistence {
  import opened Wrappers

  type Id = string

  /** A trade or a signal of the book, with its encoding. */
  datatype Row = Row(id: Id, payload: string)

  /** A write lands, is refused (the store reports it and answers False), or raises. */
  datatype Write = Landed | Refused | Raised

  /** One table: the fingerprints remembered as saved, and the rows really stored. */
  datatype Mirror = Mirror(saved: map<Id, string>, stored: map<Id, string>)

  predicate Agrees(table: map<Id, string>, row: Row) {
    row.id in table && table[row.id] == row.payload
  }

  ghost predicate Coherent(mirror: Mirror) {
    forall id :: id in mirror.saved ==> Agrees(mirror.stored, Row(id, mirror.saved[id]))
  }

  ghost predicate DistinctIds(rows: seq<Row>) {
    forall i, j :: 0 <= i < j < |rows| ==> rows[i].id != rows[j].id
  }

  // -------------------------------------------------------------------- sweep

  datatype Swept = Swept(mirror: Mirror, written: nat, raised: bool)

  function WriteRow(before: Swept, row: Row, outcome: Write): Swept {
    var Mirror(saved, stored) := before.mirror;
    if Agrees(saved, row) then before
    else
      match outcome
      case Landed => Swept(Mirror(saved[row.id := row.payload], stored[row.id := row.payload]), before.written + 1, false)
      case Refused => Swept(Mirror(saved[row.id := row.payload], stored), before.written + 1, false)
      case Raised => before.(raised := true)
  }

  /** One table's loop of a flush over the first `n` rows, or up to a write that raises. */
  function SweepTo(mirror: Mirror, rows: seq<Row>, disk: Id -> Write, n: nat): Swept
    requires n <= |rows|
  {
    if n == 0 then Swept(mirror, 0, false)
    else
      var before, row := SweepTo(mirror, rows, disk, n - 1), rows[n - 1];
      if before.raised then before else WriteRow(before, row, disk(row.id))
  }

  function Sweep(mirror: Mirror, rows: seq<Row>, disk: Id -> Write): Swept {
    SweepTo(mirror, rows, disk, |rows|)
  }

  /** The number of the first `n` rows that a table does not hold as they are. */
  function Changed(table: map<Id, string>, rows: seq<Row>, n: nat): nat
    requires n <= |rows|
  {
    if n == 0 then 0 else Changed(table, rows, n - 1) + (if Agrees(table, rows[n - 1]) then 0 else 1)
  }

  /** The write of a changed row among the first `n` raises. */
  ghost predicate Interrupted(mirror: Mirror, rows: seq<Row>, disk: Id -> Write, n: nat)
    requires n <= |rows|
  {
    exists j :: 0 <= j < n && !Agrees(mirror.saved, rows[j]) && disk(rows[j].id).Raised?
  }

  /** The sweep gets as far as attempting to write row `i`. */
  ghost predicate Attempts(mirror: Mirror, rows: seq<Row>, disk: Id -> Write, i: nat)
    requires i < |rows|
  {
    !Agrees(mirror.saved, rows[i]) && !Interrupted(mirror, rows, disk, i)
  }

  /** A write of row `i` is refused while another row, or none, is stored under its id. */
  ghost predicate Loses(mirror: Mirror, rows: seq<Row>, disk: Id -> Write, i: nat)
    requires i < |rows|
  {
    Attempts(mirror, rows, disk, i) && disk(rows[i].id).Refused? && !Agrees(mirror.stored, rows[i])
  }

  ghost predicate Listed(rows: seq<Row>, n: nat, id: Id)
    requires n <= |rows|
  {
    exists i :: 0 <= i < n && rows[i].id == id
  }

  ghost predicate SameAt(before: map<Id, string>, after: map<Id, string>, id: Id) {
    (id in before <==> id in after) && (id in before ==> before[id] == after[id])
  }

  lemma {:induction false} UnlistedSame(mirror: Mirror, rows: seq<Row>, disk: Id -> Write, n: nat, id: Id)
    requires n <= |rows| && !Listed(rows, n, id)
    ensures SameAt(mirror.saved, SweepTo(mirror, rows, disk, n).mirror.saved, id)
    ensures SameAt(mirror.stored, SweepTo(mirror, rows, disk, n).mirror.stored, id)
  {
    if n > 0 {
      assert rows[n - 1].id != id;
      UnlistedSame(mirror, rows, disk, n - 1, id);
    }
  }

  /** A sweep is cut short exactly by a changed row whose write raises; otherwise it counts the
      rows that had changed. */
  lemma {:induction false} RaisedExactly(mirror: Mirror, rows: seq<Row>, disk: Id -> Write, n: nat)
    requires DistinctIds(rows) && n <= |rows|
    ensures SweepTo(mirror, rows, disk, n).raised <==> Interrupted(mirror, rows, disk, n)
    ensures !SweepTo(mirror, rows, disk, n).raised ==>
      SweepTo(mirror, rows, disk, n).written == Changed(mirror.saved, rows, n)
  {
    if n > 0 {
      RaisedExactly(mirror, rows, disk, n - 1);
      UnlistedSame(mirror, rows, disk, n - 1, rows[n - 1].id);
    }
  }

  /** What a sweep leaves of one row. */
  ghost predicate RowEffect(mirror: Mirror, row: Row, attempted: bool, outcome: Write, after: Mirror) {
    if attempted && !outcome.Raised? then
      && Agrees(after.saved, row)
      && (outcome.Landed? ==> Agrees(after.stored, row))
      && (outcome.Refused? ==> SameAt(mirror.stored, after.stored, row.id))
    else
      SameAt(mirror.saved, after.saved, row.id) && SameAt(mirror.stored, after.stored, row.id)
  }

  lemma {:induction false} SweepDoes(mirror: Mirror, rows: seq<Row>, disk: Id -> Write, n: nat, i: nat)
    requires DistinctIds(rows) && i < n <= |rows|
    ensures RowEffect(mirror, rows[i], Attempts(mirror, rows, disk, i), disk(rows[i].id),
                      SweepTo(mirror, rows, disk, n).mirror)
  {
    RaisedExactly(mirror, rows, disk, n - 1);
    if i < n - 1 {
      SweepDoes(mirror, rows, disk, n - 1, i);
      assert rows[i].id != rows[n - 1].id;
    } else {
      UnlistedSame(mirror, rows, disk, n - 1, rows[n - 1].id);
    }
  }

  // ---------------------------------------------------------------- coherence

  /** From a coherent mirror, a sweep leaves every remembered fingerprint that of the stored row
      exactly when no refused write lost a row. */
  lemma CoherentExactly(mirror: Mirror, rows: seq<Row>, disk: Id -> Write)
    requires DistinctIds(rows) && Coherent(mirror)
    ensures Coherent(Sweep(mirror, rows, disk).mirror)
       <==> forall i :: 0 <= i < |rows| ==> !Loses(mirror, rows, disk, i)
  {
    var after := Sweep(mirror, rows, disk).mirror;
    if i :| 0 <= i < |rows| && Loses(mirror, rows, disk, i) {
      SweepDoes(mirror, rows, disk, |rows|, i);
      assert Agrees(after.saved, rows[i]) && !Agrees(after.stored, rows[i]);
    } else {
      forall id | id in after.saved ensures Agrees(after.stored, Row(id, after.saved[id])) {
        if Listed(rows, |rows|, id) {
          var i :| 0 <= i < |rows| && rows[i].id == id;
          assert !Loses(mirror, rows, disk, i);
          SweepDoes(mirror, rows, disk, |rows|, i);
        } else {
          UnlistedSame(mirror, rows, disk, |rows|, id);
        }
        assert id in mirror.saved ==> Agrees(mirror.stored, Row(id, mirror.saved[id]));
      }
    }
  }

  /** After a flush from a coherent mirror that no write interrupts, the store agrees with the
      book on every row exactly when no refused write lost one. */
  lemma FlushedExactly(mirror: Mirror, rows: seq<Row>, disk: Id -> Write)
    requires DistinctIds(rows) && Coherent(mirror) && !Sweep(mirror, rows, disk).raised
    ensures (forall i :: 0 <= i < |rows| ==> Agrees(Sweep(mirror, rows, disk).mirror.stored, rows[i]))
       <==> (forall i :: 0 <= i < |rows| ==> !Loses(mirror, rows, disk, i))
    ensures Sweep(mirror, rows, disk).written == Changed(mirror.saved, rows, |rows|)
  {
    RaisedExactly(mirror, rows, disk, |rows|);
    var after := Sweep(mirror, rows, disk).mirror;
    forall i | 0 <= i < |rows| ensures Agrees(after.stored, rows[i]) <==> !Loses(mirror, rows, disk, i) {
      SweepDoes(mirror, rows, disk, |rows|, i);
      assert Attempts(mirror, rows, disk, i) <==> !Agrees(mirror.saved, rows[i]);
      assert Agrees(mirror.saved, rows[i]) ==> Agrees(mirror.stored, rows[i]);
    }
  }

  /** What a flush counts is at least what differs on disk, and exactly that when every listed row
      that the store holds as it is has its id remembered: a restore that skipped a row breaks it. */
  lemma {:induction false} ChangedOnDisk(mirror: Mirror, rows: seq<Row>, n: nat)
    requires Coherent(mirror) && n <= |rows|
    ensures Changed(mirror.saved, rows, n) >= Changed(mirror.stored, rows, n)
    ensures Changed(mirror.saved, rows, n) == Changed(mirror.stored, rows, n)
       <==> forall i :: 0 <= i < n && Agrees(mirror.stored, rows[i]) ==> rows[i].id in mirror.saved
  {
    if n > 0 {
      ChangedOnDisk(mirror, rows, n - 1);
      RememberedAgrees(mirror, rows[n - 1]);
    }
  }

  lemma RememberedAgrees(mirror: Mirror, row: Row)
    requires Coherent(mirror)
    ensures Agrees(mirror.saved, row) <==> row.id in mirror.saved && Agrees(mirror.stored, row)
  {
    assert row.id in mirror.saved ==> Agrees(mirror.stored, Row(row.id, mirror.saved[row.id]));
  }

  lemma {:induction false} NothingChanged(mirror: Mirror, rows: seq<Row>, disk: Id -> Write, n: nat)
    requires n <= |rows| && forall i :: 0 <= i < n ==> Agrees(mirror.saved, rows[i])
    ensures SweepTo(mirror, rows, disk, n) == Swept(mirror, 0, false)
  {
    if n > 0 {
      NothingChanged(mirror, rows, disk, n - 1);
    }
  }

  function Sweeps(mirror: Mirror, rows: seq<Row>, disks: seq<Id -> Write>): Mirror {
    if disks == [] then mirror
    else Sweep(Sweeps(mirror, rows, disks[..|disks| - 1]), rows, disks[|disks| - 1]).mirror
  }

  /** An uninterrupted sweep leaves a second one nothing to write, whatever the disk would do. */
  lemma SweptAgain(mirror: Mirror, rows: seq<Row>, disk: Id -> Write, again: Id -> Write)
    requires DistinctIds(rows) && !Sweep(mirror, rows, disk).raised
    ensures var after := Sweep(mirror, rows, disk).mirror; Sweep(after, rows, again) == Swept(after, 0, false)
  {
    RaisedExactly(mirror, rows, disk, |rows|);
    var after := Sweep(mirror, rows, disk).mirror;
    forall i | 0 <= i < |rows| ensures Agrees(after.saved, rows[i]) {
      SweepDoes(mirror, rows, disk, |rows|, i);
      assert Attempts(mirror, rows, disk, i) <==> !Agrees(mirror.saved, rows[i]);
    }
    NothingChanged(after, rows, again, |rows|);
  }

  /** After a flush that no write interrupts, further flushes of the same book write nothing,
      however many and whatever the disk would do: a row a refused write lost stays lost. */
  lemma {:induction false} NeverRetried(mirror: Mirror, rows: seq<Row>, disk: Id -> Write, disks: seq<Id -> Write>)
    requires DistinctIds(rows) && !Sweep(mirror, rows, disk).raised
    ensures var after := Sweep(mirror, rows, disk).mirror;
      && Sweeps(after, rows, disks) == after
      && forall again: Id -> Write :: Sweep(after, rows, again).written == 0
  {
    forall again: Id -> Write { SweptAgain(mirror, rows, disk, again); }
    if disks != [] {
      NeverRetried(mirror, rows, disk, disks[..|disks| - 1]);
    }
  }

  /** A write that raised is retried: its row is not remembered, and the next flush, if the disk
      takes everything, leaves the store agreeing with the book. */
  lemma RaisedIsRetried(mirror: Mirror, rows: seq<Row>, disk: Id -> Write, again: Id -> Write)
    requires DistinctIds(rows) && Coherent(mirror)
    requires forall i :: 0 <= i < |rows| ==> !disk(rows[i].id).Refused? && again(rows[i].id).Landed?
    ensures var after := Sweep(Sweep(mirror, rows, disk).mirror, rows, again);
      && !after.raised && Coherent(after.mirror)
      && forall i :: 0 <= i < |rows| ==> Agrees(after.mirror.stored, rows[i])
  {
    CoherentExactly(mirror, rows, disk);
    var between := Sweep(mirror, rows, disk).mirror;
    RaisedExactly(between, rows, again, |rows|);
    CoherentExactly(between, rows, again);
    FlushedExactly(between, rows, again);
  }

  // --------------------------------------------------------------------- runs

  /** One account's two tables. */
  datatype Books = Books(trades: Mirror, signals: Mirror)

  /** What a stored payload reads as, encoded again; nothing when it cannot be decoded. */
  type Reading = string -> Option<string>

  datatype Event =
    | Restore(tradeReading: Reading, signalReading: Reading)
    | Archive(finished: set<Id>)     // finished trades leave the live table
    | Flush(trades: seq<Row>, signals: seq<Row>, tradeDisk: Id -> Write, signalDisk: Id -> Write)

  ghost predicate LegalEvent(event: Event) {
    event.Flush? ==> DistinctIds(event.trades) && DistinctIds(event.signals)
  }

  /** What was just read counts as saved; what cannot be decoded is left out. */
  function Remembered(mirror: Mirror, reading: Reading): Mirror {
    mirror.(saved := map id | id in mirror.stored && reading(mirror.stored[id]).Some? :: reading(mirror.stored[id]).value)
  }

  /** Signals are swept only once the trades have been. */
  function FlushBooks(books: Books, trades: seq<Row>, signals: seq<Row>,
                      tradeDisk: Id -> Write, signalDisk: Id -> Write): (Books, Option<nat>)
  {
    var first := Sweep(books.trades, trades, tradeDisk);
    if first.raised then (books.(trades := first.mirror), None)
    else
      var second := Sweep(books.signals, signals, signalDisk);
      (Books(first.mirror, second.mirror),
       if second.raised then None else Some(first.written + second.written))
  }

  function After(books: Books, event: Event): Books {
    match event
    case Archive(finished) => books.(trades := books.trades.(stored := books.trades.stored - finished))
    case Restore(trades, signals) => Books(Remembered(books.trades, trades), Remembered(books.signals, signals))
    case Flush(trades, signals, tradeDisk, signalDisk) => FlushBooks(books, trades, signals, tradeDisk, signalDisk).0
  }

  function Run(start: Books, events: seq<Event>): Books {
    if events == [] then start
    else After(Run(start, events[..|events| - 1]), events[|events| - 1])
  }

  ghost predicate CoherentBooks(books: Books) {
    Coherent(books.trades) && Coherent(books.signals)
  }

  ghost predicate SweepLoses(mirror: Mirror, rows: seq<Row>, disk: Id -> Write) {
    exists i :: 0 <= i < |rows| && Loses(mirror, rows, disk, i)
  }

  /** Some stored row reads as something that would be written differently. */
  ghost predicate Misreads(mirror: Mirror, reading: Reading) {
    exists id :: id in mirror.stored && reading(mirror.stored[id]).Some? && reading(mirror.stored[id]).value != mirror.stored[id]
  }

  /** A flush loses a row to a refused write, in the trades, or in the signals if it gets that far;
      a restore misreads one; or an archived trade is still remembered. */
  ghost predicate EventLoses(books: Books, event: Event) {
    match event
    case Restore(trades, signals) => Misreads(books.trades, trades) || Misreads(books.signals, signals)
    case Archive(finished) => exists id :: id in finished && id in books.trades.saved
    case Flush(trades, signals, tradeDisk, signalDisk) =>
      || SweepLoses(books.trades, trades, tradeDisk)
      || (!Sweep(books.trades, trades, tradeDisk).raised && SweepLoses(books.signals, signals, signalDisk))
  }

  lemma RestoreCoherentExactly(mirror: Mirror, reading: Reading)
    ensures Coherent(Remembered(mirror, reading)) <==> !Misreads(mirror, reading)
  {
    var after := Remembered(mirror, reading);
    if id :| id in mirror.stored && reading(mirror.stored[id]).Some? && reading(mirror.stored[id]).value != mirror.stored[id] {
      assert id in after.saved && !Agrees(after.stored, Row(id, after.saved[id]));
    }
  }

  lemma ArchiveCoherentExactly(mirror: Mirror, finished: set<Id>)
    requires Coherent(mirror)
    ensures Coherent(mirror.(stored := mirror.stored - finished)) <==> !exists id :: id in finished && id in mirror.saved
  {
    var after := mirror.(stored := mirror.stored - finished);
    if id :| id in finished && id in mirror.saved {
      assert !Agrees(after.stored, Row(id, after.saved[id]));
    } else {
      forall id | id in after.saved ensures Agrees(after.stored, Row(id, after.saved[id])) {
        assert Agrees(mirror.stored, Row(id, mirror.saved[id]));
      }
    }
  }

  lemma FlushCoherentExactly(books: Books, event: Event)
    requires CoherentBooks(books) && LegalEvent(event) && event.Flush?
    ensures CoherentBooks(After(books, event)) <==> !EventLoses(books, event)
  {
    CoherentExactly(books.trades, event.trades, event.tradeDisk);
    CoherentExactly(books.signals, event.signals, event.signalDisk);
  }

  lemma EventCoherentExactly(books: Books, event: Event)
    requires CoherentBooks(books) && LegalEvent(event)
    ensures CoherentBooks(After(books, event)) <==> !EventLoses(books, event)
  {
    match event {
      case Restore(trades, signals) =>
        RestoreCoherentExactly(books.trades, trades);
        RestoreCoherentExactly(books.signals, signals);
      case Archive(finished) => ArchiveCoherentExactly(books.trades, finished);
      case Flush(_, _, _, _) => FlushCoherentExactly(books, event);
    }
  }

  ghost predicate AlwaysCoherent(start: Books, events: seq<Event>) {
    CoherentBooks(Run(start, events)) && (events == [] || AlwaysCoherent(start, events[..|events| - 1]))
  }

  ghost predicate EverLoses(start: Books, events: seq<Event>) {
    events != [] &&
      (EverLoses(start, events[..|events| - 1]) || EventLoses(Run(start, events[..|events| - 1]), events[|events| - 1]))
  }

  /** Over every run of restores, archivings, flushes and changes of the book in between, whatever
      the store does with each write: every remembered fingerprint is at all times that of the
      stored row, exactly when no event of the run loses one. */
  lemma {:induction false} RunCoherent(start: Books, events: seq<Event>)
    requires CoherentBooks(start)
    requires forall i :: 0 <= i < |events| ==> LegalEvent(events[i])
    ensures AlwaysCoherent(start, events) <==> !EverLoses(start, events)
  {
    if events != [] {
      var front, event := events[..|events| - 1], events[|events| - 1];
      RunCoherent(start, front);
      if AlwaysCoherent(start, front) {
        EventCoherentExactly(Run(start, front), event);
      }
    }
  }

  ghost predicate ReadsBack(mirror: Mirror, reading: Reading) {
    forall id :: id in mirror.stored ==> reading(mirror.stored[id]) == Some(mirror.stored[id])
  }

  /** A restore remembers exactly the rows that can be read, each as it reads, and stores nothing. */
  lemma RestoredExactly(mirror: Mirror, reading: Reading, id: Id)
    ensures var after := Remembered(mirror, reading);
      && after.stored == mirror.stored
      && (id in after.saved <==> id in mirror.stored && reading(mirror.stored[id]).Some?)
      && (id in after.saved ==> Some(after.saved[id]) == reading(mirror.stored[id]))
  {
  }

  /** After a restore that reads every row back as it was written, the first flush of that book
      writes nothing: it does not repeat on disk what the disk already says. */
  lemma RestoredBookIsNotRewritten(mirror: Mirror, reading: Reading, rows: seq<Row>, disk: Id -> Write)
    requires ReadsBack(mirror, reading) && forall i :: 0 <= i < |rows| ==> Agrees(mirror.stored, rows[i])
    ensures Sweep(Remembered(mirror, reading), rows, disk) == Swept(Remembered(mirror, reading), 0, false)
  {
    NothingChanged(Remembered(mirror, reading), rows, disk, |rows|);
  }

  ghost predicate AllStored(mirror: Mirror, rows: seq<Row>) {
    forall i :: 0 <= i < |rows| ==> Agrees(mirror.stored, rows[i])
  }

  /** A flush of both tables gives a count exactly when no changed row's write raises; from coherent
      tables the store then agrees with the book on every trade and signal exactly when no refused
      write lost one, and the count is the number of trades and signals that had changed. */
  lemma FlushBooksExactly(books: Books, trades: seq<Row>, signals: seq<Row>, tradeDisk: Id -> Write, signalDisk: Id -> Write)
    requires CoherentBooks(books) && DistinctIds(trades) && DistinctIds(signals)
    ensures var (after, count) := FlushBooks(books, trades, signals, tradeDisk, signalDisk);
      && (count.Some? <==> (!Interrupted(books.trades, trades, tradeDisk, |trades|)
                            && !Interrupted(books.signals, signals, signalDisk, |signals|)))
      && (count.Some? ==>
            && ((AllStored(after.trades, trades) && AllStored(after.signals, signals))
                <==> (!SweepLoses(books.trades, trades, tradeDisk) && !SweepLoses(books.signals, signals, signalDisk)))
            && count.value == Changed(books.trades.saved, trades, |trades|) + Changed(books.signals.saved, signals, |signals|))
  {
    RaisedExactly(books.trades, trades, tradeDisk, |trades|);
    RaisedExactly(books.signals, signals, signalDisk, |signals|);
    if FlushBooks(books, trades, signals, tradeDisk, signalDisk).1.Some? {
      FlushedExactly(books.trades, trades, tradeDisk);
      FlushedExactly(books.signals, signals, signalDisk);
    }
  }

  /** After a flush of both tables that nothing interrupts, another of the same book writes nothing
      and changes nothing, whatever the disk would do. */
  lemma BooksNeverRetried(books: Books, trades: seq<Row>, signals: seq<Row>, tradeDisk: Id -> Write, signalDisk: Id -> Write,
                          tradeAgain: Id -> Write, signalAgain: Id -> Write)
    requires DistinctIds(trades) && DistinctIds(signals)
    requires FlushBooks(books, trades, signals, tradeDisk, signalDisk).1.Some?
    ensures var after := FlushBooks(books, trades, signals, tradeDisk, signalDisk).0;
      FlushBooks(after, trades, signals, tradeAgain, signalAgain) == (after, Some(0))
  {
    SweptAgain(books.trades, trades, tradeDisk, tradeAgain);
    SweptAgain(books.signals, signals, signalDisk, signalAgain);
  }

  /** The first write of a row is refused: it counts as written, the store has nothing, and no
      later flush of the book writes it. */
  lemma RefusedWriteIsLost(row: Row, again: Id -> Write)
    ensures var swept := Sweep(Mirror(map[], map[]), [row], (id: Id) => Refused);
      && swept.written == 1 && row.id in swept.mirror.saved && row.id !in swept.mirror.stored
      && Loses(Mirror(map[], map[]), [row], (id: Id) => Refused, 0)
      && !Coherent(swept.mirror)
      && Sweep(swept.mirror, [row], again).written == 0
  {
    var none, refusing := Mirror(map[], map[]), (id: Id) => Refused;
    var swept := Sweep(none, [row], refusing);
    assert SweepTo(none, [row], refusing, 0) == Swept(none, 0, false);
    assert swept.mirror == Mirror(map[row.id := row.payload], map[]);
    NothingChanged(swept.mirror, [row], again, 1);
    CoherentExactly(none, [row], refusing);
  }

  // -------------------------------------------------------------------- class

  class TradePersistence {
    var savedTrades: map<Id, string>
    var savedSignals: map<Id, string>
    /** The store's tables. */
    var storedTrades: map<Id, string>
    var storedSignals: map<Id, string>

    function State(): Books
      reads this
    {
      Books(Mirror(savedTrades, storedTrades), Mirror(savedSignals, storedSignals))
    }

    constructor (storedTrades: map<Id, string>, storedSignals: map<Id, string>)
      ensures State() == Books(Mirror(map[], storedTrades), Mirror(map[], storedSignals))
    {
      this.storedTrades, this.storedSignals := storedTrades, storedSignals;
      savedTrades, savedSignals := map[], map[];
    }

    /** Load the stored rows and count what they read as for saved. */
    method LoadAndRemember(tradeReading: Reading, signalReading: Reading)
      modifies this`savedTrades, this`savedSignals
      ensures State() == After(old(State()), Restore(tradeReading, signalReading))
    {
      savedTrades := map id | id in storedTrades && tradeReading(storedTrades[id]).Some? :: tradeReading(storedTrades[id]).value;
      savedSignals := map id | id in storedSignals && signalReading(storedSignals[id]).Some? :: signalReading(storedSignals[id]).value;
    }

    /** Finished trades leave the live table; what is remembered of them stays. */
    method ArchiveFinished(finished: set<Id>)
      modifies this`storedTrades
      ensures State() == After(old(State()), Archive(finished))
    {
      storedTrades := storedTrades - finished;
    }

    /** Trades before signals; no count comes back when a write raises. */
    method FlushOnce(trades: seq<Row>, signals: seq<Row>, tradeDisk: Id -> Write, signalDisk: Id -> Write)
      returns (written: Option<nat>)
      modifies this
      ensures (State(), written) == FlushBooks(old(State()), trades, signals, tradeDisk, signalDisk)
    {
      var first, raised := FlushTrades(trades, tradeDisk);
      if raised {
        return None;
      }
      var second, failed := FlushSignals(signals, signalDisk);
      return if failed then None else Some(first + second);
    }

    method FlushTrades(rows: seq<Row>, disk: Id -> Write) returns (written: nat, raised: bool)
      modifies this`savedTrades, this`storedTrades
      ensures Swept(State().trades, written, raised) == Sweep(old(State().trades), rows, disk)
    {
      ghost var start := State().trades;
      written := 0;
      for n := 0 to |rows|
        invariant Swept(Mirror(savedTrades, storedTrades), written, false) == SweepTo(start, rows, disk, n)
      {
        var row := rows[n];
        if !Agrees(savedTrades, row) {
          if disk(row.id).Raised? {
            RaisesOn(start, rows, disk, n + 1, |rows|);
            return written, true;
          }
          if disk(row.id).Landed? {
            storedTrades := storedTrades[row.id := row.payload];
          }
          savedTrades := savedTrades[row.id := row.payload];
          written := written + 1;
        }
      }
      raised := false;
    }

    method FlushSignals(rows: seq<Row>, disk: Id -> Write) returns (written: nat, raised: bool)
      modifies this`savedSignals, this`storedSignals
      ensures Swept(State().signals, written, raised) == Sweep(old(State().signals), rows, disk)
    {
      ghost var start := State().signals;
      written := 0;
      for n := 0 to |rows|
        invariant Swept(Mirror(savedSignals, storedSignals), written, false) == SweepTo(start, rows, disk, n)
      {
        var row := rows[n];
        if !Agrees(savedSignals, row) {
          if disk(row.id).Raised? {
            RaisesOn(start, rows, disk, n + 1, |rows|);
            return written, true;
          }
          if disk(row.id).Landed? {
            storedSignals := storedSignals[row.id := row.payload];
          }
          savedSignals := savedSignals[row.id := row.payload];
          written := written + 1;
        }
      }
      raised := false;
    }
  }

  /** Once a write has raised, the rest of the rows are not looked at. */
  lemma {:induction false} RaisesOn(mirror: Mirror, rows: seq<Row>, disk: Id -> Write, n: nat, m: nat)
    requires n <= m <= |rows| && SweepTo(mirror, rows, disk, n).raised
    ensures SweepTo(mirror, rows, disk, m) == SweepTo(mirror, rows, disk, n)
  {
    if n < m {
      RaisesOn(mirror, rows, disk, n, m - 1);
    }
  }
}
