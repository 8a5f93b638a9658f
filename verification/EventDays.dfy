/** Event days: how much of normal size to trade on a date (`capital/event_days.py`). */
module EventDays {
  import opened Wrappers
  import opened Sizing

  const FULL_SIZE := 100.0

  /** What `_checked` lets through. */
  type Percentage = p: real | 0.0 <= p <= FULL_SIZE witness 0.0

  datatype EventDay = EventDay(date: int, exchange: string, percentage: Percentage)
  {
    function Key(): (int, string) { (date, exchange) }
  }

  datatype StrategyEventDay =
    StrategyEventDay(strategy: string, date: int, exchange: string, percentage: Percentage)
  {
    function Key(): (string, int, string) { (strategy, date, exchange) }
  }

  /** A dict comprehension: the last row for a key wins. */
  function Index<K, V>(rows: seq<V>, key: V -> K): map<K, V> {
    if rows == [] then map[]
    else Index(rows[..|rows| - 1], key)[key(rows[|rows| - 1]) := rows[|rows| - 1]]
  }

  datatype EventDays =
    EventDays(days: map<(int, string), EventDay>, overrides: map<(string, int, string), StrategyEventDay>)
  {
    static function Of(days: seq<EventDay>, overrides: seq<StrategyEventDay>): EventDays {
      EventDays(Index(days, (d: EventDay) => d.Key()), Index(overrides, (o: StrategyEventDay) => o.Key()))
    }

    function PercentageFor(day: int, exchange: string, strategy: string): Percentage {
      if (strategy, day, exchange) in overrides then overrides[(strategy, day, exchange)].percentage
      else if (day, exchange) in days then days[(day, exchange)].percentage
      else FULL_SIZE
    }

    function ScaleFor(day: int, exchange: string, strategy: string): real {
      PercentageFor(day, exchange, strategy) / 100.0
    }
  }

  /** `row` is the last of `rows` filed under `k`. */
  ghost predicate LastFiled<K, V>(rows: seq<V>, key: V -> K, k: K, row: V) {
    exists i :: 0 <= i < |rows| && rows[i] == row && key(row) == k
             && forall j :: i < j < |rows| ==> key(rows[j]) != k
  }

  lemma {:induction false} IndexHoldsLast<K, V>(rows: seq<V>, key: V -> K, k: K)
    ensures k in Index(rows, key) <==> exists i :: 0 <= i < |rows| && key(rows[i]) == k
    ensures k in Index(rows, key) ==> LastFiled(rows, key, k, Index(rows, key)[k])
  {
    if rows != [] {
      var front, last := rows[..|rows| - 1], rows[|rows| - 1];
      IndexHoldsLast(front, key, k);
      if key(last) == k {
        assert rows[|rows| - 1] == last;
      } else if k in Index(front, key) {
        var i :| 0 <= i < |front| && front[i] == Index(front, key)[k] && key(front[i]) == k
              && forall j :: i < j < |front| ==> key(front[j]) != k;
        assert rows[i] == front[i];
      }
    }
  }

  /** The strategy's own last figure, else the event day's last figure, else full size. */
  lemma Resolution(days: seq<EventDay>, overrides: seq<StrategyEventDay>,
                   day: int, exchange: string, strategy: string, percentage: real)
    requires percentage == EventDays.Of(days, overrides).PercentageFor(day, exchange, strategy)
    ensures
      if exists o :: o in overrides && o.Key() == (strategy, day, exchange) then
        exists o :: LastFiled(overrides, (o: StrategyEventDay) => o.Key(), (strategy, day, exchange), o)
                 && percentage == o.percentage
      else if exists d :: d in days && d.Key() == (day, exchange) then
        exists d :: LastFiled(days, (d: EventDay) => d.Key(), (day, exchange), d) && percentage == d.percentage
      else percentage == FULL_SIZE
  {
    IndexHoldsLast(overrides, (o: StrategyEventDay) => o.Key(), (strategy, day, exchange));
    IndexHoldsLast(days, (d: EventDay) => d.Key(), (day, exchange));
  }

  /** The scale is the percentage over a hundred: nothing trades at none of normal size, and a full
      day sizes as any other. */
  lemma ScaleIsThePercentage(events: EventDays, day: int, exchange: string, strategy: string,
                             afforded: int, ratio: real, cap: Option<nat>)
    ensures var percentage, scale := events.PercentageFor(day, exchange, strategy), events.ScaleFor(day, exchange, strategy);
      && scale * 100.0 == percentage
      && (percentage == 0.0 ==> SizedLots(afforded, ratio, scale, cap) == 0)
      && (percentage == 100.0 ==> SizedLots(afforded, ratio, scale, cap) == SizedLots(afforded, ratio, 1.0, cap))
  {
    var scale := events.ScaleFor(day, exchange, strategy);
    if scale == 0.0 {
      assert Part(Scaled(afforded, ratio) as real, 0.0) == 0.0;
    }
  }

  /** An event day only ever reduces: the scale is within [0, 1], and no leg is sized above
      what it would be on an ordinary date. */
  lemma EventDayNeverSizesUp(events: EventDays, day: int, exchange: string, strategy: string,
                             afforded: int, ratio: real, cap: Option<nat>)
    requires afforded >= 0 && ratio >= 0.0
    ensures var scale := events.ScaleFor(day, exchange, strategy);
      && 0.0 <= scale <= 1.0
      && 0 <= SizedLots(afforded, ratio, scale, cap) <= SizedLots(afforded, ratio, 1.0, cap)
  {
    var scale := events.ScaleFor(day, exchange, strategy);
    SizedNotNegative(afforded, ratio, scale, cap);
    SizedMono(afforded, afforded, ratio, scale, 1.0, cap);
  }
}
