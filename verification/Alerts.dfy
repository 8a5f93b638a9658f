/** Which alerts reach the operator, and how often (`alerts/manager.py`), with the merge
    of `domain/alert.py`. Publishing, storing and toasting are entries of a trace. */
module Alerts {
  import opened Wrappers

  datatype Level = Info | Warning | Critical {
    function Severity(): nat { if Info? then 0 else if Warning? then 1 else 2 }

    predicate DemandsAttention() { !Info? }

    function Max(other: Level): Level { if other.Severity() > Severity() then other else this }
  }

  datatype Alert = Alert(
    level: Level, entity: string, operation: string, message: string, raisedAt: int, day: int,
    key: Option<string>, firstRaisedAt: Option<int>, occurrences: nat)
  {
    function BeganAt(): int { firstRaisedAt.GetOr(raisedAt) }

    /** This alert and a later one under the same key, as one. */
    function MergedWith(later: Alert): Alert {
      this.(level := level.Max(later.level), message := later.message, raisedAt := later.raisedAt,
            firstRaisedAt := Some(BeganAt()), occurrences := occurrences + later.occurrences)
    }
  }

  const NOT_WORTH_STORING_AT_INFO := {"trade-entry", "trade-exit", "square-off", "square-off-all"}
  const COUNT_MILESTONES := {10, 100, 1000}

  /** What a caller reports. */
  datatype Report =
    Report(level: Level, entity: string, operation: string, message: string, key: Option<string>)
  {
    function At(now: int, day: int): Alert {
      Alert(level, entity, operation, message, now, day, key, None, 1)
    }
  }

  predicate WorthStoring(alert: Alert, notify: bool) {
    !alert.level.Info? || notify || alert.operation !in NOT_WORTH_STORING_AT_INFO
  }

  predicate ShouldInterrupt(alert: Alert, previous: Option<Alert>, notify: bool) {
    if !(alert.level.DemandsAttention() || notify) then false
    else if previous.None? then true
    else if alert.occurrences in COUNT_MILESTONES then true
    else alert.level.Critical? && !previous.value.level.Critical?
  }

  // ------------------------------------------------------------------ history

  /** Whether there is a sink and whether this alert reached it. */
  datatype Sink = NoSink | Stores | Fails

  datatype Effect = Published(alert: Alert) | Stored(alert: Alert) | Toasted(alert: Alert)

  /** One raise, as it was reported and as it came out. */
  datatype Entry =
    | Raised(raised: Alert, notify: bool, merged: Alert, sink: Sink, toasted: bool)
    | Dropped(report: Report)
    | Suppressed(throttle: string)
    | LetThrough(throttle: string, at: int, announced: nat)
    | ForgotDay(day: int)

  type Journal = seq<Entry>

  datatype Raise = Raise(alert: Alert, notify: bool)

  /** The stored raises of a key on a day since that day was last forgotten. */
  function History(journal: Journal, day: int, key: string): seq<Raise> {
    if journal == [] then []
    else
      var before := History(journal[..|journal| - 1], day, key);
      match journal[|journal| - 1]
      case Raised(raised, notify, _, _, _) =>
        if raised.day == day && raised.key == Some(key) then before + [Raise(raised, notify)] else before
      case ForgotDay(d) => if d == day then [] else before
      case _ => before
  }

  /** The toasts of a key on a day since that day was last forgotten. */
  function Toasts(journal: Journal, day: int, key: string): nat {
    if journal == [] then 0
    else
      var before := Toasts(journal[..|journal| - 1], day, key);
      match journal[|journal| - 1]
      case Raised(raised, _, _, _, toasted) =>
        if raised.day == day && raised.key == Some(key) && toasted then before + 1 else before
      case ForgotDay(d) => if d == day then 0 else before
      case _ => before
  }

  /** What a history of raises amounts to: one alert. */
  function Summary(history: seq<Raise>): Option<Alert> {
    if history == [] then None
    else
      var last := history[|history| - 1].alert;
      match Summary(history[..|history| - 1])
      case None => Some(last)
      case Some(previous) => Some(previous.MergedWith(last))
  }

  /** How often a history of raises interrupts the operator. */
  function Interruptions(history: seq<Raise>): nat {
    if history == [] then 0
    else
      var front := history[..|history| - 1];
      Interruptions(front) +
        if ShouldInterrupt(Summary(history).value, Summary(front), history[|history| - 1].notify) then 1 else 0
  }

  // -------------------------------------------------------- histories by themselves

  ghost predicate Fresh(history: seq<Raise>) {
    forall i :: 0 <= i < |history| ==>
      history[i].alert.occurrences == 1 && history[i].alert.firstRaisedAt.None?
  }

  /** The coalesced alert counts every raise, keeps the worst level, the latest wording and
      both the first and the latest times. */
  lemma {:induction false} SummaryMeans(history: seq<Raise>)
    requires history != [] && Fresh(history)
    ensures Summary(history).Some?
    ensures var alert := Summary(history).value;
      && alert.occurrences == |history|
      && alert.message == history[|history| - 1].alert.message
      && alert.raisedAt == history[|history| - 1].alert.raisedAt
      && alert.BeganAt() == history[0].alert.raisedAt
      && (forall i :: 0 <= i < |history| ==> history[i].alert.level.Severity() <= alert.level.Severity())
      && (exists i :: 0 <= i < |history| && history[i].alert.level == alert.level)
      && (alert.level.Critical? <==> exists i :: 0 <= i < |history| && history[i].alert.level.Critical?)
      && (alert.level.Info? <==> forall i :: 0 <= i < |history| ==> history[i].alert.level.Info?)
      && alert.entity == history[0].alert.entity && alert.operation == history[0].alert.operation
  {
    var front, last := history[..|history| - 1], history[|history| - 1].alert;
    if front != [] {
      SummaryMeans(front);
      var i :| 0 <= i < |front| && front[i].alert.level == Summary(front).value.level;
      assert history[i] == front[i];
    }
    assert history[|history| - 1].alert == last;
  }

  function MilestonesWithin(n: nat): nat {
    (if n >= 10 then 1 else 0) + (if n >= 100 then 1 else 0) + (if n >= 1000 then 1 else 0)
  }

  /** A storm at one attention-demanding level interrupts for its first raise and for each
      milestone it reaches. */
  lemma {:induction false} StormToasts(history: seq<Raise>, level: Level)
    requires history != [] && Fresh(history) && level.DemandsAttention()
    requires forall i :: 0 <= i < |history| ==> history[i].alert.level == level
    ensures Interruptions(history) == 1 + MilestonesWithin(|history|)
  {
    SummaryMeans(history);
    var front := history[..|history| - 1];
    if front != [] {
      StormToasts(front, level);
      SummaryMeans(front);
    }
  }

  /** No mixture of levels and notifications interrupts more than five times: once for the
      first raise, once a milestone, once for turning critical. */
  lemma {:induction false} AtMostFiveToasts(history: seq<Raise>)
    requires history != [] && Fresh(history)
    ensures Interruptions(history) <= 1 + MilestonesWithin(|history|) +
      (if Summary(history).value.level.Critical? then 1 else 0)
    ensures Interruptions(history) <= 5
  {
    SummaryMeans(history);
    var front := history[..|history| - 1];
    if front != [] {
      AtMostFiveToasts(front);
      SummaryMeans(front);
    }
  }

  ghost predicate AnyCritical(history: seq<Raise>) {
    exists i :: 0 <= i < |history| && history[i].alert.level.Critical?
  }

  ghost predicate AllInfo(history: seq<Raise>) {
    forall i :: 0 <= i < |history| ==> history[i].alert.level.Info?
  }

  /** When a raise interrupts: when the caller asks for it, or anything under the key has been more
      than informational, and besides it is the first, a milestone, or the first critical. */
  lemma RepeatInterruptsExactly(front: seq<Raise>, last: Raise)
    requires Fresh(front + [last])
    ensures var history := front + [last];
      Interruptions(history) == Interruptions(front) + 1 <==>
        && (last.notify || !AllInfo(history))
        && (front == [] || |history| in {10, 100, 1000} || (last.alert.level.Critical? && !AnyCritical(front)))
    ensures Interruptions(front + [last]) <= Interruptions(front) + 1
  {
    var history := front + [last];
    assert history[..|front|] == front;
    SummaryMeans(history);
    AddsLevels(front, last);
    if front != [] {
      SummaryMeans(front);
    }
  }

  lemma AddsLevels(front: seq<Raise>, last: Raise)
    ensures AnyCritical(front + [last]) <==> AnyCritical(front) || last.alert.level.Critical?
    ensures AllInfo(front + [last]) <==> AllInfo(front) && last.alert.level.Info?
  {
    var history := front + [last];
    assert history[|front|] == last;
    if AnyCritical(front) {
      var i :| 0 <= i < |front| && front[i].alert.level.Critical?;
      assert history[i] == front[i];
    }
    if AllInfo(history) {
      forall i | 0 <= i < |front| ensures front[i].alert.level.Info? {
        assert history[i] == front[i];
      }
    }
  }

  /** A warning under a key that was informational before it reaches no toast. */
  lemma WarningOverInfoIsSilent(info: Raise, warning: Raise)
    requires Fresh([info, warning]) && info.alert.level.Info? && warning.alert.level.Warning?
    requires !info.notify && !warning.notify
    ensures Interruptions([info, warning]) == 0
  {
    assert [info, warning][..1] == [info] && [info][..0] == [];
    assert Summary([info]) == Some(info.alert);
    assert Summary([info, warning]) == Some(info.alert.MergedWith(warning.alert));
    assert Interruptions([info]) == 0;
  }

  // ------------------------------------------------------------ throttle history

  /** When a throttle let a raise through, since any day was last forgotten. */
  function Times(journal: Journal, throttle: string): seq<int> {
    if journal == [] then []
    else
      var before := Times(journal[..|journal| - 1], throttle);
      match journal[|journal| - 1]
      case LetThrough(t, at, _) => if t == throttle then before + [at] else before
      case ForgotDay(_) => []
      case _ => before
  }

  /** How much a throttle has announced as suppressed, over the same stretch. */
  function Announced(journal: Journal, throttle: string): nat {
    if journal == [] then 0
    else
      var before := Announced(journal[..|journal| - 1], throttle);
      match journal[|journal| - 1]
      case LetThrough(t, _, announced) => if t == throttle then before + announced else before
      case ForgotDay(_) => 0
      case _ => before
  }

  /** How often a throttled alert was called for, over the same stretch. */
  function Calls(journal: Journal, throttle: string): nat {
    if journal == [] then 0
    else
      var before := Calls(journal[..|journal| - 1], throttle);
      match journal[|journal| - 1]
      case LetThrough(t, _, _) => if t == throttle then before + 1 else before
      case Suppressed(t) => if t == throttle then before + 1 else before
      case ForgotDay(_) => 0
      case _ => before
  }

  // -------------------------------------------------------------------- desk

  datatype Throttle = Throttle(lastRaisedAt: int, suppressed: nat)

  datatype Desk = Desk(open: map<(int, string), Alert>, throttles: map<string, Throttle>, journal: Journal)

  function Previous(open: map<(int, string), Alert>, day: int, key: Option<string>): Option<Alert> {
    if key.Some? && (day, key.value) in open then Some(open[(day, key.value)]) else None
  }

  /** What a stored raise becomes. */
  function EntryFor(desk: Desk, raised: Alert, notify: bool, sink: Sink): (entry: Entry) {
    var previous := Previous(desk.open, raised.day, raised.key);
    var merged := if previous.Some? then previous.value.MergedWith(raised) else raised;
    Raised(raised, notify, merged, sink, ShouldInterrupt(merged, previous, notify))
  }

  function RaiseOn(desk: Desk, raised: Alert, notify: bool, sink: Sink): Desk {
    var entry := EntryFor(desk, raised, notify, sink);
    Desk(if raised.key.Some? then desk.open[(raised.day, raised.key.value) := entry.merged] else desk.open,
         desk.throttles, desk.journal + [entry])
  }

  function ReportOn(desk: Desk, report: Report, notify: bool, now: int, day: int, sink: Sink): Desk {
    if WorthStoring(report.At(now, day), notify) then RaiseOn(desk, report.At(now, day), notify, sink)
    else desk.(journal := desk.journal + [Dropped(report)])
  }

  function Decimal(n: nat): string {
    var digit := ['0' + (n % 10) as char];
    if n < 10 then digit else Decimal(n / 10) + digit
  }

  const NOTE := " similar suppressed in the last interval)"

  function WithNote(message: string, suppressed: nat): string {
    if suppressed == 0 then message
    else message + " (" + Decimal(suppressed) + NOTE
  }

  predicate Holds(throttles: map<string, Throttle>, interval: int, throttle: string, now: int) {
    throttle in throttles && now - throttles[throttle].lastRaisedAt < interval
  }

  function Pending(throttles: map<string, Throttle>, throttle: string): nat {
    if throttle in throttles then throttles[throttle].suppressed else 0
  }

  function LetOn(desk: Desk, throttle: string, now: int): Desk {
    desk.(throttles := desk.throttles[throttle := Throttle(now, 0)],
          journal := desk.journal + [LetThrough(throttle, now, Pending(desk.throttles, throttle))])
  }

  function SuppressOn(desk: Desk, throttle: string): Desk
    requires throttle in desk.throttles
  {
    var t := desk.throttles[throttle];
    desk.(throttles := desk.throttles[throttle := t.(suppressed := t.suppressed + 1)],
          journal := desk.journal + [Suppressed(throttle)])
  }

  function ThrottleOn(desk: Desk, interval: int, report: Report, throttle: string, now: int, day: int, sink: Sink): Desk {
    if Holds(desk.throttles, interval, throttle, now) then SuppressOn(desk, throttle)
    else
      ReportOn(LetOn(desk, throttle, now),
        report.(key := Some(throttle), message := WithNote(report.message, Pending(desk.throttles, throttle))),
        false, now, day, sink)
  }

  function ForgetOn(desk: Desk, day: int): Desk {
    Desk(map e | e in desk.open && e.0 != day :: desk.open[e], map[], desk.journal + [ForgotDay(day)])
  }

  // --------------------------------------------------------------- invariants

  /** A key's open alert is the summary of its history, and it was toasted for exactly the
      interruptions of that history. */
  ghost predicate KeyFaithful(desk: Desk, day: int, key: string) {
    var history := History(desk.journal, day, key);
    && Previous(desk.open, day, Some(key)) == Summary(history)
    && Toasts(desk.journal, day, key) == Interruptions(history)
    && Fresh(history)
  }

  ghost predicate Spaced(times: seq<int>, interval: int) {
    forall i :: 0 < i < |times| ==> times[i] - times[i - 1] >= interval
  }

  /** Raises of a throttle are an interval apart, and every call was a raise, or has been
      announced as suppressed, or is still waiting to be. */
  ghost predicate ThrottleFaithful(desk: Desk, interval: int, throttle: string) {
    var times := Times(desk.journal, throttle);
    && Spaced(times, interval)
    && (throttle in desk.throttles <==> times != [])
    && (times != [] ==> desk.throttles[throttle].lastRaisedAt == times[|times| - 1])
    && Calls(desk.journal, throttle)
         == |times| + Announced(desk.journal, throttle) + Pending(desk.throttles, throttle)
  }

  ghost predicate Faithful(desk: Desk, interval: int) {
    && (forall day, key :: KeyFaithful(desk, day, key))
    && (forall throttle :: ThrottleFaithful(desk, interval, throttle))
  }

  lemma JournalStep(journal: Journal, entry: Entry)
    ensures (journal + [entry])[..|journal|] == journal
  {
  }

  lemma OneRaiseMore(history: seq<Raise>, last: Raise)
    ensures var longer, previous := history + [last], Summary(history);
      var merged := if previous.Some? then previous.value.MergedWith(last.alert) else last.alert;
      && Summary(longer) == Some(merged)
      && Interruptions(longer) == Interruptions(history) + (if ShouldInterrupt(merged, previous, last.notify) then 1 else 0)
  {
    assert (history + [last])[..|history|] == history;
  }

  /** A raise of another key, or of none. */
  lemma RaiseKeepsOther(desk: Desk, raised: Alert, notify: bool, sink: Sink, day: int, key: string)
    requires KeyFaithful(desk, day, key) && (raised.day != day || raised.key != Some(key))
    ensures KeyFaithful(RaiseOn(desk, raised, notify, sink), day, key)
  {
    JournalStep(desk.journal, EntryFor(desk, raised, notify, sink));
  }

  lemma RaiseKeepsSame(desk: Desk, raised: Alert, notify: bool, sink: Sink, day: int, key: string)
    requires KeyFaithful(desk, day, key) && raised.occurrences == 1 && raised.firstRaisedAt.None?
    requires raised.day == day && raised.key == Some(key)
    ensures KeyFaithful(RaiseOn(desk, raised, notify, sink), day, key)
  {
    var entry := EntryFor(desk, raised, notify, sink);
    var history, last := History(desk.journal, day, key), Raise(raised, notify);
    var after := RaiseOn(desk, raised, notify, sink);
    JournalStep(desk.journal, entry);
    OneRaiseMore(history, last);
    assert History(after.journal, day, key) == history + [last];
    assert Toasts(after.journal, day, key) == Toasts(desk.journal, day, key) + (if entry.toasted then 1 else 0);
  }

  lemma RaiseKeepsKey(desk: Desk, raised: Alert, notify: bool, sink: Sink, day: int, key: string)
    requires KeyFaithful(desk, day, key) && raised.occurrences == 1 && raised.firstRaisedAt.None?
    ensures KeyFaithful(RaiseOn(desk, raised, notify, sink), day, key)
  {
    if raised.day == day && raised.key == Some(key) {
      RaiseKeepsSame(desk, raised, notify, sink, day, key);
    } else {
      RaiseKeepsOther(desk, raised, notify, sink, day, key);
    }
  }

  lemma RaiseKeepsThrottle(desk: Desk, interval: int, raised: Alert, notify: bool, sink: Sink, throttle: string)
    requires ThrottleFaithful(desk, interval, throttle)
    ensures ThrottleFaithful(RaiseOn(desk, raised, notify, sink), interval, throttle)
  {
    JournalStep(desk.journal, EntryFor(desk, raised, notify, sink));
  }

  lemma RaiseKeepsFaith(desk: Desk, interval: int, raised: Alert, notify: bool, sink: Sink)
    requires Faithful(desk, interval) && raised.occurrences == 1 && raised.firstRaisedAt.None?
    ensures Faithful(RaiseOn(desk, raised, notify, sink), interval)
  {
    var after := RaiseOn(desk, raised, notify, sink);
    forall day, key ensures KeyFaithful(after, day, key) {
      RaiseKeepsKey(desk, raised, notify, sink, day, key);
    }
    forall throttle ensures ThrottleFaithful(after, interval, throttle) {
      RaiseKeepsThrottle(desk, interval, raised, notify, sink, throttle);
    }
  }

  lemma ReportKeepsFaith(desk: Desk, interval: int, report: Report, notify: bool, now: int, day: int, sink: Sink)
    requires Faithful(desk, interval)
    ensures Faithful(ReportOn(desk, report, notify, now, day, sink), interval)
  {
    if WorthStoring(report.At(now, day), notify) {
      RaiseKeepsFaith(desk, interval, report.At(now, day), notify, sink);
    } else {
      var after := ReportOn(desk, report, notify, now, day, sink);
      JournalStep(desk.journal, Dropped(report));
      forall d, k ensures KeyFaithful(after, d, k) { assert KeyFaithful(desk, d, k); }
      forall t ensures ThrottleFaithful(after, interval, t) { assert ThrottleFaithful(desk, interval, t); }
    }
  }

  lemma LetKeepsFaith(desk: Desk, interval: int, throttle: string, now: int)
    requires Faithful(desk, interval) && !Holds(desk.throttles, interval, throttle, now)
    ensures Faithful(LetOn(desk, throttle, now), interval)
  {
    var after := LetOn(desk, throttle, now);
    JournalStep(desk.journal, LetThrough(throttle, now, Pending(desk.throttles, throttle)));
    forall d, k ensures KeyFaithful(after, d, k) { assert KeyFaithful(desk, d, k); }
    forall t ensures ThrottleFaithful(after, interval, t) { assert ThrottleFaithful(desk, interval, t); }
  }

  lemma SuppressKeepsFaith(desk: Desk, interval: int, throttle: string)
    requires Faithful(desk, interval) && throttle in desk.throttles
    ensures Faithful(SuppressOn(desk, throttle), interval)
  {
    var after := SuppressOn(desk, throttle);
    JournalStep(desk.journal, Suppressed(throttle));
    forall d, k ensures KeyFaithful(after, d, k) { assert KeyFaithful(desk, d, k); }
    forall t ensures ThrottleFaithful(after, interval, t) { assert ThrottleFaithful(desk, interval, t); }
  }

  lemma ForgetKeepsFaith(desk: Desk, interval: int, day: int)
    requires Faithful(desk, interval)
    ensures Faithful(ForgetOn(desk, day), interval)
  {
    var after := ForgetOn(desk, day);
    JournalStep(desk.journal, ForgotDay(day));
    forall d, k ensures KeyFaithful(after, d, k) { assert KeyFaithful(desk, d, k); }
    forall t ensures ThrottleFaithful(after, interval, t) { assert ThrottleFaithful(desk, interval, t); }
  }

  datatype Call =
    | RaiseCall(report: Report, notify: bool, now: int, day: int, sink: Sink)
    | ThrottledCall(report: Report, throttle: string, now: int, day: int, sink: Sink)
    | ForgetCall(day: int)

  function Step(desk: Desk, interval: int, call: Call): Desk {
    match call
    case RaiseCall(report, notify, now, day, sink) => ReportOn(desk, report, notify, now, day, sink)
    case ThrottledCall(report, throttle, now, day, sink) => ThrottleOn(desk, interval, report, throttle, now, day, sink)
    case ForgetCall(day) => ForgetOn(desk, day)
  }

  function Run(interval: int, calls: seq<Call>): Desk {
    if calls == [] then Desk(map[], map[], [])
    else Step(Run(interval, calls[..|calls| - 1]), interval, calls[|calls| - 1])
  }

  lemma StepKeepsFaith(desk: Desk, interval: int, call: Call)
    requires Faithful(desk, interval)
    ensures Faithful(Step(desk, interval, call), interval)
  {
    match call {
      case RaiseCall(report, notify, now, day, sink) => ReportKeepsFaith(desk, interval, report, notify, now, day, sink);
      case ThrottledCall(report, throttle, now, day, sink) =>
        if Holds(desk.throttles, interval, throttle, now) {
          SuppressKeepsFaith(desk, interval, throttle);
        } else {
          LetKeepsFaith(desk, interval, throttle, now);
          ReportKeepsFaith(LetOn(desk, throttle, now), interval,
            report.(key := Some(throttle), message := WithNote(report.message, Pending(desk.throttles, throttle))),
            false, now, day, sink);
        }
      case ForgetCall(day) => ForgetKeepsFaith(desk, interval, day);
    }
  }

  /** Over every run of raises, throttled raises and forgotten days, on any clock. */
  lemma {:induction false} EveryRunFaithful(interval: int, calls: seq<Call>)
    ensures Faithful(Run(interval, calls), interval)
  {
    if calls != [] {
      EveryRunFaithful(interval, calls[..|calls| - 1]);
      StepKeepsFaith(Run(interval, calls[..|calls| - 1]), interval, calls[|calls| - 1]);
    }
  }

  // ------------------------------------------------------------------ effects

  /** What a raise does to the outside: publish, then store, then toast. */
  function EffectsOf(entry: Entry): seq<Effect> {
    if !entry.Raised? then []
    else
      [Published(entry.merged)]
      + (if entry.sink.Stores? then [Stored(entry.merged)] else [])
      + (if entry.toasted then [Toasted(entry.merged)] else [])
  }

  function Outbox(journal: Journal): seq<Effect> {
    if journal == [] then [] else Outbox(journal[..|journal| - 1]) + EffectsOf(journal[|journal| - 1])
  }

  lemma OutboxGrows(journal: Journal, entry: Entry)
    ensures Outbox(journal + [entry]) == Outbox(journal) + EffectsOf(entry)
  {
    JournalStep(journal, entry);
  }

  /** The decimal digits of a count, read back. */
  function Reading(digits: string): int {
    if digits == "" then 0 else 10 * Reading(digits[..|digits| - 1]) + (digits[|digits| - 1] as int - '0' as int)
  }

  lemma {:induction false} DecimalReads(n: nat)
    ensures Reading(Decimal(n)) == n
  {
    if n >= 10 {
      DecimalReads(n / 10);
      assert Decimal(n)[..|Decimal(n)| - 1] == Decimal(n / 10);
    }
  }

  /** No two counts make the same message: whoever reads the note knows how much was hidden. */
  lemma NoteTellsCount(message: string, m: nat, n: nat)
    requires WithNote(message, m) == WithNote(message, n)
    ensures m == n
  {
    DecimalReads(m);
    DecimalReads(n);
    var a, b := WithNote(message, m), WithNote(message, n);
    if m != 0 && n != 0 {
      assert |a| == |message| + 2 + |Decimal(m)| + |NOTE| && |b| == |message| + 2 + |Decimal(n)| + |NOTE|;
      assert Decimal(m) == a[|message| + 2..|a| - |NOTE|] && Decimal(n) == b[|message| + 2..|b| - |NOTE|];
    }
  }

  /** Some alert with this wording is the first thing to go out after `before`. */
  ghost predicate FirstOut(before: seq<Effect>, after: seq<Effect>, message: string) {
    && |before| < |after| && after[..|before|] == before
    && after[|before|].Published? && after[|before|].alert.message == message
  }

  lemma ReportGoesOut(desk: Desk, report: Report, notify: bool, now: int, day: int, sink: Sink)
    ensures var after := ReportOn(desk, report, notify, now, day, sink);
      if WorthStoring(report.At(now, day), notify) then FirstOut(Outbox(desk.journal), Outbox(after.journal), report.message)
      else Outbox(after.journal) == Outbox(desk.journal)
  {
    var after := ReportOn(desk, report, notify, now, day, sink);
    OutboxGrows(desk.journal, after.journal[|desk.journal|]);
  }

  lemma ReportSpendsNothing(desk: Desk, report: Report, notify: bool, now: int, day: int, sink: Sink, throttle: string)
    ensures var after := ReportOn(desk, report, notify, now, day, sink);
      after.throttles == desk.throttles && Announced(after.journal, throttle) == Announced(desk.journal, throttle)
  {
    var after := ReportOn(desk, report, notify, now, day, sink);
    JournalStep(desk.journal, after.journal[|desk.journal|]);
  }

  lemma PassingSpends(desk: Desk, throttle: string, now: int)
    ensures var passed := LetOn(desk, throttle, now);
      && Pending(passed.throttles, throttle) == 0 && Outbox(passed.journal) == Outbox(desk.journal)
      && Announced(passed.journal, throttle) == Announced(desk.journal, throttle) + Pending(desk.throttles, throttle)
  {
    var let := LetThrough(throttle, now, Pending(desk.throttles, throttle));
    JournalStep(desk.journal, let);
    OutboxGrows(desk.journal, let);
  }

  /** A note leaves the wording in front of it, and without anything suppressed there is none. */
  lemma NoteKeepsMessage(message: string, suppressed: nat)
    ensures message <= WithNote(message, suppressed)
    ensures suppressed == 0 <==> WithNote(message, suppressed) == message
  {
  }

  ghost predicate PassesWith(entry: Entry, throttle: string, now: int) {
    entry.LetThrough? && entry.throttle == throttle && entry.at == now
  }

  ghost predicate DueAgain(times: seq<int>, interval: int, now: int) {
    times == [] || now - times[|times| - 1] >= interval
  }

  lemma HoldsExactly(desk: Desk, interval: int, throttle: string, now: int)
    requires ThrottleFaithful(desk, interval, throttle)
    ensures Holds(desk.throttles, interval, throttle, now) <==> !DueAgain(Times(desk.journal, throttle), interval, now)
  {
  }

  lemma PassesExactly(desk: Desk, interval: int, report: Report, throttle: string, now: int, day: int, sink: Sink)
    requires !Holds(desk.throttles, interval, throttle, now)
    ensures var after := ThrottleOn(desk, interval, report, throttle, now, day, sink);
      && |after.journal| == |desk.journal| + 2
      && after.journal[|desk.journal|] == LetThrough(throttle, now, Pending(desk.throttles, throttle))
      && (after.journal[|desk.journal| + 1].Raised? || after.journal[|desk.journal| + 1].Dropped?)
  {
  }

  lemma SuppressedExactly(desk: Desk, interval: int, report: Report, throttle: string, now: int, day: int, sink: Sink)
    requires Holds(desk.throttles, interval, throttle, now)
    ensures var after := ThrottleOn(desk, interval, report, throttle, now, day, sink);
      after.journal == desk.journal + [Suppressed(throttle)] && after.open == desk.open
  {
  }

  /** In every state a run can reach: a throttled call passes exactly when the throttle has let
      nothing through yet, or not for an interval, and then takes along what was suppressed since;
      otherwise it is suppressed and nothing else happens. */
  lemma ThrottledExactly(interval: int, calls: seq<Call>, report: Report, throttle: string, now: int, day: int, sink: Sink)
    ensures var desk := Run(interval, calls);
      var after, times := ThrottleOn(desk, interval, report, throttle, now, day, sink), Times(desk.journal, throttle);
      if DueAgain(times, interval, now) then
        && |after.journal| == |desk.journal| + 2
        && PassesWith(after.journal[|desk.journal|], throttle, now)
        && Calls(desk.journal, throttle) == |times| + Announced(desk.journal, throttle) + after.journal[|desk.journal|].announced
        && (after.journal[|desk.journal| + 1].Raised? || after.journal[|desk.journal| + 1].Dropped?)
      else after.journal == desk.journal + [Suppressed(throttle)] && after.open == desk.open
  {
    var desk := Run(interval, calls);
    EveryRunFaithful(interval, calls);
    HoldsExactly(desk, interval, throttle, now);
    if Holds(desk.throttles, interval, throttle, now) {
      SuppressedExactly(desk, interval, report, throttle, now, day, sink);
    } else {
      PassesExactly(desk, interval, report, throttle, now, day, sink);
    }
  }

  ghost predicate RaisedAs(entry: Entry, alert: Alert, notify: bool, sink: Sink) {
    entry.Raised? && entry.raised == alert && entry.notify == notify && entry.sink == sink
  }

  /** What is not kept: the routine forms of trading at the informational level, unless asked for. */
  lemma DroppedExactly(desk: Desk, report: Report, notify: bool, now: int, day: int, sink: Sink)
    ensures var after := ReportOn(desk, report, notify, now, day, sink);
      && |after.journal| == |desk.journal| + 1 && after.throttles == desk.throttles
      && (after.journal[|desk.journal|].Dropped? <==>
            report.level.Info? && !notify && report.operation in {"trade-entry", "trade-exit", "square-off", "square-off-all"})
      && (after.journal[|desk.journal|].Dropped? ==> after.open == desk.open)
      && (!after.journal[|desk.journal|].Dropped? ==>
            RaisedAs(after.journal[|desk.journal|],
              Alert(report.level, report.entity, report.operation, report.message, now, day, report.key, None, 1), notify, sink))
  {
  }

  /** When a throttle lets a raise through, the pending count is spent: it goes out at once in the
      message that is published, or to nobody, exactly when the raise is not worth storing. */
  lemma AnnouncementReaches(desk: Desk, interval: int, report: Report, throttle: string, now: int, day: int, sink: Sink)
    requires !Holds(desk.throttles, interval, throttle, now)
    ensures var after, pending := ThrottleOn(desk, interval, report, throttle, now, day, sink), Pending(desk.throttles, throttle);
      && Pending(after.throttles, throttle) == 0
      && Announced(after.journal, throttle) == Announced(desk.journal, throttle) + pending
      && if WorthStoring(report.At(now, day), false) then
           FirstOut(Outbox(desk.journal), Outbox(after.journal), WithNote(report.message, pending))
         else Outbox(after.journal) == Outbox(desk.journal)
  {
    var passed := LetOn(desk, throttle, now);
    var noted := report.(key := Some(throttle), message := WithNote(report.message, Pending(desk.throttles, throttle)));
    PassingSpends(desk, throttle, now);
    ReportSpendsNothing(passed, noted, false, now, day, sink, throttle);
    ReportGoesOut(passed, noted, false, now, day, sink);
  }

  ghost predicate DurableToast(effects: seq<Effect>, i: nat)
    requires i < |effects|
  {
    effects[i].Toasted? ==> i > 0 && effects[i - 1] == Stored(effects[i].alert)
  }

  ghost predicate SinkTook(entry: Entry) {
    entry.Raised? && entry.toasted ==> entry.sink.Stores?
  }

  ghost predicate AllDurable(effects: seq<Effect>) {
    forall i :: 0 <= i < |effects| ==> DurableToast(effects, i)
  }

  ghost predicate SinkTookAll(journal: Journal) {
    forall e :: 0 <= e < |journal| ==> SinkTook(journal[e])
  }

  lemma DurableToastInPrefix(before: seq<Effect>, more: seq<Effect>, i: nat)
    requires i < |before|
    ensures DurableToast(before + more, i) <==> DurableToast(before, i)
  {
  }

  lemma DurableWith(before: seq<Effect>, entry: Entry)
    ensures AllDurable(before + EffectsOf(entry)) <==> AllDurable(before) && SinkTook(entry)
  {
    var all := before + EffectsOf(entry);
    forall i | 0 <= i < |before| ensures DurableToast(all, i) <==> DurableToast(before, i) {
      DurableToastInPrefix(before, EffectsOf(entry), i);
    }
    if SinkTook(entry) {
      forall i | |before| <= i < |all| ensures DurableToast(all, i) {}
    } else {
      assert all[|all| - 1] == Toasted(entry.merged) && all[|all| - 2] == Published(entry.merged);
      assert !DurableToast(all, |all| - 1);
    }
  }

  lemma TookWith(journal: Journal)
    requires journal != []
    ensures SinkTookAll(journal) <==> SinkTookAll(journal[..|journal| - 1]) && SinkTook(journal[|journal| - 1])
  {
    var front := journal[..|journal| - 1];
    if SinkTookAll(front) && SinkTook(journal[|journal| - 1]) {
      forall e | 0 <= e < |journal| ensures SinkTook(journal[e]) {
        assert e < |front| ==> journal[e] == front[e];
      }
    }
  }

  /** A toast shows only what has just been stored exactly when the sink took every alert that
      interrupted: with no sink, or one that failed, the toast goes out all the same. */
  lemma {:induction false} ToastsDurableExactly(journal: Journal)
    ensures AllDurable(Outbox(journal)) <==> SinkTookAll(journal)
  {
    if journal != [] {
      ToastsDurableExactly(journal[..|journal| - 1]);
      TookWith(journal);
      DurableWith(Outbox(journal[..|journal| - 1]), journal[|journal| - 1]);
    }
  }

  /** A single warning, with no sink to store it: its toast goes out unstored. */
  lemma ToastWithoutSink(interval: int, report: Report, now: int, day: int)
    requires report.level.Warning? && report.key.None?
    ensures !AllDurable(Outbox(Run(interval, [RaiseCall(report, false, now, day, NoSink)]).journal))
  {
    var calls := [RaiseCall(report, false, now, day, NoSink)];
    assert calls[..0] == [];
    var desk := Run(interval, []);
    var entry := EntryFor(desk, report.At(now, day), false, NoSink);
    assert Run(interval, calls).journal == [entry] && entry.toasted && !SinkTook([entry][0]);
    ToastsDurableExactly([entry]);
  }

  // ------------------------------------------------------------------ manager

  class AlertManager {
    const tradingDayFor: int -> int
    const interval: int
    var open: map<(int, string), Alert>
    var throttles: map<string, Throttle>
    ghost var journal: Journal
    ghost var outbox: seq<Effect>

    ghost function State(): Desk
      reads this
    {
      Desk(open, throttles, journal)
    }

    constructor (tradingDayFor: int -> int, interval: int)
      ensures State() == Run(interval, []) && outbox == [] && Logged()
      ensures this.tradingDayFor == tradingDayFor && this.interval == interval
    {
      this.tradingDayFor, this.interval := tradingDayFor, interval;
      open, throttles, journal, outbox := map[], map[], [], [];
    }

    /** What is outside is what the journal says went out. */
    ghost predicate Logged()
      reads this
    {
      outbox == Outbox(journal)
    }

    /** The journal takes up what has just gone out, if anything. */
    ghost method Enter(entry: Entry)
      requires outbox == Outbox(journal) + EffectsOf(entry)
      modifies this`journal
      ensures journal == old(journal) + [entry] && Logged()
    {
      OutboxGrows(journal, entry);
      journal := journal + [entry];
    }

    /** Publish, then store, then toast: what an entry of the journal stands for. */
    method SendOut(alert: Alert, sink: Sink, interrupt: bool, ghost entry: Entry)
      requires entry.Raised? && entry.merged == alert && entry.sink == sink && entry.toasted == interrupt
      modifies this`outbox
      ensures outbox == old(outbox) + EffectsOf(entry)
    {
      outbox := outbox + [Published(alert)];
      if sink.Stores? {
        outbox := outbox + [Stored(alert)];
      }
      if interrupt {
        outbox := outbox + [Toasted(alert)];
      }
    }

    /** A report is dropped, or merged under its key, published, stored and perhaps toasted. */
    method RaiseAlert(report: Report, notify: bool, now: int, sink: Sink) returns (r: Option<Alert>)
      requires Logged()
      modifies this`open, this`journal, this`outbox
      ensures State() == ReportOn(old(State()), report, notify, now, tradingDayFor(now), sink)
      ensures Logged() && outbox == old(outbox) + EffectsOf(journal[|journal| - 1])
      ensures r == if journal[|journal| - 1].Raised? then Some(journal[|journal| - 1].merged) else None
    {
      var alert := report.At(now, tradingDayFor(now));
      if !WorthStoring(alert, notify) {
        Enter(Dropped(report));
        return None;
      }
      ghost var entry := EntryFor(State(), alert, notify, sink);
      var previous, merged := Coalesce(alert);
      SendOut(merged, sink, ShouldInterrupt(merged, previous, notify), entry);
      Enter(entry);
      return Some(merged);
    }

    /** Merge an alert into the open one of its key and day, if it has a key. */
    method Coalesce(alert: Alert) returns (previous: Option<Alert>, merged: Alert)
      modifies this`open
      ensures previous == Previous(old(open), alert.day, alert.key)
      ensures merged == if previous.Some? then previous.value.MergedWith(alert) else alert
      ensures open == if alert.key.Some? then old(open)[(alert.day, alert.key.value) := merged] else old(open)
    {
      previous, merged := None, alert;
      if alert.key.Some? {
        if (alert.day, alert.key.value) in open {
          previous := Some(open[(alert.day, alert.key.value)]);
          merged := previous.value.MergedWith(alert);
        }
        open := open[(alert.day, alert.key.value) := merged];
      }
    }

    /** Within the interval a report is only counted; after it, it is raised with the count. */
    method Throttled(report: Report, throttle: string, now: int, sink: Sink) returns (r: Option<Alert>)
      requires Logged()
      modifies this`open, this`throttles, this`journal, this`outbox
      ensures State() == ThrottleOn(old(State()), interval, report, throttle, now, tradingDayFor(now), sink)
      ensures Logged() && outbox == old(outbox) + EffectsOf(journal[|journal| - 1])
      ensures r.None? <==>
        (Holds(old(throttles), interval, throttle, now) || !WorthStoring(report.At(now, tradingDayFor(now)), false))
    {
      if throttle in throttles && now - throttles[throttle].lastRaisedAt < interval {
        Suppress(throttle);
        return None;
      }
      var suppressed := LetPass(throttle, now);
      r := RaiseAlert(report.(key := Some(throttle), message := WithNote(report.message, suppressed)),
                      false, now, sink);
    }

    method Suppress(throttle: string)
      requires Logged() && throttle in throttles
      modifies this`throttles, this`journal
      ensures State() == SuppressOn(old(State()), throttle) && Logged()
      ensures EffectsOf(journal[|journal| - 1]) == []
    {
      var t := throttles[throttle];
      throttles := throttles[throttle := t.(suppressed := t.suppressed + 1)];
      Enter(Suppressed(throttle));
    }

    method LetPass(throttle: string, now: int) returns (suppressed: nat)
      requires Logged()
      modifies this`throttles, this`journal
      ensures State() == LetOn(old(State()), throttle, now) && Logged()
      ensures suppressed == Pending(old(throttles), throttle)
    {
      suppressed := if throttle in throttles then throttles[throttle].suppressed else 0;
      throttles := throttles[throttle := Throttle(now, 0)];
      Enter(LetThrough(throttle, now, suppressed));
    }

    /** The day's open alerts go, and every throttle with them. */
    method ForgetDay(day: int) returns (dropped: nat)
      requires Logged()
      modifies this`open, this`throttles, this`journal
      ensures State() == ForgetOn(old(State()), day) && Logged()
      ensures dropped == |set e | e in old(open) && e.0 == day|
    {
      dropped := |set e | e in open && e.0 == day|;
      open := map e | e in open && e.0 != day :: open[e];
      throttles := map[];
      Enter(ForgotDay(day));
    }
  }
}
