/** One order-update stream per trading account (`brokers/streams.py`). Connecting and closing
    a socket are events appended to a trace. */
module Streams {
  import opened Wrappers

  type Id = string

  // ------------------------------------------------------------------- traces

  datatype Event = Connected(id: Id, stream: nat) | Closed(id: Id, stream: nat)

  type Trace = seq<Event>

  function After(live: map<Id, nat>, event: Event): map<Id, nat> {
    match event
    case Connected(id, stream) => live[id := stream]
    case Closed(id, _) => live - {id}
  }

  /** The streams left open by a trace. */
  function Live(trace: Trace): map<Id, nat> {
    if trace == [] then map[] else After(Live(trace[..|trace| - 1]), trace[|trace| - 1])
  }

  /** A connect finds its account without a stream; a close closes the very stream its
      account has open. */
  ghost predicate Fits(live: map<Id, nat>, event: Event) {
    match event
    case Connected(id, _) => id !in live
    case Closed(id, stream) => id in live && live[id] == stream
  }

  ghost predicate Alternates(trace: Trace) {
    trace == [] ||
      (Alternates(trace[..|trace| - 1]) && Fits(Live(trace[..|trace| - 1]), trace[|trace| - 1]))
  }

  lemma {:induction false} FitsAt(trace: Trace, i: nat)
    requires Alternates(trace) && i < |trace|
    ensures Fits(Live(trace[..i]), trace[i])
  {
    if i < |trace| - 1 {
      FitsAt(trace[..|trace| - 1], i);
      assert trace[..|trace| - 1][..i] == trace[..i];
    }
  }

  ghost predicate Untouched(trace: Trace, from: nat, until: nat, id: Id) {
    forall k :: from <= k < until && k < |trace| ==> trace[k].id != id
  }

  lemma LiveStep(trace: Trace, i: nat)
    requires i < |trace|
    ensures Live(trace[..i + 1]) == After(Live(trace[..i]), trace[i])
  {
    assert trace[..i + 1][..i] == trace[..i];
  }

  /** What is open for an account does not change while its events are absent. */
  lemma {:induction false} LiveUntouched(trace: Trace, from: nat, until: nat, id: Id)
    requires from <= until <= |trace| && Untouched(trace, from, until, id)
    ensures id in Live(trace[..until]) <==> id in Live(trace[..from])
    ensures id in Live(trace[..until]) ==> Live(trace[..until])[id] == Live(trace[..from])[id]
    decreases until
  {
    if from < until {
      LiveUntouched(trace, from, until - 1, id);
      LiveStep(trace, until - 1);
    }
  }

  /** Read per account: two neighbouring events of one account are a connect and a close, in
      turn, of the same stream when the connect comes first. */
  lemma NeighboursAlternate(trace: Trace, i: nat, j: nat)
    requires Alternates(trace)
    requires i < j < |trace| && trace[i].id == trace[j].id && Untouched(trace, i + 1, j, trace[i].id)
    ensures trace[i].Connected? ==> trace[j] == Closed(trace[i].id, trace[i].stream)
    ensures trace[i].Closed? ==> trace[j].Connected?
  {
    FitsAt(trace, i);
    FitsAt(trace, j);
    LiveStep(trace, i);
    LiveUntouched(trace, i + 1, j, trace[i].id);
  }

  /** An account's first event is a connect. */
  lemma FirstEventConnects(trace: Trace, i: nat)
    requires Alternates(trace) && i < |trace| && Untouched(trace, 0, i, trace[i].id)
    ensures trace[i].Connected?
  {
    FitsAt(trace, i);
    LiveUntouched(trace, 0, i, trace[i].id);
  }

  function Connects(trace: Trace, id: Id): nat {
    if trace == [] then 0
    else Connects(trace[..|trace| - 1], id) + (if trace[|trace| - 1].Connected? && trace[|trace| - 1].id == id then 1 else 0)
  }

  function Closes(trace: Trace, id: Id): nat {
    if trace == [] then 0
    else Closes(trace[..|trace| - 1], id) + (if trace[|trace| - 1].Closed? && trace[|trace| - 1].id == id then 1 else 0)
  }

  /** Conservation: connects exceed closes by one for an account with a stream, by none for any other. */
  lemma {:induction false} OneMoreConnectThanClose(trace: Trace, id: Id)
    requires Alternates(trace)
    ensures Connects(trace, id) == Closes(trace, id) + (if id in Live(trace) then 1 else 0)
  {
    if trace != [] {
      OneMoreConnectThanClose(trace[..|trace| - 1], id);
    }
  }

  lemma NothingLeft(trace: Trace)
    requires Alternates(trace) && Live(trace) == map[]
    ensures forall id :: Connects(trace, id) == Closes(trace, id)
  {
    forall id { OneMoreConnectThanClose(trace, id); }
  }

  lemma Extended(trace: Trace, event: Event)
    requires Alternates(trace)
    requires Fits(Live(trace), event)
    ensures Alternates(trace + [event])
    ensures Live(trace + [event]) == After(Live(trace), event)
  {
    assert (trace + [event])[..|trace|] == trace;
  }

  // ------------------------------------------------------------------ backoff

  datatype Policy = Policy(initial: nat, maximum: nat, factor: nat)

  function Pow(b: nat, e: nat): nat {
    if e == 0 then 1 else b * Pow(b, e - 1)
  }

  function DelayAfter(policy: Policy, failures: nat): nat {
    var delay := policy.initial * Pow(policy.factor, if failures > 0 then failures - 1 else 0);
    if delay < policy.maximum then delay else policy.maximum
  }

  /** The wait never shrinks as failures mount, and never passes the maximum. */
  lemma {:induction false} BackoffGrows(policy: Policy, failures: nat)
    requires policy.factor >= 1
    ensures DelayAfter(policy, failures) <= DelayAfter(policy, failures + 1) <= policy.maximum
  {
    if failures > 0 {
      PowGrows(policy.factor, failures - 1, policy.initial);
    }
  }

  /** The first wait is the initial one, and each further failure multiplies it, up to the maximum. */
  lemma BackoffMultiplies(policy: Policy, failures: nat)
    requires policy.factor >= 1 && failures >= 1
    ensures DelayAfter(policy, 1) == if policy.initial < policy.maximum then policy.initial else policy.maximum
    ensures var more := policy.factor * DelayAfter(policy, failures);
      DelayAfter(policy, failures + 1) == if more < policy.maximum then more else policy.maximum
  {
    var p := Pow(policy.factor, failures - 1);
    assert Pow(policy.factor, failures) == policy.factor * p && Pow(policy.factor, 0) == 1;
    TimesMinimum(policy.factor, policy.initial * p, policy.maximum);
    assert policy.initial * (policy.factor * p) == policy.factor * (policy.initial * p);
  }

  lemma TimesMinimum(factor: nat, x: nat, maximum: nat)
    requires factor >= 1
    ensures x >= maximum ==> factor * x >= maximum && factor * maximum >= maximum
  {
    if x >= maximum {
      assert (factor - 1) * x >= 0 && (factor - 1) * maximum >= 0;
      assert factor * x == (factor - 1) * x + x && factor * maximum == (factor - 1) * maximum + maximum;
    }
  }

  lemma PowGrows(b: nat, e: nat, times: nat)
    requires b >= 1
    ensures times * Pow(b, e) <= times * Pow(b, e + 1)
  {
    var p := Pow(b, e);
    assert Pow(b, e + 1) == b * p;
    assert 0 <= (b - 1) * p && b * p == p + (b - 1) * p;
    assert 0 <= times * ((b - 1) * p);
    assert times * (p + (b - 1) * p) == times * p + times * ((b - 1) * p);
  }

  // ------------------------------------------------------------------ manager

  datatype Attempt = Opens | NoCredentials(reason: string) | WontConnect(reason: string)

  datatype Health = Health(connected: bool, failures: nat, lastError: Option<string>)

  function HealthOf(health: map<Id, Health>, id: Id): Health {
    if id in health then health[id] else Health(false, 0, None)
  }

  function HealthAfter(before: Health, attempt: Attempt): Health {
    match attempt
    case Opens => before.(connected := true, failures := 0)
    case NoCredentials(reason) => before.(lastError := Some(reason))
    case WontConnect(reason) => before.(failures := before.failures + 1, lastError := Some(reason))
  }

  ghost predicate IsWorst(health: map<Id, Health>, worst: nat) {
    && (forall id :: id in health ==> health[id].failures <= worst)
    && (worst == 0 || exists id :: id in health && health[id].failures == worst)
  }

  /** What the manager holds: a stream and a reading task per account. `done` are the tasks
      that have come to an end by themselves; `next` numbers the streams. */
  datatype Manager = Manager(
    streams: map<Id, nat>, tasks: set<Id>, done: set<Id>, health: map<Id, Health>, next: nat, trace: Trace)

  ghost predicate Sound(m: Manager) {
    && m.streams.Keys == m.tasks
    && m.done <= m.tasks <= m.health.Keys
    && Alternates(m.trace)
    && Live(m.trace) == m.streams
    && forall id :: id in m.streams ==> m.streams[id] < m.next
  }

  function Opened(m: Manager, id: Id, attempt: Attempt): Manager {
    var health := m.health[id := HealthAfter(HealthOf(m.health, id), attempt)];
    if attempt.Opens? then
      Manager(m.streams[id := m.next], m.tasks + {id}, m.done, health, m.next + 1,
              m.trace + [Connected(id, m.next)])
    else m.(health := health)
  }

  function Retired(m: Manager, id: Id): Manager
    requires id in m.streams
  {
    Manager(m.streams - {id}, m.tasks - {id}, m.done - {id}, m.health, m.next,
            m.trace + [Closed(id, m.streams[id])])
  }

  /** Every account of a list in turn, leaving alone those that are running. */
  function StartAll(m: Manager, eligible: seq<Id>, attempt: Id -> Attempt): Manager {
    if eligible == [] then m
    else
      var before, id := StartAll(m, eligible[..|eligible| - 1], attempt), eligible[|eligible| - 1];
      if id in before.tasks then before else Opened(before, id, attempt(id))
  }

  ghost predicate Distinct(ids: seq<Id>) {
    forall i, j :: 0 <= i < j < |ids| ==> ids[i] != ids[j]
  }

  ghost predicate Opening(m: Manager, eligible: seq<Id>, attempt: Id -> Attempt, id: Id) {
    id in eligible && id !in m.tasks && attempt(id).Opens?
  }

  /** A start adds exactly the accounts that could be opened, on new streams, and leaves what
      was running where it was. */
  ghost predicate AddsOpened(m: Manager, eligible: seq<Id>, attempt: Id -> Attempt, m': Manager) {
    && m'.streams.Keys == m'.tasks
    && (forall id :: id in m'.tasks <==> id in m.tasks || Opening(m, eligible, attempt, id))
    && (forall id :: id in m.streams ==> id in m'.streams && m'.streams[id] == m.streams[id])
    && (forall id :: id in m'.streams && id !in m.streams ==> m'.streams[id] >= m.next)
    && m'.done == m.done && m.next <= m'.next
  }

  /** Nothing has happened but connects of accounts that had no stream. */
  ghost predicate OnlyConnects(m: Manager, m': Manager) {
    && m.trace <= m'.trace
    && forall i :: |m.trace| <= i < |m'.trace| ==> m'.trace[i].Connected? && m'.trace[i].id !in m.tasks
  }

  /** How one attempt shows in an account's health: an open stream clears the failures; a refused
      connection counts as one more; missing credentials do not count. */
  ghost predicate TellsAttempt(before: Health, attempt: Attempt, after: Health) {
    match attempt
    case Opens => after == Health(true, 0, before.lastError)
    case NoCredentials(reason) => after == Health(before.connected, before.failures, Some(reason))
    case WontConnect(reason) => after == Health(before.connected, before.failures + 1, Some(reason))
  }

  /** Each account's health tells how its own attempt went, and nobody else's changes. */
  ghost predicate RecordsAttempts(m: Manager, eligible: seq<Id>, attempt: Id -> Attempt, m': Manager) {
    forall id ::
      if id in eligible && id !in m.tasks then TellsAttempt(HealthOf(m.health, id), attempt(id), HealthOf(m'.health, id))
      else HealthOf(m'.health, id) == HealthOf(m.health, id)
  }

  lemma OpenedSound(m: Manager, id: Id, attempt: Attempt)
    requires Sound(m) && id !in m.tasks
    ensures Sound(Opened(m, id, attempt))
  {
    Extended(m.trace, Connected(id, m.next));
  }

  lemma RetiredSound(m: Manager, id: Id)
    requires Sound(m) && id in m.tasks
    ensures Sound(Retired(m, id))
  {
    Extended(m.trace, Closed(id, m.streams[id]));
  }

  lemma {:induction false} StartAllAdds(m: Manager, eligible: seq<Id>, attempt: Id -> Attempt)
    requires m.streams.Keys == m.tasks && Distinct(eligible)
    ensures AddsOpened(m, eligible, attempt, StartAll(m, eligible, attempt))
  {
    if eligible != [] {
      var front, id := eligible[..|eligible| - 1], eligible[|eligible| - 1];
      StartAllAdds(m, front, attempt);
      assert eligible == front + [id] && id !in front;
      assert forall x :: Opening(m, eligible, attempt, x) <==>
        Opening(m, front, attempt, x) || (x == id && Opening(m, eligible, attempt, id));
    }
  }

  lemma {:induction false} StartAllSound(m: Manager, eligible: seq<Id>, attempt: Id -> Attempt)
    requires Sound(m)
    ensures Sound(StartAll(m, eligible, attempt))
  {
    if eligible != [] {
      var front, id := eligible[..|eligible| - 1], eligible[|eligible| - 1];
      StartAllSound(m, front, attempt);
      var before := StartAll(m, front, attempt);
      if id !in before.tasks {
        OpenedSound(before, id, attempt(id));
      }
    }
  }

  lemma {:induction false} StartAllConnects(m: Manager, eligible: seq<Id>, attempt: Id -> Attempt)
    ensures OnlyConnects(m, StartAll(m, eligible, attempt))
    ensures m.tasks <= StartAll(m, eligible, attempt).tasks
  {
    if eligible != [] {
      StartAllConnects(m, eligible[..|eligible| - 1], attempt);
    }
  }

  lemma OpenedRecords(m: Manager, id: Id, attempt: Attempt, other: Id)
    ensures TellsAttempt(HealthOf(m.health, id), attempt, HealthOf(Opened(m, id, attempt).health, id))
    ensures other != id ==> HealthOf(Opened(m, id, attempt).health, other) == HealthOf(m.health, other)
  {
  }

  lemma {:induction false} StartAllRecords(m: Manager, eligible: seq<Id>, attempt: Id -> Attempt)
    requires m.streams.Keys == m.tasks && Distinct(eligible)
    ensures RecordsAttempts(m, eligible, attempt, StartAll(m, eligible, attempt))
  {
    if eligible != [] {
      var front, id := eligible[..|eligible| - 1], eligible[|eligible| - 1];
      var before := StartAll(m, front, attempt);
      StartAllRecords(m, front, attempt);
      StartAllAdds(m, front, attempt);
      assert eligible == front + [id] && id !in front;
      assert !Opening(m, front, attempt, id);
      forall other { OpenedRecords(before, id, attempt(id), other); }
    }
  }

  /** Accounts `gone` have been retired since `m`, and nothing else has happened. */
  ghost predicate Swept(m: Manager, gone: set<Id>, m': Manager) {
    && Sound(m')
    && m'.tasks == m.tasks - gone && m'.streams == m.streams - gone && m'.done == m.done - gone
    && m'.health == m.health && m'.next == m.next
    && m.trace <= m'.trace
    && forall i :: |m.trace| <= i < |m'.trace| ==> m'.trace[i].Closed? && m'.trace[i].id in gone
  }

  lemma SweptNothing(m: Manager)
    requires Sound(m)
    ensures Swept(m, {}, m)
  {
  }

  lemma SweptFurther(m: Manager, gone: set<Id>, m': Manager, id: Id)
    requires Swept(m, gone, m') && id in m'.tasks
    ensures Swept(m, gone + {id}, Retired(m', id))
  {
    RetiredSound(m', id);
  }

  lemma RunningUntouched(m: Manager, swept: Manager, m': Manager, id: Id)
    requires Swept(m, m.done, swept) && OnlyConnects(swept, m') && id in m.tasks - m.done
    ensures Untouched(m'.trace, |m.trace|, |m'.trace|, id)
  {
    forall k | |m.trace| <= k < |m'.trace| ensures m'.trace[k].id != id {
      if k < |swept.trace| {
        assert m'.trace[k] == swept.trace[k];
      }
    }
  }

  /** A reconciliation replaces what has stopped and does not touch a running account: no event
      of it, and the same stream. What stopped never keeps its old stream. */
  ghost predicate Reconciled(m: Manager, eligible: seq<Id>, attempt: Id -> Attempt, m': Manager) {
    && m'.done == {} && m'.streams.Keys == m'.tasks
    && (forall id :: id in m'.tasks <==> id in m.tasks - m.done || (id in eligible && attempt(id).Opens?))
    && (forall id :: id in m.tasks - m.done ==>
          && id in m.streams && id in m'.streams && m'.streams[id] == m.streams[id]
          && Untouched(m'.trace, |m.trace|, |m'.trace|, id))
    && (forall id :: id in m.done && id in m'.streams ==> id in m.streams && m'.streams[id] != m.streams[id])
  }

  lemma ReconcileEffect(m: Manager, swept: Manager, eligible: seq<Id>, attempt: Id -> Attempt)
    requires Sound(m) && Swept(m, m.done, swept) && Distinct(eligible)
    ensures Reconciled(m, eligible, attempt, StartAll(swept, eligible, attempt))
  {
    var m' := StartAll(swept, eligible, attempt);
    StartAllAdds(swept, eligible, attempt);
    StartAllConnects(swept, eligible, attempt);
    forall id | id in m.tasks - m.done
      ensures Untouched(m'.trace, |m.trace|, |m'.trace|, id)
    {
      RunningUntouched(m, swept, m', id);
    }
    forall id ensures Opening(swept, eligible, attempt, id) <==>
      id in eligible && attempt(id).Opens? && id !in m.tasks - m.done {}
  }

  // ------------------------------------------------------------------ reports

  function Started(m: Manager, eligible: seq<Id>, attempt: Id -> Attempt): seq<Id> {
    if eligible == [] then []
    else
      var front, id := Started(m, eligible[..|eligible| - 1], attempt), eligible[|eligible| - 1];
      if id in m.tasks || attempt(id).Opens? then front + [id] else front
  }

  function Unavailable(m: Manager, eligible: seq<Id>, attempt: Id -> Attempt): map<Id, string> {
    if eligible == [] then map[]
    else
      var front, id := Unavailable(m, eligible[..|eligible| - 1], attempt), eligible[|eligible| - 1];
      if id in m.tasks || attempt(id).Opens? then front else front[id := attempt(id).reason]
  }

  /** One more account of the list, as the loop takes it. */
  lemma StartStep(m: Manager, eligible: seq<Id>, attempt: Id -> Attempt, n: nat)
    requires m.streams.Keys == m.tasks && Distinct(eligible) && n < |eligible|
    ensures var id, before := eligible[n], StartAll(m, eligible[..n], attempt);
      && (id in before.tasks <==> id in m.tasks)
      && StartAll(m, eligible[..n + 1], attempt) ==
           (if id in before.tasks then before else Opened(before, id, attempt(id)))
  {
    assert eligible[..n + 1][..n] == eligible[..n];
    StartAllAdds(m, eligible[..n], attempt);
    assert !Opening(m, eligible[..n], attempt, eligible[n]);
  }

  lemma ReportStep(m: Manager, eligible: seq<Id>, attempt: Id -> Attempt, n: nat)
    requires n < |eligible|
    ensures var id := eligible[n];
      && Started(m, eligible[..n + 1], attempt) == Started(m, eligible[..n], attempt) +
           (if id in m.tasks || attempt(id).Opens? then [id] else [])
      && Unavailable(m, eligible[..n + 1], attempt) ==
           (if id in m.tasks || attempt(id).Opens? then Unavailable(m, eligible[..n], attempt)
            else Unavailable(m, eligible[..n], attempt)[id := attempt(id).reason])
  {
    assert eligible[..n + 1][..n] == eligible[..n];
  }

  /** Each eligible account is reported exactly once: started if and only if it now runs,
      otherwise unavailable with the reason it failed for. */
  lemma {:induction false} ReportedOnce(m: Manager, eligible: seq<Id>, attempt: Id -> Attempt, id: Id)
    requires m.streams.Keys == m.tasks && Distinct(eligible)
    ensures var started, unavailable := Started(m, eligible, attempt), Unavailable(m, eligible, attempt);
      && (id in eligible <==> id in started || id in unavailable)
      && !(id in started && id in unavailable)
      && (id in eligible ==> (id in started <==> id in StartAll(m, eligible, attempt).tasks))
      && (id in unavailable ==> !attempt(id).Opens? && unavailable[id] == attempt(id).reason)
      && multiset(started)[id] <= 1
  {
    StartAllAdds(m, eligible, attempt);
    if eligible != [] {
      var front, last := eligible[..|eligible| - 1], eligible[|eligible| - 1];
      assert eligible == front + [last] && last !in front;
      ReportedOnce(m, front, attempt, id);
      ReportedOnce(m, front, attempt, last);
      assert last !in Started(m, front, attempt);
    }
  }

  ghost predicate ComesBefore(ids: seq<Id>, a: Id, b: Id) {
    exists p, q :: 0 <= p < q < |ids| && ids[p] == a && ids[q] == b
  }

  lemma {:induction false} StartedListed(m: Manager, eligible: seq<Id>, attempt: Id -> Attempt, id: Id)
    requires id in Started(m, eligible, attempt)
    ensures id in eligible
  {
    if eligible != [] {
      var front, last := eligible[..|eligible| - 1], eligible[|eligible| - 1];
      if id in Started(m, front, attempt) {
        StartedListed(m, front, attempt, id);
      }
    }
  }

  /** The started accounts are reported in the order they were taken. */
  lemma {:induction false} StartedInOrder(m: Manager, eligible: seq<Id>, attempt: Id -> Attempt, i: nat, j: nat)
    requires i < j < |Started(m, eligible, attempt)|
    ensures ComesBefore(eligible, Started(m, eligible, attempt)[i], Started(m, eligible, attempt)[j])
  {
    var front, last := eligible[..|eligible| - 1], eligible[|eligible| - 1];
    var before, a := Started(m, front, attempt), Started(m, eligible, attempt)[i];
    if j < |before| {
      StartedInOrder(m, front, attempt, i, j);
      var p, q :| 0 <= p < q < |front| && front[p] == a && front[q] == before[j];
      assert eligible[p] == a && eligible[q] == before[j];
    } else {
      assert a == before[i] && a in before;
      StartedListed(m, front, attempt, a);
      var p :| 0 <= p < |front| && front[p] == a;
      assert eligible[p] == a && eligible[|eligible| - 1] == last;
    }
  }

  // -------------------------------------------------------------------- class

  class AccountStreamManager {
    const policy: Policy
    var streams: map<Id, nat>
    var tasks: set<Id>
    var done: set<Id>
    var health: map<Id, Health>
    var next: nat
    ghost var trace: Trace

    ghost function State(): Manager
      reads this
    {
      Manager(streams, tasks, done, health, next, trace)
    }

    constructor (policy: Policy)
      ensures Sound(State()) && tasks == {} && trace == [] && this.policy == policy
    {
      this.policy := policy;
      streams, tasks, done, health, next, trace := map[], {}, {}, map[], 0, [];
    }

    /** A stream's reader comes to its end. */
    method TaskEnds(id: Id)
      requires Sound(State()) && id in tasks
      modifies this`done, this`health
      ensures Sound(State()) && done == old(done) + {id}
      ensures health == old(health)[id := old(health)[id].(connected := false)]
    {
      done := done + {id};
      health := health[id := health[id].(connected := false)];
    }

    method Open(id: Id, attempt: Attempt) returns (reason: Option<string>)
      modifies this`streams, this`tasks, this`health, this`next, this`trace
      ensures State() == Opened(old(State()), id, attempt)
      ensures reason == if attempt.Opens? then None else Some(attempt.reason)
    {
      var before := HealthOf(health, id);
      match attempt {
        case NoCredentials(why) =>
          health := health[id := before.(lastError := Some(why))];
          return Some(why);
        case WontConnect(why) =>
          health := health[id := before.(failures := before.failures + 1, lastError := Some(why))];
          return Some(why);
        case Opens =>
          streams := streams[id := next];
          tasks := tasks + {id};
          health := health[id := before.(connected := true, failures := 0)];
          trace := trace + [Connected(id, next)];
          next := next + 1;
          return None;
      }
    }

    /** Open a stream for every eligible account that has none. */
    method Start(eligible: seq<Id>, attempt: Id -> Attempt)
      returns (started: seq<Id>, unavailable: map<Id, string>)
      requires Sound(State()) && Distinct(eligible)
      modifies this`streams, this`tasks, this`health, this`next, this`trace
      ensures State() == StartAll(old(State()), eligible, attempt)
      ensures Sound(State())
      ensures started == Started(old(State()), eligible, attempt)
      ensures unavailable == Unavailable(old(State()), eligible, attempt)
    {
      ghost var m := State();
      started, unavailable := [], map[];
      for n := 0 to |eligible|
        invariant State() == StartAll(m, eligible[..n], attempt)
        invariant started == Started(m, eligible[..n], attempt)
        invariant unavailable == Unavailable(m, eligible[..n], attempt)
      {
        var id := eligible[n];
        StartStep(m, eligible, attempt, n);
        ReportStep(m, eligible, attempt, n);
        if id in tasks {
          started := started + [id];
        } else {
          var reason := Open(id, attempt(id));
          if reason.None? {
            started := started + [id];
          } else {
            unavailable := unavailable[id := reason.value];
          }
        }
      }
      assert eligible[..|eligible|] == eligible;
      StartAllSound(m, eligible, attempt);
    }

    method Retire(id: Id)
      requires id in streams
      modifies this`streams, this`tasks, this`done, this`trace
      ensures State() == Retired(old(State()), id)
    {
      tasks, done := tasks - {id}, done - {id};
      trace := trace + [Closed(id, streams[id])];
      streams := streams - {id};
    }

    /** One more account retired of those that are to go. */
    method RetireNext(id: Id, ghost m: Manager, ghost gone: set<Id>)
      requires Swept(m, gone, State()) && id in tasks
      modifies this`streams, this`tasks, this`done, this`trace
      ensures Swept(m, gone + {id}, State())
      ensures tasks == old(tasks) - {id} && done == old(done) - {id}
    {
      SweptFurther(m, gone, State(), id);
      Retire(id);
    }

    /** The most failures in a row of any account; none when every one is well. */
    method WorstFailures() returns (worst: nat)
      ensures IsWorst(health, worst)
    {
      worst := 0;
      var left := health.Keys;
      while left != {}
        invariant left <= health.Keys
        invariant forall id :: id in health && id !in left ==> health[id].failures <= worst
        invariant worst == 0 || exists id :: id in health && health[id].failures == worst
        decreases |left|
      {
        var id :| id in left;
        if health[id].failures > worst {
          worst := health[id].failures;
        }
        left := left - {id};
      }
    }

    /** Close the streams whose tasks have ended. */
    method Sweep()
      requires Sound(State())
      modifies this`streams, this`tasks, this`done, this`trace
      ensures Swept(old(State()), old(done), State())
    {
      ghost var m, gone := State(), {};
      SweptNothing(m);
      var left := done;
      while left != {}
        invariant left == done && gone + left == m.done && Swept(m, gone, State())
        decreases |left|
      {
        var id :| id in left;
        RetireNext(id, m, gone);
        gone, left := gone + {id}, left - {id};
      }
      assert gone == m.done;
    }

    /** Replace whatever has stopped, waiting first when nothing is up and something failed. */
    method Reconcile(eligible: seq<Id>, attempt: Id -> Attempt)
      returns (started: seq<Id>, unavailable: map<Id, string>, slept: nat, ghost swept: Manager)
      requires Sound(State()) && Distinct(eligible)
      modifies this
      ensures Sound(State()) && Reconciled(old(State()), eligible, attempt, State())
      ensures Swept(old(State()), old(done), swept) && State() == StartAll(swept, eligible, attempt)
      ensures started == Started(swept, eligible, attempt)
      ensures unavailable == Unavailable(swept, eligible, attempt)
      ensures swept.tasks != {} ==> slept == 0
      ensures swept.tasks == {} ==> (exists worst: nat ::
        IsWorst(swept.health, worst) && slept == (if worst > 0 then DelayAfter(policy, worst) else 0))
    {
      ghost var m := State();
      Sweep();
      swept := State();
      slept := 0;
      if tasks == {} {
        var failures := WorstFailures();
        if failures > 0 {
          slept := DelayAfter(policy, failures);
        }
      }
      ReconcileEffect(m, swept, eligible, attempt);
      started, unavailable := Start(eligible, attempt);
    }

    method RetireAll()
      requires Sound(State())
      modifies this`streams, this`tasks, this`done, this`trace
      ensures Swept(old(State()), old(tasks), State())
    {
      ghost var m, gone := State(), {};
      SweptNothing(m);
      var left := tasks;
      while left != {}
        invariant left == tasks && gone <= m.tasks && Swept(m, gone, State())
        decreases |left|
      {
        var id :| id in left;
        RetireNext(id, m, gone);
        gone, left := gone + {id}, left - {id};
      }
      assert gone == m.tasks;
    }

    /** Close every stream. */
    method Stop()
      requires Sound(State())
      modifies this
      ensures Sound(State()) && tasks == {} && old(trace) <= trace
      ensures forall id :: Connects(trace, id) == Closes(trace, id)
      ensures health == map id | id in old(health) :: old(health)[id].(connected := false)
    {
      RetireAll();
      NothingLeft(trace);
      health := map id | id in health :: health[id].(connected := false);
    }
  }
}
