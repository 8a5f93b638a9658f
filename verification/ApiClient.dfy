/** Single-flight token refresh with a queue of waiters (`frontend/src/api/client.ts`). Requests,
    responses and the end of a refresh are the events of a state machine. */
module ApiClient {

  type Id = nat

  /** `GaveUp` is a request whose own refresh failed; a `Stranded` one waited for a refresh that
      failed, and its promise is settled by nobody. */
  datatype Status = InFlight | Waiting | Leading | Resolved | Rejected | GaveUp | Stranded

  /** `retried` is the `_retry` mark; `sends` and `waits` count what has happened to it. */
  datatype Request = Request(status: Status, authEndpoint: bool, retried: bool, sends: nat, waits: nat)

  datatype Client = Client(
    requests: map<Id, Request>, refreshing: bool, waiters: seq<Id>, redirecting: bool, hasRefreshToken: bool)

  datatype Answer = Success | Unauthorized | OtherError

  datatype Event =
    | Send(id: Id, authEndpoint: bool)
    | Respond(id: Id, answer: Answer)
    | RefreshEnds(ok: bool)
    | TokenChanges(present: bool)

  // --------------------------------------------------------------------- steps

  ghost predicate Enabled(c: Client, event: Event) {
    match event
    case Send(id, _) => id !in c.requests
    case Respond(id, _) => id in c.requests && c.requests[id].status.InFlight?
    case RefreshEnds(_) => c.refreshing
    case TokenChanges(_) => true
  }

  function WithStatus(c: Client, id: Id, status: Status): Client
    requires id in c.requests
  {
    c.(requests := c.requests[id := c.requests[id].(status := status)])
  }

  function Queued(r: Request): Request { r.(status := Waiting, waits := r.waits + 1) }

  function Sent(r: Request): Request { r.(status := InFlight, sends := r.sends + 1) }

  /** The 401 branch of the response interceptor. */
  function OnUnauthorized(c: Client, id: Id): Client
    requires id in c.requests
  {
    var r := c.requests[id];
    if r.retried || r.authEndpoint || !c.hasRefreshToken then WithStatus(c, id, Rejected)
    else if c.refreshing then
      c.(requests := c.requests[id := Queued(r)], waiters := c.waiters + [id])
    else
      c.(requests := c.requests[id := r.(status := Leading, retried := true)], refreshing := true)
  }

  /** Every waiter and the leader are sent again. */
  function Released(requests: map<Id, Request>): map<Id, Request> {
    map id | id in requests ::
      if requests[id].status.Waiting? || requests[id].status.Leading? then Sent(requests[id]) else requests[id]
  }

  /** The leader is rejected; its waiters are dropped. */
  function Abandoned(requests: map<Id, Request>): map<Id, Request> {
    map id | id in requests ::
      if requests[id].status.Leading? then requests[id].(status := GaveUp)
      else if requests[id].status.Waiting? then requests[id].(status := Stranded)
      else requests[id]
  }

  function Next(c: Client, event: Event): Client
    requires Enabled(c, event)
  {
    match event
    case Send(id, authEndpoint) => c.(requests := c.requests[id := Request(InFlight, authEndpoint, false, 1, 0)])
    case Respond(id, Success) => WithStatus(c, id, Resolved)
    case Respond(id, OtherError) => WithStatus(c, id, Rejected)
    case Respond(id, Unauthorized) => OnUnauthorized(c, id)
    case RefreshEnds(true) => c.(requests := Released(c.requests), waiters := [], refreshing := false)
    case RefreshEnds(false) =>
      c.(requests := Abandoned(c.requests), waiters := [], refreshing := false, redirecting := true,
         hasRefreshToken := c.hasRefreshToken && c.redirecting)
    case TokenChanges(present) => c.(hasRefreshToken := present)
  }

  // ---------------------------------------------------------------- invariants

  ghost predicate Owed(r: Request) {
    r.status.Waiting? || r.status.Leading? || r.status.GaveUp? || r.status.Stranded?
  }

  /** Every queueing and every led refresh is paid for by one more send, unless it is still
      pending or its refresh failed. */
  ghost predicate Conserved(r: Request) {
    && r.sends + (if Owed(r) then 1 else 0) == 1 + r.waits + (if r.retried then 1 else 0)
    && (r.status.Leading? || r.status.GaveUp? ==> r.retried)
  }

  ghost predicate Leads(c: Client, id: Id) {
    id in c.requests && c.requests[id].status.Leading?
  }

  ghost predicate Sound(c: Client) {
    && (forall i, j :: 0 <= i < j < |c.waiters| ==> c.waiters[i] != c.waiters[j])
    && (forall id :: id in c.waiters <==> id in c.requests && c.requests[id].status.Waiting?)
    && (c.refreshing <==> exists id :: Leads(c, id))
    && (forall a, b :: Leads(c, a) && Leads(c, b) ==> a == b)
    && (!c.refreshing ==> c.waiters == [])
    && (forall id :: id in c.requests ==> Conserved(c.requests[id]))
  }

  const FRESH := Client(map[], false, [], false, true)

  lemma SendSound(c: Client, id: Id, authEndpoint: bool)
    requires Sound(c) && id !in c.requests
    ensures Sound(Next(c, Send(id, authEndpoint)))
  {
    var c' := Next(c, Send(id, authEndpoint));
    assert forall x :: Leads(c', x) <==> Leads(c, x);
  }

  /** One request, in flight, changes to a status other than waiting or leading. */
  lemma SettleSound(c: Client, id: Id, status: Status)
    requires Sound(c) && id in c.requests && c.requests[id].status.InFlight?
    requires status.Resolved? || status.Rejected?
    ensures Sound(WithStatus(c, id, status))
  {
    var c' := WithStatus(c, id, status);
    assert forall x :: Leads(c', x) <==> Leads(c, x);
  }

  lemma QueueSound(c: Client, id: Id)
    requires Sound(c) && id in c.requests && c.requests[id].status.InFlight? && c.refreshing
    ensures Sound(c.(requests := c.requests[id := Queued(c.requests[id])], waiters := c.waiters + [id]))
  {
    var c' := c.(requests := c.requests[id := Queued(c.requests[id])], waiters := c.waiters + [id]);
    assert forall x :: Leads(c', x) <==> Leads(c, x);
    assert id !in c.waiters;
  }

  lemma LeadSound(c: Client, id: Id)
    requires Sound(c) && id in c.requests && c.requests[id].status.InFlight? && !c.refreshing
    requires !c.requests[id].retried
    ensures Sound(c.(requests := c.requests[id := c.requests[id].(status := Leading, retried := true)], refreshing := true))
  {
    var c' := c.(requests := c.requests[id := c.requests[id].(status := Leading, retried := true)], refreshing := true);
    assert forall x :: Leads(c', x) <==> x == id || Leads(c, x);
    assert Leads(c', id);
  }

  lemma EndSound(c: Client, ok: bool)
    requires Sound(c) && c.refreshing
    ensures Sound(Next(c, RefreshEnds(ok)))
  {
    var c' := Next(c, RefreshEnds(ok));
    assert forall x :: !Leads(c', x);
  }

  /** At most one refresh is in flight, the queue holds exactly the waiting requests, each once,
      and is empty when no refresh is in flight. */
  lemma StepSound(c: Client, event: Event)
    requires Sound(c) && Enabled(c, event)
    ensures Sound(Next(c, event))
  {
    match event {
      case Send(id, authEndpoint) => SendSound(c, id, authEndpoint);
      case RefreshEnds(ok) => EndSound(c, ok);
      case Respond(id, Success) => SettleSound(c, id, Resolved);
      case Respond(id, OtherError) => SettleSound(c, id, Rejected);
      case Respond(id, Unauthorized) =>
        var r := c.requests[id];
        if r.retried || r.authEndpoint || !c.hasRefreshToken {
          SettleSound(c, id, Rejected);
        } else if c.refreshing {
          QueueSound(c, id);
        } else {
          LeadSound(c, id);
        }
      case TokenChanges(_) =>
        assert forall x :: Leads(Next(c, event), x) <==> Leads(c, x);
    }
  }

  // ---------------------------------------------------------------------- runs

  ghost predicate LegalRun(c: Client, events: seq<Event>)
    decreases |events|
  {
    events == [] || (Enabled(c, events[0]) && LegalRun(Next(c, events[0]), events[1..]))
  }

  ghost function Run(c: Client, events: seq<Event>): Client
    requires LegalRun(c, events)
    decreases |events|
  {
    if events == [] then c else Run(Next(c, events[0]), events[1..])
  }

  lemma {:induction false} RunSound(c: Client, events: seq<Event>)
    requires Sound(c) && LegalRun(c, events)
    ensures Sound(Run(c, events))
    decreases |events|
  {
    if events != [] {
      StepSound(c, events[0]);
      RunSound(Next(c, events[0]), events[1..]);
    }
  }

  /** The end of a refresh empties the queue, every waiter leaving it at once: sent again, once,
      if the refresh succeeded; otherwise left unsettled. Nothing else moves. */
  lemma EveryWaiterLeaves(c: Client, ok: bool, id: Id)
    requires Sound(c) && c.refreshing && id in c.requests
    ensures var c' := Next(c, RefreshEnds(ok));
      && c'.waiters == [] && !c'.refreshing
      && id in c'.requests
      && (id in c.waiters ==> c'.requests[id] == if ok then Sent(c.requests[id]) else c.requests[id].(status := Stranded))
      && (c.requests[id].status.Leading? ==> c'.requests[id] == if ok then Sent(c.requests[id]) else c.requests[id].(status := GaveUp))
      && (id !in c.waiters && !c.requests[id].status.Leading? ==> c'.requests[id] == c.requests[id])
  {
    assert id in c.waiters <==> c.requests[id].status.Waiting?;
  }

  /** What an answer does to its request: success resolves it and any other error rejects it; a 401
      rejects one that has led a refresh, goes to an endpoint of its own or has no token to refresh
      with, queues behind a refresh in flight, and leads one otherwise. Nobody else moves. */
  lemma AnsweredExactly(c: Client, id: Id, answer: Answer)
    requires Enabled(c, Respond(id, answer))
    ensures var was, c' := c.requests[id], Next(c, Respond(id, answer));
      var barred := was.retried || was.authEndpoint || !c.hasRefreshToken;
      && c'.requests.Keys == c.requests.Keys
      && (c'.requests[id].status.Resolved? <==> answer == Success)
      && (c'.requests[id].status.Rejected? <==> answer == OtherError || (answer == Unauthorized && barred))
      && (c'.requests[id].status.Waiting? <==> answer == Unauthorized && !barred && c.refreshing)
      && (c'.requests[id].status.Leading? <==> answer == Unauthorized && !barred && !c.refreshing)
      && c'.requests[id].sends == was.sends && c'.requests[id].authEndpoint == was.authEndpoint
      && (forall x :: x in c.requests && x != id ==> c'.requests[x] == c.requests[x])
      && c'.hasRefreshToken == c.hasRefreshToken && c'.redirecting == c.redirecting
  {
  }

  /** A token stored or removed elsewhere is all that changes. */
  lemma TokenChangesAlone(c: Client, present: bool)
    ensures Next(c, TokenChanges(present)) ==
      Client(c.requests, c.refreshing, c.waiters, c.redirecting, present)
  {
  }

  /** The first refresh to fail clears the refresh token and starts the redirect to sign in; later
      ones find it started. */
  lemma FailureRedirectsOnce(c: Client, ok: bool)
    requires c.refreshing
    ensures var c' := Next(c, RefreshEnds(ok));
      && c'.redirecting == (c.redirecting || !ok)
      && c'.hasRefreshToken == (c.hasRefreshToken && (ok || c.redirecting))
  {
  }

  lemma ResolvedStep(c: Client, event: Event, id: Id)
    requires Enabled(c, event)
    ensures var now := id in Next(c, event).requests && Next(c, event).requests[id].status.Resolved?;
      now <==> (id in c.requests && c.requests[id].status.Resolved?) || event == Respond(id, Success)
  {
    if event.Respond? {
      AnsweredExactly(c, event.id, event.answer);
    }
  }

  /** Over every run a caller gets a result exactly when the server once answered its request. */
  lemma {:induction false} ResolvedExactly(c: Client, events: seq<Event>, id: Id)
    requires LegalRun(c, events)
    ensures (id in Run(c, events).requests && Run(c, events).requests[id].status.Resolved?)
       <==> (id in c.requests && c.requests[id].status.Resolved?) || Respond(id, Success) in events
    decreases |events|
  {
    if events != [] {
      ResolvedStep(c, events[0], id);
      ResolvedExactly(Next(c, events[0]), events[1..], id);
      assert events == [events[0]] + events[1..];
    }
  }

  /** A request to an endpoint of the sign-in itself goes out once and never has to do with a refresh. */
  ghost predicate StaysOut(c: Client) {
    forall id :: id in c.requests && c.requests[id].authEndpoint ==>
      var r := c.requests[id];
      (r.status.InFlight? || r.status.Resolved? || r.status.Rejected?) && r.sends == 1 && !r.retried
  }

  lemma StepStaysOut(c: Client, event: Event)
    requires StaysOut(c) && Enabled(c, event)
    ensures StaysOut(Next(c, event))
  {
    match event {
      case Respond(id, answer) => RespondStaysOut(c, id, answer);
      case RefreshEnds(ok) => EndStaysOut(c, ok);
      case _ =>
    }
  }

  lemma RespondStaysOut(c: Client, id: Id, answer: Answer)
    requires StaysOut(c) && Enabled(c, Respond(id, answer))
    ensures StaysOut(Next(c, Respond(id, answer)))
  {
    AnsweredExactly(c, id, answer);
    assert c.requests[id].authEndpoint ==> Next(c, Respond(id, answer)).requests[id].retried == c.requests[id].retried;
  }

  lemma EndStaysOut(c: Client, ok: bool)
    requires StaysOut(c) && c.refreshing
    ensures StaysOut(Next(c, RefreshEnds(ok)))
  {
  }

  /** Over every run: signing in never waits for, nor starts, a refresh. */
  lemma {:induction false} RunStaysOut(c: Client, events: seq<Event>)
    requires StaysOut(c) && LegalRun(c, events)
    ensures StaysOut(Run(c, events))
    decreases |events|
  {
    if events != [] {
      StepStaysOut(c, events[0]);
      RunStaysOut(Next(c, events[0]), events[1..]);
    }
  }

  // --------------------------------------------------------------- termination

  ghost function Unretried(c: Client): set<Id> {
    set id | id in c.requests && !c.requests[id].retried
  }

  ghost function Flying(c: Client): set<Id> {
    set id | id in c.requests && c.requests[id].status.InFlight?
  }

  /** What is left to happen to at most `bound` requests. */
  ghost function Measure(unretried: nat, refreshing: bool, flying: nat, bound: nat): nat {
    unretried * (2 * bound + 3) + (if refreshing then bound + 1 else 0) + flying
  }

  ghost function MeasureOf(c: Client, bound: nat): nat {
    Measure(|Unretried(c)|, c.refreshing, |Flying(c)|, bound)
  }

  lemma SubsetSize<T>(a: set<T>, b: set<T>)
    requires a <= b
    ensures |a| <= |b|
  {
    assert b == a + (b - a);
  }

  lemma LeadingPays(unretried: nat, flying: nat, bound: nat)
    requires unretried > 0 && flying > 0
    ensures Measure(unretried - 1, true, flying - 1, bound) < Measure(unretried, false, flying, bound)
  {
    assert unretried * (2 * bound + 3) == (unretried - 1) * (2 * bound + 3) + (2 * bound + 3);
  }

  /** One request, in flight until now, leaves the air and nobody else moves. */
  ghost predicate Lands(c: Client, id: Id, c': Client) {
    && id in c.requests && c.requests[id].status.InFlight?
    && c'.requests.Keys == c.requests.Keys && !c'.requests[id].status.InFlight?
    && (forall x :: x in c.requests && x != id ==> c'.requests[x] == c.requests[x])
  }

  lemma UnauthorizedLands(c: Client, id: Id)
    requires id in c.requests && c.requests[id].status.InFlight?
    ensures var c' := OnUnauthorized(c, id);
      && Lands(c, id, c')
      && (if c'.requests[id].retried == c.requests[id].retried then c'.refreshing == c.refreshing
          else !c.requests[id].retried && !c.refreshing && c'.refreshing)
  {
  }

  lemma ResponseLands(c: Client, id: Id, answer: Answer)
    requires Enabled(c, Respond(id, answer))
    ensures var c' := Next(c, Respond(id, answer));
      && Lands(c, id, c')
      && (if c'.requests[id].retried == c.requests[id].retried then c'.refreshing == c.refreshing
          else !c.requests[id].retried && !c.refreshing && c'.refreshing)
  {
    if answer.Unauthorized? {
      UnauthorizedLands(c, id);
    }
  }

  lemma LandingCounts(c: Client, id: Id, c': Client)
    requires Lands(c, id, c')
    ensures |Flying(c)| == |Flying(c')| + 1
    ensures c'.requests[id].retried == c.requests[id].retried ==> Unretried(c') == Unretried(c)
    ensures !c.requests[id].retried && c'.requests[id].retried ==> |Unretried(c)| == |Unretried(c')| + 1
  {
    assert Flying(c') == Flying(c) - {id} && id in Flying(c);
    if !c.requests[id].retried && c'.requests[id].retried {
      assert Unretried(c') == Unretried(c) - {id} && id in Unretried(c);
    }
  }

  lemma ResponseDecreases(c: Client, id: Id, answer: Answer, bound: nat)
    requires Enabled(c, Respond(id, answer))
    ensures Next(c, Respond(id, answer)).requests.Keys == c.requests.Keys
    ensures MeasureOf(Next(c, Respond(id, answer)), bound) < MeasureOf(c, bound)
  {
    var c' := Next(c, Respond(id, answer));
    ResponseLands(c, id, answer);
    LandingCounts(c, id, c');
    if c'.requests[id].retried != c.requests[id].retried {
      LeadingPays(|Unretried(c)|, |Flying(c)|, bound);
    }
  }

  lemma EndDecreases(c: Client, ok: bool, bound: nat)
    requires c.refreshing && |c.requests.Keys| <= bound
    ensures Next(c, RefreshEnds(ok)).requests.Keys == c.requests.Keys
    ensures MeasureOf(Next(c, RefreshEnds(ok)), bound) < MeasureOf(c, bound)
  {
    var c' := Next(c, RefreshEnds(ok));
    assert Unretried(c') == Unretried(c);
    SubsetSize(Flying(c'), c.requests.Keys);
  }

  /** A response, or the end of a refresh, uses up the measure. */
  lemma StepDecreases(c: Client, event: Event, bound: nat)
    requires Enabled(c, event) && (event.Respond? || event.RefreshEnds?) && |c.requests.Keys| <= bound
    ensures Next(c, event).requests.Keys == c.requests.Keys
    ensures MeasureOf(Next(c, event), bound) < MeasureOf(c, bound)
  {
    match event {
      case Respond(id, answer) => ResponseDecreases(c, id, answer, bound);
      case RefreshEnds(ok) => EndDecreases(c, ok, bound);
    }
  }

  lemma OneMore(unretried: nat, refreshing: bool, flying: nat, bound: nat)
    ensures Measure(unretried + 1, refreshing, flying + 1, bound) == Measure(unretried, refreshing, flying, bound) + (2 * bound + 4)
  {
    assert (unretried + 1) * (2 * bound + 3) == unretried * (2 * bound + 3) + (2 * bound + 3);
  }

  lemma SendCounts(c: Client, id: Id, authEndpoint: bool)
    requires Enabled(c, Send(id, authEndpoint))
    ensures var c' := Next(c, Send(id, authEndpoint));
      && |c'.requests.Keys| == |c.requests.Keys| + 1
      && |Unretried(c')| == |Unretried(c)| + 1 && |Flying(c')| == |Flying(c)| + 1
  {
    var c' := Next(c, Send(id, authEndpoint));
    AddedOne(c.requests.Keys, c'.requests.Keys, id);
    AddedOne(Unretried(c), Unretried(c'), id);
    AddedOne(Flying(c), Flying(c'), id);
  }

  lemma AddedOne<T>(a: set<T>, b: set<T>, x: T)
    requires x !in a && x in b && forall y :: y != x ==> (y in a <==> y in b)
    ensures |b| == |a| + 1
  {
    assert b == a + {x};
  }

  lemma SendAdds(c: Client, id: Id, authEndpoint: bool, bound: nat)
    requires Enabled(c, Send(id, authEndpoint))
    ensures |Next(c, Send(id, authEndpoint)).requests.Keys| == |c.requests.Keys| + 1
    ensures MeasureOf(Next(c, Send(id, authEndpoint)), bound) == MeasureOf(c, bound) + (2 * bound + 4)
  {
    SendCounts(c, id, authEndpoint);
    OneMore(|Unretried(c)|, c.refreshing, |Flying(c)|, bound);
  }

  ghost function Sends(events: seq<Event>): nat {
    if events == [] then 0 else (if events[0].Send? then 1 else 0) + Sends(events[1..])
  }

  /** The responses and the ends of refreshes in a run. */
  ghost function Moves(events: seq<Event>): nat {
    if events == [] then 0 else (if events[0].Respond? || events[0].RefreshEnds? then 1 else 0) + Moves(events[1..])
  }

  /** However the server answers, whatever tokens come and go and whenever requests are sent, a
      finite number of requests comes to rest: responses and refreshes are bounded by the measure
      the run starts from and what its own sends add. */
  lemma {:induction false} RunsEnd(c: Client, events: seq<Event>, bound: nat)
    requires LegalRun(c, events) && |c.requests.Keys| + Sends(events) <= bound
    ensures Moves(events) <= MeasureOf(c, bound) + Sends(events) * (2 * bound + 4)
    decreases |events|
  {
    if events != [] {
      var event, rest := events[0], events[1..];
      match event {
        case Send(id, authEndpoint) =>
          SendAdds(c, id, authEndpoint, bound);
          RunsEnd(Next(c, event), rest, bound);
          assert (Sends(rest) + 1) * (2 * bound + 4) == Sends(rest) * (2 * bound + 4) + (2 * bound + 4);
        case TokenChanges(_) =>
          TokenMovesNothing(c, event, bound);
          RunsEnd(Next(c, event), rest, bound);
        case _ =>
          StepDecreases(c, event, bound);
          RunsEnd(Next(c, event), rest, bound);
      }
    }
  }

  lemma TokenMovesNothing(c: Client, event: Event, bound: nat)
    requires event.TokenChanges?
    ensures Next(c, event).requests == c.requests && MeasureOf(Next(c, event), bound) == MeasureOf(c, bound)
  {
    assert Unretried(Next(c, event)) == Unretried(c) && Flying(Next(c, event)) == Flying(c);
  }

  ghost function TimesLeading(c: Client, events: seq<Event>, id: Id): nat
    requires LegalRun(c, events)
    decreases |events|
  {
    if events == [] then 0
    else
      var c' := Next(c, events[0]);
      TimesLeading(c', events[1..], id)
        + if events[0] == Respond(id, Unauthorized) && c'.requests[id].status.Leading? then 1 else 0
  }

  /** No request leads more than one refresh, and one that has led never does again. */
  lemma {:induction false} LeadsAtMostOnce(c: Client, events: seq<Event>, id: Id)
    requires LegalRun(c, events)
    ensures TimesLeading(c, events, id) <= 1
    ensures id in c.requests && c.requests[id].retried ==> TimesLeading(c, events, id) == 0
    decreases |events|
  {
    if events != [] {
      LeadsAtMostOnce(Next(c, events[0]), events[1..], id);
    }
  }

  // ------------------------------------------------------------------ stranding

  ghost predicate AnyStranded(c: Client) {
    exists id :: id in c.requests && c.requests[id].status.Stranded?
  }

  /** Some refresh of the run fails while requests are waiting for it. */
  ghost predicate FailsOverWaiters(c: Client, events: seq<Event>)
    requires LegalRun(c, events)
    decreases |events|
  {
    events != [] &&
      ((events[0] == RefreshEnds(false) && c.waiters != []) || FailsOverWaiters(Next(c, events[0]), events[1..]))
  }

  /** A failed refresh strands whoever waits; it and nothing else does. */
  lemma EndStrands(c: Client)
    requires Sound(c) && c.refreshing
    ensures AnyStranded(Next(c, RefreshEnds(false))) <==> AnyStranded(c) || c.waiters != []
  {
    var c' := Next(c, RefreshEnds(false));
    if id :| id in c.requests && c.requests[id].status.Stranded? {
      assert c'.requests[id].status.Stranded?;
    } else if c.waiters != [] {
      assert c.waiters[0] in c.waiters;
      assert c'.requests[c.waiters[0]].status.Stranded?;
    } else {
      forall id | id in c.requests ensures !c'.requests[id].status.Stranded? {
        assert id !in c.waiters;
      }
    }
  }

  /** Every other event leaves stranded whoever is, and strands nobody. */
  lemma OthersStrandNobody(c: Client, event: Event, id: Id)
    requires Enabled(c, event) && event != RefreshEnds(false)
    ensures (id in c.requests && c.requests[id].status.Stranded?)
       <==> (id in Next(c, event).requests && Next(c, event).requests[id].status.Stranded?)
  {
  }

  lemma StepStrands(c: Client, event: Event)
    requires Sound(c) && Enabled(c, event)
    ensures AnyStranded(Next(c, event)) <==> AnyStranded(c) || (event == RefreshEnds(false) && c.waiters != [])
  {
    if event == RefreshEnds(false) {
      EndStrands(c);
    } else {
      forall id
        ensures (id in c.requests && c.requests[id].status.Stranded?)
           <==> (id in Next(c, event).requests && Next(c, event).requests[id].status.Stranded?)
      {
        OthersStrandNobody(c, event, id);
      }
    }
  }

  lemma {:induction false} StrandedExactly(c: Client, events: seq<Event>)
    requires Sound(c) && LegalRun(c, events)
    ensures AnyStranded(Run(c, events)) <==> AnyStranded(c) || FailsOverWaiters(c, events)
    decreases |events|
  {
    if events != [] {
      StepSound(c, events[0]);
      StepStrands(c, events[0]);
      StrandedExactly(Next(c, events[0]), events[1..]);
    }
  }

  ghost predicate Settled(r: Request) {
    r.status.Resolved? || r.status.Rejected? || r.status.GaveUp?
  }

  /** When a run from a fresh client has come to rest, every request has been answered to its
      caller exactly when no refresh failed while others were waiting for it. */
  lemma AllSettledExactly(events: seq<Event>)
    requires LegalRun(FRESH, events)
    requires Flying(Run(FRESH, events)) == {} && !Run(FRESH, events).refreshing
    ensures (forall id :: id in Run(FRESH, events).requests ==> Settled(Run(FRESH, events).requests[id]))
       <==> !FailsOverWaiters(FRESH, events)
  {
    var c := Run(FRESH, events);
    RunSound(FRESH, events);
    StrandedExactly(FRESH, events);
    forall id | id in c.requests ensures Settled(c.requests[id]) <==> !c.requests[id].status.Stranded? {
      assert id !in Flying(c) && id !in c.waiters && !Leads(c, id);
    }
  }

  /** A run, one event at a time. */
  lemma RunStep(c: Client, event: Event, rest: seq<Event>)
    requires Enabled(c, event) && LegalRun(Next(c, event), rest)
    ensures LegalRun(c, [event] + rest) && Run(c, [event] + rest) == Run(Next(c, event), rest)
  {
    assert ([event] + rest)[1..] == rest;
  }

  /** Two requests expire together and the refresh fails: the second caller never hears. */
  lemma SecondCallerNeverHears()
    ensures var events := [Send(0, false), Send(1, false), Respond(0, Unauthorized), Respond(1, Unauthorized), RefreshEnds(false)];
      LegalRun(FRESH, events) && Run(FRESH, events).requests[1].status == Stranded
  {
    var e0, e1, e2, e3, e4 :=
      Send(0, false), Send(1, false), Respond(0, Unauthorized), Respond(1, Unauthorized), RefreshEnds(false);
    var c1 := Next(FRESH, e0);
    var c2 := Next(c1, e1);
    var c3 := Next(c2, e2);
    var c4 := Next(c3, e3);
    RunStep(c4, e4, []);
    RunStep(c3, e3, [e4]);
    RunStep(c2, e2, [e3, e4]);
    RunStep(c1, e1, [e2, e3, e4]);
    RunStep(FRESH, e0, [e1, e2, e3, e4]);
    assert [e0] + ([e1] + ([e2] + ([e3] + ([e4] + [])))) == [e0, e1, e2, e3, e4];
  }

  /** Taking the queue and then the leader is taking everyone by status. */
  lemma LeaderAndWaiters(c: Client, leader: Id, id: Id)
    requires Sound(c) && Leads(c, leader) && id in c.requests
    ensures id in c.waiters <==> c.requests[id].status.Waiting?
    ensures c.requests[id].status.Leading? <==> id == leader
  {
    assert Leads(c, id) <==> c.requests[id].status.Leading?;
  }

  lemma ReleasedInTwoParts(c: Client, leader: Id, sent: map<Id, Request>)
    requires Sound(c) && Leads(c, leader)
    requires sent == map id | id in c.requests :: if id in c.waiters then Sent(c.requests[id]) else c.requests[id]
    ensures leader in sent && Released(c.requests) == sent[leader := Sent(sent[leader])]
  {
    forall id | id in c.requests
      ensures id in c.waiters <==> c.requests[id].status.Waiting?
      ensures c.requests[id].status.Leading? <==> id == leader
    {
      LeaderAndWaiters(c, leader, id);
    }
  }

  lemma AbandonedInTwoParts(c: Client, leader: Id, dropped: map<Id, Request>)
    requires Sound(c) && Leads(c, leader)
    requires dropped == map id | id in c.requests ::
      if id in c.waiters then c.requests[id].(status := Stranded) else c.requests[id]
    ensures leader in dropped && Abandoned(c.requests) == dropped[leader := dropped[leader].(status := GaveUp)]
  {
    forall id | id in c.requests
      ensures id in c.waiters <==> c.requests[id].status.Waiting?
      ensures c.requests[id].status.Leading? <==> id == leader
    {
      LeaderAndWaiters(c, leader, id);
    }
  }

  // -------------------------------------------------------------------- client

  /** The module's flags and queue. `requests` records what has become of each request: its
      retry mark, and the state of the promise its caller holds. */
  class Interceptor {
    var isRefreshing: bool
    var refreshSubscribers: seq<Id>
    var isRedirecting: bool
    var hasRefreshToken: bool
    var requests: map<Id, Request>

    ghost function State(): Client
      reads this
    {
      Client(requests, isRefreshing, refreshSubscribers, isRedirecting, hasRefreshToken)
    }

    constructor ()
      ensures State() == FRESH
    {
      isRefreshing, refreshSubscribers, isRedirecting, hasRefreshToken := false, [], false, true;
      requests := map[];
    }

    method SendRequest(id: Id, authEndpoint: bool)
      requires id !in requests
      modifies this`requests
      ensures State() == Next(old(State()), Send(id, authEndpoint))
    {
      requests := requests[id := Request(InFlight, authEndpoint, false, 1, 0)];
    }

    /** The response interceptor, up to the point where a leader awaits its refresh. */
    method OnResponse(id: Id, answer: Answer)
      requires Enabled(State(), Respond(id, answer))
      modifies this
      ensures State() == Next(old(State()), Respond(id, answer))
    {
      var request := requests[id];
      if answer.Success? {
        requests := requests[id := request.(status := Resolved)];
      } else if answer.Unauthorized? && !request.retried && !request.authEndpoint && hasRefreshToken {
        if isRefreshing {
          refreshSubscribers := refreshSubscribers + [id];
          requests := requests[id := Queued(request)];
        } else {
          requests := requests[id := request.(status := Leading, retried := true)];
          isRefreshing := true;
        }
      } else {
        requests := requests[id := request.(status := Rejected)];
      }
    }

    /** Call every subscriber back, once; each sends its request again. */
    method OnTokenRefreshed()
      requires Sound(State())
      modifies this`refreshSubscribers, this`requests
      ensures refreshSubscribers == []
      ensures requests == map id | id in old(requests) ::
        if id in old(refreshSubscribers) then Sent(old(requests)[id]) else old(requests)[id]
    {
      for n := 0 to |refreshSubscribers|
        invariant refreshSubscribers == old(refreshSubscribers)
        invariant requests == map id | id in old(requests) ::
          if id in refreshSubscribers[..n] then Sent(old(requests)[id]) else old(requests)[id]
      {
        var id := refreshSubscribers[n];
        assert refreshSubscribers[..n + 1] == refreshSubscribers[..n] + [id];
        assert id in refreshSubscribers && id !in refreshSubscribers[..n];
        requests := requests[id := Sent(requests[id])];
      }
      assert refreshSubscribers[..|refreshSubscribers|] == refreshSubscribers;
      refreshSubscribers := [];
    }

    /** The end of the refresh that `leader` awaits. A failure empties the queue without calling
        anybody back, which is what leaves the promises of its waiters unsettled. */
    method OnRefreshEnds(leader: Id, ok: bool)
      requires Sound(State()) && Leads(State(), leader)
      modifies this
      ensures State() == Next(old(State()), RefreshEnds(ok))
    {
      ghost var before := State();
      if ok {
        OnTokenRefreshed();
        ReleasedInTwoParts(before, leader, requests);
        isRefreshing := false;
        requests := requests[leader := Sent(requests[leader])];
      } else {
        isRefreshing := false;
        var dropped := refreshSubscribers;
        refreshSubscribers := [];
        requests := map id | id in requests :: if id in dropped then requests[id].(status := Stranded) else requests[id];
        AbandonedInTwoParts(before, leader, requests);
        if !isRedirecting {
          isRedirecting := true;
          hasRefreshToken := false;
        }
        requests := requests[leader := requests[leader].(status := GaveUp)];
      }
    }
  }
}
