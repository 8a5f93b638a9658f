/** One socket shared by many subscribers (`frontend/src/context/WebSocketContext.tsx`): the
    provider's refs, moved by its own calls, by timers and by the browser's socket events. */
module SharedSocket {
  import opened Wrappers

  type Channel = string

  const CLOSE_CODE_MARKET_CLOSED := 4001
  const INITIAL_RECONNECT_DELAY := 1000
  const MAX_RECONNECT_DELAY := 30000
  const MAX_RECONNECT_ATTEMPTS := 50

  /** `readyState`, as RFC 6455 connections go through it. */
  datatype Phase = Connecting | Open | Closing | Closed

  /** `live`: the provider's handlers are attached. `sent`: the channels subscribed over it. */
  datatype Socket = Socket(phase: Phase, live: bool, sent: set<Channel>)

  datatype Hub = Hub(
    sockets: seq<Socket>,               // every socket ever made
    current: Option<nat>,               // wsRef
    connecting: bool, reconnectPending: bool, attempts: nat,
    subscribers: map<string, set<Channel>>,
    active: set<Channel>,
    authenticated: bool, loading: bool,  // the auth store
    token: bool,                         // whether an access token is stored in the browser
    backoffs: set<nat>, timerRef: Option<nat>, nextTimer: nat,   // reconnect timers still to fire
    manuals: multiset<bool>,            // delayed connects of `reconnect`: was it signed in when armed?
    marketClosed: bool)
  {
    function PhaseOfCurrent(): Option<Phase> {
      if current.Some? && current.value < |sockets| then Some(sockets[current.value].phase) else None
    }

    predicate CurrentIs(phase: Phase) { PhaseOfCurrent() == Some(phase) }

    /** What a `connect` made now captures: signed in, and not still finding out. */
    predicate SignedIn() { authenticated && !loading }

    predicate NoneOrClosed() { current.None? || CurrentIs(Closed) }
  }

  function AllChannels(subscribers: map<string, set<Channel>>): set<Channel> {
    set id, ch | id in subscribers && ch in subscribers[id] :: ch
  }

  // -------------------------------------------------------------- building blocks

  /** `connect`, whose closure captured `auth`; `constructs` says whether the constructor returns. */
  function AfterConnect(h: Hub, auth: bool, constructs: bool): Hub {
    if h.CurrentIs(Open) || h.CurrentIs(Connecting) || h.connecting || !auth || !h.token then h
    else
      var h := if h.CurrentIs(Closed) then h.(current := None) else h;
      if constructs then
        h.(sockets := h.sockets + [Socket(Connecting, true, {})], current := Some(|h.sockets|), connecting := true)
      else h.(connecting := false)
  }

  /** Send a subscription on the current socket, if it is open. */
  function SendSubscription(h: Hub, channels: set<Channel>): Hub {
    if h.CurrentIs(Open) then
      var s := h.sockets[h.current.value];
      h.(sockets := h.sockets[h.current.value := s.(sent := s.sent + channels)])
    else h
  }

  function ClearReconnectTimeout(h: Hub): Hub {
    h.(backoffs := if h.timerRef.Some? then h.backoffs - {h.timerRef.value} else h.backoffs,
       timerRef := None, reconnectPending := false)
  }

  /** Take the handlers off the current socket, close it and let go of it. */
  function DropCurrent(h: Hub): Hub {
    if h.current.Some? && h.current.value < |h.sockets| then
      h.(sockets := h.sockets[h.current.value := Socket(Closing, false, h.sockets[h.current.value].sent)],
         current := None)
    else h.(current := None)
  }

  /** Send what is new on an open socket, or connect when nothing is under way. */
  function Serve(h: Hub, added: set<Channel>, constructs: bool): Hub {
    if h.CurrentIs(Open) then
      if added != {} then SendSubscription(h, added).(active := h.active + added) else h
    else if !h.connecting && !h.reconnectPending && h.NoneOrClosed() then AfterConnect(h, h.SignedIn(), constructs)
    else h
  }

  function OnOpen(h: Hub): Hub {
    var all := AllChannels(h.subscribers);
    var h := h.(connecting := false, reconnectPending := false, attempts := 0, marketClosed := false);
    if all != {} then SendSubscription(h, all).(active := all) else h
  }

  /** Schedule another attempt, or give up until the user asks. */
  function Retry(h: Hub): Hub {
    if h.attempts < MAX_RECONNECT_ATTEMPTS then
      h.(attempts := h.attempts + 1, reconnectPending := true, backoffs := h.backoffs + {h.nextTimer},
         timerRef := Some(h.nextTimer), nextTimer := h.nextTimer + 1)
    else h.(attempts := 0)
  }

  /** No reconnecting once the market is closed for the day. */
  function OnClose(h: Hub, code: int): Hub {
    var h := h.(connecting := false, current := None);
    if code == CLOSE_CODE_MARKET_CLOSED then h.(marketClosed := true)
    else if h.subscribers == map[] then h
    else Retry(h)
  }

  // --------------------------------------------------------------------- events

  datatype Event =
    | Subscribe(id: string, channels: set<Channel>, constructs: bool)
    | Unsubscribe(id: string)
    | SocketOpens(socket: nat)
    | SocketFails(socket: nat)
    | SocketLingers(socket: nat, closed: bool)     // leaves OPEN or CONNECTING before its close event
    | SocketCloses(socket: nat, code: int)
    | BackoffFires(timer: nat, constructs: bool)
    | Reconnect
    | ManualFires(auth: bool, constructs: bool)
    | AuthLoads(authenticated: bool)               // the auth store is finding out
    | AuthLost                                     // signed out; the stored token is cleared first
    | AuthGained(constructs: bool)
    | TokenStored(present: bool)                   // a sign-in, a refresh or another tab stores or removes it

  predicate Enabled(h: Hub, event: Event) {
    match event
    case SocketOpens(s) => s < |h.sockets| && h.sockets[s].phase.Connecting?
    case SocketFails(s) => s < |h.sockets|
    case SocketLingers(s, _) => s < |h.sockets| && (h.sockets[s].phase.Connecting? || h.sockets[s].phase.Open?)
    case SocketCloses(s, _) => s < |h.sockets|
    case BackoffFires(t, _) => t in h.backoffs
    case ManualFires(auth, _) => auth in h.manuals
    case _ => true
  }

  function Next(h: Hub, event: Event): Hub
    requires Enabled(h, event)
  {
    match event
    case Subscribe(id, channels, constructs) =>
      Serve(h.(subscribers := h.subscribers[id := channels]), channels - h.active, constructs)
    case Unsubscribe(id) => h.(subscribers := h.subscribers - {id})
    case SocketOpens(s) =>
      var live := h.sockets[s].live;
      var h := h.(sockets := h.sockets[s := h.sockets[s].(phase := Open)]);
      if live then OnOpen(h) else h
    case SocketFails(s) => if h.sockets[s].live then h.(connecting := false) else h
    case SocketLingers(s, closed) =>
      h.(sockets := h.sockets[s := h.sockets[s].(phase := if closed then Closed else Closing)])
    case SocketCloses(s, code) =>
      var live := h.sockets[s].live;
      var h := h.(sockets := h.sockets[s := h.sockets[s].(phase := Closed, live := false)]);
      if live then OnClose(h, code) else h
    case BackoffFires(t, constructs) =>
      AfterConnect(h.(backoffs := h.backoffs - {t}, reconnectPending := false), true, constructs)
    case Reconnect =>
      DropCurrent(ClearReconnectTimeout(h)).(attempts := 0, connecting := false,
        manuals := h.manuals + multiset{h.SignedIn()})
    case ManualFires(auth, constructs) => AfterConnect(h.(manuals := h.manuals - multiset{auth}), auth, constructs)
    case AuthLoads(authenticated) => h.(authenticated := authenticated, loading := true)
    case AuthLost =>
      DropCurrent(ClearReconnectTimeout(h)).(attempts := 0, connecting := false,
        authenticated := false, loading := false, token := false)
    case AuthGained(constructs) =>
      var h := h.(authenticated := true, loading := false);
      if h.subscribers != map[] && !h.reconnectPending && h.NoneOrClosed() then AfterConnect(h, true, constructs) else h
    case TokenStored(present) => h.(token := present)
  }

  const IDLE := Hub([], None, false, false, 0, map[], {}, false, true, false, {}, None, 0, multiset{}, false)

  // ----------------------------------------------------------- one live socket

  /** Handlers are attached to the current socket and to no other. */
  ghost predicate OnlyCurrentLive(h: Hub) {
    && (h.current.Some? ==> h.current.value < |h.sockets|)
    && forall s :: 0 <= s < |h.sockets| && h.sockets[s].live ==> h.current == Some(s)
  }

  ghost predicate CurrentLive(h: Hub) {
    h.current.Some? && h.current.value < |h.sockets| && h.sockets[h.current.value].live
  }

  /** `connect` gets past its guards while the current socket, on its way out but without its
      close event yet, still has its handlers: it is replaced, or forgotten when closed. */
  ghost predicate Overruns(h: Hub, auth: bool, constructs: bool) {
    && CurrentLive(h) && (h.CurrentIs(Closing) || h.CurrentIs(Closed))
    && !h.connecting && auth && h.token && (constructs || h.CurrentIs(Closed))
  }

  /** Whether the event calls `connect`, and with what. */
  function CallsConnect(h: Hub, event: Event): Option<(bool, bool)> {
    match event
    case Subscribe(_, _, constructs) =>
      if !h.connecting && !h.reconnectPending && h.NoneOrClosed() then Some((h.SignedIn(), constructs)) else None
    case BackoffFires(_, constructs) => Some((true, constructs))
    case ManualFires(auth, constructs) => Some((auth, constructs))
    case AuthGained(constructs) =>
      if h.subscribers != map[] && !h.reconnectPending && h.NoneOrClosed() then Some((true, constructs)) else None
    case _ => None
  }

  ghost predicate OverrunsBy(h: Hub, event: Event) {
    var call := CallsConnect(h, event);
    call.Some? && Overruns(h, call.value.0, call.value.1)
  }

  lemma ConnectOverruns(h: Hub, auth: bool, constructs: bool)
    requires OnlyCurrentLive(h) && Overruns(h, auth, constructs)
    ensures !OnlyCurrentLive(AfterConnect(h, auth, constructs))
  {
    var h' := AfterConnect(h, auth, constructs);
    assert h'.sockets[h.current.value].live && h'.current != h.current;
  }

  lemma ConnectReplaces(h: Hub, auth: bool, constructs: bool)
    requires OnlyCurrentLive(h) && !CurrentLive(h)
    ensures OnlyCurrentLive(AfterConnect(h, auth, constructs))
  {
    assert forall s :: 0 <= s < |h.sockets| ==> !h.sockets[s].live;
  }

  lemma ConnectSingle(h: Hub, auth: bool, constructs: bool)
    requires OnlyCurrentLive(h)
    ensures OnlyCurrentLive(AfterConnect(h, auth, constructs)) <==> !Overruns(h, auth, constructs)
  {
    if Overruns(h, auth, constructs) {
      ConnectOverruns(h, auth, constructs);
    } else if CurrentLive(h) {
      var phase := h.sockets[h.current.value].phase;
      assert phase.Connecting? || phase.Open? || phase.Closing? || phase.Closed?;
    } else {
      ConnectReplaces(h, auth, constructs);
    }
  }

  lemma SendSingle(h: Hub, channels: set<Channel>)
    requires OnlyCurrentLive(h)
    ensures OnlyCurrentLive(SendSubscription(h, channels))
  {
  }

  lemma SubscribeSingle(h: Hub, id: string, channels: set<Channel>, constructs: bool)
    requires OnlyCurrentLive(h)
    ensures OnlyCurrentLive(Next(h, Subscribe(id, channels, constructs))) <==> !OverrunsBy(h, Subscribe(id, channels, constructs))
  {
    ServeSingle(h.(subscribers := h.subscribers[id := channels]), channels - h.active, constructs);
  }

  lemma ServeSingle(h: Hub, added: set<Channel>, constructs: bool)
    requires OnlyCurrentLive(h)
    ensures OnlyCurrentLive(Serve(h, added, constructs)) <==>
      (h.connecting || h.reconnectPending || !h.NoneOrClosed() || !Overruns(h, h.SignedIn(), constructs))
  {
    if h.CurrentIs(Open) {
      SendSingle(h, added);
    } else {
      ConnectSingle(h, h.SignedIn(), constructs);
    }
  }

  lemma OpensSingle(h: Hub, s: nat)
    requires OnlyCurrentLive(h) && Enabled(h, SocketOpens(s))
    ensures OnlyCurrentLive(Next(h, SocketOpens(s)))
  {
    var h1 := h.(sockets := h.sockets[s := h.sockets[s].(phase := Open)]);
    assert OnlyCurrentLive(h1);
    SendSingle(h1.(connecting := false, reconnectPending := false, attempts := 0, marketClosed := false),
               AllChannels(h.subscribers));
  }

  lemma RetrySingle(h: Hub)
    requires OnlyCurrentLive(h)
    ensures OnlyCurrentLive(Retry(h))
  {
    assert Retry(h).sockets == h.sockets && Retry(h).current == h.current;
  }

  lemma OnCloseSingle(h: Hub, code: int)
    requires OnlyCurrentLive(h.(connecting := false, current := None))
    ensures OnlyCurrentLive(OnClose(h, code))
  {
    RetrySingle(h.(connecting := false, current := None));
  }

  lemma ClosesSingle(h: Hub, s: nat, code: int)
    requires OnlyCurrentLive(h) && Enabled(h, SocketCloses(s, code))
    ensures OnlyCurrentLive(Next(h, SocketCloses(s, code)))
  {
    var h1 := h.(sockets := h.sockets[s := h.sockets[s].(phase := Closed, live := false)]);
    if h.sockets[s].live {
      assert h.current == Some(s);
      OnCloseSingle(h1, code);
    }
  }

  lemma DropSingle(h: Hub)
    requires OnlyCurrentLive(h)
    ensures forall s :: 0 <= s < |DropCurrent(h).sockets| ==> !DropCurrent(h).sockets[s].live
  {
  }

  lemma DropsSingle(h: Hub, event: Event)
    requires OnlyCurrentLive(h) && (event.Reconnect? || event.AuthLost?)
    ensures OnlyCurrentLive(Next(h, event)) && CallsConnect(h, event).None?
  {
    DropSingle(ClearReconnectTimeout(h));
  }

  lemma BackoffSingle(h: Hub, event: Event)
    requires OnlyCurrentLive(h) && Enabled(h, event) && event.BackoffFires?
    ensures OnlyCurrentLive(Next(h, event)) <==> !OverrunsBy(h, event)
  {
    ConnectSingle(h.(backoffs := h.backoffs - {event.timer}, reconnectPending := false), true, event.constructs);
  }

  lemma ManualSingle(h: Hub, event: Event)
    requires OnlyCurrentLive(h) && Enabled(h, event) && event.ManualFires?
    ensures OnlyCurrentLive(Next(h, event)) <==> !OverrunsBy(h, event)
  {
    ConnectSingle(h.(manuals := h.manuals - multiset{event.auth}), event.auth, event.constructs);
  }

  lemma GainSingle(h: Hub, event: Event)
    requires OnlyCurrentLive(h) && Enabled(h, event) && event.AuthGained?
    ensures OnlyCurrentLive(Next(h, event)) <==> !OverrunsBy(h, event)
  {
    ConnectSingle(h.(authenticated := true, loading := false), true, event.constructs);
  }

  /** A step keeps handlers on the current socket alone exactly when it does not run `connect`
      over a socket that is on its way out. */
  lemma SingleExactly(h: Hub, event: Event)
    requires OnlyCurrentLive(h) && Enabled(h, event)
    ensures OnlyCurrentLive(Next(h, event)) <==> !OverrunsBy(h, event)
  {
    match event {
      case Subscribe(id, channels, constructs) => SubscribeSingle(h, id, channels, constructs);
      case Unsubscribe(id) =>
      case SocketOpens(s) => OpensSingle(h, s);
      case SocketFails(s) =>
      case SocketLingers(s, _) => LingersSingle(h, s, event.closed);
      case SocketCloses(s, code) => ClosesSingle(h, s, code);
      case Reconnect => DropsSingle(h, event);
      case AuthLost => DropsSingle(h, event);
      case BackoffFires(_, _) => BackoffSingle(h, event);
      case ManualFires(_, _) => ManualSingle(h, event);
      case AuthGained(_) => GainSingle(h, event);
      case AuthLoads(_) =>
      case TokenStored(_) =>
    }
  }

  lemma LingersSingle(h: Hub, s: nat, closed: bool)
    requires OnlyCurrentLive(h) && Enabled(h, SocketLingers(s, closed))
    ensures OnlyCurrentLive(Next(h, SocketLingers(s, closed)))
  {
  }

  // ---------------------------------------------------------------------- runs

  ghost predicate LegalRun(h: Hub, events: seq<Event>)
    decreases |events|
  {
    events == [] || (Enabled(h, events[0]) && LegalRun(Next(h, events[0]), events[1..]))
  }

  ghost function Run(h: Hub, events: seq<Event>): Hub
    requires LegalRun(h, events)
    decreases |events|
  {
    if events == [] then h else Run(Next(h, events[0]), events[1..])
  }

  /** Some run of a new provider leads here. */
  ghost predicate Reachable(h: Hub) {
    exists events :: LegalRun(IDLE, events) && Run(IDLE, events) == h
  }

  lemma {:induction false} RunThen(h: Hub, events: seq<Event>, event: Event)
    requires LegalRun(h, events) && Enabled(Run(h, events), event)
    ensures LegalRun(h, events + [event]) && Run(h, events + [event]) == Next(Run(h, events), event)
    decreases |events|
  {
    var longer := events + [event];
    if events == [] {
      assert longer[1..] == [];
    } else {
      assert longer[1..] == events[1..] + [event];
      RunThen(Next(h, events[0]), events[1..], event);
    }
  }

  lemma IdleReachable()
    ensures Reachable(IDLE)
  {
    assert LegalRun(IDLE, []) && Run(IDLE, []) == IDLE;
  }

  lemma Reaches(h: Hub, event: Event, h': Hub)
    requires Reachable(h) && Enabled(h, event) && h' == Next(h, event)
    ensures Reachable(h')
  {
    var events :| LegalRun(IDLE, events) && Run(IDLE, events) == h;
    RunThen(IDLE, events, event);
  }

  /** Signed in with a token stored, and nothing else yet. */
  const SIGNED_IN := IDLE.(token := true, authenticated := true, loading := false)

  lemma SignedInReachable()
    ensures Reachable(SIGNED_IN)
  {
    IdleReachable();
    Reaches(IDLE, TokenStored(true), IDLE.(token := true));
    Reaches(IDLE.(token := true), AuthGained(true), SIGNED_IN);
  }

  /** What every run keeps: the current socket has its handlers, nothing has been sent on a socket
      that is still connecting, and the attempts stay within fifty. */
  ghost predicate Kept(h: Hub) {
    && (h.current.Some? ==> CurrentLive(h))
    && (forall s :: 0 <= s < |h.sockets| && h.sockets[s].phase.Connecting? ==> h.sockets[s].sent == {})
    && h.attempts <= MAX_RECONNECT_ATTEMPTS
  }

  lemma ConnectKept(h: Hub, auth: bool, constructs: bool)
    requires Kept(h)
    ensures Kept(AfterConnect(h, auth, constructs))
    ensures AfterConnect(h, auth, constructs).CurrentIs(Open) ==> AfterConnect(h, auth, constructs) == h
  {
  }

  lemma SendKept(h: Hub, channels: set<Channel>)
    requires Kept(h)
    ensures Kept(SendSubscription(h, channels))
  {
  }

  lemma DropKept(h: Hub)
    requires Kept(h)
    ensures Kept(DropCurrent(ClearReconnectTimeout(h)))
  {
  }

  lemma SubscribeKept(h: Hub, event: Event)
    requires Kept(h) && event.Subscribe?
    ensures Kept(Next(h, event))
  {
    ServeKept(h.(subscribers := h.subscribers[event.id := event.channels]), event.channels - h.active, event.constructs);
  }

  lemma ServeKept(h: Hub, added: set<Channel>, constructs: bool)
    requires Kept(h)
    ensures Kept(Serve(h, added, constructs))
  {
    if h.CurrentIs(Open) {
      SendKept(h, added);
    } else {
      ConnectKept(h, h.SignedIn(), constructs);
    }
  }

  lemma OpensKept(h: Hub, s: nat)
    requires Kept(h) && Enabled(h, SocketOpens(s))
    ensures Kept(Next(h, SocketOpens(s)))
  {
    var h1 := h.(sockets := h.sockets[s := h.sockets[s].(phase := Open)]);
    assert Kept(h1);
    SendKept(h1.(connecting := false, reconnectPending := false, attempts := 0, marketClosed := false),
             AllChannels(h.subscribers));
  }

  lemma RetryKept(h: Hub)
    requires Kept(h) && h.current.None?
    ensures Kept(Retry(h)) && Retry(h).current.None?
  {
  }

  lemma OnCloseKept(h: Hub, code: int)
    requires Kept(h.(connecting := false, current := None))
    ensures Kept(OnClose(h, code)) && OnClose(h, code).current.None?
  {
    RetryKept(h.(connecting := false, current := None));
  }

  lemma ClosesKept(h: Hub, s: nat, code: int)
    requires Kept(h) && Enabled(h, SocketCloses(s, code))
    ensures Kept(Next(h, SocketCloses(s, code)))
  {
    var h1 := h.(sockets := h.sockets[s := h.sockets[s].(phase := Closed, live := false)]);
    if h.sockets[s].live {
      OnCloseKept(h1, code);
    }
  }

  lemma ConnectingStepKept(h: Hub, event: Event)
    requires Kept(h) && Enabled(h, event)
    requires event.BackoffFires? || event.ManualFires? || event.AuthGained?
    ensures Kept(Next(h, event))
  {
    match event {
      case BackoffFires(t, constructs) => ConnectKept(h.(backoffs := h.backoffs - {t}, reconnectPending := false), true, constructs);
      case ManualFires(auth, constructs) => ConnectKept(h.(manuals := h.manuals - multiset{auth}), auth, constructs);
      case AuthGained(constructs) => ConnectKept(h.(authenticated := true, loading := false), true, constructs);
    }
  }

  lemma StepKept(h: Hub, event: Event)
    requires Kept(h) && Enabled(h, event)
    ensures Kept(Next(h, event))
  {
    match event {
      case Subscribe(_, _, _) => SubscribeKept(h, event);
      case SocketOpens(s) => OpensKept(h, s);
      case SocketCloses(s, code) => ClosesKept(h, s, code);
      case Reconnect => DropKept(h);
      case AuthLost => DropKept(h);
      case BackoffFires(_, _) => ConnectingStepKept(h, event);
      case ManualFires(_, _) => ConnectingStepKept(h, event);
      case AuthGained(_) => ConnectingStepKept(h, event);
      case _ =>
    }
  }

  /** Over every run, lingering sockets and all. */
  lemma {:induction false} RunKept(h: Hub, events: seq<Event>)
    requires Kept(h) && LegalRun(h, events)
    ensures Kept(Run(h, events))
    decreases |events|
  {
    if events != [] {
      StepKept(h, events[0]);
      RunKept(Next(h, events[0]), events[1..]);
    }
  }

  // ------------------------------------------------------ one live socket, over runs

  ghost predicate AlwaysSingle(h: Hub, events: seq<Event>)
    requires LegalRun(h, events)
    decreases |events|
  {
    OnlyCurrentLive(h) && (events == [] || AlwaysSingle(Next(h, events[0]), events[1..]))
  }

  /** Some step of the run makes `connect` overrun a socket on its way out. */
  ghost predicate EverOverruns(h: Hub, events: seq<Event>)
    requires LegalRun(h, events)
    decreases |events|
  {
    events != [] && (OverrunsBy(h, events[0]) || EverOverruns(Next(h, events[0]), events[1..]))
  }

  /** Handlers sit on the current socket alone throughout a run exactly when no step of it makes
      `connect` overrun a socket on its way out. */
  lemma {:induction false} RunSingleExactly(h: Hub, events: seq<Event>)
    requires OnlyCurrentLive(h) && LegalRun(h, events)
    ensures AlwaysSingle(h, events) <==> !EverOverruns(h, events)
    decreases |events|
  {
    if events != [] {
      SingleExactly(h, events[0]);
      if OnlyCurrentLive(Next(h, events[0])) {
        RunSingleExactly(Next(h, events[0]), events[1..]);
      }
    }
  }

  /** A provider whose sockets stay connecting or open until their close event. */
  ghost predicate Steady(h: Hub) {
    && OnlyCurrentLive(h) && Kept(h)
    && (h.current.Some? ==> h.CurrentIs(Connecting) || h.CurrentIs(Open))
  }

  lemma ConnectSteady(h: Hub, auth: bool, constructs: bool)
    requires Kept(h) && (h.current.Some? ==> h.CurrentIs(Connecting) || h.CurrentIs(Open))
    ensures var h' := AfterConnect(h, auth, constructs);
      h'.current.Some? ==> h'.CurrentIs(Connecting) || h'.CurrentIs(Open)
  {
  }

  lemma ServePhase(h: Hub, added: set<Channel>, constructs: bool)
    requires Kept(h) && (h.current.Some? ==> h.CurrentIs(Connecting) || h.CurrentIs(Open))
    ensures var h' := Serve(h, added, constructs);
      h'.current.Some? ==> h'.CurrentIs(Connecting) || h'.CurrentIs(Open)
  {
    ConnectSteady(h, h.SignedIn(), constructs);
  }

  lemma ConnectingPhase(h: Hub, event: Event)
    requires Steady(h) && Enabled(h, event)
    requires event.Subscribe? || event.BackoffFires? || event.ManualFires? || event.AuthGained?
    ensures var h' := Next(h, event); h'.current.Some? ==> h'.CurrentIs(Connecting) || h'.CurrentIs(Open)
  {
    match event {
      case Subscribe(id, channels, constructs) =>
        ServePhase(h.(subscribers := h.subscribers[id := channels]), channels - h.active, constructs);
      case BackoffFires(t, constructs) => ConnectSteady(h.(backoffs := h.backoffs - {t}, reconnectPending := false), true, constructs);
      case ManualFires(auth, constructs) => ConnectSteady(h.(manuals := h.manuals - multiset{auth}), auth, constructs);
      case AuthGained(constructs) => ConnectSteady(h.(authenticated := true, loading := false), true, constructs);
    }
  }

  lemma OpensPhase(h: Hub, s: nat)
    requires Steady(h) && Enabled(h, SocketOpens(s))
    ensures var h' := Next(h, SocketOpens(s)); h'.current.Some? ==> h'.CurrentIs(Connecting) || h'.CurrentIs(Open)
  {
  }

  lemma SteadyPhase(h: Hub, event: Event)
    requires Steady(h) && Enabled(h, event) && !event.SocketLingers?
    ensures var h' := Next(h, event); h'.current.Some? ==> h'.CurrentIs(Connecting) || h'.CurrentIs(Open)
  {
    match event {
      case SocketOpens(s) => OpensPhase(h, s);
      case SocketCloses(s, code) => ClosesPhase(h, s, code);
      case Subscribe(_, _, _) => ConnectingPhase(h, event);
      case BackoffFires(_, _) => ConnectingPhase(h, event);
      case ManualFires(_, _) => ConnectingPhase(h, event);
      case AuthGained(_) => ConnectingPhase(h, event);
      case _ =>
    }
  }

  lemma ClosesPhase(h: Hub, s: nat, code: int)
    requires Steady(h) && Enabled(h, SocketCloses(s, code))
    ensures var h' := Next(h, SocketCloses(s, code)); h'.current.Some? ==> h'.CurrentIs(Connecting) || h'.CurrentIs(Open)
  {
    var h' := Next(h, SocketCloses(s, code));
    if h.sockets[s].live {
      ClosedLetsGo(h, s, code);
    } else {
      assert h.current != Some(s) && h'.current == h.current;
    }
  }

  lemma OnCloseLetsGo(h: Hub, code: int)
    ensures OnClose(h, code).current.None?
  {
  }

  lemma ClosedLetsGo(h: Hub, s: nat, code: int)
    requires Enabled(h, SocketCloses(s, code)) && h.sockets[s].live
    ensures Next(h, SocketCloses(s, code)).current.None?
  {
    OnCloseLetsGo(h.(sockets := h.sockets[s := h.sockets[s].(phase := Closed, live := false)]), code);
  }

  lemma StepSteady(h: Hub, event: Event)
    requires Steady(h) && Enabled(h, event) && !event.SocketLingers?
    ensures Steady(Next(h, event)) && !OverrunsBy(h, event)
  {
    assert !OverrunsBy(h, event);
    SingleExactly(h, event);
    StepKept(h, event);
    SteadyPhase(h, event);
  }

  /** While sockets stay connecting or open until their close event, nothing is ever overrun. */
  lemma {:induction false} RunSteady(h: Hub, events: seq<Event>)
    requires Steady(h) && LegalRun(h, events)
    requires forall i :: 0 <= i < |events| ==> !events[i].SocketLingers?
    ensures Steady(Run(h, events)) && !EverOverruns(h, events)
    decreases |events|
  {
    if events != [] {
      StepSteady(h, events[0]);
      RunSteady(Next(h, events[0]), events[1..]);
    }
  }

  const ONCE_ARMED := SIGNED_IN.(manuals := multiset{true})
  const TWICE_ARMED := SIGNED_IN.(manuals := multiset{true, true})

  lemma OnceArmedReachable()
    ensures Reachable(ONCE_ARMED)
  {
    SignedInReachable();
    assert multiset{} + multiset{true} == multiset{true};
    Reaches(SIGNED_IN, Reconnect, ONCE_ARMED);
  }

  lemma TwiceArmedReachable()
    ensures Reachable(TWICE_ARMED)
  {
    OnceArmedReachable();
    assert multiset{true} + multiset{true} == multiset{true, true};
    Reaches(ONCE_ARMED, Reconnect, TWICE_ARMED);
  }

  /** One delayed connect left, over a socket in a phase. */
  function OneSocket(phase: Phase, connecting: bool): Hub {
    SIGNED_IN.(manuals := multiset{true}, sockets := [Socket(phase, true, {})], current := Some(0), connecting := connecting)
  }

  lemma OneSocketReachable()
    ensures Reachable(OneSocket(Closing, false))
  {
    TwiceArmedReachable();
    assert multiset{true, true} - multiset{true} == multiset{true};
    Reaches(TWICE_ARMED, ManualFires(true, true), OneSocket(Connecting, true));
    AllChannelsOfNone();
    Reaches(OneSocket(Connecting, true), SocketOpens(0), OneSocket(Open, false));
    Reaches(OneSocket(Open, false), SocketLingers(0, false), OneSocket(Closing, false));
  }

  /** Signed in, reconnect, reconnect again, the first delayed connect makes a socket, it opens and
      is left closing: the second delayed connect puts another beside it. */
  lemma TwoReconnectsOverrun() returns (h: Hub, event: Event)
    ensures Reachable(h) && Enabled(h, event) && OnlyCurrentLive(h) && OverrunsBy(h, event)
    ensures var h' := Next(h, event); |h'.sockets| == 2 && h'.sockets[0].live && h'.sockets[1].live
  {
    OneSocketReachable();
    h, event := OneSocket(Closing, false), ManualFires(true, true);
  }

  lemma AllChannelsOfNone()
    ensures AllChannels(map[]) == {}
  {
  }

  // ------------------------------------------------------------------ coverage

  /** While the socket is open, everything marked active has been sent on it, and everything
      subscribed is marked active. */
  ghost predicate Covers(h: Hub) {
    h.CurrentIs(Open) ==> AllChannels(h.subscribers) <= h.active <= h.sockets[h.current.value].sent
  }

  /** The socket opens for nobody, with channels still marked active from an earlier one. */
  ghost predicate OpensForNobody(h: Hub, event: Event) {
    event.SocketOpens? && h.current == Some(event.socket) && AllChannels(h.subscribers) == {} && h.active != {}
  }

  lemma OnOpenCovers(h: Hub, sent: set<Channel>)
    requires h.CurrentIs(Open) && sent == h.sockets[h.current.value].sent
    ensures Covers(OnOpen(h)) <==>
      if AllChannels(h.subscribers) != {} then true else h.active <= sent
  {
  }

  lemma OpensCovers(h: Hub, s: nat)
    requires Kept(h) && Covers(h) && Enabled(h, SocketOpens(s))
    ensures Covers(Next(h, SocketOpens(s))) <==> !OpensForNobody(h, SocketOpens(s))
  {
    var h1 := h.(sockets := h.sockets[s := h.sockets[s].(phase := Open)]);
    if h.current == Some(s) {
      assert h.sockets[s].live && h.sockets[s].sent == {} && h1.CurrentIs(Open);
      OnOpenCovers(h1, {});
    } else if h1.CurrentIs(Open) {
      assert h.CurrentIs(Open);
      OnOpenCovers(h1, h.sockets[h.current.value].sent);
    } else {
      OnOpenElsewhere(h1);
    }
  }

  lemma OnOpenElsewhere(h: Hub)
    requires !h.CurrentIs(Open)
    ensures !OnOpen(h).CurrentIs(Open)
  {
  }

  lemma SubscribeCovers(h: Hub, id: string, channels: set<Channel>, constructs: bool)
    requires Kept(h) && Covers(h)
    ensures Covers(Next(h, Subscribe(id, channels, constructs)))
  {
    var h1 := h.(subscribers := h.subscribers[id := channels]);
    assert AllChannels(h1.subscribers) <= AllChannels(h.subscribers) + channels;
    ServeCovers(h1, channels - h.active, constructs);
  }

  lemma ServeCovers(h: Hub, added: set<Channel>, constructs: bool)
    requires Kept(h)
    requires h.CurrentIs(Open) ==> AllChannels(h.subscribers) <= h.active + added && h.active <= h.sockets[h.current.value].sent
    ensures Covers(Serve(h, added, constructs))
  {
    if !h.CurrentIs(Open) {
      ConnectKept(h, h.SignedIn(), constructs);
    }
  }

  lemma ConnectingStepCovers(h: Hub, event: Event)
    requires Kept(h) && Covers(h) && Enabled(h, event)
    requires event.BackoffFires? || event.ManualFires? || event.AuthGained?
    ensures Covers(Next(h, event))
  {
    match event {
      case BackoffFires(t, constructs) => ConnectKept(h.(backoffs := h.backoffs - {t}, reconnectPending := false), true, constructs);
      case ManualFires(auth, constructs) => ConnectKept(h.(manuals := h.manuals - multiset{auth}), auth, constructs);
      case AuthGained(constructs) => ConnectKept(h.(authenticated := true, loading := false), true, constructs);
    }
  }

  lemma ClosesCovers(h: Hub, s: nat, code: int)
    requires Kept(h) && Covers(h) && Enabled(h, SocketCloses(s, code))
    ensures Covers(Next(h, SocketCloses(s, code)))
  {
    if h.sockets[s].live {
      ClosedLetsGo(h, s, code);
    }
  }

  lemma DropsCovers(h: Hub, event: Event)
    requires event.Reconnect? || event.AuthLost?
    ensures Covers(Next(h, event))
  {
    assert Next(h, event).current.None?;
  }

  lemma OtherStepCovers(h: Hub, event: Event)
    requires Kept(h) && Covers(h) && Enabled(h, event)
    requires event.Unsubscribe? || event.SocketFails? || event.SocketLingers? || event.AuthLoads? || event.TokenStored?
    ensures Covers(Next(h, event))
  {
    if event.Unsubscribe? {
      assert AllChannels(h.subscribers - {event.id}) <= AllChannels(h.subscribers);
    }
  }

  /** In any state a run can reach, a step keeps the marks true of the open socket, except exactly
      an open that finds no channel while some are still marked active. */
  lemma CoversExactly(h: Hub, event: Event)
    requires Kept(h) && Covers(h) && Enabled(h, event)
    ensures Covers(Next(h, event)) <==> !OpensForNobody(h, event)
  {
    match event {
      case Subscribe(id, channels, constructs) => SubscribeCovers(h, id, channels, constructs);
      case SocketOpens(s) => OpensCovers(h, s);
      case SocketCloses(s, code) => ClosesCovers(h, s, code);
      case BackoffFires(_, _) => ConnectingStepCovers(h, event);
      case ManualFires(_, _) => ConnectingStepCovers(h, event);
      case AuthGained(_) => ConnectingStepCovers(h, event);
      case Reconnect => DropsCovers(h, event);
      case AuthLost => DropsCovers(h, event);
      case _ => OtherStepCovers(h, event);
    }
  }

  ghost predicate AlwaysCovers(h: Hub, events: seq<Event>)
    requires LegalRun(h, events)
    decreases |events|
  {
    Covers(h) && (events == [] || AlwaysCovers(Next(h, events[0]), events[1..]))
  }

  ghost predicate EverOpensForNobody(h: Hub, events: seq<Event>)
    requires LegalRun(h, events)
    decreases |events|
  {
    events != [] && (OpensForNobody(h, events[0]) || EverOpensForNobody(Next(h, events[0]), events[1..]))
  }

  /** Throughout a run everything subscribed is marked active and everything marked active has been
      sent whenever the socket is open, exactly when no socket of the run opens for nobody. */
  lemma {:induction false} RunCoversExactly(h: Hub, events: seq<Event>)
    requires Kept(h) && Covers(h) && LegalRun(h, events)
    ensures AlwaysCovers(h, events) <==> !EverOpensForNobody(h, events)
    decreases |events|
  {
    if events != [] {
      StepKept(h, events[0]);
      CoversExactly(h, events[0]);
      if Covers(Next(h, events[0])) {
        RunCoversExactly(Next(h, events[0]), events[1..]);
      }
    }
  }

  /** The only page's socket has opened. */
  function PageServed(page: string, channel: Channel): Hub {
    SIGNED_IN.(subscribers := map[page := {channel}], active := {channel}, sockets := [Socket(Open, true, {channel})], current := Some(0))
  }

  lemma PageServedReachable(page: string, channel: Channel)
    ensures Reachable(PageServed(page, channel))
  {
    SignedInReachable();
    var waiting := SIGNED_IN.(subscribers := map[page := {channel}], sockets := [Socket(Connecting, true, {})], current := Some(0), connecting := true);
    Reaches(SIGNED_IN, Subscribe(page, {channel}, true), waiting);
    assert AllChannels(waiting.subscribers) == {channel} by { assert channel in waiting.subscribers[page]; }
    assert {} + {channel} == {channel};
    Reaches(waiting, SocketOpens(0), PageServed(page, channel));
  }

  /** The only page subscribes, its connection breaks, the page is left, and the retry reconnects:
      the socket that opens then opens for nobody. */
  lemma RetryAfterLeavingOpensForNobody(page: string, channel: Channel) returns (h: Hub, event: Event)
    ensures Reachable(h) && Enabled(h, event) && OpensForNobody(h, event) && channel in h.active
  {
    var served := PageServed(page, channel);
    PageServedReachable(page, channel);
    var broken := served.(sockets := [Socket(Closed, false, {channel})], current := None, attempts := 1, reconnectPending := true,
      backoffs := {0}, timerRef := Some(0), nextTimer := 1);
    assert page in served.subscribers && {} + {0} == {0} && [Socket(Open, true, {channel})][0 := Socket(Closed, false, {channel})] == broken.sockets;
    Reaches(served, SocketCloses(0, 1006), broken);
    var left := broken.(subscribers := map[]);
    assert broken.subscribers - {page} == map[];
    Reaches(broken, Unsubscribe(page), left);
    h := left.(backoffs := {}, reconnectPending := false, connecting := true, current := Some(1),
      sockets := [Socket(Closed, false, {channel}), Socket(Connecting, true, {})]);
    assert left.backoffs - {0} == {};
    Reaches(left, BackoffFires(0, true), h);
    event := SocketOpens(1);
    AllChannelsOfNone();
  }

  /** What an open for nobody costs: the next subscriber to a channel still marked active is
      told it is connected, and its channel is never sent on this socket. */
  lemma OpenForNobodyMissesSubscriber(h: Hub, event: Event, id: string, channel: Channel, constructs: bool)
    requires Kept(h) && Enabled(h, event) && OpensForNobody(h, event) && channel in h.active
    ensures var h' := Next(Next(h, event), Subscribe(id, {channel}, constructs));
      h'.CurrentIs(Open) && channel in h'.subscribers[id] && channel !in h'.sockets[h'.current.value].sent
  {
    assert {channel} - h.active == {};
  }

  // ------------------------------------------------------------------- service

  /** While the socket is open, every subscriber's channels have been sent on it. */
  ghost predicate Served(h: Hub) {
    h.CurrentIs(Open) ==> AllChannels(h.subscribers) <= h.sockets[h.current.value].sent
  }

  /** Someone subscribes on the open socket to a channel that is marked active but was never sent. */
  ghost predicate Skips(h: Hub, event: Event) {
    && event.Subscribe? && h.CurrentIs(Open)
    && exists ch :: ch in event.channels && ch in h.active && ch !in h.sockets[h.current.value].sent
  }

  /** What an open socket has been sent once new channels have been served. */
  lemma SentByServe(h: Hub, added: set<Channel>, constructs: bool)
    requires Kept(h) && h.CurrentIs(Open)
    ensures var h' := Serve(h, added, constructs);
      && h'.CurrentIs(Open) && h'.subscribers == h.subscribers
      && h'.sockets[h'.current.value].sent == h.sockets[h.current.value].sent + added
  {
  }

  lemma ServeClosedServed(h: Hub, added: set<Channel>, constructs: bool)
    requires Kept(h) && !h.CurrentIs(Open)
    ensures Served(Serve(h, added, constructs))
  {
    ConnectKept(h, h.SignedIn(), constructs);
  }

  lemma ServeServed(h: Hub, channels: set<Channel>, constructs: bool)
    requires Kept(h) && h.CurrentIs(Open) && channels <= AllChannels(h.subscribers)
    requires AllChannels(h.subscribers) <= h.sockets[h.current.value].sent + channels
    ensures Served(Serve(h, channels - h.active, constructs)) <==>
      forall ch :: ch in channels && ch in h.active ==> ch in h.sockets[h.current.value].sent
  {
    SentByServe(h, channels - h.active, constructs);
  }

  lemma SubscribeServed(h: Hub, event: Event)
    requires Kept(h) && Served(h) && event.Subscribe?
    ensures Served(Next(h, event)) <==> !Skips(h, event)
  {
    var h1 := h.(subscribers := h.subscribers[event.id := event.channels]);
    assert forall ch :: ch in event.channels ==> ch in h1.subscribers[event.id];
    assert AllChannels(h1.subscribers) <= AllChannels(h.subscribers) + event.channels;
    if h.CurrentIs(Open) {
      ServeServed(h1, event.channels, event.constructs);
    } else {
      ServeClosedServed(h1, event.channels - h.active, event.constructs);
    }
  }

  lemma OnOpenServed(h: Hub)
    requires Kept(h) && (h.CurrentIs(Open) ==> h.sockets[h.current.value].sent == {} || Served(h))
    ensures Served(OnOpen(h))
  {
  }

  lemma OpensServed(h: Hub, s: nat)
    requires Kept(h) && Served(h) && Enabled(h, SocketOpens(s))
    ensures Served(Next(h, SocketOpens(s)))
  {
    var h1 := h.(sockets := h.sockets[s := h.sockets[s].(phase := Open)]);
    if h.sockets[s].live {
      if h.current == Some(s) {
        assert h1.sockets[s].sent == {};
      } else {
        assert h1.CurrentIs(Open) ==> h.CurrentIs(Open);
      }
      assert Kept(h1);
      OnOpenServed(h1);
    } else {
      assert h.current != Some(s);
    }
  }

  lemma ConnectingStepServed(h: Hub, event: Event)
    requires Kept(h) && Served(h) && Enabled(h, event)
    requires event.BackoffFires? || event.ManualFires? || event.AuthGained?
    ensures Served(Next(h, event))
  {
    match event {
      case BackoffFires(t, constructs) => ConnectKept(h.(backoffs := h.backoffs - {t}, reconnectPending := false), true, constructs);
      case ManualFires(auth, constructs) => ConnectKept(h.(manuals := h.manuals - multiset{auth}), auth, constructs);
      case AuthGained(constructs) => ConnectKept(h.(authenticated := true, loading := false), true, constructs);
    }
  }

  lemma ClosesServed(h: Hub, s: nat, code: int)
    requires Kept(h) && Served(h) && Enabled(h, SocketCloses(s, code))
    ensures Served(Next(h, SocketCloses(s, code)))
  {
    if h.sockets[s].live {
      ClosedLetsGo(h, s, code);
    }
  }

  lemma OtherStepServed(h: Hub, event: Event)
    requires Kept(h) && Served(h) && Enabled(h, event)
    requires event.Unsubscribe? || event.SocketFails? || event.SocketLingers? || event.AuthLoads? || event.TokenStored?
          || event.Reconnect? || event.AuthLost?
    ensures Served(Next(h, event))
  {
    if event.Unsubscribe? {
      assert AllChannels(h.subscribers - {event.id}) <= AllChannels(h.subscribers);
    } else if event.Reconnect? || event.AuthLost? {
      assert Next(h, event).current.None?;
    }
  }

  /** In any state a run can reach, a step leaves a subscriber's channel unsent on the open socket
      exactly when it is a subscription that trusts a false mark. */
  lemma ServedExactly(h: Hub, event: Event)
    requires Kept(h) && Served(h) && Enabled(h, event)
    ensures Served(Next(h, event)) <==> !Skips(h, event)
  {
    match event {
      case Subscribe(_, _, _) => SubscribeServed(h, event);
      case SocketOpens(s) => OpensServed(h, s);
      case SocketCloses(s, code) => ClosesServed(h, s, code);
      case BackoffFires(_, _) => ConnectingStepServed(h, event);
      case ManualFires(_, _) => ConnectingStepServed(h, event);
      case AuthGained(_) => ConnectingStepServed(h, event);
      case _ => OtherStepServed(h, event);
    }
  }

  ghost predicate AlwaysServed(h: Hub, events: seq<Event>)
    requires LegalRun(h, events)
    decreases |events|
  {
    Served(h) && (events == [] || AlwaysServed(Next(h, events[0]), events[1..]))
  }

  ghost predicate EverSkips(h: Hub, events: seq<Event>)
    requires LegalRun(h, events)
    decreases |events|
  {
    events != [] && (Skips(h, events[0]) || EverSkips(Next(h, events[0]), events[1..]))
  }

  /** Throughout a run every subscriber's channels have been sent on the current socket whenever it
      is open, exactly when nobody in the run subscribes on an open socket to a channel that is
      marked active but was never sent on it. */
  lemma {:induction false} RunServedExactly(h: Hub, events: seq<Event>)
    requires Kept(h) && Served(h) && LegalRun(h, events)
    ensures AlwaysServed(h, events) <==> !EverSkips(h, events)
    decreases |events|
  {
    if events != [] {
      StepKept(h, events[0]);
      ServedExactly(h, events[0]);
      if Served(Next(h, events[0])) {
        RunServedExactly(Next(h, events[0]), events[1..]);
      }
    }
  }

  /** Only a socket that has opened for nobody leaves such a mark: without one, nobody is skipped. */
  lemma {:induction false} SkipNeedsOpenForNobody(h: Hub, events: seq<Event>)
    requires Kept(h) && Covers(h) && LegalRun(h, events) && EverSkips(h, events)
    ensures EverOpensForNobody(h, events)
    decreases |events|
  {
    if !Skips(h, events[0]) && !OpensForNobody(h, events[0]) {
      StepKept(h, events[0]);
      CoversExactly(h, events[0]);
      SkipNeedsOpenForNobody(Next(h, events[0]), events[1..]);
    }
  }

  /** The page of `RetryAfterLeavingOpensForNobody` is opened again: its channel is never sent. */
  lemma ReturningPageIsSkipped(page: string, channel: Channel) returns (h: Hub, event: Event)
    ensures Reachable(h) && Enabled(h, event) && Served(h) && Skips(h, event) && !Served(Next(h, event))
  {
    var before, opens := RetryAfterLeavingOpensForNobody(page, channel);
    h := Next(before, opens);
    Reaches(before, opens, h);
    ReachableKept(before);
    OpenedForNobody(before, opens);
    event := Subscribe(page, {channel}, true);
    StepKept(before, opens);
    assert channel in event.channels;
    ServedExactly(h, event);
  }

  lemma OpenedForNobody(h: Hub, event: Event)
    requires Kept(h) && Enabled(h, event) && OpensForNobody(h, event)
    ensures var h' := Next(h, event);
      h'.CurrentIs(Open) && h'.active == h.active && h'.sockets[h'.current.value].sent == {} && AllChannels(h'.subscribers) == {}
  {
  }

  lemma ReachableKept(h: Hub)
    requires Reachable(h)
    ensures Kept(h)
  {
    var events :| LegalRun(IDLE, events) && Run(IDLE, events) == h;
    RunKept(IDLE, events);
  }

  // --------------------------------------------------------------------- logout

  ghost predicate NoneLive(h: Hub) {
    forall s :: 0 <= s < |h.sockets| ==> !h.sockets[s].live
  }

  /** Signed out, with no socket left and none on its way. */
  ghost predicate Off(h: Hub) {
    NoneLive(h) && h.current.None? && !h.connecting && !h.SignedIn()
  }

  /** A timer armed while signed in fires, a token is stored, and the constructor returns. */
  ghost predicate TimerConnects(h: Hub, event: Event) {
    h.token && ((event.BackoffFires? && event.constructs) || (event.ManualFires? && event.auth && event.constructs))
  }

  lemma LogoutOff(h: Hub)
    requires OnlyCurrentLive(h)
    ensures Off(Next(h, AuthLost)) && !Next(h, AuthLost).token
  {
    DropSingle(ClearReconnectTimeout(h));
  }

  lemma ConnectOff(h: Hub, auth: bool, constructs: bool)
    requires Off(h)
    ensures if h.token && auth && constructs then !NoneLive(AfterConnect(h, auth, constructs)) else AfterConnect(h, auth, constructs) == h
  {
    if h.token && auth && constructs {
      assert AfterConnect(h, auth, constructs).sockets[|h.sockets|].live;
    }
  }

  lemma TimerStepOff(h: Hub, event: Event)
    requires Off(h) && Enabled(h, event) && (event.BackoffFires? || event.ManualFires?)
    ensures NoneLive(Next(h, event)) <==> !TimerConnects(h, event)
    ensures !TimerConnects(h, event) ==> Off(Next(h, event))
  {
    match event {
      case BackoffFires(t, constructs) => ConnectOff(h.(backoffs := h.backoffs - {t}, reconnectPending := false), true, constructs);
      case ManualFires(auth, constructs) => ConnectOff(h.(manuals := h.manuals - multiset{auth}), auth, constructs);
    }
  }

  lemma DropStepOff(h: Hub, event: Event)
    requires Off(h) && (event.Reconnect? || event.AuthLost?)
    ensures Off(Next(h, event))
  {
  }

  lemma SocketStepOff(h: Hub, event: Event)
    requires Off(h) && Enabled(h, event)
    requires event.SocketOpens? || event.SocketFails? || event.SocketLingers? || event.SocketCloses?
    ensures Off(Next(h, event))
  {
    assert !h.sockets[event.socket].live;
  }

  /** Until the next sign-in, a step leaves the provider off exactly when no left-over timer
      connects in it. */
  lemma StepOffExactly(h: Hub, event: Event)
    requires Off(h) && Enabled(h, event) && !event.AuthGained?
    ensures NoneLive(Next(h, event)) <==> !TimerConnects(h, event)
    ensures !TimerConnects(h, event) ==> Off(Next(h, event))
  {
    match event {
      case Subscribe(id, channels, constructs) =>
        ConnectOff(h.(subscribers := h.subscribers[id := channels]), h.SignedIn(), constructs);
      case SocketOpens(_) => SocketStepOff(h, event);
      case SocketFails(_) => SocketStepOff(h, event);
      case SocketLingers(_, _) => SocketStepOff(h, event);
      case SocketCloses(_, _) => SocketStepOff(h, event);
      case BackoffFires(_, _) => TimerStepOff(h, event);
      case ManualFires(_, _) => TimerStepOff(h, event);
      case Reconnect => DropStepOff(h, event);
      case AuthLost => DropStepOff(h, event);
      case _ =>
    }
  }

  ghost predicate AlwaysSilent(h: Hub, events: seq<Event>)
    requires LegalRun(h, events)
    decreases |events|
  {
    NoneLive(h) && (events == [] || AlwaysSilent(Next(h, events[0]), events[1..]))
  }

  ghost predicate TimerEverConnects(h: Hub, events: seq<Event>)
    requires LegalRun(h, events)
    decreases |events|
  {
    events != [] && (TimerConnects(h, events[0]) || TimerEverConnects(Next(h, events[0]), events[1..]))
  }

  ghost predicate NoSignIn(events: seq<Event>) {
    forall i :: 0 <= i < |events| ==> !events[i].AuthGained?
  }

  lemma {:induction false} SilentExactly(h: Hub, events: seq<Event>)
    requires Off(h) && LegalRun(h, events) && NoSignIn(events)
    ensures AlwaysSilent(h, events) <==> !TimerEverConnects(h, events)
    decreases |events|
  {
    if events != [] {
      StepOffExactly(h, events[0]);
      if !TimerConnects(h, events[0]) {
        SilentExactly(Next(h, events[0]), events[1..]);
      } else {
        assert !NoneLive(Next(h, events[0]));
      }
    }
  }

  /** After signing out, whatever happens until the next sign-in, no socket is live at any time
      exactly when no timer armed while signed in fires while a token is stored again. */
  lemma LogoutSilencesExactly(h: Hub, events: seq<Event>)
    requires OnlyCurrentLive(h) && LegalRun(Next(h, AuthLost), events) && NoSignIn(events)
    ensures AlwaysSilent(Next(h, AuthLost), events) <==> !TimerEverConnects(Next(h, AuthLost), events)
  {
    LogoutOff(h);
    SilentExactly(Next(h, AuthLost), events);
  }

  lemma HandlersLeaveToken(h: Hub, code: int)
    ensures OnOpen(h).token == h.token && OnClose(h, code).token == h.token
  {
  }

  lemma SocketsLeaveToken(h: Hub, event: Event)
    requires Enabled(h, event)
    requires event.SocketOpens? || event.SocketFails? || event.SocketLingers? || event.SocketCloses?
    ensures Next(h, event).token == h.token
  {
    var socket := h.sockets[event.socket];
    if event.SocketOpens? {
      HandlersLeaveToken(h.(sockets := h.sockets[event.socket := socket.(phase := Open)]), 0);
    } else if event.SocketCloses? {
      HandlersLeaveToken(h.(sockets := h.sockets[event.socket := socket.(phase := Closed, live := false)]), event.code);
    }
  }

  lemma TokenStaysAway(h: Hub, event: Event)
    requires !h.token && Enabled(h, event) && event != TokenStored(true)
    ensures !Next(h, event).token
  {
    match event {
      case SocketOpens(_) => SocketsLeaveToken(h, event);
      case SocketFails(_) => SocketsLeaveToken(h, event);
      case SocketLingers(_, _) => SocketsLeaveToken(h, event);
      case SocketCloses(_, _) => SocketsLeaveToken(h, event);
      case _ =>
    }
  }

  lemma {:induction false} NoTokenNoTimer(h: Hub, events: seq<Event>)
    requires !h.token && LegalRun(h, events) && TokenStored(true) !in events
    ensures !TimerEverConnects(h, events)
    decreases |events|
  {
    if events != [] {
      assert events[0] in events && events[0] != TokenStored(true);
      TokenStaysAway(h, events[0]);
      NoTokenNoTimer(Next(h, events[0]), events[1..]);
    }
  }

  /** As long as nothing stores a token again, signing out silences the provider whatever timers
      it leaves behind. */
  lemma LogoutWithoutToken(h: Hub, events: seq<Event>)
    requires OnlyCurrentLive(h) && LegalRun(Next(h, AuthLost), events) && NoSignIn(events)
    requires TokenStored(true) !in events
    ensures AlwaysSilent(Next(h, AuthLost), events)
  {
    LogoutOff(h);
    NoTokenNoTimer(Next(h, AuthLost), events);
    LogoutSilencesExactly(h, events);
  }

  /** Reconnect, sign out, and a token stored meanwhile by another tab: the delayed connect opens a
      socket for a provider that is signed out. */
  lemma DelayedConnectAfterLogout() returns (h: Hub, event: Event)
    ensures Reachable(h) && Enabled(h, event) && !h.authenticated && NoneLive(h) && !NoneLive(Next(h, event))
  {
    OnceArmedReachable();
    var out := ONCE_ARMED.(authenticated := false, token := false);
    Reaches(ONCE_ARMED, AuthLost, out);
    h := out.(token := true);
    Reaches(out, TokenStored(true), h);
    event := ManualFires(true, true);
    ConnectOff(h.(manuals := h.manuals - multiset{true}), true, true);
  }

  // ---------------------------------------------------------------- single steps

  ghost predicate SomebodySubscribed(h: Hub) { exists id :: id in h.subscribers }

  /** A closing is answered with a new timer when it is not the market's, somebody is subscribed and
      fewer than fifty attempts have been made. */
  ghost predicate Retries(h: Hub, code: int) {
    code != 4001 && SomebodySubscribed(h) && h.attempts < 50
  }

  ghost predicate TimersKept(h: Hub, h': Hub) {
    && h'.backoffs == h.backoffs && h'.timerRef == h.timerRef && h'.nextTimer == h.nextTimer
    && h'.reconnectPending == h.reconnectPending
  }

  /** What a closing with its handler attached leaves: a new timer armed and pending, and one attempt
      more, exactly when it is to be retried; otherwise timers as they were. Code 4001 marks the
      market closed and keeps the attempts; giving up clears them. */
  lemma ClosesExactly(h: Hub, s: nat, code: int)
    requires s < |h.sockets| && h.sockets[s].live
    ensures var h' := Next(h, SocketCloses(s, code));
      && (if Retries(h, code) then
            && h'.backoffs == h.backoffs + {h.nextTimer} && h'.timerRef == Some(h.nextTimer) && h'.reconnectPending
            && h'.nextTimer == h.nextTimer + 1 && h'.attempts == h.attempts + 1
          else
            && TimersKept(h, h')
            && h'.attempts == if code != 4001 && SomebodySubscribed(h) then 0 else h.attempts)
      && (h'.marketClosed <==> h.marketClosed || code == 4001)
      && !h'.connecting && h'.current.None? && h'.manuals == h.manuals
  {
    ClosedExactly(h.(sockets := h.sockets[s := h.sockets[s].(phase := Closed, live := false)]), code);
  }

  lemma ClosedExactly(h: Hub, code: int)
    ensures var h' := OnClose(h, code);
      && (if Retries(h, code) then
            && h'.backoffs == h.backoffs + {h.nextTimer} && h'.timerRef == Some(h.nextTimer) && h'.reconnectPending
            && h'.nextTimer == h.nextTimer + 1 && h'.attempts == h.attempts + 1
          else
            && TimersKept(h, h')
            && h'.attempts == if code != 4001 && SomebodySubscribed(h) then 0 else h.attempts)
      && (h'.marketClosed <==> h.marketClosed || code == 4001)
      && !h'.connecting && h'.current.None? && h'.manuals == h.manuals
  {
    if h.subscribers != map[] {
      var id :| id in h.subscribers;
      assert SomebodySubscribed(h);
    }
  }

  /** A timer's number is new when it is armed. */
  ghost predicate TimersNumbered(h: Hub) { forall t :: t in h.backoffs ==> t < h.nextTimer }

  lemma ConnectLeavesTimers(h: Hub, auth: bool, constructs: bool)
    ensures TimersKept(h, AfterConnect(h, auth, constructs)) && AfterConnect(h, auth, constructs).manuals == h.manuals
  {
  }

  lemma ServeLeavesTimers(h: Hub, added: set<Channel>, constructs: bool)
    ensures TimersKept(h, Serve(h, added, constructs))
  {
    ConnectLeavesTimers(h, h.SignedIn(), constructs);
  }

  lemma OpenLeavesTimers(h: Hub)
    ensures OnOpen(h).backoffs == h.backoffs && OnOpen(h).nextTimer == h.nextTimer
  {
  }

  lemma SocketStepNumbered(h: Hub, event: Event)
    requires TimersNumbered(h) && Enabled(h, event) && (event.SocketOpens? || event.SocketCloses?)
    ensures TimersNumbered(Next(h, event))
  {
    match event {
      case SocketOpens(s) => OpenLeavesTimers(h.(sockets := h.sockets[s := h.sockets[s].(phase := Open)]));
      case SocketCloses(s, code) =>
        if h.sockets[s].live {
          ClosesExactly(h, s, code);
        }
    }
  }

  lemma CallStepNumbered(h: Hub, event: Event)
    requires TimersNumbered(h) && Enabled(h, event) && (event.Subscribe? || event.AuthGained?)
    ensures TimersNumbered(Next(h, event))
  {
    match event {
      case Subscribe(id, channels, constructs) =>
        ServeLeavesTimers(h.(subscribers := h.subscribers[id := channels]), channels - h.active, constructs);
      case AuthGained(constructs) => ConnectLeavesTimers(h.(authenticated := true, loading := false), true, constructs);
    }
  }

  lemma StepNumbered(h: Hub, event: Event)
    requires TimersNumbered(h) && Enabled(h, event)
    ensures TimersNumbered(Next(h, event))
  {
    match event {
      case SocketOpens(_) => SocketStepNumbered(h, event);
      case SocketCloses(_, _) => SocketStepNumbered(h, event);
      case Subscribe(_, _, _) => CallStepNumbered(h, event);
      case AuthGained(_) => CallStepNumbered(h, event);
      case BackoffFires(_, _) => SpentExactly(h, event);
      case ManualFires(_, _) => SpentExactly(h, event);
      case Reconnect => ResetsExactly(h, event);
      case AuthLost => ResetsExactly(h, event);
      case _ =>
    }
  }

  /** Over every run each timer armed is a new one. */
  lemma {:induction false} RunNumbered(h: Hub, events: seq<Event>)
    requires TimersNumbered(h) && LegalRun(h, events)
    ensures TimersNumbered(Run(h, events))
    decreases |events|
  {
    if events != [] {
      StepNumbered(h, events[0]);
      RunNumbered(Next(h, events[0]), events[1..]);
    }
  }

  /** A timer that fires is spent; the pending mark goes with a retry. */
  lemma SpentExactly(h: Hub, event: Event)
    requires Enabled(h, event) && (event.BackoffFires? || event.ManualFires?)
    ensures var h' := Next(h, event);
      if event.BackoffFires? then
        h'.backoffs == h.backoffs - {event.timer} && !h'.reconnectPending && h'.manuals == h.manuals && h'.nextTimer == h.nextTimer
      else h'.manuals == h.manuals - multiset{event.auth} && TimersKept(h, h')
  {
    match event {
      case BackoffFires(t, constructs) => ConnectLeavesTimers(h.(backoffs := h.backoffs - {t}, reconnectPending := false), true, constructs);
      case ManualFires(auth, constructs) => ConnectLeavesTimers(h.(manuals := h.manuals - multiset{auth}), auth, constructs);
    }
  }

  lemma DropExactly(h: Hub)
    ensures var h' := DropCurrent(ClearReconnectTimeout(h));
      && !h'.reconnectPending && h'.timerRef.None? && h'.current.None? && h'.nextTimer == h.nextTimer && h'.manuals == h.manuals
      && h'.backoffs == (if h.timerRef.Some? then h.backoffs - {h.timerRef.value} else h.backoffs)
      && h'.authenticated == h.authenticated && h'.token == h.token
  {
  }

  lemma DropSockets(h: Hub)
    ensures var h' := DropCurrent(ClearReconnectTimeout(h));
      && |h'.sockets| == |h.sockets|
      && (forall s :: 0 <= s < |h.sockets| ==>
            h'.sockets[s] == (if h.current == Some(s) then Socket(Closing, false, h.sockets[s].sent) else h.sockets[s]))
  {
  }

  /** Asking to reconnect, and losing authentication, call off the timer last armed and let go of the
      socket, closing and without handlers, with no attempt counted; reconnecting arms one delayed
      connect, for whoever is signed in now. */
  lemma ResetsExactly(h: Hub, event: Event)
    requires event.Reconnect? || event.AuthLost?
    ensures var h' := Next(h, event);
      && h'.attempts == 0 && !h'.connecting && !h'.reconnectPending && h'.timerRef.None? && h'.current.None?
      && h'.backoffs == (if h.timerRef.Some? then h.backoffs - {h.timerRef.value} else h.backoffs) && h'.nextTimer == h.nextTimer
      && |h'.sockets| == |h.sockets|
      && (forall s :: 0 <= s < |h.sockets| ==>
            h'.sockets[s] == (if h.current == Some(s) then Socket(Closing, false, h.sockets[s].sent) else h.sockets[s]))
      && h'.manuals == (if event.Reconnect? then h.manuals + multiset{h.authenticated && !h.loading} else h.manuals)
      && h'.authenticated == (h.authenticated && event.Reconnect?) && h'.token == (h.token && event.Reconnect?)
  {
    DropExactly(h);
    DropSockets(h);
  }

  lemma OnOpenResets(h: Hub)
    ensures var h' := OnOpen(h);
      && h'.attempts == 0 && !h'.connecting && !h'.reconnectPending && !h'.marketClosed && h'.current == h.current
      && h'.timerRef == h.timerRef && h'.manuals == h.manuals
  {
  }

  /** An open with its handler attached starts the count afresh and clears every mark; without it,
      nothing but the socket itself changes. */
  lemma OpensExactly(h: Hub, s: nat)
    requires Enabled(h, SocketOpens(s))
    ensures var h' := Next(h, SocketOpens(s));
      if h.sockets[s].live then
        && h'.attempts == 0 && !h'.connecting && !h'.reconnectPending && !h'.marketClosed && h'.current == h.current
        && h'.timerRef == h.timerRef && h'.manuals == h.manuals
      else h' == h.(sockets := h.sockets[s := Socket(Open, false, h.sockets[s].sent)])
  {
    OnOpenResets(h.(sockets := h.sockets[s := h.sockets[s].(phase := Open)]));
  }

  /** Nothing stands in the way of a new socket: none open or on its way, a token, and a constructor
      that returns. */
  ghost predicate WayIsFree(h: Hub, constructs: bool) {
    !h.CurrentIs(Open) && !h.CurrentIs(Connecting) && !h.connecting && h.token && constructs
  }

  ghost predicate NobodyHasIt(h: Hub) { !h.reconnectPending && (h.current.None? || h.CurrentIs(Closed)) }

  ghost predicate MakesSocket(h: Hub, event: Event) {
    match event
    case Subscribe(_, _, constructs) => WayIsFree(h, constructs) && NobodyHasIt(h) && h.authenticated && !h.loading
    case BackoffFires(_, constructs) => WayIsFree(h, constructs)
    case ManualFires(auth, constructs) => WayIsFree(h, constructs) && auth
    case AuthGained(constructs) => WayIsFree(h, constructs) && NobodyHasIt(h) && SomebodySubscribed(h)
    case _ => false
  }

  ghost predicate OneSocketMore(h: Hub, h': Hub) {
    && h'.sockets == h.sockets + [Socket(Connecting, true, {})]
    && h'.current == Some(|h.sockets|) && h'.connecting
  }

  lemma ConnectMakes(h: Hub, auth: bool, constructs: bool)
    ensures if WayIsFree(h, constructs) && auth then OneSocketMore(h, AfterConnect(h, auth, constructs))
            else |AfterConnect(h, auth, constructs).sockets| == |h.sockets|
  {
  }

  lemma ServeMakes(h: Hub, added: set<Channel>, constructs: bool)
    ensures if WayIsFree(h, constructs) && NobodyHasIt(h) && h.SignedIn() then OneSocketMore(h, Serve(h, added, constructs))
            else |Serve(h, added, constructs).sockets| == |h.sockets|
  {
    ConnectMakes(h, h.SignedIn(), constructs);
  }

  lemma OpenMakesNone(h: Hub)
    ensures |OnOpen(h).sockets| == |h.sockets|
  {
  }

  lemma CloseMakesNone(h: Hub, code: int)
    ensures OnClose(h, code).sockets == h.sockets
  {
  }

  lemma HandlersMakeNone(h: Hub, event: Event)
    requires Enabled(h, event) && (event.SocketOpens? || event.SocketCloses?)
    ensures |Next(h, event).sockets| == |h.sockets|
  {
    match event {
      case SocketOpens(s) => OpenMakesNone(h.(sockets := h.sockets[s := h.sockets[s].(phase := Open)]));
      case SocketCloses(s, code) =>
        CloseMakesNone(h.(sockets := h.sockets[s := h.sockets[s].(phase := Closed, live := false)]), code);
    }
  }

  lemma SubscribeMakes(h: Hub, event: Event)
    requires event.Subscribe?
    ensures if MakesSocket(h, event) then OneSocketMore(h, Next(h, event)) else |Next(h, event).sockets| == |h.sockets|
  {
    var h1 := h.(subscribers := h.subscribers[event.id := event.channels]);
    assert WayIsFree(h1, event.constructs) == WayIsFree(h, event.constructs) && NobodyHasIt(h1) == NobodyHasIt(h);
    ServeMakes(h1, event.channels - h.active, event.constructs);
  }

  lemma TimerMakes(h: Hub, event: Event)
    requires Enabled(h, event) && (event.BackoffFires? || event.ManualFires?)
    ensures if MakesSocket(h, event) then OneSocketMore(h, Next(h, event)) else |Next(h, event).sockets| == |h.sockets|
  {
    match event {
      case BackoffFires(t, constructs) => ConnectMakes(h.(backoffs := h.backoffs - {t}, reconnectPending := false), true, constructs);
      case ManualFires(auth, constructs) => ConnectMakes(h.(manuals := h.manuals - multiset{auth}), auth, constructs);
    }
  }

  /** A step makes a new socket, current and connecting, exactly when it is a subscription or a
      sign-in that finds none in use, or a timer that finds none open, with nothing in its way. */
  lemma NewSocketExactly(h: Hub, event: Event)
    requires Enabled(h, event)
    ensures if MakesSocket(h, event) then OneSocketMore(h, Next(h, event)) else |Next(h, event).sockets| == |h.sockets|
  {
    match event {
      case Subscribe(_, _, _) => SubscribeMakes(h, event);
      case BackoffFires(_, _) => TimerMakes(h, event);
      case ManualFires(_, _) => TimerMakes(h, event);
      case AuthGained(constructs) => GainMakes(h, constructs);
      case SocketOpens(_) => HandlersMakeNone(h, event);
      case SocketCloses(_, _) => HandlersMakeNone(h, event);
      case Reconnect => ResetsExactly(h, event);
      case AuthLost => ResetsExactly(h, event);
      case _ =>
    }
  }

  lemma GainMakes(h: Hub, constructs: bool)
    ensures if WayIsFree(h, constructs) && NobodyHasIt(h) && SomebodySubscribed(h) then OneSocketMore(h, Next(h, AuthGained(constructs)))
            else |Next(h, AuthGained(constructs)).sockets| == |h.sockets|
  {
    ConnectMakes(h.(authenticated := true, loading := false), true, constructs);
    if h.subscribers != map[] {
      var id :| id in h.subscribers;
    }
  }

  lemma ConnectLeavesAuth(h: Hub, auth: bool, constructs: bool)
    ensures var h' := AfterConnect(h, auth, constructs);
      h'.authenticated == h.authenticated && h'.loading == h.loading && h'.token == h.token
  {
  }

  /** What the auth store says is what the provider goes by: still loading, signed in, or signed out
      with no token left; the stored token otherwise changes only by being stored or removed. */
  lemma AuthExactly(h: Hub, event: Event)
    requires event.AuthLoads? || event.AuthGained? || event.AuthLost? || event.TokenStored?
    ensures var h' := Next(h, event);
      && h'.authenticated == (if event.AuthLoads? then event.authenticated else if event.TokenStored? then h.authenticated else event.AuthGained?)
      && h'.loading == (if event.TokenStored? then h.loading else event.AuthLoads?)
      && h'.token == (if event.TokenStored? then event.present else h.token && !event.AuthLost?)
  {
    if event.AuthGained? {
      ConnectLeavesAuth(h.(authenticated := true, loading := false), true, event.constructs);
    }
  }

  /** An error with its handler attached ends the connecting, and only that; without, nothing. A
      socket that leaves OPEN or CONNECTING changes nothing but its own state. */
  lemma FailsExactly(h: Hub, event: Event)
    requires Enabled(h, event) && (event.SocketFails? || event.SocketLingers?)
    ensures var h', s := Next(h, event), event.socket;
      if event.SocketFails? then
        && h'.connecting == (h.connecting && !h.sockets[s].live)
        && h' == h.(connecting := h'.connecting)
      else
        && h' == h.(sockets := h'.sockets) && |h'.sockets| == |h.sockets|
        && h'.sockets[s] == Socket(if event.closed then Closed else Closing, h.sockets[s].live, h.sockets[s].sent)
        && (forall t :: 0 <= t < |h.sockets| && t != s ==> h'.sockets[t] == h.sockets[t])
  {
  }

  ghost predicate SameEntry(before: map<string, set<Channel>>, after: map<string, set<Channel>>, id: string) {
    (id in before <==> id in after) && (id in before ==> before[id] == after[id])
  }

  lemma ServeKeepsSubscribers(h: Hub, added: set<Channel>, constructs: bool)
    ensures Serve(h, added, constructs).subscribers == h.subscribers
  {
    SendKeepsSubscribers(h, added);
    ConnectKeepsSubscribers(h, h.SignedIn(), constructs);
  }

  lemma SendKeepsSubscribers(h: Hub, channels: set<Channel>)
    ensures SendSubscription(h, channels).subscribers == h.subscribers
  {
  }

  lemma OpenKeepsSubscribers(h: Hub)
    ensures OnOpen(h).subscribers == h.subscribers
  {
  }

  lemma CloseKeepsSubscribers(h: Hub, code: int)
    ensures OnClose(h, code).subscribers == h.subscribers
  {
  }

  lemma OthersKeepSubscribers(h: Hub, event: Event)
    requires Enabled(h, event) && !event.Subscribe? && !event.Unsubscribe?
    ensures Next(h, event).subscribers == h.subscribers
  {
    match event {
      case SocketOpens(s) => OpenKeepsSubscribers(h.(sockets := h.sockets[s := h.sockets[s].(phase := Open)]));
      case SocketCloses(s, code) =>
        CloseKeepsSubscribers(h.(sockets := h.sockets[s := h.sockets[s].(phase := Closed, live := false)]), code);
      case _ => CallsKeepSubscribers(h, event);
    }
  }

  lemma TimersKeepSubscribers(h: Hub, event: Event)
    requires Enabled(h, event) && (event.BackoffFires? || event.ManualFires? || event.AuthGained?)
    ensures Next(h, event).subscribers == h.subscribers
  {
    match event {
      case BackoffFires(t, constructs) => ConnectKeepsSubscribers(h.(backoffs := h.backoffs - {t}, reconnectPending := false), true, constructs);
      case ManualFires(auth, constructs) => ConnectKeepsSubscribers(h.(manuals := h.manuals - multiset{auth}), auth, constructs);
      case AuthGained(constructs) => ConnectKeepsSubscribers(h.(authenticated := true, loading := false), true, constructs);
    }
  }

  lemma ResetsKeepSubscribers(h: Hub, event: Event)
    requires event.Reconnect? || event.AuthLost?
    ensures Next(h, event).subscribers == h.subscribers
  {
    DropKeepsSubscribers(h);
  }

  lemma CallsKeepSubscribers(h: Hub, event: Event)
    requires Enabled(h, event) && !event.Subscribe? && !event.Unsubscribe? && !event.SocketOpens? && !event.SocketCloses?
    ensures Next(h, event).subscribers == h.subscribers
  {
    match event {
      case BackoffFires(_, _) => TimersKeepSubscribers(h, event);
      case ManualFires(_, _) => TimersKeepSubscribers(h, event);
      case AuthGained(_) => TimersKeepSubscribers(h, event);
      case Reconnect => ResetsKeepSubscribers(h, event);
      case AuthLost => ResetsKeepSubscribers(h, event);
      case _ =>
    }
  }

  lemma ConnectKeepsSubscribers(h: Hub, auth: bool, constructs: bool)
    ensures AfterConnect(h, auth, constructs).subscribers == h.subscribers
  {
  }

  lemma DropKeepsSubscribers(h: Hub)
    ensures DropCurrent(ClearReconnectTimeout(h)).subscribers == h.subscribers
  {
  }

  /** Subscribing and leaving change their own entry; nothing else changes who is subscribed. */
  lemma SubscribersExactly(h: Hub, event: Event, id: string)
    requires Enabled(h, event)
    ensures var before, after := h.subscribers, Next(h, event).subscribers;
      if event.Subscribe? && event.id == id then id in after && after[id] == event.channels
      else if event.Unsubscribe? && event.id == id then id !in after
      else SameEntry(before, after, id)
  {
    if event.Subscribe? {
      ServeKeepsSubscribers(h.(subscribers := h.subscribers[event.id := event.channels]), event.channels - h.active, event.constructs);
    } else if !event.Unsubscribe? {
      OthersKeepSubscribers(h, event);
    }
  }

  // -------------------------------------------------------------------- backoff

  function Pow2(n: nat): nat {
    if n == 0 then 1 else 2 * Pow2(n - 1)
  }

  function ReconnectDelay(attempt: nat): nat
    requires attempt >= 1
  {
    var delay := INITIAL_RECONNECT_DELAY * Pow2(attempt - 1);
    if delay < MAX_RECONNECT_DELAY then delay else MAX_RECONNECT_DELAY
  }

  /** One second at first, doubling, and thirty seconds from the sixth attempt on. */
  lemma {:induction false} DelayDoublesToTheMaximum(attempt: nat)
    requires attempt >= 1
    ensures ReconnectDelay(1) == INITIAL_RECONNECT_DELAY
    ensures attempt < 5 ==> ReconnectDelay(attempt + 1) == 2 * ReconnectDelay(attempt)
    ensures attempt >= 6 ==> ReconnectDelay(attempt) == MAX_RECONNECT_DELAY
  {
    assert Pow2(1) == 2 && Pow2(2) == 4 && Pow2(3) == 8 && Pow2(4) == 16 && Pow2(5) == 32;
    if attempt > 6 {
      DelayDoublesToTheMaximum(attempt - 1);
    }
  }

  // ------------------------------------------------------------------- provider

  /** The provider's refs, and the sockets and timers it has handed to the browser. */
  class Provider {
    var sockets: seq<Socket>
    var wsRef: Option<nat>
    var isConnecting: bool
    var isReconnectPending: bool
    var reconnectAttempts: nat
    var subscribers: map<string, set<Channel>>
    var activeChannels: set<Channel>
    var isAuthenticated: bool
    var isLoading: bool
    /** Whether the browser's storage holds an access token. */
    var token: bool
    var backoffs: set<nat>
    var reconnectTimeout: Option<nat>
    var nextTimer: nat
    var manuals: multiset<bool>
    var marketClosed: bool

    function State(): Hub
      reads this
    {
      Hub(sockets, wsRef, isConnecting, isReconnectPending, reconnectAttempts, subscribers, activeChannels,
          isAuthenticated, isLoading, token, backoffs, reconnectTimeout, nextTimer, manuals, marketClosed)
    }

    constructor ()
      ensures State() == IDLE
    {
      sockets, wsRef, isConnecting, isReconnectPending, reconnectAttempts := [], None, false, false, 0;
      subscribers, activeChannels, isAuthenticated, isLoading, token := map[], {}, false, true, false;
      backoffs, reconnectTimeout, nextTimer, manuals, marketClosed := {}, None, 0, multiset{}, false;
    }

    predicate IsOpen()
      reads this
    {
      State().CurrentIs(Open)
    }

    method Connect(auth: bool, constructs: bool)
      modifies this`sockets, this`wsRef, this`isConnecting
      ensures State() == AfterConnect(old(State()), auth, constructs)
    {
      if IsOpen() || State().CurrentIs(Connecting) || isConnecting || !auth || !token {
        return;
      }
      if State().CurrentIs(Closed) {
        wsRef := None;
      }
      isConnecting := true;
      if constructs {
        wsRef := Some(|sockets|);
        sockets := sockets + [Socket(Connecting, true, {})];
      } else {
        isConnecting := false;
      }
    }

    method Send(channels: set<Channel>)
      modifies this`sockets
      ensures State() == SendSubscription(old(State()), channels)
    {
      if IsOpen() {
        var s := sockets[wsRef.value];
        sockets := sockets[wsRef.value := s.(sent := s.sent + channels)];
      }
    }

    method Subscribe(id: string, channels: set<Channel>, constructs: bool)
      modifies this
      ensures State() == Next(old(State()), Event.Subscribe(id, channels, constructs))
    {
      subscribers := subscribers[id := channels];
      ServeNew(channels - activeChannels, constructs);
    }

    method ServeNew(added: set<Channel>, constructs: bool)
      modifies this`sockets, this`activeChannels, this`wsRef, this`isConnecting
      ensures State() == Serve(old(State()), added, constructs)
    {
      if IsOpen() {
        if added != {} {
          Send(added);
          activeChannels := activeChannels + added;
        }
      } else if !isConnecting && !isReconnectPending && State().NoneOrClosed() {
        Connect(isAuthenticated && !isLoading, constructs);
      }
    }

    method Unsubscribe(id: string)
      modifies this`subscribers
      ensures State() == Next(old(State()), Event.Unsubscribe(id))
    {
      subscribers := subscribers - {id};
    }

    /** The browser opens a socket; the handler runs if it is still attached. */
    method OnSocketOpen(s: nat)
      requires Enabled(State(), SocketOpens(s))
      modifies this
      ensures State() == Next(old(State()), SocketOpens(s))
    {
      var handled := sockets[s].live;
      sockets := sockets[s := sockets[s].(phase := Open)];
      if handled {
        HandleOpen();
      }
    }

    method HandleOpen()
      modifies this`sockets, this`activeChannels, this`isConnecting, this`isReconnectPending, this`reconnectAttempts,
               this`marketClosed
      ensures State() == OnOpen(old(State()))
    {
      isConnecting, isReconnectPending, reconnectAttempts, marketClosed := false, false, 0, false;
      var all := AllChannels(subscribers);
      if all != {} {
        Send(all);
        activeChannels := all;
      }
    }

    method ScheduleRetry()
      modifies this`reconnectAttempts, this`isReconnectPending, this`backoffs, this`reconnectTimeout, this`nextTimer
      ensures State() == Retry(old(State()))
    {
      if reconnectAttempts < MAX_RECONNECT_ATTEMPTS {
        reconnectAttempts := reconnectAttempts + 1;
        isReconnectPending := true;
        backoffs, reconnectTimeout := backoffs + {nextTimer}, Some(nextTimer);
        nextTimer := nextTimer + 1;
      } else {
        reconnectAttempts := 0;
      }
    }

    method OnSocketError(s: nat)
      requires Enabled(State(), SocketFails(s))
      modifies this`isConnecting
      ensures State() == Next(old(State()), SocketFails(s))
    {
      if sockets[s].live {
        isConnecting := false;
      }
    }

    method HandleClose(code: int)
      modifies this
      ensures State() == OnClose(old(State()), code)
    {
      isConnecting, wsRef := false, None;
      if code == CLOSE_CODE_MARKET_CLOSED {
        marketClosed := true;
      } else if subscribers != map[] {
        ScheduleRetry();
      }
    }

    method OnSocketClose(s: nat, code: int)
      requires Enabled(State(), SocketCloses(s, code))
      modifies this
      ensures State() == Next(old(State()), SocketCloses(s, code))
    {
      var handled := sockets[s].live;
      sockets := sockets[s := sockets[s].(phase := Closed, live := false)];
      if handled {
        HandleClose(code);
      }
    }

    method OnBackoffTimer(t: nat, constructs: bool)
      requires t in backoffs
      modifies this
      ensures State() == Next(old(State()), BackoffFires(t, constructs))
    {
      backoffs, isReconnectPending := backoffs - {t}, false;
      Connect(true, constructs);
    }

    method Disarm(auth: bool)
      modifies this`manuals
      ensures State() == old(State()).(manuals := old(State()).manuals - multiset{auth})
    {
      manuals := manuals - multiset{auth};
    }

    method OnManualTimer(auth: bool, constructs: bool)
      requires auth in manuals
      modifies this
      ensures State() == Next(old(State()), ManualFires(auth, constructs))
    {
      Disarm(auth);
      Connect(auth, constructs);
    }

    method ClearTimeout()
      modifies this`backoffs, this`reconnectTimeout, this`isReconnectPending
      ensures State() == ClearReconnectTimeout(old(State()))
    {
      if reconnectTimeout.Some? {
        backoffs := backoffs - {reconnectTimeout.value};
        reconnectTimeout := None;
      }
      isReconnectPending := false;
    }

    method ClearTimeoutAndDrop()
      modifies this
      ensures State() == DropCurrent(ClearReconnectTimeout(old(State()))).(attempts := 0, connecting := false)
    {
      ClearTimeout();
      reconnectAttempts, isConnecting := 0, false;
      if wsRef.Some? {
        if wsRef.value < |sockets| {
          sockets := sockets[wsRef.value := Socket(Closing, false, sockets[wsRef.value].sent)];
        }
        wsRef := None;
      }
    }

    method Arm()
      modifies this`manuals
      ensures State() == old(State()).(manuals := old(State()).manuals + multiset{old(State()).SignedIn()})
    {
      manuals := manuals + multiset{isAuthenticated && !isLoading};
    }

    method ManualReconnect()
      modifies this
      ensures State() == Next(old(State()), Reconnect)
    {
      ClearTimeoutAndDrop();
      Arm();
    }

    /** Another tab, a refresh or a sign-in stores the token, or something removes it. */
    method OnTokenStored(present: bool)
      modifies this`token
      ensures State() == Next(old(State()), TokenStored(present))
    {
      token := present;
    }

    /** The effect that follows the auth store: nothing while it is finding out. */
    method OnAuthChange(authenticated: bool, loading: bool, constructs: bool)
      modifies this
      ensures State() == Next(old(State()),
        if loading then AuthLoads(authenticated) else if authenticated then AuthGained(constructs) else AuthLost)
    {
      if loading {
        isAuthenticated, isLoading := authenticated, true;
      } else if authenticated {
        SignIn(constructs);
      } else {
        SignOut();
      }
    }

    /** Signing out has removed the stored token before the effect runs. */
    method SignOut()
      modifies this
      ensures State() == Next(old(State()), AuthLost)
    {
      ClearTimeoutAndDrop();
      isAuthenticated, isLoading, token := false, false, false;
    }

    method SignIn(constructs: bool)
      modifies this`isAuthenticated, this`isLoading, this`sockets, this`wsRef, this`isConnecting
      ensures State() == Next(old(State()), AuthGained(constructs))
    {
      isAuthenticated, isLoading := true, false;
      if subscribers != map[] && !isReconnectPending && State().NoneOrClosed() {
        Connect(isAuthenticated && !isLoading, constructs);
      }
    }
  }
}
