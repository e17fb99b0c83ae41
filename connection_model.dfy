/**
  Value model of the client's connection manager (class WebSocketService in
  client/services/WebsocketServices.ts). The whole state of the service is one
  `Manager` value, and every public method and every callback the service
  installs is a function from the old state to the new one. The class in
  websocket_services.dfy is proved against these functions.

  The transport and the timers are abstract: a connection attempt is given the
  ready state the new handle shows at each 200 ms polling tick, a one-second
  retry timer is a counter of scheduled retries, and handlers are opaque
  identifiers, so that "which handlers ran, in which order" is a sequence.
 */
module ConnectionModel {
  import opened Optional

  /** The ready states of a transport handle (CLOSING is not observed separately). */
  datatype ReadyState = Connecting | Open | Closed

  /** Logical command names: the actions the client requests and the responses it subscribes to. */
  datatype Command = Calibrate | Reset | Rating | Graph

  /** The `response` field of an inbound envelope: a command, or "ERROR". */
  datatype ResponseType = CommandResponse(command: Command) | ErrorResponse

  /** A decoded inbound frame; `category` is read only when `response` is "ERROR". */
  datatype Inbound = Inbound(response: ResponseType, category: Option<Command>)

  /** An outbound request, e.g. `{ action: "rating" }`. */
  datatype Outbound = Outbound(action: Command)

  /** A subscribed callback, identified by reference. */
  type HandlerId = nat

  /** The command-to-handlers registry (`messageHandlers`). */
  type Registry = map<Command, seq<HandlerId>>

  /** A transport handle: which one it is, the address it was opened on, its ready state. */
  datatype Socket = Socket(id: nat, url: string, readyState: ReadyState)

  /** How a call to `connect` settles: the two resolved messages and the rejection. */
  datatype ConnectOutcome = ConnectedSuccessfully | FailedToConnect | MaxAttemptsReached

  /**
    The service's state: the fields `websocket`, `appState` and `messageHandlers`,
    plus what the environment sees of it — the frames written to the transport,
    the reconnect timers armed and not yet fired, and the number of handles
    created so far (which also names the next handle).
   */
  datatype Manager = Manager(
    websocket: Option<Socket>,
    appState: string,
    messageHandlers: Registry,
    transmitted: seq<Outbound>,
    retriesScheduled: nat,
    socketsCreated: nat)

  const MaxNumberOfAttempts: nat := 10

  /** The state right after construction: no handle, empty `appState`, empty registry. */
  function Initial(): Manager {
    Manager(None, "", map[], [], 0, 0)
  }

  /** `websocket != null && websocket.readyState === WebSocket.OPEN` */
  predicate IsOpen(s: Manager) {
    s.websocket.Some? && s.websocket.value.readyState == Open
  }

  /** The configured address is present and not empty (`!IP_ADDRESS` fails otherwise). */
  predicate Configured(ipAddress: Option<string>) {
    ipAddress.Some? && ipAddress.value != ""
  }

  function Url(ipAddress: string): string {
    "ws://" + ipAddress + ":8080/api/"
  }

  // ---------------------------------------------------------------------------
  // Bounded polling for readiness (waitForOpenConnection)
  // ---------------------------------------------------------------------------

  /**
    The ready state the handle shows at polling tick `tick`. Past the end of the
    trace the handle stays in the trace's last state; an empty trace means it is
    still connecting.
   */
  function StateAtTick(readiness: seq<ReadyState>, tick: nat): ReadyState {
    if tick < |readiness| then readiness[tick]
    else if readiness == [] then Connecting
    else readiness[|readiness| - 1]
  }

  /**
    The interval callback run from attempt `attempt` on: rejects once the attempt
    counter passes 9 (without looking at the handle), resolves on the first
    attempt that sees the handle open. The second component is the number of
    ticks that ran, counting from tick 0.
   */
  function Poll(readiness: seq<ReadyState>, attempt: nat): (r: (ConnectOutcome, nat))
    requires attempt <= MaxNumberOfAttempts
    ensures r.0 != FailedToConnect
    ensures attempt < r.1 <= MaxNumberOfAttempts + 1
    ensures r.0 == ConnectedSuccessfully <==>
              exists t :: attempt <= t < MaxNumberOfAttempts && StateAtTick(readiness, t) == Open
    ensures r.0 == ConnectedSuccessfully ==>
              StateAtTick(readiness, r.1 - 1) == Open &&
              forall t :: attempt <= t < r.1 - 1 ==> StateAtTick(readiness, t) != Open
    ensures r.0 == MaxAttemptsReached ==> r.1 == MaxNumberOfAttempts + 1
    decreases MaxNumberOfAttempts - attempt
  {
    if attempt > MaxNumberOfAttempts - 1 then
      (MaxAttemptsReached, attempt + 1)
    else if StateAtTick(readiness, attempt) == Open then
      (ConnectedSuccessfully, attempt + 1)
    else
      Poll(readiness, attempt + 1)
  }

  /** Polling never looks at the handle after tick 9: two traces that agree on ticks 0..9 poll alike. */
  lemma PollIgnoresLateTicks(a: seq<ReadyState>, b: seq<ReadyState>, attempt: nat)
    requires attempt <= MaxNumberOfAttempts
    requires forall t :: attempt <= t < MaxNumberOfAttempts ==> StateAtTick(a, t) == StateAtTick(b, t)
    ensures Poll(a, attempt) == Poll(b, attempt)
  {
  }

  // ---------------------------------------------------------------------------
  // connect
  // ---------------------------------------------------------------------------

  /**
    `connect()`: returns early while the handle is open; fails without touching
    the handle when no address is configured; otherwise replaces the handle by a
    new one (whatever the old one's state) and waits for it. The new handle ends
    in the state it shows at the last tick that ran.
   */
  function Connect(s: Manager, ipAddress: Option<string>, readiness: seq<ReadyState>): (r: (Manager, ConnectOutcome))
    ensures IsOpen(s) ==> r == (s, ConnectedSuccessfully)
    ensures !IsOpen(s) && !Configured(ipAddress) ==> r == (s, FailedToConnect)
    ensures !IsOpen(s) && Configured(ipAddress) ==>
              && r.0 == s.(websocket := r.0.websocket, socketsCreated := s.socketsCreated + 1)
              && r.0.websocket.Some?
              && r.0.websocket.value.id == s.socketsCreated
              && r.0.websocket.value.url == Url(ipAddress.value)
              && r.1 != FailedToConnect
              && (r.1 == ConnectedSuccessfully <==>
                    exists t :: 0 <= t < MaxNumberOfAttempts && StateAtTick(readiness, t) == Open)
              && (r.1 == ConnectedSuccessfully ==> IsOpen(r.0))
  {
    if IsOpen(s) then
      (s, ConnectedSuccessfully)
    else if !Configured(ipAddress) then
      (s, FailedToConnect)
    else
      var created := Socket(s.socketsCreated, Url(ipAddress.value), Connecting);
      var polled := Poll(readiness, 0);
      var settled := created.(readyState := StateAtTick(readiness, polled.1 - 1));
      (s.(websocket := Some(settled), socketsCreated := s.socketsCreated + 1), polled.0)
  }

  /** Calling `connect` again right after one that succeeded creates no second handle. */
  lemma ConnectTwiceCreatesOneHandle(s: Manager, ipAddress: Option<string>, first: seq<ReadyState>, second: seq<ReadyState>)
    requires Connect(s, ipAddress, first).1 == ConnectedSuccessfully
    ensures var once := Connect(s, ipAddress, first).0;
            Connect(once, ipAddress, second) == (once, ConnectedSuccessfully) &&
            once.socketsCreated <= s.socketsCreated + 1
  {
  }

  /** A handle that becomes open only at tick 10 is too late: `connect` rejects and leaves that handle open. */
  lemma OpenAtTenthTickIsTooLate(s: Manager, ipAddress: Option<string>, readiness: seq<ReadyState>)
    requires !IsOpen(s) && Configured(ipAddress)
    requires |readiness| == MaxNumberOfAttempts + 1
    requires forall t :: 0 <= t < MaxNumberOfAttempts ==> readiness[t] == Connecting
    requires readiness[MaxNumberOfAttempts] == Open
    ensures Connect(s, ipAddress, readiness).1 == MaxAttemptsReached
    ensures IsOpen(Connect(s, ipAddress, readiness).0)
  {
  }

  // ---------------------------------------------------------------------------
  // The handler registry: addListener, removeListener and routing
  // ---------------------------------------------------------------------------

  /** `messageHandlers.get(c)`, with "no list" read as the empty list. */
  function HandlersFor(registry: Registry, c: Command): seq<HandlerId> {
    if c in registry then registry[c] else []
  }

  /** `addListener(h, c)`: create the list if absent, then push `h` at its end. */
  function WithListener(registry: Registry, h: HandlerId, c: Command): (r: Registry)
    ensures r.Keys == registry.Keys + {c}
    ensures HandlersFor(r, c) == HandlersFor(registry, c) + [h]
    ensures forall k :: k != c ==> HandlersFor(r, k) == HandlersFor(registry, k)
  {
    var listed := if c in registry then registry else registry[c := []];
    listed[c := listed[c] + [h]]
  }

  /** The key an inbound frame is dispatched on: its `category` for errors, its `response` otherwise. */
  function DispatchKey(m: Inbound): (key: Option<Command>)
    ensures m.response.ErrorResponse? ==> key == m.category
    ensures m.response.CommandResponse? ==> key == Some(m.response.command)
  {
    if m.response == ErrorResponse then m.category else Some(m.response.command)
  }

  /** The handlers invoked for an inbound frame, in the order they are invoked. */
  function Route(registry: Registry, m: Inbound): (invoked: seq<HandlerId>)
    ensures DispatchKey(m).None? ==> invoked == []
    ensures DispatchKey(m).Some? ==> invoked == HandlersFor(registry, DispatchKey(m).value)
  {
    match DispatchKey(m)
    case None => []
    case Some(key) => HandlersFor(registry, key)
  }

  /** A sequence of `addListener` calls, applied in order. */
  function RegisterAll(registry: Registry, calls: seq<(HandlerId, Command)>): Registry
    decreases |calls|
  {
    if calls == [] then registry
    else RegisterAll(WithListener(registry, calls[0].0, calls[0].1), calls[1..])
  }

  /** The handlers of `calls` registered for `c`, in call order, duplicates kept. */
  function SubscribersOf(calls: seq<(HandlerId, Command)>, c: Command): (r: seq<HandlerId>)
    decreases |calls|
  {
    if calls == [] then []
    else (if calls[0].1 == c then [calls[0].0] else []) + SubscribersOf(calls[1..], c)
  }

  /** Registration order is call order: each command's list grows by exactly its own calls, in order. */
  lemma {:induction false} RegisterAllAppends(registry: Registry, calls: seq<(HandlerId, Command)>, c: Command)
    ensures HandlersFor(RegisterAll(registry, calls), c) == HandlersFor(registry, c) + SubscribersOf(calls, c)
    decreases |calls|
  {
    if calls != [] {
      var next := WithListener(registry, calls[0].0, calls[0].1);
      RegisterAllAppends(next, calls[1..], c);
      var own := if calls[0].1 == c then [calls[0].0] else [];
      var rest := SubscribersOf(calls[1..], c);
      calc {
        HandlersFor(RegisterAll(registry, calls), c);
        HandlersFor(RegisterAll(next, calls[1..]), c);
        HandlersFor(next, c) + rest;
        { assert HandlersFor(next, c) == HandlersFor(registry, c) + own; }
        (HandlersFor(registry, c) + own) + rest;
        HandlersFor(registry, c) + (own + rest);
        HandlersFor(registry, c) + SubscribersOf(calls, c);
      }
    }
  }

  /**
    Routing correctness from a fresh registry: a frame reaches exactly the
    handlers registered under its dispatch key, in registration order; a handler
    registered only under other commands is never invoked.
   */
  lemma RouteDeliversToSubscribersInOrder(calls: seq<(HandlerId, Command)>, m: Inbound)
    ensures DispatchKey(m).Some? ==> Route(RegisterAll(map[], calls), m) == SubscribersOf(calls, DispatchKey(m).value)
    ensures DispatchKey(m).None? ==> Route(RegisterAll(map[], calls), m) == []
    ensures forall h :: h in Route(RegisterAll(map[], calls), m) ==>
              DispatchKey(m).Some? && (h, DispatchKey(m).value) in calls
  {
    if DispatchKey(m).Some? {
      var key := DispatchKey(m).value;
      RegisterAllAppends(map[], calls, key);
      forall h | h in SubscribersOf(calls, key) ensures (h, key) in calls {
        SubscriberWasRegistered(calls, key, h);
      }
    }
  }

  lemma {:induction false} SubscriberWasRegistered(calls: seq<(HandlerId, Command)>, c: Command, h: HandlerId)
    requires h in SubscribersOf(calls, c)
    ensures (h, c) in calls
    decreases |calls|
  {
    if calls[0] != (h, c) {
      SubscriberWasRegistered(calls[1..], c, h);
    }
  }

  /** Two handlers registered for one command in order [a, b] run a-then-b on every matching frame. */
  lemma TwoHandlersRunInRegistrationOrder(a: HandlerId, b: HandlerId, c: Command, m: Inbound)
    requires DispatchKey(m) == Some(c)
    ensures Route(WithListener(WithListener(map[], a, c), b, c), m) == [a, b]
  {
  }

  /** An error frame is routed by its category, never by the "ERROR" response type. */
  lemma ErrorFrameRoutesByCategory(registry: Registry, c: Command)
    ensures Route(registry, Inbound(ErrorResponse, Some(c))) == HandlersFor(registry, c)
    ensures Route(registry, Inbound(ErrorResponse, None)) == []
  {
  }

  // ---------------------------------------------------------------------------
  // Operations on the whole state
  // ---------------------------------------------------------------------------

  /** `addListener(h, c)`; nothing but the registry changes. */
  function AddListener(s: Manager, h: HandlerId, c: Command): (r: Manager)
    ensures r == s.(messageHandlers := r.messageHandlers)
    ensures Route(r.messageHandlers, Inbound(CommandResponse(c), None)) ==
            Route(s.messageHandlers, Inbound(CommandResponse(c), None)) + [h]
  {
    s.(messageHandlers := WithListener(s.messageHandlers, h, c))
  }

  /**
    `removeListener(h, c)` as written: the filtered list is computed and thrown
    away, so the registry, and everything else, is left as it was.
   */
  function RemoveListener(s: Manager, h: HandlerId, c: Command): (r: Manager)
    ensures r == s
  {
    var kept := Filter(HandlersFor(s.messageHandlers, c), h);
    s
  }

  /** `handlers.filter((x) => x !== h)` */
  function Filter(handlers: seq<HandlerId>, h: HandlerId): (r: seq<HandlerId>)
    ensures h !in r
    ensures forall x :: x in r <==> x in handlers && x != h
    ensures multiset(r) == multiset(handlers)[h := 0]
    decreases |handlers|
  {
    if handlers == [] then []
    else
      assert handlers == [handlers[0]] + handlers[1..];
      (if handlers[0] == h then [] else [handlers[0]]) + Filter(handlers[1..], h)
  }

  /** Filtering keeps the order of what it keeps: it works piecewise on a concatenation. */
  lemma {:induction false} FilterKeepsOrder(a: seq<HandlerId>, b: seq<HandlerId>, h: HandlerId)
    ensures Filter(a + b, h) == Filter(a, h) + Filter(b, h)
    decreases |a|
  {
    if a != [] {
      var own := if a[0] == h then [] else [a[0]];
      FilterKeepsOrder(a[1..], b, h);
      calc {
        Filter(a + b, h);
        { assert (a + b)[0] == a[0] && (a + b)[1..] == a[1..] + b; }
        own + Filter(a[1..] + b, h);
        own + (Filter(a[1..], h) + Filter(b, h));
        (own + Filter(a[1..], h)) + Filter(b, h);
        Filter(a, h) + Filter(b, h);
      }
    } else {
      assert a + b == b;
    }
  }

  /**
    Unsubscribing does not take effect: after registering h under c and then
    removing it twice, the next frame for c still reaches h.
   */
  lemma RemovedListenerStillInvoked(s: Manager, h: HandlerId, c: Command)
    ensures var removed := RemoveListener(RemoveListener(AddListener(s, h, c), h, c), h, c);
            h in Route(removed.messageHandlers, Inbound(CommandResponse(c), None))
  {
  }

  /** `send(message)`: one frame out when the handle is open; otherwise nothing at all happens. */
  function Send(s: Manager, message: Outbound): (r: Manager)
    ensures IsOpen(s) ==> r == s.(transmitted := s.transmitted + [message])
    ensures !IsOpen(s) ==> r == s
  {
    if IsOpen(s) then s.(transmitted := s.transmitted + [message]) else s
  }

  /** `close()`: closes an open handle; otherwise does nothing. It leaves `appState` alone. */
  function Close(s: Manager): (r: Manager)
    ensures !IsOpen(r)
    ensures IsOpen(s) ==> r == s.(websocket := Some(s.websocket.value.(readyState := Closed)))
    ensures !IsOpen(s) ==> r == s
    ensures r.appState == s.appState
  {
    if IsOpen(s) then s.(websocket := Some(s.websocket.value.(readyState := Closed))) else s
  }

  /** The transport moves the current handle to a new ready state (e.g. the server drops the connection). */
  function TransportStateChanged(s: Manager, state: ReadyState): (r: Manager)
    ensures s.websocket.None? ==> r == s
    ensures s.websocket.Some? ==> r == s.(websocket := Some(s.websocket.value.(readyState := state)))
  {
    match s.websocket
    case None => s
    case Some(handle) => s.(websocket := Some(handle.(readyState := state)))
  }

  /** The `onclose` callback: arms one reconnect timer iff `appState` is exactly "active". */
  function OnClose(s: Manager): (r: Manager)
    ensures s.appState == "active" ==> r.retriesScheduled == s.retriesScheduled + 1
    ensures s.appState != "active" ==> r.retriesScheduled == s.retriesScheduled
    ensures r == s.(retriesScheduled := r.retriesScheduled)
  {
    if s.appState == "active" then s.(retriesScheduled := s.retriesScheduled + 1) else s
  }

  /** A reconnect timer armed by `onclose` fires and calls `connect`. */
  function OnRetryTimer(s: Manager, ipAddress: Option<string>, readiness: seq<ReadyState>): (r: (Manager, ConnectOutcome))
    requires s.retriesScheduled > 0
    ensures r.0.retriesScheduled == s.retriesScheduled - 1
    ensures r.0.appState == s.appState && r.0.messageHandlers == s.messageHandlers
    ensures r == Connect(s.(retriesScheduled := s.retriesScheduled - 1), ipAddress, readiness)
  {
    Connect(s.(retriesScheduled := s.retriesScheduled - 1), ipAddress, readiness)
  }

  /** An intentional `close()` while the app is active still arms a reconnect when `onclose` fires. */
  lemma CloseWhileActiveStillReconnects(s: Manager)
    requires IsOpen(s) && s.appState == "active"
    ensures OnClose(Close(s)).retriesScheduled == s.retriesScheduled + 1
  {
  }

  /** A drop while the app is in the background arms no reconnect. */
  lemma DropInBackgroundArmsNoRetry(s: Manager)
    requires s.appState == "background"
    ensures OnClose(TransportStateChanged(s, Closed)).retriesScheduled == s.retriesScheduled
  {
  }

  /** Sending with no open handle transmits nothing, however many times it is tried. */
  lemma SendWhileClosedTransmitsNothing(s: Manager, a: Outbound, b: Outbound)
    requires !IsOpen(s)
    ensures Send(Send(s, a), b).transmitted == s.transmitted
    ensures Send(Close(s), a) == s
  {
  }

  // ---------------------------------------------------------------------------
  // App lifecycle
  // ---------------------------------------------------------------------------

  /** `s` contains `pattern` somewhere (what a regular expression made of a literal word tests). */
  function Contains(s: string, pattern: string): bool
    decreases |s|
  {
    (|pattern| <= |s| && s[..|pattern|] == pattern) || (|s| > 0 && Contains(s[1..], pattern))
  }

  /** `pattern` occurs in `s` starting at offset `i`. */
  predicate OccursAt(s: string, pattern: string, i: nat) {
    i + |pattern| <= |s| && s[i..i + |pattern|] == pattern
  }

  /** `Contains` is the substring test: it holds iff the pattern occurs at some offset. */
  lemma {:induction false} ContainsIsSubstring(s: string, pattern: string)
    ensures Contains(s, pattern) <==> exists i: nat :: OccursAt(s, pattern, i)
    decreases |s|
  {
    assert OccursAt(s, pattern, 0) <==> |pattern| <= |s| && s[..|pattern|] == pattern;
    if |s| > 0 {
      var tail := s[1..];
      ContainsIsSubstring(tail, pattern);
      forall i: nat | OccursAt(tail, pattern, i)
        ensures OccursAt(s, pattern, i + 1)
      {
        assert tail[i..i + |pattern|] == s[i + 1..i + 1 + |pattern|];
      }
      forall i: nat | 1 <= i && OccursAt(s, pattern, i)
        ensures OccursAt(tail, pattern, i - 1)
      {
        assert tail[i - 1..i - 1 + |pattern|] == s[i..i + |pattern|];
      }
    } else {
      forall i: nat | OccursAt(s, pattern, i) ensures i == 0 {
      }
    }
  }

  /** `appState.match(/inactive|background/)` */
  predicate InBackground(appState: string)
    ensures InBackground(appState) <==>
              exists i: nat :: OccursAt(appState, "inactive", i) || OccursAt(appState, "background", i)
  {
    ContainsIsSubstring(appState, "inactive");
    ContainsIsSubstring(appState, "background");
    Contains(appState, "inactive") || Contains(appState, "background")
  }

  /** Which states the reconnect test accepts: the two background states, and neither "" nor "active". */
  lemma InBackgroundStates()
    ensures InBackground("inactive") && InBackground("background")
    ensures !InBackground("") && !InBackground("active")
  {
  }

  /**
    The AppState "change" listener: it calls `connect` iff the previous state is
    a background state and the next is "active", and then records the next state.
    When that `connect` rejects, the awaiting listener throws before the
    assignment, so `appState` keeps its old value.
   */
  function AppStateChanged(s: Manager, nextState: string, ipAddress: Option<string>, readiness: seq<ReadyState>)
    : (r: (Manager, Option<ConnectOutcome>))
    ensures r.1.Some? <==> InBackground(s.appState) && nextState == "active"
    ensures r.1.None? ==> r.0 == s.(appState := nextState)
    ensures r.1.Some? ==>
              var connected := Connect(s, ipAddress, readiness);
              r.1 == Some(connected.1) &&
              r.0 == connected.0.(appState := if connected.1 == MaxAttemptsReached then s.appState else nextState)
  {
    if InBackground(s.appState) && nextState == "active" then
      var connected := Connect(s, ipAddress, readiness);
      if connected.1 == MaxAttemptsReached then
        (connected.0, Some(connected.1))
      else
        (connected.0.(appState := nextState), Some(connected.1))
    else
      (s.(appState := nextState), None)
  }

  /** From the initial state no lifecycle change reconnects; the new state is recorded. */
  lemma FirstChangeNeverReconnects(nextState: string, ipAddress: Option<string>, readiness: seq<ReadyState>)
    ensures AppStateChanged(Initial(), nextState, ipAddress, readiness) == (Initial().(appState := nextState), None)
  {
  }

  /** Coming back from the background to "active" reconnects a dropped handle. */
  lemma ForegroundReconnects(s: Manager, ipAddress: Option<string>, readiness: seq<ReadyState>)
    requires s.appState == "background" && !IsOpen(s) && Configured(ipAddress)
    ensures var r := AppStateChanged(s, "active", ipAddress, readiness);
            r.1.Some? && r.0.socketsCreated == s.socketsCreated + 1
  {
  }

  /** A rejected reconnect on foregrounding leaves `appState` in the background state, so the next change to "active" tries again. */
  lemma RejectedReconnectKeepsBackground(s: Manager, ipAddress: Option<string>, readiness: seq<ReadyState>)
    requires s.appState == "background" && !IsOpen(s) && Configured(ipAddress)
    requires forall t :: 0 <= t < MaxNumberOfAttempts ==> StateAtTick(readiness, t) != Open
    ensures var r := AppStateChanged(s, "active", ipAddress, readiness);
            r.1 == Some(MaxAttemptsReached) && r.0.appState == "background" &&
            AppStateChanged(r.0, "active", ipAddress, readiness).1.Some?
  {
  }
}
