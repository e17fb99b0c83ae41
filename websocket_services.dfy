/**
  The connection manager as the class it is in client/services/WebsocketServices.ts:
  the fields `websocket`, `appState` and `messageHandlers` are updated in place
  by its methods and by the callbacks it installs on the transport and on the
  app lifecycle. Every state-changing method is proved to move the abstract
  state `Model()` exactly as the matching function of ConnectionModel says.
 */
module WebsocketServices {
  import opened Optional
  import opened ConnectionModel

  class WebSocketService {
    var websocket: Option<Socket>
    var appState: string
    var messageHandlers: Registry
    /** Frames written to the transport, oldest first. */
    var transmitted: seq<Outbound>
    /** One-second reconnect timers armed by `onclose` and not yet fired. */
    var retriesScheduled: nat
    /** Handles created so far; the next handle gets this number. */
    var socketsCreated: nat

    function Model(): Manager
      reads this
    {
      Manager(websocket, appState, messageHandlers, transmitted, retriesScheduled, socketsCreated)
    }

    constructor ()
      ensures Model() == Initial()
    {
      websocket := None;
      appState := "";
      messageHandlers := map[];
      transmitted := [];
      retriesScheduled := 0;
      socketsCreated := 0;
    }

    /**
      `connect()`. The address is the configuration value read at the call;
      `readiness` is the ready state the new handle shows at each polling tick.
     */
    method Connect(ipAddress: Option<string>, readiness: seq<ReadyState>) returns (outcome: ConnectOutcome)
      modifies this
      ensures (Model(), outcome) == ConnectionModel.Connect(old(Model()), ipAddress, readiness)
    {
      if websocket.Some? && websocket.value.readyState == Open {
        return ConnectedSuccessfully;
      }
      if ipAddress.None? || ipAddress.value == "" {
        return FailedToConnect;
      }
      websocket := Some(Socket(socketsCreated, Url(ipAddress.value), Connecting));
      socketsCreated := socketsCreated + 1;
      var ticks;
      outcome, ticks := WaitForOpenConnection(readiness);
      // the handle's state as the transport reports it at the last tick that ran
      websocket := Some(websocket.value.(readyState := StateAtTick(readiness, ticks - 1)));
    }

    /**
      `waitForOpenConnection()`: one iteration per 200 ms interval tick. The
      promise resolves on the first of ticks 0..9 that sees the handle open and
      rejects on tick 10 without looking; no tick runs after it settles.
     */
    method WaitForOpenConnection(readiness: seq<ReadyState>) returns (outcome: ConnectOutcome, ticks: nat)
      ensures (outcome, ticks) == Poll(readiness, 0)
      ensures outcome == ConnectedSuccessfully <==>
                exists t :: 0 <= t < MaxNumberOfAttempts && StateAtTick(readiness, t) == Open
      ensures outcome == MaxAttemptsReached <==> outcome != ConnectedSuccessfully
      ensures 0 < ticks <= MaxNumberOfAttempts + 1
    {
      var currentAttempt := 0;
      var settled := false;
      outcome := MaxAttemptsReached;
      while !settled
        invariant currentAttempt <= MaxNumberOfAttempts + 1
        invariant !settled ==> currentAttempt <= MaxNumberOfAttempts &&
                               Poll(readiness, currentAttempt) == Poll(readiness, 0)
        invariant settled ==> (outcome, currentAttempt) == Poll(readiness, 0)
        decreases MaxNumberOfAttempts + 1 - currentAttempt, !settled
      {
        if currentAttempt > MaxNumberOfAttempts - 1 {
          outcome := MaxAttemptsReached;
          settled := true;
        } else if StateAtTick(readiness, currentAttempt) == Open {
          outcome := ConnectedSuccessfully;
          settled := true;
        }
        currentAttempt := currentAttempt + 1;
      }
      ticks := currentAttempt;
    }

    /**
      The `onmessage` callback for a decoded frame: every handler listed under
      the frame's dispatch key is called, in list order; returns the calls made.
     */
    method OnMessage(message: Inbound) returns (invoked: seq<HandlerId>)
      ensures invoked == Route(messageHandlers, message)
    {
      invoked := [];
      var key := DispatchKey(message);
      if key.Some? && key.value in messageHandlers {
        var handlersToCall := messageHandlers[key.value];
        for i := 0 to |handlersToCall|
          invariant invoked == handlersToCall[..i]
        {
          invoked := invoked + [handlersToCall[i]];
        }
      }
    }

    /** The `onclose` callback: arms one reconnect timer when the app is active. */
    method OnClose()
      modifies this
      ensures Model() == ConnectionModel.OnClose(old(Model()))
    {
      if appState == "active" {
        retriesScheduled := retriesScheduled + 1;
      }
    }

    /** A reconnect timer fires: `await this.connect()`. */
    method OnRetryTimer(ipAddress: Option<string>, readiness: seq<ReadyState>) returns (outcome: ConnectOutcome)
      requires retriesScheduled > 0
      modifies this
      ensures (Model(), outcome) == ConnectionModel.OnRetryTimer(old(Model()), ipAddress, readiness)
    {
      retriesScheduled := retriesScheduled - 1;
      outcome := Connect(ipAddress, readiness);
    }

    /** The transport changes the current handle's ready state. */
    method OnTransportState(state: ReadyState)
      modifies this
      ensures Model() == TransportStateChanged(old(Model()), state)
    {
      if websocket.Some? {
        websocket := Some(websocket.value.(readyState := state));
      }
    }

    /** The AppState "change" listener installed by the constructor. */
    method OnAppStateChange(nextState: string, ipAddress: Option<string>, readiness: seq<ReadyState>)
      returns (reconnect: Option<ConnectOutcome>)
      modifies this
      ensures (Model(), reconnect) == AppStateChanged(old(Model()), nextState, ipAddress, readiness)
    {
      reconnect := None;
      if InBackground(appState) && nextState == "active" {
        var outcome := Connect(ipAddress, readiness);
        reconnect := Some(outcome);
        if outcome == MaxAttemptsReached {
          // the awaited promise rejected: the listener stops before recording the new state
          return;
        }
      }
      appState := nextState;
    }

    /** `send(message)` */
    method Send(message: Outbound)
      modifies this
      ensures Model() == ConnectionModel.Send(old(Model()), message)
    {
      if websocket.Some? && websocket.value.readyState == Open {
        transmitted := transmitted + [message];
        return;
      }
    }

    /** `addListener(handler, directive)` */
    method AddListener(handler: HandlerId, directive: Command)
      modifies this
      ensures Model() == ConnectionModel.AddListener(old(Model()), handler, directive)
    {
      if directive !in messageHandlers {
        messageHandlers := messageHandlers[directive := []];
      }
      messageHandlers := messageHandlers[directive := messageHandlers[directive] + [handler]];
    }

    /** `removeListener(handler, directive)`: the filtered list is not stored back. */
    method RemoveListener(handler: HandlerId, directive: Command)
      modifies this
      ensures Model() == ConnectionModel.RemoveListener(old(Model()), handler, directive)
    {
      if directive in messageHandlers {
        var filtered := Filter(messageHandlers[directive], handler);
      }
    }

    /** `close()` */
    method Close()
      modifies this
      ensures Model() == ConnectionModel.Close(old(Model()))
    {
      if websocket.Some? && websocket.value.readyState == Open {
        websocket := Some(websocket.value.(readyState := Closed));
      }
    }
  }
}
