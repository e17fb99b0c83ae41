# Posture tracker: connection manager and rating bookkeeping, in Dafny

This project models two pieces of a posture-tracking app and proves properties of them.

The first is the mobile client's connection manager, `WebSocketService` in
`client/services/WebsocketServices.ts`. It holds one WebSocket handle, the app's
lifecycle state and a registry from command to handler list. It connects with
bounded polling for readiness, routes each inbound frame to the handlers
subscribed to its command, sends only on an open handle, and reconnects after a
drop or when the app returns to the foreground.

The second is the server's rating bookkeeping in `server/server.py`. This covers:

- the None-guard and 0..100 clamp of `calculate_posture_rating`;
- the 1000-entry `rating_over_time` history;
- the `calibrate` / `reset` / `rating` / `graph` dispatch of the `/ws/` endpoint over `baseline_neck_length`;
- the status of the rating replies on `/ws/` and `/ws/rating`.

Layout:

- `optional.dfy`: `Option`, standing for `null` / `undefined` / `None`.
- `connection_model.dfy` (module `ConnectionModel`): the client's whole state as one `Manager` value. It has one function per method or callback, the polling function `Poll`, and the lemmas.
- `websocket_services.dfy` (module `WebsocketServices`): class `WebSocketService` with the source's fields. Every state-changing method is proved to move `Model()` as the matching `ConnectionModel` function says. `WaitForOpenConnection` is a loop over ticks. `OnMessage` is a loop over the handler list.
- `posture_model.dfy` (module `PostureModel`): the server's globals as a `Globals` value, with the rating, history, classification and dispatch functions and their lemmas.
- `server.dfy` (module `Server`): class `PostureServer` over the same globals. The history is appended to and trimmed in place.

How the environment is modelled:

- A connection attempt receives `readiness`, the ready state the new handle shows at each 200 ms tick. Past the end of that sequence, the handle stays in the sequence's last state. An empty sequence means the handle is still connecting.
- The handle keeps the state it showed at the last tick that ran.
- Outside a connection attempt, the transport can move the current handle to any ready state at any time. This is the event `TransportStateChanged` (method `OnTransportState`). A server-side drop, for example, is this event with CLOSED, followed by `onclose`.
- A one-second reconnect timer is a counter of armed timers (`retriesScheduled`). Firing one is the event `OnRetryTimer`.
- Handlers are opaque identifiers. Routing returns the sequence of handlers called.
- Inbound frames are already decoded. `JSON.parse` is not guarded in the source, so the model makes no claim about malformed frames.
- The configured address (`EXPO_PUBLIC_IP_ADDRESS`) is a parameter of `connect`.
- On the server, neck lengths are integers. The rating before clamping is an input. The request time (`time.time()`) is a parameter.

Where the code and its comments disagree, the model follows the code:

- `removeListener` computes the filtered list and discards it, so it never unsubscribes anything (`RemovedListenerStillInvoked`).
- `close()` does not touch `appState`. An intentional close while the app is active still arms a reconnect when `onclose` fires (`CloseWhileActiveStillReconnects`).
- The lifecycle test `appState.match(/inactive|background/)` is a substring test. The model states it with `Contains`.
- The lifecycle listener awaits `connect()` before it records the new state. If that `connect()` rejects, `appState` keeps its old value (`RejectedReconnectKeepsBackground`).
- On the server, a missing-length rating reply reports a length of 0 as absent, because Python tests it for truthiness (`Truthy`).

## Model

| member | source | states |
|---|---|---|
| `ConnectionModel.Connect` | client/services/WebsocketServices.ts:44-70 | An open handle returns "Connected Successfully" and changes nothing. A missing or empty address returns "Failed to Connect" and changes nothing. Otherwise a new handle on `ws://<ip>:8080/api/` replaces the old one whatever its state, exactly one handle is created, and the call resolves iff the handle is open on one of ticks 0..9. On success the handle is open. |
| `ConnectionModel.Poll` | client/services/WebsocketServices.ts:122-143 | Polling resolves iff the handle is open on some tick from the current one to 9. It resolves on the first such tick. It never yields "Failed to Connect". It rejects only after 11 ticks, and it never runs more than 11 ticks. |
| `ConnectionModel.PollIgnoresLateTicks` | client/services/WebsocketServices.ts:128-131 | Two readiness traces that agree on ticks 0..9 poll to the same outcome and tick count. Tick 10 rejects without looking at the handle. |
| `ConnectionModel.OpenAtTenthTickIsTooLate` | client/services/WebsocketServices.ts:129-131 | A handle that first shows OPEN on tick 10 makes `connect` reject, although that handle is left open. |
| `ConnectionModel.ConnectTwiceCreatesOneHandle` | client/services/WebsocketServices.ts:45-50 | After a successful `connect`, a second `connect` returns "Connected Successfully", changes nothing, and creates no second transport. |
| `ConnectionModel.WithListener` | client/services/WebsocketServices.ts:168-175 | Adding `h` under `c` makes `c`'s list the old list plus `[h]` at the end. It creates the list if absent, keeps duplicates, and leaves every other command's list unchanged. |
| `ConnectionModel.DispatchKey` | client/services/WebsocketServices.ts:84-87 | The dispatch key is `category` for an "ERROR" response and the `response` command otherwise. |
| `ConnectionModel.Route` | client/services/WebsocketServices.ts:84-96 | The handlers invoked are exactly the list under the dispatch key, in list order. With no key or no list, none are invoked. |
| `ConnectionModel.RegisterAllAppends` | client/services/WebsocketServices.ts:168-175 | After any sequence of `addListener` calls, each command's list is its old list followed by the handlers added for that command, in call order. |
| `ConnectionModel.RouteDeliversToSubscribersInOrder` | client/services/WebsocketServices.ts:89-96 | From an empty registry, a frame reaches exactly the handlers registered under its key, in registration order. A handler that was never registered under that key is never invoked. |
| `ConnectionModel.TwoHandlersRunInRegistrationOrder` | client/services/WebsocketServices.ts:93-95 | Handlers registered under one command in the order a, b are invoked a then b. |
| `ConnectionModel.ErrorFrameRoutesByCategory` | client/services/WebsocketServices.ts:84-90 | An error frame reaches the handlers of its category. An error frame with no category reaches no handler. |
| `ConnectionModel.AddListener` | client/services/WebsocketServices.ts:168-175 | Only the registry changes, and the next frame for that command reaches one more handler, `h`, last. |
| `ConnectionModel.RemoveListener` | client/services/WebsocketServices.ts:183-185 | The whole state is unchanged, because the filtered list is discarded. |
| `ConnectionModel.Filter` | client/services/WebsocketServices.ts:184 | The filtered list never holds `h`. It holds every other entry as many times as the input does (multiset equality with `h`'s count set to 0). |
| `ConnectionModel.FilterKeepsOrder` | client/services/WebsocketServices.ts:184 | Filtering works piecewise on a concatenation, so the kept entries stay in input order. |
| `ConnectionModel.RemovedListenerStillInvoked` | client/services/WebsocketServices.ts:183-185 | After adding `h` under `c` and removing it twice, a frame for `c` still reaches `h`. |
| `ConnectionModel.Send` | client/services/WebsocketServices.ts:150-159 | When the handle exists and is OPEN, exactly one message is transmitted and nothing else changes. Otherwise nothing changes. |
| `ConnectionModel.SendWhileClosedTransmitsNothing` | client/services/WebsocketServices.ts:150-159 | With no open handle, repeated sends transmit nothing, and a send after `close` is a no-op. |
| `ConnectionModel.Close` | client/services/WebsocketServices.ts:188-195 | An open handle is closed and nothing else changes; otherwise nothing changes. Afterwards no handle is open, and `appState` is never touched. |
| `ConnectionModel.OnClose` | client/services/WebsocketServices.ts:99-112 | Exactly one reconnect is armed iff `appState` is exactly "active"; nothing else changes. |
| `ConnectionModel.OnRetryTimer` | client/services/WebsocketServices.ts:107-111 | A fired reconnect timer consumes one armed timer, calls `connect`, and leaves `appState` and the registry unchanged. |
| `ConnectionModel.CloseWhileActiveStillReconnects` | client/services/WebsocketServices.ts:188-195 | `close()` on an open handle while the app is active is followed by `onclose` arming one reconnect. |
| `ConnectionModel.DropInBackgroundArmsNoRetry` | client/services/WebsocketServices.ts:99-112 | A drop while the app is in the background arms no reconnect. |
| `ConnectionModel.ContainsIsSubstring` | client/services/WebsocketServices.ts:26 | `Contains(s, p)` holds iff `p` occurs in `s` at some offset. This is the substring test a regular expression made of literal words performs. |
| `ConnectionModel.InBackground` | client/services/WebsocketServices.ts:26 | The reconnect test holds iff "inactive" or "background" occurs somewhere in `appState`. |
| `ConnectionModel.IsOpen` | client/services/WebsocketServices.ts:45-48 | The guard shared by `connect`, `send` and `close`: a handle exists and its ready state is OPEN. |
| `ConnectionModel.Configured` | client/services/WebsocketServices.ts:52-55 | The address test passes iff the value is present and non-empty (`!IP_ADDRESS` rejects both undefined and ""). |
| `ConnectionModel.TransportStateChanged` | client/services/WebsocketServices.ts:99-112 | Environment event: the transport moves the current handle to the given ready state, for example CLOSED before it raises `onclose`. Without a handle nothing changes. Only the handle's ready state changes. |
| `ConnectionModel.InBackgroundStates` | client/services/WebsocketServices.ts:26 | "inactive" and "background" pass the reconnect test; "" and "active" do not. |
| `ConnectionModel.AppStateChanged` | client/services/WebsocketServices.ts:24-34 | `connect` is called iff the previous state matches inactive/background and the next is "active". Without a call, only `appState` changes, to the next state. With a call, the state is `connect`'s, and `appState` becomes the next state unless `connect` rejected. |
| `ConnectionModel.FirstChangeNeverReconnects` | client/services/WebsocketServices.ts:20-34 | From the initial state (`appState` ""), no lifecycle change reconnects, and the new state is recorded. |
| `ConnectionModel.ForegroundReconnects` | client/services/WebsocketServices.ts:24-34 | Going from "background" to "active" with no open handle creates a new handle. |
| `ConnectionModel.RejectedReconnectKeepsBackground` | client/services/WebsocketServices.ts:30-33 | If the foreground reconnect rejects, `appState` stays "background", so the next change to "active" tries again. |
| `WebsocketServices.WebSocketService.constructor` | client/services/WebsocketServices.ts:18-35 | The service starts with no handle, `appState` "", and an empty registry. |
| `WebsocketServices.WebSocketService.Connect` | client/services/WebsocketServices.ts:44-70 | The fields change as `ConnectionModel.Connect` says, and the outcome is the one it gives. |
| `WebsocketServices.WebSocketService.WaitForOpenConnection` | client/services/WebsocketServices.ts:122-143 | The tick loop computes `Poll`. It resolves iff the handle is open on one of ticks 0..9, otherwise it rejects, and it runs 1..11 ticks. |
| `WebsocketServices.WebSocketService.OnMessage` | client/services/WebsocketServices.ts:80-97 | The `forEach` over the key's list calls exactly `Route`'s handlers, in order. |
| `WebsocketServices.WebSocketService.OnClose` | client/services/WebsocketServices.ts:99-112 | The fields change as `ConnectionModel.OnClose` says. |
| `WebsocketServices.WebSocketService.OnRetryTimer` | client/services/WebsocketServices.ts:108-110 | The fields change as `ConnectionModel.OnRetryTimer` says. |
| `WebsocketServices.WebSocketService.OnTransportState` | client/services/WebsocketServices.ts:99-112 | The fields change as `ConnectionModel.TransportStateChanged` says. |
| `WebsocketServices.WebSocketService.OnAppStateChange` | client/services/WebsocketServices.ts:24-34 | The fields change as `ConnectionModel.AppStateChanged` says. |
| `WebsocketServices.WebSocketService.Send` | client/services/WebsocketServices.ts:150-159 | The fields change as `ConnectionModel.Send` says. |
| `WebsocketServices.WebSocketService.AddListener` | client/services/WebsocketServices.ts:168-175 | The registry is updated in place as `ConnectionModel.AddListener` says. |
| `WebsocketServices.WebSocketService.RemoveListener` | client/services/WebsocketServices.ts:183-185 | No field changes. |
| `WebsocketServices.WebSocketService.Close` | client/services/WebsocketServices.ts:188-195 | The fields change as `ConnectionModel.Close` says. |
| `PostureModel.Clamp` | server/server.py:182 | The result lies in 0..100. It equals the input inside that range, 0 below it, and 100 above it. |
| `PostureModel.Record` | server/server.py:185-187 | The new sample is last. Below 1000 entries the history grows by one. At 1000 the oldest entry is dropped and the rest keep their order. The length never exceeds 1000. |
| `PostureModel.PostureRating` | server/server.py:168-191 | A missing length returns 0 and leaves the history unchanged. Otherwise it returns the clamped rating and records it last. The result is always in 0..100, and a valid history stays valid. |
| `PostureModel.RecordAllKeepsLatest` | server/server.py:185-187 | After any run of recordings, the history is exactly the latest 1000 samples seen, oldest first. |
| `PostureModel.Classify` | server/server.py:318 | "good" iff rating >= good-threshold, "moderate" iff moderate-threshold <= rating < good-threshold, "poor" otherwise. |
| `PostureModel.CalibrationEndpointStatus` | server/server.py:318 | On `/ws/`: "good" iff >= 80, "moderate" iff 60..79, "poor" iff < 60. |
| `PostureModel.StreamEndpointStatus` | server/server.py:365 | On `/ws/rating`: "good" iff >= 95, "moderate" iff 70..94, "poor" iff < 70. |
| `PostureModel.MissingStatus` | server/server.py:327 | "not_calibrated" iff there is no baseline, otherwise "no_pose". |
| `PostureModel.Truthy` | server/server.py:324-325 | A length is reported iff it is present and non-zero. |
| `PostureModel.RatingResponse` | server/server.py:309-328 | With either length missing, the reply has rating 0 and difference 0, nothing is recorded, the lengths are reported through `Truthy`, and the status follows `MissingStatus`. Otherwise the reply's rating is `Clamp` of the raw rating, classified and recorded; the lengths are reported as they are; and the difference is current minus baseline. The rating is always in 0..100, and the lengths are never changed. |
| `PostureModel.HandleAction` | server/server.py:282-338 | `calibrate` with a current length sets the baseline to it and replies success. Without one it changes nothing and replies error. `reset` clears the baseline. `rating` behaves as `RatingResponse` with thresholds 80/60. `graph` replies with the history and changes nothing. Anything else changes nothing and sends no reply. The current length is never written. |
| `PostureModel.ResetIsIdempotent` | server/server.py:299-306 | A second `reset` leaves the state and the reply as the first left them. |
| `PostureModel.RatingAfterResetIsNotCalibrated` | server/server.py:299-328 | After `reset`, `rating` replies "not_calibrated" with rating 0 and records nothing. |
| `PostureModel.CalibrateStatus` | server/server.py:282-297 | The `calibrate` reply's status is "success" iff a current length exists, and "error" iff none does. |
| `PostureModel.HandleAllKeepsHistoryValid` | server/server.py:277-338 | Over any run of `/ws/` requests, the history keeps at most 1000 entries, each rating in 0..100. |
| `Server.PostureServer.constructor` | server/server.py:46-51 | No lengths, and an empty history. |
| `Server.PostureServer.CalculatePostureRating` | server/server.py:168-191 | Append-then-pop in place computes `PostureRating`'s rating and history, and the history stays valid. |
| `Server.PostureServer.RatingReply` | server/server.py:309-328 | The fields and the reply are as `RatingResponse` gives them. |
| `Server.PostureServer.HandleCalibrationMessage` | server/server.py:276-338 | One pass of the `/ws/` loop changes the globals and replies as `HandleAction` says. |
| `Server.PostureServer.StreamRating` | server/server.py:355-377 | One pass of the `/ws/rating` loop replies as `RatingResponse` with thresholds 95/70. |

## Left out

- The `onopen` and `onerror` callbacks, and every console message: they only log.
- The `if (this.websocket == null)` branch after `new WebSocket(...)` (client/services/WebsocketServices.ts:62-65): a constructor never returns null, so the branch cannot run.
- `startWebsocketListeners`: installing callbacks is represented by the callback methods `OnMessage` and `OnClose`. They act on the service, whichever handle raised the event.
- Interleaving: each method and callback runs to completion. The model does not capture a frame, a close or a lifecycle event arriving during `connect`'s two-second wait. It also does not capture a handler that calls back into the service while dispatch is running.
- What handlers do when called, and the payload they receive: handlers are opaque identifiers.
- JSON: `JSON.parse`, `JSON.stringify`, `json.loads` and `json.dumps`. Frames are decoded values, and the contents of the `Command` / `WebSocketResponse` types come from a file that is not part of this model.
- Real time: the 200 ms interval, the 1 s reconnect delay, `asyncio.sleep` on both endpoints, and `time.time()`, which is a parameter.
- `WebSocketDisconnect` and the other exceptions that end the server loops.
- `calculate_distance_3d`, the ×170 scaling, the float formula and its `int(...)`, which fails for a zero baseline. The pre-clamp rating is an integer input instead.
- `round(..., 1)` in replies.
- Frame processing and video (`process_frame`, `camera_thread`, `generate_frames`, `video_feed`, `index`). `current_neck_length` is a field that this model only reads.
- The lock, the camera thread, and the startup/shutdown hooks.
- The presentational client components and screens.
