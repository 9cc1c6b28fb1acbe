# EasyWebSocket in Dafny

A model of `EasyWebSocket` (index.ts), a publish/subscribe client over one
WebSocket. The client is a process-wide singleton. It keeps a registry from
channel name to handler pair. Sends issued while the socket is not open are
held in a queue. A reconnect counter bounds automatic reconnection, and a
heartbeat subscribes to the `ping` channel periodically.

The WebSocket itself is abstracted to a ready state (`Connecting`, `Open`,
`Closing`, `Closed`), a count of sockets opened, the log of texts put on the
wire and the log of close requests. Calls into application code (the open,
message, error and close hooks, the subscription handlers) and console
output are recorded in an event log. Whether the message hook or a
subscription handler throws is an input of `OnMessage`; the open, error and
close hooks are assumed to return (see "Left out").

Modules:

- `Optional`: `Option`, standing for `undefined` in options and callbacks.
- `Json`: JavaScript values as `JSON.parse` yields them, truthiness, field
  lookup, and the conversion of a value to a property key.
- `Options`: the options record and `assignOptions`' defaulting.
- `Subscriptions`: the registry, the subscription envelope, and
  `callSubscribe`'s routing decision as the pure function `Dispatch`.
- `PendingQueue`: what one `runQueue` pass runs and what it leaves queued.
- `Reconnection`: `reconnect`'s decision and the reconnect budget.
- `Client`: the class `EasyWebSocket` and the class `Singleton`, which holds
  the static `instance` field. The transport events are methods that the
  environment calls: `OnOpen`, `OnMessage`, `OnError`, `OnClose` and
  `OnWatchdogExpired`, plus `OnPeerClosing` for the socket entering the
  closing state when the server starts the closing handshake, and `HeartbeatTick` for one tick of a heartbeat
  interval. `Construct` is `new EasyWebSocket(url, options)`.

Behaviour kept as the code has it, some of which may surprise a reader:

- `manualOpen || true` is always true, so construction always connects.
- `connect` opens a new socket whatever the current state.
- One `runQueue` pass splices inside `forEach`. It runs the items at even
  positions and leaves those at odd positions queued (`DrainIsNotFifo`).
- The counter reaches `maxReconnectTimes + 1` before `reconnect` throws.
- Each open starts one more heartbeat interval. The interval handle is never
  stored, so `clearTimeout(heartbeatTimer)` stops none of them.
- A handler or hook exception is reported as the JSON-parse error and
  skips the queue run that ends the message handler.
- An inbound status other than `success` or `error` is dropped silently.
- The registry is a plain object. A channel named after an
  `Object.prototype` member (`toString`, `constructor`, `__proto__`, ...) is
  found there even though nobody subscribed to it. With status `success`
  the client then calls a missing `onMessage`, a TypeError. With status
  `error` it prints the missing-error-handler diagnostic.

## Model

| member | source | states |
|---|---|---|
| Options.AssignOptions | index.ts:35-45 | each option keeps a truthy supplied value, otherwise takes its default (30000, 10, 'channel', 'data', 30000); `manualOpen` is true whatever was supplied; every option other than the optional `onOpen` hook is truthy in the result |
| Options.ResolvedIsFixpoint | index.ts:35-45 | supplying options again leaves them unchanged exactly when every option other than the optional `onOpen` hook is truthy |
| Options.AssignOptionsIdempotent | index.ts:35-45 | defaulting twice is the same as defaulting once |
| Subscriptions.Register | index.ts:155-158 | the name maps to the new handler pair, every other entry is unchanged, no other key appears |
| Subscriptions.Unregister | index.ts:206-208 | only the key is removed; an absent key leaves the registry equal |
| Subscriptions.SubscribeEnvelope | index.ts:147-153 | the envelope has exactly the two configured fields; the data field holds the data, the channel field holds the name when the two field names differ (otherwise the data overwrites it) |
| Subscriptions.Dispatch | index.ts:167-199 | for each outcome, the exact condition, and the looked-up channel for every outcome that names one: null payload or `success` on an inherited name throws; falsy status or channel gives the diagnostic; an unknown channel is dropped; `success` calls only that channel's onMessage; `error` calls its onError, or gives the diagnostic when there is none; any other status is dropped |
| Subscriptions.SuccessReplyReachesSubscriber | index.ts:150-182 | a `success` reply echoing the subscription envelope reaches the onMessage handler just registered |
| Subscriptions.ErrorReplyReachesSubscriber | index.ts:150-193 | an `error` reply echoing the envelope reaches the registered onError, or the diagnostic when there is none, never onMessage |
| Subscriptions.UnsubscribedChannelIsDropped | index.ts:206-208 | after unsubscribing, an envelope for that channel is dropped (unless the name is inherited) |
| Subscriptions.ResubscribeOverwrites | index.ts:155-158 | subscribing twice to a name leaves one registration, the second |
| Subscriptions.UnsubscribeIdempotent | index.ts:206-208 | unsubscribing twice equals unsubscribing once |
| PendingQueue.Executed | index.ts:224-229 | a pass over n items runs (n+1)/2 of them |
| PendingQueue.Kept | index.ts:224-229 | a pass over n items leaves n/2 of them queued |
| PendingQueue.ExecutedAt | index.ts:224-229 | the k-th item a pass runs is the item at position 2k |
| PendingQueue.KeptAt | index.ts:224-229 | the k-th item a pass keeps is the item at position 2k+1, so the kept items stay in their original order |
| PendingQueue.PassStep | index.ts:225-227 | at index i the forEach runs the next even-position item, and splicing it out keeps the pass invariant |
| PendingQueue.PassEnd | index.ts:225-228 | when the index passes the end of the shrunken queue, all even-position items have run and the odd-position ones remain |
| PendingQueue.PassPartitionsQueue | index.ts:224-229 | what a pass runs and what it keeps together are the queue: no item lost or duplicated |
| PendingQueue.ExecutedAppend | index.ts:236-238 | an item pushed onto a queue of even length is run last by the next pass; pushed onto one of odd length, the pass runs what it would have run without it |
| PendingQueue.KeptAppend | index.ts:236-238 | an item pushed onto a queue of odd length is kept last by the next pass; pushed onto one of even length, the pass keeps what it would have kept without it |
| PendingQueue.DrainRunsEachItemOnce | index.ts:224-229 | repeated passes with no new sends run every queued item exactly once |
| PendingQueue.DrainIsNotFifo | index.ts:224-229 | three queued items run in the order first, third, second |
| Reconnection.Decide | index.ts:105-115 | reconnect gives up exactly when the counter exceeds the maximum, and reconnects exactly when it does not and the socket is not open |
| Reconnection.ErrorBudget | index.ts:105-115 | from a counter within budget, the counter stays 0 or at most max+1; from a counter c <= max exactly max+1-c consecutive errors reconnect and the next one throws; from a larger counter none does and the first error throws |
| Reconnection.MaximumTwoAllowsThreeReconnects | index.ts:105-115 | with maximum 2, three consecutive errors from a fresh counter each reconnect, leaving the counter at 3 |
| Reconnection.MaximumTwoFourthErrorThrows | index.ts:105-115 | with maximum 2, the fourth consecutive error throws after three reconnects |
| Client.Construct | index.ts:19-28 | while an instance exists it is returned with url and options unchanged; otherwise a fresh connecting client with defaulted options becomes the instance |
| Client.EasyWebSocket.constructor | index.ts:22-27 | stores the url, defaults the options, connects once and sets the instance |
| Client.EasyWebSocket.Connect | index.ts:50-53 | one more socket, in the connecting state |
| Client.EasyWebSocket.OnOpen | index.ts:59-65 | the socket is open, the open hook is called when supplied, one more heartbeat interval runs, and one queue pass transmits the even-position items and keeps the odd-position ones |
| Client.EasyWebSocket.OnMessage | index.ts:67-83 | the counter is 0 and the watchdog cleared; a parse failure, hook exception, routing TypeError or handler exception yields the parse error with the queue untouched; otherwise the routing outcome's calls are logged and one queue pass runs |
| Client.EasyWebSocket.OnError | index.ts:85-92 | the instance is cleared; past the maximum it throws before the hook; otherwise the counter grows by one, a new socket connects, then the hook and the notice are logged |
| Client.EasyWebSocket.OnClose | index.ts:94-99 | the instance is cleared and the close hook logged; no reconnect; the close of a socket opened before the latest reconnect leaves the current socket's state alone |
| Client.EasyWebSocket.Reconnect | index.ts:105-115 | throws past the maximum with nothing changed; reconnects and counts only when the socket is not open |
| Client.EasyWebSocket.Send | index.ts:123-139 | when open, exactly one text is transmitted and the queue is unchanged; otherwise exactly one text is queued and nothing is transmitted; with json false the text is empty |
| Client.EasyWebSocket.Transmit | index.ts:128-132 | the text goes on the wire and the watchdog is armed |
| Client.EasyWebSocket.Subscribe | index.ts:146-159 | one subscription envelope is sent or queued, and the registry maps the name to the new pair |
| Client.EasyWebSocket.CallSubscribe | index.ts:167-199 | logs the calls and diagnostics of the routing decision |
| Client.EasyWebSocket.Unsubscribe | index.ts:206-208 | only the channel's registration is removed; nothing is sent |
| Client.EasyWebSocket.Close | index.ts:216-219 | the close request (default code 1000) is logged, the socket moves to closing, the instance is cleared |
| Client.EasyWebSocket.RunQueue | index.ts:224-229 | the queue becomes its odd-position items and the even-position items are transmitted in order |
| Client.EasyWebSocket.PushQueue | index.ts:236-238 | appends at the tail |
| Client.EasyWebSocket.StartHeartbeat | index.ts:252-264 | one more interval, none cleared |
| Client.EasyWebSocket.HeartbeatTick | index.ts:253-263 | a `ping` subscription with empty handlers is sent or queued and registered |
| Client.EasyWebSocket.OnWatchdogExpired | index.ts:243-247 | an armed watchdog throws the timeout error |

## Left out

- The WebSocket object is abstracted to its ready state and logs.
- Client.EasyWebSocket.Close: the socket's own checks on `close` (the code must be 1000 or 3000-4999, the reason at most 123 bytes) are not modelled; with an invalid code `socket.close` throws before the instance is cleared, while the model always clears it.
- `JSON.stringify` and `JSON.parse` are not modelled. A transmitted text is kept as its payload, and the result of parsing an inbound text is an input.
- Numbers are modelled as integers: fractions, NaN and exponent formatting are not.
- Field lookups on a parsed payload see only an object's own fields, not an array's or a string's `length` and indices, nor inherited members. These matter only when the configured channel field has such a name.
- Client.EasyWebSocket.Subscribe: a subscription named `__proto__` replaces the registry's prototype in JavaScript; the model stores it as an ordinary entry.
- Client.EasyWebSocket.OnWatchdogExpired: the watchdog is one flag. Each send overwrites the stored timer handle, so earlier timers keep running and a message clears only the latest one; the model does not count them.
- Timer scheduling (the `timeout` and `heartbeatTimeout` periods, the interleaving of ticks and socket events) is not modelled; a tick is an event the environment may call while an interval runs.
- Client.EasyWebSocket.OnOpen: the open hook is assumed to return; one that throws would skip the heartbeat and the queue run.
- Client.EasyWebSocket.OnError: the error hook is assumed to return; one that throws would escape the handler and skip the reconnect notice.
- Client.EasyWebSocket.OnClose: the close hook is assumed to return; one that throws would escape the handler. Events from a socket that a reconnect or a `connect` call has replaced are modelled only for the close event; in particular a message on an old socket that is still open, whose queue run would send on the new, still connecting socket, cannot be expressed, since `OnMessage` requires the current socket to be open.
- Hooks and handlers that call back into the client are not modelled.
- index.d.ts holds type declarations only; it shapes `Settings` and `Handlers`.
