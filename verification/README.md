# datcord gateway connection, modelled in Dafny

This project models the gateway connection manager of datcord, a small client
for the Discord gateway protocol. The `Datcord` class in `datcord.js` does four
things:

- it opens a WebSocket;
- it waits for the server's Hello (opcode 10);
- it answers with a heartbeat (opcode 1), starts a repeating heartbeat timer
  and identifies itself (opcode 2);
- it then routes every inbound frame: one-shot opcode waiters first, then
  heartbeat requests, heartbeat acknowledgements (opcode 11), reconnect and
  invalid-session requests (opcodes 7 and 9), and dispatch events (opcode 0).

The model also covers the configuration defaults that both `Datcord` and its
REST helper `ApiClient` resolve in their constructors, and `ApiClient`'s
request-path composition, `basePath + path`.

Layout:

- `js.dfy` (module `Js`): the JavaScript values the client handles
  (`undefined`, `null`, booleans, integers, strings, arrays, objects).
  `Get` is optional chaining (`v?.key`); `IfDefined` is the
  `x !== undefined ? x : default` idiom; `ToString` is `String(v)`, with a
  proved decimal round trip for numbers.
- `config.dfy` (module `Config`): default resolution for both constructors,
  `ApiClient` and its request path.
- `protocol.dfy` (module `Protocol`): each handler of `Datcord` as a pure
  transition on a `State`. The state holds the waiter list, the settled
  promises, where the suspended `#onOpen` is, the heartbeat record and an
  append-only log of effects. The effects are socket sends, close requests,
  timer starts and clears, promise resolutions, emitted events, and rejections
  of the async handlers.
- `properties.dfy` (module `Properties`): what each handler promises.
- `lifecycle.dfy` (module `Lifecycle`): whole runs of one connection. It proves
  an invariant kept by every handler, facts about every run from construction
  on, and the documented opening exchange as a concrete scenario.
- `gateway.dfy` (module `Gateway`): the class `Gateway`. Its fields are
  updated in place, as `Datcord`'s private fields are. The handlers (the
  constructor, `OnSocketOpen`, `OnHello`, `Tick`, `OnMessage`, `OnClose` and
  `OnError`) are proved to perform exactly the transition `Protocol` gives and
  to keep the `Lifecycle` invariant. `Send` and `Close` perform their
  transitions and keep the invariant exactly when it held before. The helpers
  (`EmitEvent`, `WaitForOpcode`, `AnswerHello`, `ResolveWaiters`, `Route`,
  `StopHeartbeat`) are proved to perform their part of a transition. The
  `forEach` over the waiters is a loop with invariants.

How the model represents the asynchronous parts:

- A promise returned by `#waitForOpcode` is the index of its waiter in the
  list. The list is never pruned, so indices stay valid. The `settled` map
  records the first value each promise was resolved with, since resolving a
  settled promise does nothing.
- The `await` in `#onOpen` splits the handler in two. `OnSocketOpen` runs up
  to the `await` and records `AwaitingHello(i)`. `OnHello` runs the rest once
  promise `i` has settled.
- The `setInterval` callback is `Tick`.
- An exception thrown inside an async handler (reading `.op` of a null frame,
  reading `.heartbeat_interval` of a Hello without data) rejects that
  handler's promise. It appears as a `Reject("TypeError")` effect, and the rest
  of the handler does not run.

The model follows the code as written, quirks included:

- `this.#opcodeWaits.slice(i, 1)` returns a copy, so no waiter is ever removed.
- `forEach` resolves every matching waiter, not just the first.
- `lastSequence` is overwritten by every frame, even with `null`.
- `receivedLast` is never reset to false.
- A tick without an acknowledgement requests a close and still sends a
  heartbeat.
- The default intents are 32641 in `Datcord` and 32767 in `ApiClient`.

Each of these is visible in the code itself: the result of `slice` is never
assigned (datcord.js:231), the `forEach` callback has no early exit
(datcord.js:227-233), `lastSequence` is assigned `message.sequence`
unconditionally (datcord.js:223), no statement assigns `receivedLast = false`,
and the close in the timer callback (datcord.js:190-192) is followed by an
unconditional `send` (datcord.js:193). The lemmas state this behaviour; for
example, `Properties.SettledWaitersSwallowFrame` shows that a second Hello is
swallowed by the old, already settled waiter.

## Model

| member | source | states |
|---|---|---|
| Config.Resolve | datcord.js:152-170 | the resolved configuration has no `undefined` field |
| Config.CallerValueOrDefault | datcord.js:155-170 | each field takes the caller's value exactly when that value is not `undefined`, and otherwise its own default (host `discord.com`, basePath `/api/v9`, port 443, gatewayQuery `/gateway`, the default presence, the given default intents, cache `true`), field by field, so a partial configuration keeps the other defaults |
| Config.AbsentPresenceIsDefault | datcord.js:162-167 | without a caller presence, the presence is `{since: null, activities: [], status: 'online', afk: false}`; the inner per-field fallbacks never see a caller value |
| Config.EmptyConfigDefaults | datcord.js:29-46 | for `null`, `undefined` or `{}`: host `discord.com`, basePath `/api/v9`, port 443, gatewayQuery `/gateway`, the default presence, the given default intents, cache `true` |
| Config.DefaultIntentsDiffer | datcord.js:44 | the two constructors agree on every field except the intents; an absent `intents` becomes 32641 in `Datcord` (datcord.js:168) and 32767 in `ApiClient` |
| Config.ResolveIdempotent | datcord.js:31-46 | resolving an already resolved configuration again yields it unchanged, whatever the second default intents are |
| Config.NewApiClient | datcord.js:29-47 | `new ApiClient(token, config)` keeps the token and has a fully defined configuration |
| Config.GatewayApiClientConfig | datcord.js:171 | the `ApiClient` that `Datcord` builds carries exactly `Datcord`'s configuration, including intents 32641 and not 32767 |
| Config.RequestPath | datcord.js:58 | the request path is the base path converted to a string, followed by the path, and nothing else |
| Config.RequestPathOfConfig | datcord.js:31-58 | for every configuration and path, a string base path `b` gives `b + path`, and an absent one gives `/api/v9` + path |
| Config.DefaultDiscoveryPath | datcord.js:172 | with the defaults, gateway discovery requests `/api/v9/gateway` |
| Js.ToString | datcord.js:262 | `String(v)` gives a string back unchanged and writes an integer in canonical decimal (digits only after an optional `-`, no leading zero, no `-0`) that parses back to it; this agrees with JavaScript for integers of magnitude at most 2^53 |
| Js.DecimalUnique | datcord.js:262 | the canonical decimal form is unique: any canonical string that parses to `n` is the model's decimal form of `n` |
| Js.DecimalRoundTrip | datcord.js:262 | parsing the decimal form of any integer, negative ones included, gives the integer back |
| Protocol.Envelope | datcord.js:289-294 | the outbound frame carries the opcode and data; its sequence and event name are `null` |
| Protocol.CloseArgs | datcord.js:303 | an omitted code becomes 4000 and an omitted reason becomes `null`; given arguments pass through |
| Protocol.Normalise | datcord.js:213-218 | the normalised message's `opcode`, `data`, `sequence` and `event` are the frame's `op`, `d`, `s` and `t` |
| Properties.SendWritesEnvelope | datcord.js:288-296 | `send` writes exactly `{op, d, s: null, t: null}` and then emits `gateway.send` with the same opcode and data; nothing else changes |
| Properties.CloseDefaults | datcord.js:303-305 | `close()` requests code 4000 (application-reserved, section 7.4.2 of RFC 6455) and reason `null`, and changes nothing else |
| Properties.ResolveAllSettles | datcord.js:227-233 | the `forEach` settles exactly the promises of the matching waiters, with the message; already settled promises keep their value |
| Properties.ResolveAllEffects | datcord.js:227-233 | the resolutions that take effect are exactly those of newly settled promises, each with the message, and there are none when nothing new settles |
| Properties.ResolveAllInOrder | datcord.js:227-233 | resolutions follow the list order of the waiters, each waiter at most once |
| Properties.ResolveAllNoMatch | datcord.js:226-233 | with no matching waiter, the loop resolves nothing and settles nothing |
| Properties.RouteFrame | datcord.js:238-263 | opcode routing only appends to the log and can only set the acknowledgement flag |
| Properties.ClaimFrame | datcord.js:226-236 | waiter matching only settles promises and appends to the log |
| Properties.MessageFirstAndSequence | datcord.js:211-223 | every frame first emits `gateway.message` with the normalised message and overwrites `lastSequence` with the frame's `s`, even a null one; the waiter list, the timer and the handshake never change |
| Properties.NullFrameRejected | datcord.js:213-214 | a null frame makes the handler reject before anything else happens |
| Properties.WaiterMatchSuppressesRouting | datcord.js:226-236 | when some waiter matches, every matching unsettled waiter is resolved with the message; nothing but resolutions follows `gateway.message`; no heartbeat, acknowledgement, close or dispatch happens |
| Properties.SettledWaitersSwallowFrame | datcord.js:226-236 | a frame whose opcode only matches already settled waiters only emits `gateway.message` and overwrites the sequence, because the waiter list is never pruned (datcord.js:231) |
| Properties.RouteByOpcode | datcord.js:238-263 | with no matching waiter: opcode 1 sends one heartbeat carrying the frame's sequence; 11 sets the flag and sends nothing; 7 and 9 request close 4000/null; 0 emits `gateway.event.<t>` carrying `d`; any other opcode does nothing more |
| Properties.DispatchChannel | datcord.js:262 | a string event name `x` is emitted on `gateway.event.x`, and different names reach different channels |
| Properties.SocketOpenWaitsForHello | datcord.js:181-185 | opening emits `socket.open`, appends one waiter for opcode 10 and suspends on its promise; nothing else changes |
| Properties.HelloHandshakeOrder | datcord.js:185-208 | after Hello, in order: heartbeat with `lastSequence`, timer set at the Hello's `heartbeat_interval`, Identify (token, `{os: windows, browser: custom, device: custom}`, the configured presence and intents), then `gateway.open`; the handshake is done |
| Properties.HelloWithoutData | datcord.js:185 | a Hello without data rejects: no heartbeat, no timer, no Identify, no `gateway.open` |
| Properties.TickClosesThenStillBeats | datcord.js:189-194 | without an acknowledgement, a tick requests close 4000/null and then still sends a heartbeat with `lastSequence`; with one, it only sends the heartbeat; no other state changes, so the flag is not reset |
| Properties.CloseTearsDown | datcord.js:266-273 | `gateway.close` comes before `socket.close`, with the same `{code, reason}`; the timer is cleared between them only if it was set; afterwards none is set, so a second close clears nothing |
| Properties.ErrorTearsDown | datcord.js:275-282 | the same for `gateway.error`, `socket.error` and `{error}` |
| Lifecycle.InitInv | datcord.js:141-146 | a new connection (no waiters, no timer, flag false, sequence null) satisfies the connection invariant |
| Lifecycle.MessageKeepsInv | datcord.js:211-264 | `#onMessage` keeps the invariant: every settled promise holds a message of its waiter's opcode, and the counts of timer starts, timer clears and `gateway.open` emissions are unchanged |
| Lifecycle.OpenKeepsInv | datcord.js:181-185 | `#onOpen` up to its `await` keeps the invariant |
| Lifecycle.HelloKeepsInv | datcord.js:185-208 | the rest of `#onOpen` keeps the invariant: it starts the only timer and emits the only `gateway.open` |
| Lifecycle.TickKeepsInv | datcord.js:189-194 | the tick keeps the invariant |
| Lifecycle.CloseKeepsInv | datcord.js:266-273 | `#onClose` keeps the invariant: a clear is logged exactly when a set timer is dropped |
| Lifecycle.ErrorKeepsInv | datcord.js:275-282 | `#onError` keeps the invariant |
| Lifecycle.StepKeepsInv | datcord.js:181-305 | every handler the socket, the timer or a caller can trigger keeps the invariant |
| Lifecycle.StepExtends | datcord.js:133-315 | no handler removes a logged effect or resets the acknowledgement flag |
| Lifecycle.RunKeepsInv | datcord.js:133-315 | over any sequence of events the invariant holds, the log only grows and `receivedLast` is never reset |
| Lifecycle.TimerAndOpenAtMostOnce | datcord.js:181-282 | from construction on, at most one heartbeat timer is ever started, it is cleared at most once, and `gateway.open` is emitted at most once |
| Lifecycle.OnlyAckSetsReceivedLast | datcord.js:243-246 | only an opcode-11 frame that no waiter claims sets the acknowledgement flag |
| Lifecycle.TimerStartsAtHelloInterval | datcord.js:185-194 | the resumed handshake holds an opcode-10 frame, and the timer is started at the interval that frame carries |
| Lifecycle.HelloFrameSettlesWaiter | datcord.js:211-236 | the Hello frame settles the handshake's waiter with the normalised Hello and is not routed further |
| Lifecycle.OpeningScenario | datcord.js:181-236 | socket open, Hello `{op: 10, d: {heartbeat_interval: 41250}}`, handshake resumed: the log is `socket.open`, `gateway.message`, the resolution, heartbeat `{op: 1, d: null}`, the timer at 41250, Identify, `gateway.open`, in that order |
| Gateway.Gateway.constructor | datcord.js:152-171 | resolves the configuration with the gateway defaults, builds the `ApiClient` with it, and starts with no waiters, no timer, flag false, sequence null and the invariant |
| Gateway.Gateway.Send | datcord.js:288-296 | performs exactly `Protocol.Send`, and keeps the invariant: the connection is valid afterwards exactly when it was before |
| Gateway.Gateway.Close | datcord.js:303-305 | performs exactly `Protocol.Close`, and keeps the invariant: the connection is valid afterwards exactly when it was before |
| Gateway.Gateway.WaitForOpcode | datcord.js:307-314 | appends one waiter for the opcode and returns its promise, the new last index |
| Gateway.Gateway.OnSocketOpen | datcord.js:181-185 | performs `Protocol.OnSocketOpen` and keeps the invariant |
| Gateway.Gateway.OnHello | datcord.js:185-208 | performs `Protocol.OnHello` and keeps the invariant |
| Gateway.Gateway.AnswerHello | datcord.js:187-208 | performs `Protocol.AnswerHello`: heartbeat, timer, Identify, `gateway.open` |
| Gateway.Gateway.Tick | datcord.js:189-194 | performs `Protocol.Tick` and keeps the invariant |
| Gateway.Gateway.OnMessage | datcord.js:211-264 | performs `Protocol.OnMessage` and keeps the invariant |
| Gateway.Gateway.ResolveWaiters | datcord.js:226-233 | the loop appends exactly the resolutions of `Protocol.ResolveAll`, settles exactly its promises, and reports whether any waiter matched |
| Gateway.Gateway.Route | datcord.js:238-263 | performs `Protocol.Route` |
| Gateway.Gateway.OnClose | datcord.js:266-273 | performs `Protocol.OnClose` and keeps the invariant |
| Gateway.Gateway.OnError | datcord.js:275-282 | performs `Protocol.OnError` and keeps the invariant |
| Gateway.Gateway.StopHeartbeat | datcord.js:268-271 | clears and forgets the timer only if one is set |

## Left out

- `ApiClient.get` and `ApiClient.post` (datcord.js:53-130) are not modelled: HTTPS requests, chunk accumulation, and `JSON.parse` with its `SyntaxError` fallback. Only the path they request, `basePath + path`, is modelled.
- Gateway discovery and socket wiring (datcord.js:172-178) are left out: the REST call's result, the WebSocket constructor with `?v=9&encoding=json`, and `JSON.parse` of raw frames. The handlers receive already parsed frames as `Value`s. Which events fire and in what order is the choice of `Lifecycle.Run`'s event sequence.
- Real time is left out. `setInterval` and `clearInterval` are `StartTimer` and `ClearTimer` effects, and a timer is identified by its period. The Promise and microtask scheduling behind `await` is not modelled: `HelloResumed` may come at any point after the promise settled, which allows more interleavings than JavaScript does.
- EventEmitter subscribers and `console.log` (datcord.js:250, 256) are left out. An emitted event is an `Emit` log entry; what listeners do is not modelled.
- `JSON.stringify` of the outbound frame is left out. The envelope is recorded as a value, so fields that serialisation would drop (`undefined`) are kept.
- Numbers are integers only. Fractional heartbeat intervals, `NaN` and their string forms are not modelled.
- `Js.ToString` writes every object as `[object Object]`. An object with its own `toString` is not modelled.
- Js.ToString: every integer is written with all its digits. A JavaScript number above 2^53 in magnitude is a double: `String` writes the shortest digit string that rounds to it, padded with zeros (`String(2**64)` is `"18446744073709552000"`, where the model writes `"18446744073709551616"`), and from 10^21 on it switches to exponent form (`String(1e21)` is `"1e+21"`). For such an event name (`gateway.event.<t>`, datcord.js:262) or a numeric `basePath` (datcord.js:58) the model's string, and so the event channel or request path, differs from the program's.
- Rejections are not propagated. The promises returned by `#onOpen` and `#onMessage` are discarded (datcord.js:174-175), so a `Reject("TypeError")` is an unhandled rejection; under Node's default unhandled-rejection mode that ends the process. `Lifecycle.Step` instead lets the connection go on receiving events after a `Reject` effect.
- Object identity is not modelled. Objects are compared by value, so `{}` passed twice counts as one value.
- `Config.RequestPath` takes the path as a string. JavaScript's `+` with a non-string path (a number, say) is not modelled.
- `this.#ws` before the socket exists is not modelled: calling `send` or `close` before discovery finishes would throw, and the model lets them append to the log.
- `examples/openai-chatbot/main.js` and `examples/console-client/main.js` are applications built on the client. They are not part of this model.
