# Subscription probe: host extraction and handshake dispatcher

The repository is a diagnostic script, `test_subscription.js`. It opens one
WebSocket connection to a managed GraphQL subscription gateway and runs the
`connection_init` → `connection_ack` → `start` → `start_ack` handshake. It then
fires a mutation over HTTP and waits for a single `data` event for its
subscription. This project models the two pieces of logic in it and proves
what they do.

- **Host extraction**, `extractHostFromUrl` (module `HostName`, `host.dfy`).
  It does two anchored replaces, first `^https?://` and then `^wss?://`, each
  removing at most one match. Then `split('/')[0]` keeps the part before the
  first slash. The model states the result exactly. It has no slash, it is a
  prefix of the scheme-stripped URL, and it is followed there by a slash or by
  the end. `ExtractHostUnique` proves that these three facts determine it.
- **The handshake dispatcher** (module `Probe`, `probe.dfy`). The four socket
  callbacks share two module-level variables: the nullable `subscriptionId`
  and the append-only `messageQueue`. Class `Probe` holds these two as fields
  and has one method per callback. Each method returns the effects the
  callback asks for, as abstract `Action`s, instead of performing them:
  `Send(envelope)`, `FireMutation`, `ScheduleCloseAndExit(0)`, `CloseSocket`
  and `Exit(code)`. The methods are proved against the specification
  functions `Dispatch` (the `if / else if` chain of `onmessage`) and `Step`
  (one callback on the whole state). The contracts of those functions state
  the protocol rules.
- **Whole runs** (module `Trace`, `trace.dfy`). `Run` folds `Step` over any
  sequence of events. Lemmas proved by induction relate a run's final state
  and its actions to its events. **Concrete runs** (module `Scenarios`,
  `scenarios.dfy`) cover the documented handshake, an early disconnect, a
  server error, and the edge cases of strict id comparison.

How JavaScript values are modelled:

- The outcome of a strict comparison `===` depends on the kind of value.
  `JsValue` separates `undefined` (a missing property), `null`, strings, and
  every other value.
- The handle is `null` or a string (`Option<string>`). Against such a handle,
  `message.id === subscriptionId` holds exactly when the two values are equal
  (`Matches`).
- An envelope without an `id` therefore never matches. An envelope whose `id`
  is an explicit JSON `null` does match before the first `connection_ack`
  (`NullIdMatchesInitialHandle`).
- A frame that parses to JSON `null` is queued first. Reading its `type` then
  throws, and the handler's `catch` swallows the error, so nothing else
  happens. A frame that parses to any other non-object has an undefined
  `type` and also triggers nothing.

A phased reading of the handshake would differ from the script in two
places; the model follows the script:

- Under a phased reading, `start_ack` is handled only after `start`, and
  `data` only after `start_ack`. The script has no phases. A `start_ack` or
  `data` with the current handle is acted on whenever it arrives
  (`DataAcceptedWithoutStartAck`), and a repeated matching `start_ack` fires
  the mutation again.
- Under a phased reading, the handle is generated once per run. The script
  generates a fresh handle on every `connection_ack`, and a `data` for an
  earlier handle is then ignored (`RunHandle`, `RunStarts`,
  `SecondAckReplacesHandle`).

## Model

| member | source | states |
|---|---|---|
| `HostName.StripScheme` | test_subscription.js:43 | one anchored replace removes at most one `base://` or `bases://` prefix; the input changes exactly when it starts with one of them |
| `HostName.BeforeSlash` | test_subscription.js:44 | `split('/')[0]`: the result has no slash, is a prefix of the input, and is followed in the input by a slash unless it is the whole input |
| `HostName.ExtractHost` | test_subscription.js:42-46 | the host has no slash, is a prefix of the scheme-stripped URL, and is the whole of it or is followed there by a slash |
| `HostName.ExtractHostUnique` | test_subscription.js:42-46 | any string with those three properties is the extracted host, so the properties state the function exactly |
| `HostName.NoSlashUnchanged` | test_subscription.js:43-45 | an input with no slash has no scheme prefix and is returned unchanged |
| `HostName.ExtractHostIdempotent` | test_subscription.js:42-46 | extracting from an extracted host changes nothing |
| `HostName.NestedSchemesBothStripped` | test_subscription.js:43 | the two replaces run one after the other: `https://wss://h/x` yields `h` |
| `HostName.RepeatedSchemeStrippedOnce` | test_subscription.js:43 | each replace removes one match only: `http://http://h` yields `http:` |
| `HostName.HttpsEndpointHost` | test_subscription.js:42-46 | `https://` + host + `/` + path yields the host, for every slash-free host (ports included) except `ws:` and `wss:`, which the second replace would take for a scheme |
| `Probe.Configure` | test_subscription.js:8-16 | a configuration exists exactly when `argv` has five entries, and it holds entries 2, 3 and 4 |
| `Probe.Dispatch` | test_subscription.js:83-152 | `connection_ack` replaces the handle with the fresh id and sends one `start` with that id, the extracted host and the API key; `start_ack` or `data` with an id not strictly equal to the handle does nothing; a matching `start_ack` fires the mutation only; a matching `data` sends one `stop` for the handle, then schedules close and exit 0; `error` closes and exits 1 in any state; everything else does nothing; only `connection_ack` changes the handle |
| `Probe.Step` | test_subscription.js:64-163 | the queue grows by the parsed message and by nothing else; open sends `connection_init`; a parse failure does nothing; a socket error or close exits 1; only a message can change the state |
| `Probe.Probe.constructor` | test_subscription.js:37-39 | the handle starts `null` and the queue starts empty |
| `Probe.Probe.Open` | test_subscription.js:64-70 | `onopen` sends `connection_init` and changes nothing |
| `Probe.Probe.OnMessage` | test_subscription.js:77-157 | `onmessage` appends the message to the queue before dispatching; the new handle and the returned actions are the ones `Step` gives |
| `Probe.Probe.ParseFailure` | test_subscription.js:154-156 | a frame that does not parse is dropped: no action, no state change |
| `Probe.Probe.SocketError` | test_subscription.js:72-75 | `onerror` exits 1 and changes nothing |
| `Probe.Probe.Close` | test_subscription.js:159-163 | `onclose` exits 1 and changes nothing |
| `Trace.RunQueue` | test_subscription.js:79-81 | after any run, the queue is the initial queue followed by every parsed message once, in arrival order |
| `Trace.RunHandle` | test_subscription.js:84-88 | after any run, the handle is the fresh id of the last `connection_ack`, or the initial handle if none arrived |
| `Trace.NoHandleBeforeAck` | test_subscription.js:38-88 | from the initial state, the handle stays `null` until a `connection_ack` arrives |
| `Trace.RunStarts` | test_subscription.js:84-106 | a run sends exactly one `start` per `connection_ack`, in order, each with that acknowledgement's fresh id |
| `Trace.RunLastStep` | test_subscription.js:64-163 | a run of one event is that event's handler call |
| `Trace.RunFirstStep` | test_subscription.js:64-163 | a run is the first handler call followed by the run of the rest: the state carries over and the actions are joined in order |
| `Trace.RunExitCodes` | test_subscription.js:72-163 | every immediate exit of a run has status 1; the delayed exit always has status 0 |
| `Trace.RunSuccessAfterStop` | test_subscription.js:134-143 | in any run, the delayed success exit is always scheduled right after a `stop` envelope |
| `Scenarios.HandshakeSucceeds` | test_subscription.js:64-143 | open, `connection_ack`, matching `start_ack`, matching `data` produce `connection_init`, `start`, the mutation, `stop`, and the delayed exit 0 |
| `Scenarios.ExampleEndpointHost` | test_subscription.js:42-46 | `https://x.example.com/graphql` yields host `x.example.com` |
| `Scenarios.PortKeptInHost` | test_subscription.js:42-46 | `https://localhost:8080/graphql` yields host `localhost:8080`: the port is kept |
| `Scenarios.AckStep` | test_subscription.js:84-106 | in any state, `connection_ack` queues the message, sets the handle to the fresh id and sends one `start` for it |
| `Scenarios.StartAckStep` | test_subscription.js:108-132 | a `start_ack` for the current handle queues the message, keeps the handle and fires the mutation |
| `Scenarios.DataStep` | test_subscription.js:134-143 | a `data` for the current handle queues the message, keeps the handle, sends `stop` and schedules exit 0 |
| `Scenarios.ExampleHandshake` | test_subscription.js:91-106 | with the example endpoints, the `start` envelope carries host `x.example.com` and key `da2-abc` |
| `Scenarios.EarlyCloseFails` | test_subscription.js:159-163 | a close right after opening gives exit 1 |
| `Scenarios.ServerErrorFails` | test_subscription.js:148-152 | an `error` envelope before any handle exists gives close and exit 1 |
| `Scenarios.NullIdMatchesInitialHandle` | test_subscription.js:108-143 | before `connection_ack`, a `data` or `start_ack` with an explicit `null` id matches the `null` handle and is acted on |
| `Scenarios.MissingIdNeverMatches` | test_subscription.js:108-143 | a `data` or `start_ack` without an id is ignored whatever the handle |
| `Scenarios.SecondAckReplacesHandle` | test_subscription.js:84-88 | a second `connection_ack` replaces the handle and sends a second `start`; a `data` for the first handle is then ignored |
| `Scenarios.DataAcceptedWithoutStartAck` | test_subscription.js:134-143 | a matching `data` is acted on even when no `start_ack` came before it |

## Left out

- Building the WebSocket URL, with the base64 `header` and `payload` parameters, and negotiating the `graphql-ws` sub-protocol (test_subscription.js:51-61). These are runtime and library calls.
- The HTTP mutation: the `fetch` call, its headers and body, the timestamped message, and the promise chain that only logs the result (test_subscription.js:112-132). It is the opaque action `FireMutation(endpoint, key)`.
- `JSON.parse` and `JSON.stringify`. An inbound frame is given already parsed, as `Parsed`, or as a parse failure. The `start` envelope carries the subscription document itself, not its JSON encoding with empty `variables`.
- Message payloads. The `payload` of a `data` message is only logged, so `Parsed` keeps only `type` and `id`. Of other JSON values it keeps only their kind.
- `crypto.randomUUID`: the fresh id is a parameter of `OnMessage` and of the `Received` event.
- `Date.now`, the ISO timestamps, every `console.log` and `console.error` line, and the printed usage text.
- `setTimeout` with its 1000 ms delay, `ws.close` and `process.exit`. They appear only as the actions `ScheduleCloseAndExit`, `CloseSocket` and `Exit`.
- The end of event delivery after the process exits. `Run` accepts any event sequence, and every lemma about it holds for all sequences, so it holds for the shorter sequences a real run delivers. This includes a close that arrives during the one-second delay before the success exit, which gives exit 1.
- The `catch` swallowing an exception thrown by `ws.send` (test_subscription.js:154-156). That depends on the socket implementation.
