# Connection-state orchestrator of the WhatsApp bridge server

The server keeps one connection to WhatsApp (through the Baileys socket) and
publishes its lifecycle to browser observers over a WebSocket. This project
models the part of `server.js` that runs this:

- the shared `connectionState` record;
- `updateAndBroadcast`, which merges a partial record into it and sends the
  full snapshot to every open WebSocket client;
- the single-slot reconnect scheduler (`scheduleReconnect`, `clearReconnect`
  and the timer callback), with its fixed 60 000 ms delay;
- the transitions: the `connection.update` handler (QR issued, open, close),
  the reset to `connecting` in `startWhatsApp`, the `/api/regenerate-session`
  handler, and the snapshot sent to a newly connected client.

Layout:

- `nullable.dfy`: `Option`, which stands for JavaScript's null/undefined, and `??`.
- `record.dfy`: the record, the partial records the server publishes, the spread-merge, and the phase invariant.
- `broadcast.dfy`: clients (a readyState and the messages delivered so far) and the fan-out.
- `events.dfy`: `connection.update` events, `statusCodeFromError`, and the logged-out reason.
- `transitions.dfy`: the whole module-level state as a value. It has one function per operation and the lemmas about them.
- `server.dfy`: class `Orchestrator`, which holds the module-level variables as fields. Its methods perform each operation step by step, in place. Each one is proved to reach the state its `Transitions` function gives.
- `runs.dfy`: the server's life as a sequence of inputs, and properties of every such sequence.
- `scenarios.dfy`: particular runs, and the places where the published record keeps less than one might expect.

Inputs from outside become parameters:

- the clock (`now`);
- the QR encoder (`encode`, any function from string to string);
- the outcomes of `sock.logout()` (`logoutOk`), of `fs.rm` (`eraseOk`) and of loading the auth state (`authLoaded`).

`DisconnectReason.loggedOut` is the named constant `Events.LOGGED_OUT` (401).

## Where the published record lags the timer

Four behaviours of the code are easy to miss. The model keeps each of them, and a lemma states it:

- One would expect `lastDisconnect` to be set only in phase close. But the `connecting` update at server.js:93 leaves that key out, so after a close and a restart the old cause is still published. Lemma: `Scenarios.RecoverableCloseRetries`.
- One would expect the published `reconnectAt` to be set exactly while a timer is pending. But `clearReconnect` (server.js:57-63) clears only the module variable, and the session-reset update at server.js:215 leaves the key out. So a regeneration whose start fails leaves a retry time published with no timer behind it. Lemma: `Scenarios.PublishedReconnectAtOutlivesTimer`. What does hold is that the module variable `reconnectAt` is set exactly while the timer is pending (`Transitions.Valid`, `Runs.Reachable`).
- One would expect an open connection to cancel a pending retry. But the open branch at server.js:109 only nulls the published `reconnectAt`, and the timer later restarts the open connection. Lemma: `Scenarios.PendingRetryRestartsOpenConnection`.
- One might expect a close without a status code to be treated as final. But server.js:115 compares the code with the logged-out reason, so a null code schedules a retry. Lemma: `Transitions.CloseOtherRetries`.

What does hold across every transition is `PhaseConsistent`: `qr` is non-null only in phase qr, and `statusCode` only in phase close.

## Model

| member | source | states |
|---|---|---|
| `Record.Merge` | server.js:52-53 | every key present in the partial takes its new value (null included); every absent key keeps its old value |
| `Record.MergeIdempotent` | server.js:53 | spreading the same partial twice gives the same record as once |
| `Record.MergeThen` | server.js:53 | two successive spreads equal one spread of the combined partial, where the later keys win |
| `Record.MergeKeepsPhaseConsistent` | server.js:53 | a merge that sets the phase together with a fitting qr and statusCode, or touches none of the three, keeps "qr only in phase qr, statusCode only in phase close" |
| `Record.TransitionKeysKinds` | server.js:93-122 | the connecting, qr, open and close partials all set phase, qr and statusCode consistently, and so does the session-reset partial; the reconnectAt partial touches none of them |
| `Broadcast.Deliver` | server.js:43-50 | the fan-out keeps the client list's length and readyStates; each open client (readyState 1) gets the message appended exactly once; every other client is left unchanged |
| `Broadcast.DeliverSamePayload` | server.js:43-50 | any two open clients receive the identical payload |
| `Broadcast.DeliverNoneOpen` | server.js:45-46 | with no open client, a broadcast changes nothing |
| `Broadcast.DeliverInOrder` | server.js:43-50 | two successive broadcasts reach each open client in the order they were issued |
| `Broadcast.Admit` | server.js:225-227 | a new client is open and holds exactly the current snapshot; existing clients are untouched |
| `Events.StatusCodeFromError` | server.js:79-81 | the nested `output.statusCode` if it is non-null, else the top-level `statusCode`; null when there is no error |
| `Events.StatusCodeZeroKept` | server.js:80 | a nested code of 0 is returned, because `??` skips only nullish values |
| `Events.Cause` | server.js:120 | a close without an error is described as "unknown" |
| `Transitions.BootValid` | server.js:32-41 | the initial state is `starting`, with no timer and no socket, and satisfies the invariant |
| `Transitions.PublishOneSnapshot` | server.js:52-55 | the record becomes the merge; every open client receives exactly one message, carrying the merged record; closed clients, the timer and the socket are unchanged |
| `Transitions.ClearReconnectSpec` | server.js:57-63 | no timer pending afterwards; a no-op when none was pending; idempotent; the published record, including its reconnectAt, is untouched; nothing is broadcast |
| `Transitions.ScheduleReconnectPending` | server.js:65-68 | with a timer pending, scheduling changes nothing and broadcasts nothing |
| `Transitions.ScheduleReconnectArms` | server.js:69-72 | otherwise one timer is pending, due at now + 60000; that time is in the module variable and in the record; each open client receives that record once |
| `Transitions.ScheduleReconnectIdempotent` | server.js:65-77 | a second schedule, at any later time, adds nothing to the first |
| `Transitions.ScheduleReconnectValid` | server.js:65-77 | scheduling keeps the invariant (phase consistency, module reconnectAt set iff a timer is pending) |
| `Transitions.StartSpec` | server.js:83-93 | start cancels any pending timer. If the auth state loads, it creates a fresh socket and publishes connecting with qr, statusCode and reconnectAt null and lastDisconnect kept. Otherwise it rejects, having changed only the timer. It keeps the invariant |
| `Transitions.FireReconnectTimerSpec` | server.js:72-76 | the callback clears the pending flag and module reconnectAt before calling start, so start's own clear has nothing to do; afterwards no timer is pending |
| `Transitions.CloseLoggedOutNoRetry` | server.js:113-128 | a close whose extracted code is the logged-out reason never arms a timer |
| `Transitions.CloseOtherRetries` | server.js:113-128 | a close with any other code, including null, leaves a retry pending: a new one due at now + 60000 unless one was already pending |
| `Transitions.CloseOutcome` | server.js:117-122 | a close publishes phase close with the extracted status code, a null qr, and a non-null lastDisconnect |
| `Transitions.OpenOutcome` | server.js:108-111 | an open publishes phase open with qr, statusCode, lastDisconnect and reconnectAt null; a pending timer stays armed |
| `Transitions.QrOutcome` | server.js:102-106 | an update carrying only a non-empty QR (no connection field) publishes phase qr with the encoded image, statusCode and lastDisconnect null, and reconnectAt and the timer unchanged |
| `Transitions.QuietUpdate` | server.js:98-130 | an update with no non-empty qr and neither open nor close changes nothing |
| `Transitions.HandleUpdateValid` | server.js:98-130 | every `connection.update`, with its branches in source order, keeps the invariant |
| `Transitions.RegenerateSpec` | server.js:202-223 | see the note under this table |
| `Transitions.ConnectSpec` | server.js:225-227 | a new client is sent the current snapshot, and the record does not change |
| `Server.Orchestrator.constructor` | server.js:32-41 | the fields start as the initial state |
| `Server.Orchestrator.Broadcast` | server.js:43-50 | the in-place loop over the clients leaves them as `Deliver` gives; no other field changes |
| `Server.Orchestrator.UpdateAndBroadcast` | server.js:52-55 | the in-place merge and broadcast reach the state `Publish` gives |
| `Server.Orchestrator.ClearReconnect` | server.js:57-63 | the state `ClearReconnect` gives, with no timer pending |
| `Server.Orchestrator.ScheduleReconnect` | server.js:65-77 | the state `ScheduleReconnect` gives (publish first, then arm), with a timer pending |
| `Server.Orchestrator.StartWhatsApp` | server.js:83-93 | the state and the success flag that `Start` gives |
| `Server.Orchestrator.FireReconnectTimer` | server.js:72-76 | the state `FireReconnectTimer` gives |
| `Server.Orchestrator.HandleConnectionUpdate` | server.js:98-130 | the state `HandleUpdate` gives: qr, then open, then close |
| `Server.Orchestrator.RegenerateSession` | server.js:202-223 | the state and the response that `Regenerate` gives |
| `Server.Orchestrator.ClientConnected` | server.js:225-227 | the state `Connect` gives |
| `Runs.StepValid` | server.js:57-227 | every input the server handles keeps the invariant: an update, a timer firing, a regenerate request, or a client joining |
| `Runs.RunValid` | server.js:57-227 | every sequence of inputs keeps the invariant |
| `Runs.Reachable` | server.js:32-227 | in every reachable state: qr is non-null only in phase qr; statusCode only in phase close; the module reconnectAt is set exactly while a timer is pending |
| `Runs.RecoverableClosesArmOnce` | server.js:65-128 | after any burst of recoverable closes, exactly one retry is pending. It is due 60000 ms after the first close, or it is the retry that was already pending |
| `Runs.LoggedOutClosesNeverArm` | server.js:113-128 | no number of logged-out closes arms a retry |
| `Runs.GrowsPublish` | server.js:52-55 | a publish appends the same single message to every open client and leaves every other client as it was |
| `Runs.GrowsStep` | server.js:43-227 | every input only appends to outboxes, and appends the same messages to every open client |
| `Runs.ObserversAgree` | server.js:43-55 | over any run, all clients that were open at its start receive the same messages in the same order; other clients receive nothing |
| `Scenarios.OpenAfterBoot` | server.js:93-111 | a client connected at start sees starting, then connecting, then open; the record ends with everything null |
| `Scenarios.RecoverableCloseRetries` | server.js:72-128 | a recoverable close publishes close with its code and arms a retry at now + 60000. Firing it returns the record to connecting with reconnectAt cleared, and lastDisconnect still set |
| `Scenarios.LoggedOutThenRegenerate` | server.js:113-216 | a logged-out close stays at close with no retry; regeneration then publishes session-reset, then connecting, and answers 200 |
| `Scenarios.RegenerateCancelsPendingRetry` | server.js:202-216 | regeneration with a pending retry cancels it, replaces the socket and answers `{ok:true}` |
| `Scenarios.PublishedReconnectAtOutlivesTimer` | server.js:57-63 | after a regeneration whose start fails, no timer is pending but the published reconnectAt is unchanged |
| `Scenarios.PendingRetryRestartsOpenConnection` | server.js:108-111 | an open leaves a pending timer armed, and when it fires the connection is restarted |

What `Transitions.RegenerateSpec` states, step by step:

1. It cancels the timer.
2. It ends any socket. The socket is marked logged out only if the logout succeeded.
3. If the erase fails, the answer is 500 and nothing is published.
4. Otherwise, each open client receives session-reset, with qr, statusCode and lastDisconnect null and reconnectAt stale. If the start then succeeds, it also receives connecting.
5. The answer is 200 `{ok:true}` exactly when both the erase and the start succeed.
6. It keeps the invariant.

## Left out

- `tcpTest`, `httpsTest` and `/api/nettest` (server.js:133-200): these are live DNS, TCP and HTTPS probes with wall-clock timeouts, i.e. network I/O.
- Express setup, `GET /api/state`, the HTTP server, `listen` and dotenv (server.js:15-30, 172-174, 229-232): I/O plumbing. The regenerate route is reduced to its status and `ok` flag. Its message texts are not modelled.
- Baileys `makeWASocket`, `useMultiFileAuthState`, `creds.update`/`saveCreds`, `fs.rm` and `QRCode.toDataURL`: these are library and file-system calls. They appear as the parameters `authLoaded`, `logoutOk`, `eraseOk` and `encode`. `authLoaded` also stands for a throw from `makeWASocket`, which likewise happens before the socket and the record change.
- A rejection of `QRCode.toDataURL` is left out. It would end that update's handler before its open and close branches run.
- Unhandled rejections are left out: a start that fails from the timer callback, or at boot, is not reported anywhere. The process-level effect of that rejection is not modelled.
- Async interleavings are left out: the awaits inside `startWhatsApp`, the QR handler and the regenerate handler, and handlers of old sockets that stay attached after a restart. Each operation is atomic, and every event comes from the current socket.
- `Date.now()` is the parameter `now`. Log calls and the `origin` argument are left out. `JSON.stringify` is left out: a message is the structured record it serializes.
- `String(err)` is the opaque `text` of the error. An error value that is present but falsy is treated as absent. A non-numeric `statusCode` on the error is not modelled.
- A timer firing after it was cleared is not an input: `clearTimeout` guarantees its callback does not run.
- Clients joining is modelled by `ClientConnected`. The WebSocket library closing and removing clients is not, because it is not in this code. The broadcast lemmas hold for any list of clients and readyStates.
- public/main.js is browser display code and is not part of this model.
