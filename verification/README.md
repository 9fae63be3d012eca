# Transcription control channel in Dafny

This project models the two halves of a small control channel. A browser page and a
local transcription process use it to coordinate a transcription session.

- **The dev server** (`vite.config.ts`) keeps four pieces of module state: a log of
  transcriptions, the set of connected WebSockets, a "transcription active" flag, and an
  event emitter. HTTP routes flip the flag (`/api/toggle`) and broadcast
  `transcribe-start`/`transcribe-stop` commands to every OPEN socket (`/api/start`,
  `/api/stop`). They also accept and list transcriptions (`/api/transcription`). A stop
  request is held open until one of two things happens. Either the next transcription
  arrives while its listener is registered, or its own 30-second timer fires. Another
  request's timeout removes its listener too (see Left out).
- **The browser hook** (`src/hooks/useWebSocketControl.ts`) shares one WebSocket across
  every instance of the hook through two module globals, `globalWs` and
  `globalReconnectTimeout`. It reconnects 5 seconds after an abnormal close. It routes
  inbound commands to the latest `onStart`/`onStop` callbacks through refs.

Each side is written twice: once as values, once as a class.

- The value-level models are `ServerModel` and `ClientModel`. Each has a state datatype
  and one step function per handler or event. Traces of events are run with `Run`.
  Lemmas state what each handler promises.
- The classes are `DevServer.Server` and `ControlClient.Client`. Their fields are the
  source's mutable variables. Each event handler updates the fields in place and is
  proved to match its step function: `State() == Step(old(State()), …)`. It also keeps
  the well-formedness invariant `Valid()`. Two helpers are proved against their step
  functions without `Valid()`: `Client.Teardown` and `Client.ScheduleReconnect`.
  `Server.Broadcast`, `Server.HandleStart` and `Client.OnMessage` change no field and
  return what they compute.

`Wire` holds the two commands and their JSON text. `Wrappers` holds `Option`.

Sockets, HTTP responses and timers are named by identities (`nat`). On the server, a
held stop request is a `RequestId`. It sits on `listeners` while its `once` listener is
registered, and in `timers` while its 30 s `setTimeout` is armed. On the client, every
socket records the hook instance whose `connect` created it. Its `onmessage` and
`onclose` handlers close over that instance's refs.

Main results:

- **Exactly one reply per stop request** (`ServerModel.ExactlyOneReply`). This holds over
  any sequence of connections, requests and timer firings. Every held request is
  answered once or is still armed, never both, and nothing else is answered.
- **Broadcast** reaches exactly the registered OPEN sockets, each once, with the same
  text (`OpenSendsTargets`, `OpenSendsOnce`). `DevServer.Server.Broadcast` computes it
  with a loop.
- **The shared connection.** Adopting an open socket never creates one, and reconnecting
  replaces the old socket and cancels the stored timer. A close event reconnects exactly
  when its code is neither 1000 nor 1001, and dispatch uses the latest callbacks.
- **A stale close event breaks the singleton.** See Findings below. With the identity
  check added, `Coherent` holds on every run: at most one live socket, and no stray
  timer.

## Model

| member | source | states |
|---|---|---|
| `Wire.Decode` | vite.config.ts:104-105 | only the exact text of an encoded command is recognised, and it is recognised as that command |
| `Wire.TokensDiffer` | vite.config.ts:104 | the tokens `transcribe-start` and `transcribe-stop` differ, and so do their JSON encodings |
| `Wire.DecodeEncode` | vite.config.ts:105 | decoding an encoded command gives it back; a text decodes to a command iff it is that command's encoding |
| `ServerModel.Without` | vite.config.ts:40-43 | `Set.delete`: the registry afterwards holds exactly the other sockets and still holds none twice |
| `ServerModel.OpenSendsTargets` | vite.config.ts:108-112 | a broadcast sends message m to socket t iff t is registered, t is OPEN, and m is the broadcast text |
| `ServerModel.OpenSendsShape` | vite.config.ts:131-135 | every send of a broadcast carries the same text and goes to a registered socket |
| `ServerModel.OpenSendsOnce` | vite.config.ts:149-153 | over a duplicate-free registry, no socket is sent the broadcast twice |
| `ServerModel.RegistryEvents` | vite.config.ts:32-43 | a connection event adds its socket and a close event removes its socket; no other event changes the registry |
| `ServerModel.NextPreservesWf` | vite.config.ts:10-18 | every event keeps the state well-formed: registry duplicate-free and matching the ready-state map, listeners duplicate-free and armed, armed requests issued |
| `ServerModel.ToggleFlipsAndBroadcasts` | vite.config.ts:99-119 | POST toggle negates the flag, broadcasts the command for the new value to exactly the OPEN sockets, answers 200 with the new value and message, and changes nothing else |
| `ServerModel.StartOnlyBroadcasts` | vite.config.ts:128-137 | POST start broadcasts `transcribe-start` to exactly the OPEN sockets, answers 200, and leaves the state (the flag included) unchanged |
| `ServerModel.ResolveShape` | vite.config.ts:167-176 | an emit answers every waiting listener, in registration order, with 200 and the new record |
| `ServerModel.ResolveCount` | vite.config.ts:167-176 | over duplicate-free listeners an emit answers each listener exactly once and no other request |
| `ServerModel.SubmitAppends` | vite.config.ts:72-83 | a parseable POST appends exactly one record at the end and keeps the earlier ones; it resolves every waiting stop request with that record, cancels their timers, empties the listeners and answers 200 with the timestamp; the registry, ready states, flag and request counter are unchanged |
| `ServerModel.TranscriptionRouteRejectsAndLists` | vite.config.ts:84-94 | an unparseable body gets 400 "Invalid request body" with no change; GET, whatever its body, returns the whole log in order with no change; any other method falls through to `next()` |
| `ServerModel.NonPostRejected` | vite.config.ts:120-123 | toggle, start and stop answer 405 "Method not allowed" to every non-POST and change nothing (also lines 138-141 and 177-180) |
| `ServerModel.StopHoldsRequest` | vite.config.ts:146-167 | POST stop broadcasts `transcribe-stop` to exactly the OPEN sockets and holds the request under a fresh id; that id is the last listener and has an armed timer; the log, the registry, the ready states and `transcriptionActive` are unchanged |
| `ServerModel.StopKeepsFlag` | vite.config.ts:101-104 | stop leaves the flag set, so after toggle-on and a stop the next toggle turns it off and broadcasts `transcribe-stop` again (stop handler at lines 146-181) |
| `ServerModel.TimeoutDropsAllListeners` | vite.config.ts:157-164 | an armed timer answers its own request alone with 408, removes every listener including other requests', and disarms only itself; nothing is sent and the log, registry, flag and request counter are unchanged |
| `ServerModel.TimeoutStarvesOtherWaiters` | vite.config.ts:157-176 | after one of two waiting requests times out, the next transcription answers neither, and the other stays armed until its own timer |
| `ServerModel.StepAccounting` | vite.config.ts:145-181 | in one step, the replies to r plus r still being armed equals r having been armed before or issued in this step |
| `ServerModel.ExactlyOneReply` | vite.config.ts:156-176 | over any run, each stop request armed at the start or issued during the run gets exactly one reply or is still armed at the end, never both; no other request is answered; the state stays well-formed |
| `DevServer.Server.constructor` | vite.config.ts:10-18 | empty log, empty registry, inactive flag, no listeners and no timers |
| `DevServer.Server.OnConnection` | vite.config.ts:32-34 | registers the socket once, as OPEN, keeping the invariant |
| `DevServer.Server.OnClose` | vite.config.ts:40-43 | removes the socket from the registry, keeping the others in order |
| `DevServer.Server.OnReadyStateChange` | vite.config.ts:109 | a registered socket's ready state changes, which the broadcast loops test |
| `DevServer.Server.Broadcast` | vite.config.ts:108-112 | the loop's sends are exactly `OpenSends` of the registry: the text to each OPEN socket, in registry order (also lines 131-135 and 149-153) |
| `DevServer.Server.HandleTranscription` | vite.config.ts:65-95 | the `/api/transcription` handler does exactly `Transcription`: append, emit to every listener and clear their timers, 200/400, GET, `next()` |
| `DevServer.Server.HandleToggle` | vite.config.ts:98-124 | the toggle handler does exactly `Toggle` |
| `DevServer.Server.HandleStart` | vite.config.ts:127-142 | the start handler does exactly `Start` and changes no field |
| `DevServer.Server.HandleStop` | vite.config.ts:145-181 | the stop handler does exactly `Stop`: broadcast, arm the timer, add the listener, hold the request |
| `DevServer.Server.OnStopTimeout` | vite.config.ts:157-164 | a timer firing does exactly `StopTimeout`: all listeners dropped, 408 to its own request |
| `ClientModel.ConnectPreservesWf` | src/hooks/useWebSocketControl.ts:23-44 | `connect` keeps every reference pointing at an existing socket, hook or timer and keeps identities fresh |
| `ClientModel.CloseEventPreservesWf` | src/hooks/useWebSocketControl.ts:67-80 | the close handler keeps the state well-formed |
| `ClientModel.CloseEventCheckedPreservesWf` | src/hooks/useWebSocketControl.ts:67-80 | the corrected close handler keeps the state well-formed |
| `ClientModel.NextPreservesWf` | src/hooks/useWebSocketControl.ts:9-10 | every client event keeps the globals, refs and timers referring to existing sockets and hooks |
| `ClientModel.NextCheckedPreservesWf` | src/hooks/useWebSocketControl.ts:9-10 | the same for every event under the corrected close handler |
| `ClientModel.ConnectAdoptsOpen` | src/hooks/useWebSocketControl.ts:26-29 | when the global socket is OPEN, `connect` only points the hook's ref at it: no socket, timer, global or other hook changes |
| `ClientModel.ConnectReplaces` | src/hooks/useWebSocketControl.ts:31-44 | otherwise `connect` leaves the old global socket not live and cancels the stored timer; it creates exactly one new CONNECTING socket, which becomes `globalWs` and the hook's ref. Other sockets and other hooks are untouched; exactly the stored timer is removed, so a timer whose handle was overwritten stays armed |
| `ClientModel.MountIsGuardedConnect` | src/hooks/useWebSocketControl.ts:86-92 | the mount effect agrees with `connect`: it calls `connect` when the global socket is absent or not OPEN, and adopts it otherwise |
| `ClientModel.UnmountKeepsGlobal` | src/hooks/useWebSocketControl.ts:94-97 | unmounting clears only the hook's own ref; other hooks, the sockets, the timers and both globals are unchanged |
| `ClientModel.CloseSchedulesIffAbnormal` | src/hooks/useWebSocketControl.ts:67-79 | a close marks the socket CLOSED and touches no other socket; it nulls `globalWs` and the owner hook's `wsRef`, even when that ref points at a newer socket. It arms one fresh reconnect timer for the owner and stores its handle iff the code is neither 1000 nor 1001; otherwise the timers and stored handle are unchanged |
| `ClientModel.TimerReconnects` | src/hooks/useWebSocketControl.ts:75-78 | a fired timer is disarmed. If the global socket is OPEN, the hook adopts it and no socket changes; otherwise the old global socket stops being live, and a fresh CONNECTING socket owned by the timer's hook becomes `globalWs` and its ref. No other socket or hook changes, and no handle is stored. A cleared timer does nothing |
| `ClientModel.DispatchExactlyOnce` | src/hooks/useWebSocketControl.ts:50-61 | on an OPEN socket, `transcribe-start`/`transcribe-stop` invokes the hook's current `onStart`/`onStop` exactly once; other commands and unparseable payloads invoke nothing |
| `ClientModel.DispatchUsesLatestCallbacks` | src/hooks/useWebSocketControl.ts:17-21 | after the callbacks change, a command on an existing socket invokes the new callback, without reconnecting |
| `ClientModel.CoherentSingleLive` | src/hooks/useWebSocketControl.ts:8-10 | in a coherent state at most one socket is CONNECTING or OPEN |
| `ClientModel.ConnectPreservesCoherent` | src/hooks/useWebSocketControl.ts:31-44 | from a coherent state `connect` stays coherent and leaves no reconnect timer armed |
| `ClientModel.NextCheckedPreservesCoherent` | src/hooks/useWebSocketControl.ts:67-80 | with the identity check in the close handler, every event keeps the singleton invariant |
| `ClientModel.RunCheckedCoherent` | src/hooks/useWebSocketControl.ts:8-10 | with the identity check, every run from a coherent state stays coherent |
| `ClientModel.DoubleMount` | src/hooks/useWebSocketControl.ts:86-97 | mount, unmount and mount while the first socket is connecting leaves socket 0 CLOSING and socket 1 CONNECTING and global |
| `ClientModel.StaleClose` | src/hooks/useWebSocketControl.ts:67-79 | socket 1 opens, then socket 0's close (1006) nulls `globalWs` and arms a reconnect while socket 1 is OPEN |
| `ClientModel.SecondSocket` | src/hooks/useWebSocketControl.ts:75-78 | that reconnect creates socket 2 next to the open socket 1 |
| `ClientModel.StaleCloseOpensSecondSocket` | src/hooks/useWebSocketControl.ts:67-79 | as written, the double-mount trace ends with two OPEN sockets and breaks the singleton invariant; with the identity check the same trace stays coherent |
| `ControlClient.Client.constructor` | src/hooks/useWebSocketControl.ts:9-10 | no global socket, no stored timer, no sockets, timers or hooks |
| `ControlClient.Client.AddHook` | src/hooks/useWebSocketControl.ts:13-15 | a first render creates a fresh hook instance with a null `wsRef` and the given callbacks |
| `ControlClient.Client.Connect` | src/hooks/useWebSocketControl.ts:23-44 | does exactly `Connect`, keeping the invariant |
| `ControlClient.Client.Teardown` | src/hooks/useWebSocketControl.ts:31-40 | closes and nulls the global socket and clears the stored timer |
| `ControlClient.Client.Mount` | src/hooks/useWebSocketControl.ts:86-93 | does exactly the mount effect |
| `ControlClient.Client.Unmount` | src/hooks/useWebSocketControl.ts:94-97 | clears only the hook's own ref |
| `ControlClient.Client.SetCallbacks` | src/hooks/useWebSocketControl.ts:17-21 | overwrites the hook's callback refs |
| `ControlClient.Client.OnOpen` | src/hooks/useWebSocketControl.ts:46-48 | a CONNECTING socket becomes OPEN; nothing else changes |
| `ControlClient.Client.OnClose` | src/hooks/useWebSocketControl.ts:67-80 | does exactly the close handler as written |
| `ControlClient.Client.ScheduleReconnect` | src/hooks/useWebSocketControl.ts:75-78 | arms a fresh timer for the hook and stores its handle in `globalReconnectTimeout` |
| `ControlClient.Client.OnCloseChecked` | src/hooks/useWebSocketControl.ts:67-80 | does exactly the corrected close handler and preserves the singleton invariant |
| `ControlClient.Client.OnReconnectTimer` | src/hooks/useWebSocketControl.ts:75-78 | a fired timer disarms itself and runs its hook's `connect` |
| `ControlClient.Client.OnMessage` | src/hooks/useWebSocketControl.ts:50-61 | returns exactly the callbacks `Dispatch` names and changes no field |

## Left out

- The whisper daemon, the `/api2/transcription` proxy, the HTTP `upgrade` routing to
  `/ws`, and the plugin registration are not part of this model.
- Request bodies are not streamed. A POST body arrives already parsed: either its `text`
  field or a parse failure. General JSON is not modelled. A body that parses but has no
  `text` field would store `undefined`; the model always has a string there.
- Time is not modelled. `Date().toISOString()` is a parameter (`now`). The 30 s stop
  timeout (`ServerModel.StopTimeoutMs`) and the 5 s reconnect delay
  (`ClientModel.ReconnectDelayMs`) appear only as constants; a timer firing is an event.
- Logging, `onerror` handlers, `onopen`'s log line and the `console` calls are left out.
  Neither `onerror` handler changes state.
- Network transport is not modelled. Which sockets open or close, and when, are events
  of the trace. The browser's close code is a parameter. `close()` gives code 1005 for
  an OPEN socket and 1006 for one still connecting. Either way, a socket closed by
  `connect` also schedules a reconnect when its close event arrives. The model follows
  this because the code is an input.
- React's scheduling is reduced to explicit events: render, mount, unmount and callback
  change. The hook's return value `{ ws, reconnect }` is the `Reconnect` event and the
  hook's `wsRef`.
- `ControlClient.Client.Connect` assumes `new WebSocket` does not throw. The `try/catch`
  at lines 24 and 81-83 only logs.
- `connect` does not promise that no reconnect timer is armed afterwards. It cancels
  only the stored handle, so a timer whose handle a later close overwrote stays armed
  (see Findings). `ClientModel.ConnectReplaces` states the exact timers left.
  `ConnectPreservesCoherent` gives "no timer armed" once the state is coherent.
- Dispatch goes only to the hook instance that created the socket. Its `onmessage`
  closes over that instance's refs (lines 50-61). This is what the code does. A design
  where every attached consumer receives each command is not what the code does, so it
  is not modelled.
- The registry may hold sockets that are CLOSING or CLOSED until their close event
  arrives. The broadcast loops test `readyState` for this reason. The model keeps such
  entries (`ReadyStateChange`), following the code rather than a registry that holds
  only open sockets.
- Several stop requests may wait at once, and the code does not reject a second one. An
  emit resolves every waiting request with the same record, so no request steals
  another's transcription. The real hazard is that one request's timeout removes every
  listener. `TimeoutStarvesOtherWaiters` proves it.

## Findings

| source | as written | input that shows it | evidently intended | confidence | as-written member | corrected member |
|---|---|---|---|---|---|---|
| src/hooks/useWebSocketControl.ts:67-79 | `onclose` nulls `globalWs` and schedules a reconnect whichever socket closed, even one `connect` has already replaced | React StrictMode double-mount: render, mount (socket 0), unmount, mount while socket 0 is still connecting (socket 1 replaces it), socket 1 opens, socket 0's close event arrives with code 1006, the reconnect timer fires, socket 2 opens: sockets 1 and 2 are both OPEN | a single shared connection (comment at line 8): only the current global socket's closure clears `globalWs` and reconnects; this also stops a later close from overwriting `globalReconnectTimeout` and orphaning an armed timer | medium, not executed | `ClientModel.StaleCloseOpensSecondSocket` | `ClientModel.NextCheckedPreservesCoherent` |
