# dmd2 streaming session manager, modelled in Dafny

This project models `DMDataSocket`, the session manager of the dmd2 client for
the DM-D.S.S disaster-telemetry push service. It covers the three parts of the
manager:

- **Ticket request construction.** The manager builds the ticket request from the stored
  subscription selection, and the ticket-status check decides whether a ticket comes back.
- **The `Start` state machine.** It runs on the two flags `is_connecting` and `is_connected`.
  It opens a connection to the region- and ticket-templated URL. The error callback is guarded.
  The handshake wait polls `readyState`. `Start` ends in one of two branches: connected, or a
  non-retryable failure.
- **The frame dispatcher.** It answers a `ping` with a `pong` that echoes the same `pingId`.

Files:

- `protocol.dfy` (module `Protocol`): regions and their host prefixes, the six event kinds,
  the subscription selection and its defaults, the ticket request body and the ticket response,
  the streaming URL and a parser for it, and the inbound and outbound frames. All of it is pure.
- `transport.dfy` (module `Transport`): the connection reduced to what the manager uses.
  A `WebSocket` object has a `readyState`, a `close()` and a log of frames passed to `send()`.
  Its abstract value is a `Link`.
- `session_spec.dfy` (module `Session`): the manager's abstract `State`, plus functions for the
  error callback, one poll, the whole handshake wait, the `try` block of `Start`, `Start` itself
  and the dispatcher. The lemmas about them are here too.
- `socket.dfy` (module `Socket`): the class `DMDataSocket`. Its fields are the ones the source
  updates in place. Each method is proved to move `View()` exactly as the matching `Session`
  function says.

How the environment is represented:

- Each event in the log is stored with the two flags as a synchronous listener would read them
  when it is emitted. This is how the model shows that `WS_CONNECTED` is emitted before the flags
  change.
- The ticket fetch is an input with three possible answers:
  - `TicketOk(ticket)`;
  - `TicketError(code, message)`;
  - `TicketUnreadable`: the request fails, the body is not JSON, or an error status comes without
    its error object. Each of these throws inside `fetchSocketTicket`. That call is outside the
    `try` block, so `Start` rejects (`Rejected`) after storing the selection and sending the
    request. No flag, event or connection changes.

  The request that was sent is appended to `requests`.
- The handshake wait consumes a finite sequence of polls, one per one-second sleep. In each poll
  the transport dispatches some number of error events, each of which runs the error callback,
  and then it reports a readiness. Readiness never goes back: a report of an earlier state is
  ignored, as WebSocket readiness only advances. If the polls run out while the connection is
  still CONNECTING, `Start` ends `Suspended`. In the program the wait has no bound and would still
  be running.
- Two of the exceptions that can reach the `catch` block of `Start` are modelled, both as inputs:
  - the connection constructor rejects the URL (`Env.urlAccepted`);
  - a listener of `WS_CONNECTED` throws inside `emit` (`Env.connectedListenerThrows`).

  A `WS_FAIL_NO_RETRY` listener that throws in the not-open branch (`src/socket.ts:198`) also
  reaches it; that path is not modelled (see "Left out").
- `close()` moves a CONNECTING or OPEN connection to CLOSING and leaves a CLOSING or CLOSED one
  alone. This follows the WebSocket API's close(). On a CONNECTING connection the API also fails
  the connection, which later fires an `error` event at it. The model does not derive that event
  from `close()`: it is one more error event of a poll's count.
- `send()` also follows the WebSocket API:
  - it throws on a CONNECTING connection;
  - an OPEN connection transmits the frame (`sent` is the log of transmitted frames);
  - a CLOSING or CLOSED connection silently discards it.

What the code does, which the model keeps:

- The error callback clears only `is_connecting`. `is_connected` stays as it was.
  - On a session that is connected, every later error closes the connection and emits another
    failure (`ErrorHandlerRepeatsWhileConnected`).
  - An error during the wait on a session that is not connected leads to two
    `WS_FAIL_NO_RETRY` events: one from the callback and one from the not-open branch
    (`StartErrorDuringWait`).
  - On a restart of a connected session, every error callback run during the wait emits, because
    the guard still sees `is_connected`. If the old connection fails while the new one is
    CONNECTING, its callback closes the new one. That fires an error at the new one, whose
    callback emits again, and the not-open branch adds a third failure (`RestartErrorCascade`).
- A handshake that fails under a conforming transport also fires an `error` event, so the usual
  failure path is `StartErrorDuringWait`. `StartClosesBeforeOpen`, with a single failure, covers a
  transport that closes without one.
- `Start` sets `is_connecting` but never clears `is_connected`. A second `Start` on a connected
  session therefore has both flags true while it waits (`RestartWhileConnected`). The design
  intends at most one flag to be true at a time; the code does not guarantee it.
- The error callback acts on the manager's current connection, not on the one it was installed on.
  The message callback does the same: it replies through the current connection.
- `Start` replaces the current connection without closing the previous one. The old connection
  stays as it was, possibly OPEN (`Socket.DMDataSocket.Start`). So a manager can have more than
  one open connection, which the design does not intend.
- A ping that arrives on the old connection while the new connection is still CONNECTING is
  answered through the new connection. That `send()` throws, so no pong goes out and no `WS_PING` is
  emitted (`PingLostDuringRestart`).
- If the constructor rejects the URL, the previous connection stays the current one.
- The request sends `test: "include"`, but the ticket type declares `"no" | "including"`
  (`src/socket.ts:59` against `:121`). The model keeps both as written.
- A URL override that is the empty string is ignored, because the empty string is falsy.

## Model

| member | source | states |
|---|---|---|
| `Protocol.Prefix` | src/socket.ts:9-21 | every region maps to one of the seven host prefixes; the three aliases share `ws` |
| `Protocol.StoredSelection` | src/socket.ts:158-160 | classifications are stored verbatim; omitted data types default to `[]`; omitted test inclusion defaults to false; a given value is kept |
| `Protocol.TicketRequestBody` | src/socket.ts:117-123 | `types` is present exactly when the filter is non-empty and then equals it; `test` is `include` exactly when tests are included and `no` otherwise; `appName` is the application name; `formatMode` is `json`; the selection is recovered from the body |
| `Protocol.WebSocketEvent.Name` | src/socket.ts:26-33 | the emitter keys are the enum's string values, `ws_reconnect` included; every key starts with `ws_` |
| `Protocol.EventNamesDistinct` | src/socket.ts:26-33 | no two event kinds share an emitter key |
| `Protocol.TicketOf` | src/socket.ts:126-133 | no ticket exactly when the response has error status; a throw exactly when the answer cannot be read; otherwise the response itself |
| `Protocol.SocketUrl` | src/socket.ts:169 | the URL starts with `wss://`, ends with the ticket verbatim, and is exactly as long as the scheme, prefix, fixed host-and-path and ticket together |
| `Protocol.ParseFilledTemplate` | src/socket.ts:169 | for any dot-free host prefix, parsing the filled template returns that prefix and the ticket unchanged |
| `Protocol.SocketUrlRoundTrip` | src/socket.ts:169 | parsing `wss://<prefix>.api.dmdata.jp/v2/websocket?ticket=<ticket>` gives back the region prefix and the ticket verbatim |
| `Protocol.SocketUrlInjective` | src/socket.ts:169 | two connections share a URL only if they share the region prefix and the ticket |
| `Transport.CloseLink` | src/socket.ts:179 | after close() the connection is neither CONNECTING nor OPEN; URL and sent frames are kept; a closing or closed one is unchanged |
| `Transport.SendLink` | src/socket.ts:218 | on a connection past CONNECTING, send() appends the frame exactly when the connection is OPEN and keeps URL and state |
| `Transport.WebSocket.Close` | src/socket.ts:179 | the connection's new value is `CloseLink` of the old one |
| `Transport.WebSocket.Send` | src/socket.ts:218 | throws exactly when the connection is CONNECTING, and then changes nothing; otherwise moves the connection as `SendLink` |
| `Transport.WebSocket.constructor` | src/socket.ts:169 | a new connection has the given URL, is CONNECTING and has sent nothing |
| `Session.OnErrorSpec` | src/socket.ts:172-181 | with both flags false it changes nothing; otherwise `connecting` becomes false, `connected` keeps its value, the connection is closed and exactly one `WS_FAIL_NO_RETRY` is appended |
| `Session.Handled` | src/socket.ts:172-181 | n callback runs keep `connected`, the configuration, selection, requests, URL and sent frames, and never lower readiness; on an idle session or for n = 0 nothing changes; otherwise `connecting` is cleared, the connection is closing or closed, and one failure is appended on a session that is not connected, n on a connected one |
| `Session.Poll` | src/socket.ts:172-187 | one poll keeps `connected`, the configuration, selection, requests, URL and sent frames, and never lowers readiness below what the transport reports; without an error callback run, or on an idle session, it emits nothing and keeps `connecting`; otherwise it clears `connecting`, leaves the connection closing or closed and appends the failures of `Handled` |
| `Session.Wait` | src/socket.ts:183-187 | the wait keeps `connected`, the URL and the sent frames, and appends only non-retryable failures; it either emits nothing and keeps `connecting`, or clears `connecting` and leaves the connection closing or closed; on a session that is not connected at most one failure is emitted; if it is still CONNECTING nothing was emitted |
| `Session.RequestFor` | src/socket.ts:112-123 | the request goes to the base URL plus `/v2/socket`, carries the application name, and its body gives back the stored selection |
| `Session.Caught` | src/socket.ts:203-209 | the catch block leaves both flags false and appends one `WS_FAIL_NO_RETRY` seen with both flags false |
| `Session.ConnectSpec` | src/socket.ts:168-209 | returning true means connected and not connecting, with exactly one `WS_CONNECTED` emitted while `connecting` was still true and the connection OPEN; returning false means both flags false with a `WS_FAIL_NO_RETRY` last; a pending wait means connecting with nothing emitted; a created connection has the templated URL; a rejected URL keeps the old connection |
| `Session.StartSpec` | src/socket.ts:153-166 | the selection is stored and exactly one ticket request built from it is sent; on an error ticket `Start` returns false, and on an unreadable answer it rejects, in both cases without a new connection, flag change or event; flags never hold without a connection |
| `Session.HandleFrameSpec` | src/socket.ts:213-221 | a `ping` on an OPEN current connection appends exactly one `pong` echoing its `pingId` and one `WS_PING`, and changes nothing else; on a closing or closed one only `WS_PING` is appended; on a CONNECTING one, or for any other type, nothing changes |
| `Session.WaitSettles` | src/socket.ts:183-187 | after k quiet polls, an error-free poll that reports a non-CONNECTING state ends the wait in that state with nothing emitted |
| `Session.WaitErrors` | src/socket.ts:172-187 | after k quiet polls, an error in poll k ends the wait right after that poll |
| `Session.StartOpensWithinPolls` | src/socket.ts:183-196 | a connection that opens after k quiet polls makes `Start` return true with exactly one `WS_CONNECTED`, connected and not connecting |
| `Session.StartClosesBeforeOpen` | src/socket.ts:197-202 | a connection that closes before opening makes `Start` return false with exactly one `WS_FAIL_NO_RETRY`, emitted before the flags are reset, and both flags false |
| `Session.StartErrorDuringWait` | src/socket.ts:172-202 | error callback runs during the wait make `Start` return false with both flags false; the failures are one per run on a connected session (one in all on an unconnected one) plus one from the not-open branch, so exactly two when not connected |
| `Session.RestartErrorCascade` | src/socket.ts:169-198 | on a connected session, an old-connection error plus the error that its close() causes on the new connection make `Start` emit three failures and return false |
| `Session.ErrorHandlerIdempotentWhenNotConnected` | src/socket.ts:173-174 | on a session that is not connected, a second error callback does nothing |
| `Session.ErrorHandlerRepeatsWhileConnected` | src/socket.ts:173-174 | on a connected session each error callback emits another failure and `connected` stays true |
| `Session.RestartWhileConnected` | src/socket.ts:170 | `Start` on a connected session waits with both flags true |
| `Session.PingLostDuringRestart` | src/socket.ts:169-170 | while a restart on a connected session is still CONNECTING, a ping changes nothing: no pong and no `WS_PING` |
| `Socket.BaseUrl` | src/socket.ts:87-97 | a non-empty override replaces `https://api.dmdata.jp`; an absent or empty one does not |
| `Socket.DMDataSocket.constructor` | src/socket.ts:70-104 | a new manager is idle, with no selection, connection, events or requests, and takes its region, application name and base URL from the configuration |
| `Socket.DMDataSocket.Default` | src/socket.ts:96-104 | without a configuration the manager uses the automatic region and the name `dmd2 application`, and is idle |
| `Socket.DMDataSocket.Emit` | src/socket.ts:146-149 | appends exactly one event, with the current flags, to the log |
| `Socket.DMDataSocket.FetchSocketTicket` | src/socket.ts:110-134 | sends one request built from the stored selection and returns `TicketOf` of the response: a ticket, none, or a throw |
| `Socket.DMDataSocket.OnError` | src/socket.ts:172-181 | moves the state as `OnErrorSpec` and keeps the current connection |
| `Socket.DMDataSocket.DispatchErrors` | src/socket.ts:172-181 | n error events run the callback n times, moving the state as `Handled` |
| `Socket.DMDataSocket.AwaitHandshake` | src/socket.ts:183-187 | the polling loop moves the state as `Wait` |
| `Socket.DMDataSocket.Start` | src/socket.ts:153-169 | moves the state and returns the outcome as `StartSpec`; creates no socket unless a ticket arrives and the URL is accepted; leaves the previous socket untouched (not closed); keeps the flag/connection invariant |
| `Socket.DMDataSocket.Connect` | src/socket.ts:168-209 | moves the state and returns the outcome as `ConnectSpec`; a rejected URL keeps the current socket; the previous socket is untouched |
| `Session.ReportSpec` | src/socket.ts:189-201 | after the wait: still CONNECTING means `Suspended` with nothing changed; OPEN without a throwing listener means true, connected and not connecting, with one `WS_CONNECTED` seen with the flags as they were; every other ending is false with both flags false and a `WS_FAIL_NO_RETRY` last; the connection is never touched |
| `Socket.DMDataSocket.Report` | src/socket.ts:189-201 | the branches after the wait move the state and return the outcome as `ReportSpec`, the part of `ConnectSpec` after `Wait` |
| `Socket.DMDataSocket.HandleFrame` | src/socket.ts:213-221 | moves the state as `HandleFrameSpec`; when send() throws, no probe event is emitted |

## Left out

- The Authorization header. It is built with `btoa`, a base64 library call, so the API key is not part of the model.
- Debug and verbose logging (`okayulogger`, `console.error`). No behaviour depends on them. `SocketConfig.debugLogging` is kept only as a field.
- `on` and `off`. They delegate listener bookkeeping to `node:events`, which is not part of this model. Emission is an append-only event log.
- Listener exceptions other than one thrown on `WS_CONNECTED`. This covers a `WS_FAIL_NO_RETRY` listener throwing in the not-open branch (`src/socket.ts:198`), which enters the catch block whose own emit then rethrows, so `Start` rejects. It also covers a throw inside the catch block's own emit, and a throw in a listener called from the error callback, which does not reach `Start`.
- The network. `fetch` is replaced by the response input. The real WebSocket is replaced by `Transport.WebSocket`. The one-second `setTimeout` sleep is replaced by the poll sequence.
- Interleaving of callbacks. The error callback runs only inside a poll, or when `OnError` is called directly.
- Session.Wait: frames on an older connection during a restart's wait. An old connection left open by a restart keeps its message callback, which answers pings through the new connection and emits `WS_PING` with both flags set, between the failures or before `WS_CONNECTED`. A poll carries no frames, so `Wait`'s "only failures" and the single event of a successful `Start` are promised only for a wait without such frames. A frame is modelled only by calling `HandleFrame` between operations.
- Session.StartSpec: a second `Start` while the first one is still waiting. In the program the first call's loop goes on polling the new current connection and reports its own outcome, so two outcomes (for example two `WS_CONNECTED`) are emitted. In the model a `Suspended` call is over and is not resumed. The design treats overlapping `Start` calls as a caller error.
- Session.Wait / Session.Poll: the number of error events in each poll is an input. The model does not derive from `close()` on a CONNECTING connection that an error event follows. An error event that arrives only after `Start` has returned is a later direct call of `OnError`.
- The unbounded wait. A wait that is still CONNECTING when the given polls run out ends `Suspended`.
- JSON serialisation and parsing of frames, and a frame that fails to parse. Frames are datatypes.
- Installation of the message callback (`onmessage`). `HandleFrame` is the callback, and it may be called on any current connection.
- Where an exception thrown by `send()` in the message callback goes. It leaves the callback and reaches the transport's event dispatch; the model records only that nothing changed.
- The payload decompressor (`src/handlers/decompressor.ts`). It wraps zlib and base64 library calls and is not part of this model.
- The identifier catalogs (`src/typings/dataTypes.ts`, `src/typings/earthquake.ts`). Classifications and data-type codes are opaque strings.
