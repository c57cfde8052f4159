# Websockets.PCL connection lifecycle, modelled in Dafny

Websockets.PCL gives application code one `IWebSocketConnection` contract —
`Open`, `Close`, `Send`, `SendPing`, `Dispose`, an `IsOpen` flag and the
event channels `OnOpened`, `OnClosed`, `OnError`, `OnMessage`, `OnPong`,
`OnDispose` — backed by a platform socket. This project models the two
platform state machines behind that contract:

- **Universal** (`universal.dfy`). `UniversalConnection.Connection` holds the attached
  `MessageSocket`, the `DataWriter` created when the connect completes, and
  `IsOpen`.
- **iOS** (`ios.dfy`). `IosConnection.Connection` holds the attached
  `SocketClient` and `IsOpen`. The client records its ready state, the handlers
  subscribed to its five events, and the calls made on it in order.

Every raised event is appended to a ghost trace `events` of
`WebSocketContract.Event` values (`contract.dfy`). Each operation's
postcondition gives the exact events it appends. Together with its frame, it
also gives the new value of every field the model keeps: the open flag, the attached socket or client,
the writer, and on an attached client its ready state, subscriptions and calls.

Asynchronous arrivals are methods the environment calls:

- Universal: `ConnectCompleted(status)`, `NativeClosed()` and
  `MessageReceived(text, readFails)`.
- iOS: the five `Client…` handlers. Each takes the client that raises the
  event, and runs only while this connection's handler is subscribed to that
  client.

Exceptions are explicit parameters of the methods (`fault`, `connectFault`,
`closeFault`, `openFault`, `readFails`); the throwing points that have none are
listed under "## Left out". Each modelled fault raises exactly one `OnError` event and is not rethrown.
Two exceptions escape the source's handlers:

- the Universal connect completion that finds no socket, which
  `ConnectCompleted` reports as `escaped`;
- on iOS, a null byte array given to `SendBytes`, which is not modelled.

Pure decisions are lifted out as functions:

- the scheme rewrite from http(s) to the ws/wss URIs of section 3 of RFC 6455
  (`url_scheme.dfy`);
- the "pong" routing (`UniversalConnection.RouteInbound`);
- the case-insensitive header dictionary and the iOS request fields
  (`headers.dfy`).

`scenarios.dfy` drives both connections through short sessions. It uses only
their contracts.

Behaviour of the code that the model keeps as written:

- iOS `Close` never touches `IsOpen`, and it leaves the pong handler subscribed.
  Late pongs from a closed client still reach `OnPong`.
- iOS `Open` never touches `IsOpen` either.
- The iOS failed handler raises `OnClosed` while open, but clears neither
  `IsOpen` nor the client.
- The Universal native-closed handler leaves the socket and the writer
  attached, so `Send` still writes.
- Universal `EndConnection` never clears the writer and never unsubscribes the
  socket's handlers. A send after reopening, before the new connect completes,
  goes to the writer of the disposed socket.
- Universal `Open` ignores its `protocol` argument, and `SendPing` always writes
  the literal "ping".
- The Universal URL rewrite replaces every occurrence of "https://" (for an
  https URL) or "http://" (for any other http URL), not only the scheme.
- iOS `Open` over a client whose shutdown throws still attaches a fresh
  client. The old one is left undisposed, with its pong handler subscribed.
- A Universal connect completion that arrives after `Close` dereferences the
  empty socket slot. The model returns `escaped` for that exception, which the
  handler does not catch.

## Model

| member | source | states |
|---|---|---|
| UrlScheme.Replace | Websockets.Universal/WebsocketConnection.cs:60 | a string without the pattern is returned unchanged; a string that starts with the pattern starts with the replacement afterwards |
| UrlScheme.ReplaceLeavesNoOccurrence | Websockets.Universal/WebsocketConnection.cs:60-62 | for every input, when the replacement's first character is not in the pattern and the pattern's first character is not in the replacement, no occurrence of the pattern is left: every one is replaced |
| UrlScheme.ToWebSocketUrl | Websockets.Universal/WebsocketConnection.cs:59-62 | a url that does not start with "http", or that holds neither "http://" nor "https://", is passed on unchanged; an https url comes out with no "https://" anywhere, and any other http url with no "http://" anywhere |
| UrlScheme.SecureUrlBecomesWss | Websockets.Universal/WebsocketConnection.cs:59-60 | "https://" + rest becomes "wss://" + rest when rest holds no further "https://" |
| UrlScheme.PlainUrlBecomesWs | Websockets.Universal/WebsocketConnection.cs:61-62 | "http://" + rest becomes "ws://" + rest when rest holds no further "http://" (it does not start with "https") |
| UrlScheme.ReplaceBothOccurrences | Websockets.Universal/WebsocketConnection.cs:60-62 | for a pattern whose first character does not recur in it, pattern + a + pattern + b becomes replacement + a + replacement + b whenever a and b hold no occurrence: text between occurrences is copied unchanged |
| UrlScheme.PlainUrlRewritesEveryOccurrence | Websockets.Universal/WebsocketConnection.cs:61-62 | "http://" + a + "http://" + b becomes "ws://" + a + "ws://" + b for every a and b that hold no "http://" |
| UrlScheme.SecureUrlRewritesEveryOccurrence | Websockets.Universal/WebsocketConnection.cs:59-60 | "https://" + a + "https://" + b becomes "wss://" + a + "wss://" + b for every a and b that hold no "https://" |
| UrlScheme.AbsentWithoutChar | Websockets.Universal/WebsocketConnection.cs:60 | a string that lacks one of the pattern's characters holds no occurrence, so Replace leaves it alone |
| Headers.AuthHeaders | Websockets.Universal/WebsocketConnection.cs:38-42 | no token gives the empty dictionary; a token gives exactly one entry, found under "Authorization" in any letter case and under no other name |
| Headers.SetField | Websockets.Ios/WebsocketConnection.cs:61 | assigning a request header field makes every case variant of its name read the new value and leaves all other names as they were |
| Headers.AssignedKeepsLatest | Websockets.Ios/WebsocketConnection.cs:59-62 | after assigning the entries one by one, each name reads the value of its last entry |
| Headers.DistinctLatestIsLookup | Websockets.Ios/WebsocketConnection.cs:39-43 | for a dictionary with case-insensitive keys, the last entry of a name is the dictionary's lookup of it |
| UniversalConnection.RouteInbound | Websockets.Universal/WebsocketConnection.cs:173-178 | text equal to "pong" goes to the pong channel and every other text to the message channel; the text is passed on unchanged |
| UniversalConnection.Connection.constructor | Websockets.Universal/WebsocketConnection.cs:14-34 | a new connection is not open, has no socket and no writer, and has raised nothing |
| UniversalConnection.Connection.OpenWithToken | Websockets.Universal/WebsocketConnection.cs:36-45 | Open with the token's header dictionary: the fresh socket has UTF-8 messages, both handlers subscribed and exactly that dictionary; an old socket is disposed with its handlers left subscribed; the url, events, IsOpen and writer as in Open |
| UniversalConnection.Connection.Open | Websockets.Universal/WebsocketConnection.cs:47-92 | an attached socket is first disposed with one closed event, its handlers left subscribed. A fresh socket is attached with UTF-8 messages, both handlers subscribed and the headers in order. It connects to the rewritten url unless building the URI or connecting throws, which raises one error. IsOpen ends false and the writer is kept |
| UniversalConnection.Connection.ConnectCompleted | Websockets.Universal/WebsocketConnection.cs:72-84 | Completed creates a writer on the attached socket, sets IsOpen and raises one opened event; Error raises one "Websocket error" and leaves IsOpen; other statuses do nothing; Completed with no socket escapes and changes nothing |
| UniversalConnection.Connection.Close | Websockets.Universal/WebsocketConnection.cs:95-98 | with no socket nothing changes and nothing is raised; otherwise the socket is disposed and released, IsOpen is cleared and exactly one closed event is raised |
| UniversalConnection.Connection.EndConnection | Websockets.Universal/WebsocketConnection.cs:154-164 | as Close; in addition the writer is kept and the released socket's handlers stay subscribed |
| UniversalConnection.Connection.Send | Websockets.Universal/WebsocketConnection.cs:100-114 | a no-op unless both socket and writer are present; then either the writer stores the text or one "Failed to send message." is raised |
| UniversalConnection.Connection.SendBytes | Websockets.Universal/WebsocketConnection.cs:116-130 | as Send, storing the bytes |
| UniversalConnection.Connection.SendPing | Websockets.Universal/WebsocketConnection.cs:132-146 | as Send, storing the literal "ping" whatever the argument, with "Failed to send ping." on a fault |
| UniversalConnection.Connection.Dispose | Websockets.Universal/WebsocketConnection.cs:148-152 | Close's effect followed by exactly one dispose event carrying this connection, in every state |
| UniversalConnection.Connection.MessageReceived | Websockets.Universal/WebsocketConnection.cs:165-185 | exactly one event: the routed text, or "Failed to read message." when reading fails |
| UniversalConnection.Connection.NativeClosed | Websockets.Universal/WebsocketConnection.cs:187-191 | IsOpen is cleared and one closed event raised; socket and writer stay attached |
| IosConnection.BuildRequest | Websockets.Ios/WebsocketConnection.cs:55-64 | the request keeps the url; with no dictionary or an empty one it has no header fields, otherwise each name reads the value of its last entry |
| IosConnection.AuthRequestFields | Websockets.Ios/WebsocketConnection.cs:37-64 | the token overload's request has no field without a token, and otherwise only the token under "Authorization" in any letter case |
| IosConnection.ProtocolList | Websockets.Ios/WebsocketConnection.cs:66-69 | a missing or empty protocol gives no sub-protocol list, any other gives exactly that protocol |
| IosConnection.CloseCalls | Websockets.Ios/WebsocketConnection.cs:91-101 | Close first removes the message, closed, failed and opened handlers, never the pong one; only then come the native close, made only on an open client, and the dispose |
| IosConnection.SocketClient.SubscribeAll | Websockets.Ios/WebsocketConnection.cs:71-75 | the five handlers of the connection are added, in source order |
| IosConnection.SocketClient.UnsubscribeAllButPong | Websockets.Ios/WebsocketConnection.cs:91-94 | the message, closed, failed and opened handlers of the connection are removed |
| IosConnection.Connection.constructor | Websockets.Ios/WebsocketConnection.cs:11-35 | a new connection is not open, has no client and has raised nothing |
| IosConnection.Connection.Close | Websockets.Ios/WebsocketConnection.cs:85-115 | with no client nothing is raised. Otherwise four handlers are detached before shutdown and the native close is made only when the client is open. On success the client is disposed and released and exactly one closed event is raised. A shutdown exception raises one error instead and keeps the client. IsOpen never changes |
| IosConnection.Connection.OpenWithToken | Websockets.Ios/WebsocketConnection.cs:37-46 | Open with the token's header dictionary, with all of Open's guarantees on the old client, the new client and the events |
| IosConnection.Connection.Open | Websockets.Ios/WebsocketConnection.cs:48-83 | an attached client is closed first, with Close's effect on it (four handlers detached, its ready state unchanged, its calls, its disposal) and the events Close raises for its state on entry. A failure building the request raises one error and attaches nothing. Otherwise a fresh client for the request and protocol list is attached, all five handlers are subscribed and it is opened; an exception from the open raises one error. IsOpen never changes |
| IosConnection.Connection.Start | Websockets.Ios/WebsocketConnection.cs:55-82 | what Open does after closing: the request, the fresh client, its subscriptions and open call, and the error of whichever step throws |
| IosConnection.Connection.Send | Websockets.Ios/WebsocketConnection.cs:117-128 | a no-op without a client; otherwise the text is sent and a fault raises exactly one error |
| IosConnection.Connection.SendBytes | Websockets.Ios/WebsocketConnection.cs:130-133 | Send applied to the text rendering of the array |
| IosConnection.Connection.SendPing | Websockets.Ios/WebsocketConnection.cs:135-146 | a no-op without a client; otherwise a ping carrying the message is sent and a fault raises exactly one error |
| IosConnection.Connection.Dispose | Websockets.Ios/WebsocketConnection.cs:148-152 | Close's full effect (four handlers detached, ready state unchanged, the close and dispose calls, the client disposed and released or kept on a shutdown exception) followed by exactly one dispose event carrying this connection |
| IosConnection.Connection.ClientWebSocketOpened | Websockets.Ios/WebsocketConnection.cs:158-162 | while subscribed: IsOpen set and one opened event; otherwise nothing |
| IosConnection.Connection.ClientWebSocketFailed | Websockets.Ios/WebsocketConnection.cs:164-176 | while subscribed: one error with the description or "Unknown WebSocket Error!", then one closed event only if open; IsOpen and the client are left as they are |
| IosConnection.Connection.ClientWebSocketClosed | Websockets.Ios/WebsocketConnection.cs:178-182 | while subscribed: IsOpen cleared and one closed event; otherwise nothing |
| IosConnection.Connection.ClientReceivedMessage | Websockets.Ios/WebsocketConnection.cs:184-188 | while subscribed, a present message is raised as a message, "pong" included; otherwise nothing |
| IosConnection.Connection.ClientReceivedPong | Websockets.Ios/WebsocketConnection.cs:190-194 | while subscribed, a present payload is raised as a pong; otherwise nothing |
| Scenarios.UniversalEchoSession | Websockets.Universal/WebsocketConnection.cs:59-114 | open on https, complete, send "hi", close: the socket connects to the wss url, the writer holds "hi", the trace is opened then closed, and the connection ends not open |
| Scenarios.UniversalStaleWriter | Websockets.Universal/WebsocketConnection.cs:154-164 | after close and reopen, a send goes to the kept writer, whose socket is disposed |
| Scenarios.UniversalSendAfterNativeClose | Websockets.Universal/WebsocketConnection.cs:187-191 | after the native close the connection is not open, the socket is still attached and a send still goes out |
| Scenarios.UniversalLateCompletion | Websockets.Universal/WebsocketConnection.cs:74-79 | a completed connect that arrives after Close escapes |
| Scenarios.IosCloseKeepsOpenFlag | Websockets.Ios/WebsocketConnection.cs:85-109 | opened then closed: the trace is opened then closed, the client is released, yet IsOpen stays true |
| Scenarios.IosPongAfterClose | Websockets.Ios/WebsocketConnection.cs:91-94 | after Close the old client's message is dropped but its pong is still raised |
| Scenarios.IosFailureKeepsOpen | Websockets.Ios/WebsocketConnection.cs:164-176 | two failures while open raise error, closed, error, closed, and IsOpen stays true |
| Scenarios.IosReopenAfterThrowingClose | Websockets.Ios/WebsocketConnection.cs:48-115 | reopening over an open client whose close call throws raises only that error and attaches a fresh client; the old one stays undisposed with its pong handler subscribed |

## Left out

- `Link` and `WebSocketFactory.Init` (factory registration): the factory class is not part of this model.
- The static certificate-trust override of the iOS class and the empty `SetIsAllTrusted`: global transport policy with no behaviour of the connection.
- `OnLog` and `OnData`: declared but never raised.
- Native transport internals are abstract state here: `MessageWebSocket`, `DataWriter`/`DataReader`, the SocketRocket `WebSocket`, `NSUrlRequest`/`NSUrl` and `Uri` parsing. The ready state of an iOS client changes only through `SocketClient.Transition`, which stands for the library's own I/O.
- Asynchrony and threading: each callback is a sequential method call. A failed asynchronous write is raised at the call, not some time later. Interleavings of callbacks with commands are not verified.
- Text decoding and conversion are not modelled: UTF-8 decoding, `NSString`/`NSData` conversion, and the text `byte[].ToString()` yields. iOS messages and pongs arrive as text, with `None` for a null message. `IosConnection.Connection.SendBytes` takes the rendering of the array as a function parameter.
- Letter-case-insensitive comparison (current-culture on Universal, invariant-culture on iOS) is modelled as ASCII letter folding. `StartsWith` is modelled as an ordinal prefix test.
- Exceptions thrown by event subscribers are not modelled. Neither are null `url` or null `data` arguments; on iOS a null byte array would throw outside the `try`.
- UniversalConnection.Connection.Open: models an exception only where the URI is built or the connect is started. It leaves out exceptions from the socket constructor, from `SetRequestHeader` part-way through the headers, and from disposing the old socket.
- IosConnection.Connection.Open: models an exception only where the request is built and at the client's open call. It leaves out exceptions from the client constructor and from the handler subscriptions.
- IosConnection.Connection.ClientWebSocketFailed: a present error whose description is null is not distinguished from a description.
- UniversalConnection.Connection.ConnectCompleted: a completion is not tied to the connect operation that produced it. Like the source's handler, it acts on whichever socket is attached when it runs.
