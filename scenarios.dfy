/** Client code driving each binding through short sessions, using only the
    connections' contracts: the traces and states they reach. */
module Scenarios {
  import opened WebSocketContract
  import U = UniversalConnection
  import I = IosConnection
  import UrlScheme

  /** Open an https URL whose host part has no colon, complete the connect,
      send "hi", close: the socket connects to the same wss URL, the writer
      stores the text, and the trace is exactly opened then closed. */
  method UniversalEchoSession(host: string) returns (uri: Option<string>, sent: seq<U.Payload>, stillOpen: bool)
    requires ':' !in host
    ensures uri == Some(UrlScheme.SecureWs + host)
    ensures sent == [U.Text("hi")]
    ensures !stillOpen
  {
    UrlScheme.AbsentWithoutChar(host, UrlScheme.SecureHttp, ':');
    UrlScheme.SecureUrlBecomesWss(host);
    var c := new U.Connection();
    c.Open(UrlScheme.SecureHttp + host, None, None, None);
    var socket := c.websocket;
    uri := socket.connectUri;
    var escaped := c.ConnectCompleted(U.Completed);
    var writer := c.messageWriter;
    c.Send("hi", false);
    c.Close();
    assert c.events == [OnOpened, OnClosed];
    sent := writer.stored;
    stillOpen := c.isOpen;
  }

  /** Close keeps the writer, so a send after reopening, before the new
      connect completes, goes to the writer of the disposed socket. */
  method UniversalStaleWriter(url: string, nextUrl: string) returns (writerOnDisposedSocket: bool, sent: seq<U.Payload>)
    ensures writerOnDisposedSocket
    ensures sent == [U.Text("x")]
  {
    var c := new U.Connection();
    c.Open(url, None, None, None);
    var escaped := c.ConnectCompleted(U.Completed);
    var writer := c.messageWriter;
    c.Close();
    c.Open(nextUrl, None, None, None);
    c.Send("x", false);
    writerOnDisposedSocket := c.messageWriter == writer && writer.stream.disposed;
    sent := writer.stored;
  }

  /** After the native close the connection reports not open, yet the socket
      and writer stay attached and a send still goes out. */
  method UniversalSendAfterNativeClose(url: string) returns (stillOpen: bool, attached: bool, sent: seq<U.Payload>)
    ensures !stillOpen && attached
    ensures sent == [U.Text("x")]
  {
    var c := new U.Connection();
    c.Open(url, None, None, None);
    var escaped := c.ConnectCompleted(U.Completed);
    var writer := c.messageWriter;
    c.NativeClosed();
    c.Send("x", false);
    stillOpen, attached := c.isOpen, c.websocket != null;
    sent := writer.stored;
  }

  /** A completion arriving after Close finds no socket and escapes. */
  method UniversalLateCompletion(url: string) returns (escaped: bool)
    ensures escaped
  {
    var c := new U.Connection();
    c.Open(url, None, None, None);
    c.Close();
    escaped := c.ConnectCompleted(U.Completed);
  }

  /** Once opened, Close releases the client but the connection still reports open. */
  method IosCloseKeepsOpenFlag() returns (stillOpen: bool, attached: bool)
    ensures stillOpen && !attached
  {
    var c := new I.Connection();
    c.Open("wss://example/a", None, None, I.ShutdownCompletes, I.OpenCompletes);
    var client := c.client;
    client.Transition(I.ReadyState.Open);
    c.ClientWebSocketOpened(client);
    c.Close(I.ShutdownCompletes);
    assert c.events == [OnOpened, OnClosed];
    stillOpen, attached := c.isOpen, c.client != null;
  }

  /** After Close the old client's messages are no longer delivered, but its
      pongs still are, since the pong handler stays subscribed. */
  method IosPongAfterClose() returns (pongHandlerKept: bool, messageHandlerKept: bool)
    ensures pongHandlerKept && !messageHandlerKept
  {
    var c := new I.Connection();
    c.Open("wss://example/a", None, None, I.ShutdownCompletes, I.OpenCompletes);
    var client := c.client;
    c.Close(I.ShutdownCompletes);
    c.ClientReceivedMessage(client, Some("m"));
    c.ClientReceivedPong(client, Some("p"));
    assert c.events == [OnClosed, OnPong("p")];
    pongHandlerKept := I.Subscription(c, I.ReceivedPong) in client.subscriptions;
    messageHandlerKept := I.Subscription(c, I.ReceivedMessage) in client.subscriptions;
  }

  /** While open, every failure raises an error and a closed event, without
      clearing the open flag: two failures give two closed events. */
  method IosFailureKeepsOpen() returns (stillOpen: bool)
    ensures stillOpen
  {
    var c := new I.Connection();
    c.Open("wss://example/a", None, None, I.ShutdownCompletes, I.OpenCompletes);
    var client := c.client;
    c.ClientWebSocketOpened(client);
    c.ClientWebSocketFailed(client, None);
    c.ClientWebSocketFailed(client, Some("reset"));
    assert c.events == [OnOpened, OnError(I.UnknownErrorText), OnClosed, OnError("reset"), OnClosed];
    stillOpen := c.isOpen;
  }

  /** Reopening over an open client whose close call throws raises only that
      error, then attaches a fresh client; the old one is left undisposed
      with its pong handler still subscribed. */
  method IosReopenAfterThrowingClose() returns (oldDisposed: bool, oldPongKept: bool, replaced: bool)
    ensures !oldDisposed && oldPongKept && replaced
  {
    var c := new I.Connection();
    c.Open("wss://example/a", None, None, I.ShutdownCompletes, I.OpenCompletes);
    var first := c.client;
    first.Transition(I.ReadyState.Open);
    c.Open("wss://example/b", None, None, I.CloseThrows("boom"), I.OpenCompletes);
    assert c.events == [OnError("boom")];
    oldDisposed := first.disposed;
    oldPongKept := I.Subscription(c, I.ReceivedPong) in first.subscriptions;
    replaced := c.client != first;
  }
}
