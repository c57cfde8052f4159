/** The Universal (Windows) binding: a connection over a message socket whose
    outbound data goes through a data writer created when the connect
    operation completes. Asynchronous arrivals (connect completion, native
    close, inbound message) are methods the environment calls. */
module UniversalConnection {
  import opened WebSocketContract
  import opened Headers
  import opened UrlScheme

  /** Status reported to the completion handler of the connect operation. */
  datatype AsyncStatus = Started | Completed | Canceled | Error

  /** What the data writer has stored on the socket's output stream. */
  datatype Payload = Text(text: string) | Binary(bytes: seq<bv8>)

  const ConnectErrorText: string := "Websocket error"
  const SendErrorText: string := "Failed to send message."
  const PingErrorText: string := "Failed to send ping."
  const ReadErrorText: string := "Failed to read message."
  const PingText: string := "ping"
  const PongText: string := "pong"

  /** Where an inbound text message is raised: the literal "pong" is the
      keep-alive reply and goes to the pong channel, any other text to the
      message channel; the text itself is passed on unchanged. */
  function RouteInbound(text: string): (e: Event)
    ensures e.OnPong? <==> text == PongText
    ensures e.OnPong? || e.OnMessage?
    ensures e.text == text
  {
    if text == PongText then OnPong(text) else OnMessage(text)
  }

  /** The platform message socket, reduced to what the connection configures. */
  class MessageSocket {
    var utf8Messages: bool
    var closedSubscribed: bool
    var messageSubscribed: bool
    var requestHeaders: seq<Header>
    var connectUri: Option<string>
    var disposed: bool

    constructor ()
      ensures !utf8Messages && !closedSubscribed && !messageSubscribed
      ensures requestHeaders == [] && connectUri == None && !disposed
    {
      utf8Messages, closedSubscribed, messageSubscribed := false, false, false;
      requestHeaders, connectUri, disposed := [], None, false;
    }
  }

  /** A writer on the output stream of one socket. */
  class DataWriter {
    const stream: MessageSocket
    var stored: seq<Payload>

    constructor (stream: MessageSocket)
      ensures this.stream == stream && stored == []
    {
      this.stream := stream;
      stored := [];
    }
  }

  class Connection {
    var isOpen: bool
    var websocket: MessageSocket?
    var messageWriter: DataWriter?
    /** Every event raised so far, in order. */
    ghost var events: seq<Event>

    /** An open connection has a socket; an attached socket is live and its
        closed and message-received handlers are subscribed. */
    ghost predicate Valid()
      reads this, websocket
    {
      && (isOpen ==> websocket != null)
      && (websocket != null ==> !websocket.disposed && websocket.closedSubscribed && websocket.messageSubscribed)
    }

    constructor ()
      ensures Valid()
      ensures !isOpen && websocket == null && messageWriter == null && events == []
    {
      isOpen, websocket, messageWriter := false, null, null;
      events := [];
    }

    /** The auth-token overload: Open with the dictionary built from the token. */
    method OpenWithToken(url: string, protocol: Option<string>, authToken: Option<string>, connectFault: Option<string>)
      requires Valid()
      modifies this, {websocket}`disposed
      ensures Valid()
      ensures fresh(websocket) && websocket.requestHeaders == AuthHeaders(authToken)
      ensures websocket.utf8Messages && websocket.closedSubscribed && websocket.messageSubscribed
      ensures websocket.connectUri == if connectFault.None? then Some(ToWebSocketUrl(url)) else None
      ensures old(websocket) != null ==>
        old(websocket).disposed && old(websocket).closedSubscribed && old(websocket).messageSubscribed
      ensures !isOpen && messageWriter == old(messageWriter)
      ensures events == old(events) + (if old(websocket) != null then [OnClosed] else [])
                                    + (if connectFault.Some? then [OnError(connectFault.value)] else [])
    {
      Open(url, protocol, Some(AuthHeaders(authToken)), connectFault);
    }

    /** Tears down an attached socket, attaches a fresh one with both handlers
        subscribed and the headers set, and starts connecting to the rewritten
        URL. `connectFault` is the exception building the URI or starting the
        connect may throw; it is raised as an error. The protocol is not used. */
    method Open(url: string, protocol: Option<string>, headers: Option<seq<Header>>, connectFault: Option<string>)
      requires Valid()
      modifies this, {websocket}`disposed
      ensures Valid()
      ensures fresh(websocket)
      ensures websocket.utf8Messages && websocket.closedSubscribed && websocket.messageSubscribed
      ensures websocket.requestHeaders == if headers.Some? then headers.value else []
      ensures websocket.connectUri == if connectFault.None? then Some(ToWebSocketUrl(url)) else None
      ensures old(websocket) != null ==>
        old(websocket).disposed && old(websocket).closedSubscribed && old(websocket).messageSubscribed
      ensures !isOpen && messageWriter == old(messageWriter)
      ensures events == old(events) + (if old(websocket) != null then [OnClosed] else [])
                                    + (if connectFault.Some? then [OnError(connectFault.value)] else [])
    {
      if websocket != null {
        EndConnection();
      }
      var socket := new MessageSocket();
      websocket := socket;
      socket.utf8Messages := true;
      socket.closedSubscribed := true;
      socket.messageSubscribed := true;
      var uri := ToWebSocketUrl(url);
      if headers.Some? {
        var entries := headers.value;
        for i := 0 to |entries|
          modifies socket
          invariant socket.utf8Messages && socket.closedSubscribed && socket.messageSubscribed
          invariant socket.connectUri == None && !socket.disposed
          invariant socket.requestHeaders == entries[..i]
        {
          socket.requestHeaders := socket.requestHeaders + [entries[i]];
        }
        assert entries[..|entries|] == entries;
      }
      if connectFault.Some? {
        events := events + [OnError(connectFault.value)];
      } else {
        socket.connectUri := Some(uri);
      }
    }

    /** The completion handler of the connect operation. It reads the socket
        slot when it runs; a completed connect with no socket attached throws
        out of the handler (`escaped`) and changes nothing. */
    method ConnectCompleted(status: AsyncStatus) returns (escaped: bool)
      requires Valid()
      modifies this
      ensures Valid()
      ensures websocket == old(websocket)
      ensures escaped <==> status == Completed && websocket == null
      ensures status == Completed && websocket != null ==>
        && isOpen && fresh(messageWriter)
        && messageWriter.stream == websocket && messageWriter.stored == []
        && events == old(events) + [OnOpened]
      ensures status == AsyncStatus.Error ==>
        isOpen == old(isOpen) && messageWriter == old(messageWriter) && events == old(events) + [OnError(ConnectErrorText)]
      ensures (status != Completed && status != AsyncStatus.Error) || escaped ==>
        isOpen == old(isOpen) && messageWriter == old(messageWriter) && events == old(events)
    {
      escaped := false;
      if status == Completed {
        if websocket == null {
          escaped := true;
          return;
        }
        messageWriter := new DataWriter(websocket);
        isOpen := true;
        events := events + [OnOpened];
      } else if status == AsyncStatus.Error {
        events := events + [OnError(ConnectErrorText)];
      }
    }

    /** Close is EndConnection. */
    method Close()
      requires Valid()
      modifies this, {websocket}`disposed
      ensures Valid()
      ensures websocket == null && messageWriter == old(messageWriter)
      ensures old(websocket) == null ==> isOpen == old(isOpen) && events == old(events)
      ensures old(websocket) != null ==> !isOpen && old(websocket).disposed && events == old(events) + [OnClosed]
    {
      EndConnection();
    }

    /** Disposes and releases an attached socket, clears the open flag and
        raises closed once; with no socket it does nothing. The writer is
        kept, and the released socket's handlers stay subscribed. */
    method EndConnection()
      requires Valid()
      modifies this, {websocket}`disposed
      ensures Valid()
      ensures websocket == null && messageWriter == old(messageWriter)
      ensures old(websocket) == null ==> isOpen == old(isOpen) && events == old(events)
      ensures old(websocket) != null ==>
        && !isOpen && old(websocket).disposed && events == old(events) + [OnClosed]
        && old(websocket).closedSubscribed && old(websocket).messageSubscribed
    {
      if websocket != null {
        websocket.disposed := true;
        websocket := null;
        isOpen := false;
        events := events + [OnClosed];
      }
    }

    /** Writes through the writer when both a socket and a writer are present;
        `fails` is a fault of the write, raised as `errorText`. */
    method Write(payload: Payload, errorText: string, fails: bool)
      requires Valid()
      modifies this, {messageWriter}`stored
      ensures Valid()
      ensures websocket == old(websocket) && messageWriter == old(messageWriter) && isOpen == old(isOpen)
      ensures websocket == null || messageWriter == null ==> events == old(events)
      ensures messageWriter != null && (websocket == null || fails) ==> messageWriter.stored == old(messageWriter.stored)
      ensures websocket != null && messageWriter != null && fails ==> events == old(events) + [OnError(errorText)]
      ensures websocket != null && messageWriter != null && !fails ==>
        events == old(events) && messageWriter.stored == old(messageWriter.stored) + [payload]
    {
      if websocket != null && messageWriter != null {
        if fails {
          events := events + [OnError(errorText)];
        } else {
          messageWriter.stored := messageWriter.stored + [payload];
        }
      }
    }

    method Send(message: string, fails: bool)
      requires Valid()
      modifies this, {messageWriter}`stored
      ensures Valid()
      ensures websocket == old(websocket) && messageWriter == old(messageWriter) && isOpen == old(isOpen)
      ensures websocket == null || messageWriter == null ==> events == old(events)
      ensures messageWriter != null && (websocket == null || fails) ==> messageWriter.stored == old(messageWriter.stored)
      ensures websocket != null && messageWriter != null && fails ==> events == old(events) + [OnError(SendErrorText)]
      ensures websocket != null && messageWriter != null && !fails ==>
        events == old(events) && messageWriter.stored == old(messageWriter.stored) + [Text(message)]
    {
      Write(Text(message), SendErrorText, fails);
    }

    method SendBytes(data: seq<bv8>, fails: bool)
      requires Valid()
      modifies this, {messageWriter}`stored
      ensures Valid()
      ensures websocket == old(websocket) && messageWriter == old(messageWriter) && isOpen == old(isOpen)
      ensures websocket == null || messageWriter == null ==> events == old(events)
      ensures messageWriter != null && (websocket == null || fails) ==> messageWriter.stored == old(messageWriter.stored)
      ensures websocket != null && messageWriter != null && fails ==> events == old(events) + [OnError(SendErrorText)]
      ensures websocket != null && messageWriter != null && !fails ==>
        events == old(events) && messageWriter.stored == old(messageWriter.stored) + [Binary(data)]
    {
      Write(Binary(data), SendErrorText, fails);
    }

    /** Sends the literal "ping" whatever `message` is. */
    method SendPing(message: string, fails: bool)
      requires Valid()
      modifies this, {messageWriter}`stored
      ensures Valid()
      ensures websocket == old(websocket) && messageWriter == old(messageWriter) && isOpen == old(isOpen)
      ensures websocket == null || messageWriter == null ==> events == old(events)
      ensures messageWriter != null && (websocket == null || fails) ==> messageWriter.stored == old(messageWriter.stored)
      ensures websocket != null && messageWriter != null && fails ==> events == old(events) + [OnError(PingErrorText)]
      ensures websocket != null && messageWriter != null && !fails ==>
        events == old(events) && messageWriter.stored == old(messageWriter.stored) + [Text(PingText)]
    {
      Write(Text(PingText), PingErrorText, fails);
    }

    /** Close, then one dispose event carrying this connection. */
    method Dispose()
      requires Valid()
      modifies this, {websocket}`disposed
      ensures Valid()
      ensures websocket == null && messageWriter == old(messageWriter)
      ensures old(websocket) != null ==> !isOpen && old(websocket).disposed
      ensures old(websocket) == null ==> isOpen == old(isOpen)
      ensures events == old(events) + (if old(websocket) != null then [OnClosed] else []) + [OnDispose(this)]
    {
      Close();
      events := events + [OnDispose(this)];
    }

    /** The message-received handler; `readFails` is a fault while reading the text. */
    method MessageReceived(text: string, readFails: bool)
      requires Valid()
      modifies this`events
      ensures Valid()
      ensures events == old(events) + [if readFails then OnError(ReadErrorText) else RouteInbound(text)]
    {
      if readFails {
        events := events + [OnError(ReadErrorText)];
      } else {
        events := events + [RouteInbound(text)];
      }
    }

    /** The native closed handler: clears the open flag and raises closed,
        but leaves the socket and the writer attached. */
    method NativeClosed()
      requires Valid()
      modifies this`isOpen, this`events
      ensures Valid()
      ensures !isOpen && events == old(events) + [OnClosed]
    {
      isOpen := false;
      events := events + [OnClosed];
    }
  }
}
