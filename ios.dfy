/** The iOS binding: a connection over a socket client whose events the
    connection subscribes its five handlers to. Each native event is a method
    taking the client that raises it; a handler runs only while it is
    subscribed to that client. */
module IosConnection {
  import opened WebSocketContract
  import opened Headers

  /** The client's own view of its socket. */
  datatype ReadyState = Connecting | Open | Closing | Closed

  /** The events a socket client raises. */
  datatype ClientEvent = ReceivedMessage | ReceivedPong | WebSocketClosed | WebSocketFailed | WebSocketOpened

  /** A handler of `subscriber` attached to one of the client's events. */
  datatype Subscription = Subscription(subscriber: object, event: ClientEvent)

  /** The calls the connection issues on a client, in order. */
  datatype ClientCall =
    | Subscribe(event: ClientEvent)
    | Unsubscribe(event: ClientEvent)
    | OpenCall
    | CloseCall
    | DisposeCall
    | SendCall(text: string)
    | PingCall(payload: string)

  /** The opening request: its URL and its header fields. */
  datatype Request = Request(url: string, fields: seq<Header>)

  /** Exceptions Open may meet: building the request from the URL, or the
      client's own open call. */
  datatype OpenFault = OpenCompletes | RequestFails(description: string) | OpenFails(description: string)

  /** Exceptions Close may meet: the client's close call (made only when the
      client is open), or its dispose call. */
  datatype ShutdownFault = ShutdownCompletes | CloseThrows(description: string) | DisposeThrows(description: string)

  /** The error Open raises for its own exception, if any. */
  function OpenEvents(fault: OpenFault): (evs: seq<Event>) {
    if fault.OpenCompletes? then [] else [OnError(fault.description)]
  }

  const UnknownErrorText: string := "Unknown WebSocket Error!"

  /** The request Open builds: header fields are assigned only when a
      non-empty dictionary is given. */
  function RequestFor(url: string, headers: Option<seq<Header>>): (req: Request) {
    if headers.Some? && |headers.value| > 0 then Request(url, Assigned(headers.value)) else Request(url, [])
  }

  /** Builds the opening request, assigning every header of the dictionary in turn. */
  method BuildRequest(url: string, headers: Option<seq<Header>>) returns (req: Request)
    ensures req == RequestFor(url, headers)
    ensures req.url == url
    ensures forall name :: Lookup(req.fields, name) == if headers.Some? then Latest(headers.value, name) else None
  {
    req := Request(url, []);
    if headers.Some? && |headers.value| > 0 {
      var entries := headers.value;
      var fields: seq<Header> := [];
      for i := 0 to |entries|
        invariant fields == Assigned(entries[..i])
      {
        assert entries[..i + 1][..i] == entries[..i];
        fields := SetField(fields, entries[i].name, entries[i].value);
      }
      assert entries[..|entries|] == entries;
      req := Request(url, fields);
    }
    forall name ensures Lookup(req.fields, name) == if headers.Some? then Latest(headers.value, name) else None {
      if headers.Some? {
        AssignedKeepsLatest(headers.value, name);
      }
    }
  }

  /** The request of the auth-token overload carries the token under
      Authorization, in any letter case, and no other field; without a token
      it carries no field at all. */
  lemma AuthRequestFields(url: string, authToken: Option<string>, name: string)
    ensures authToken.None? ==> RequestFor(url, Some(AuthHeaders(authToken))).fields == []
    ensures Lookup(RequestFor(url, Some(AuthHeaders(authToken))).fields, name) ==
      if authToken.Some? && SameName(name, AuthorizationName) then Some(authToken.value) else None
  {
    var entries := AuthHeaders(authToken);
    if authToken.Some? {
      AssignedKeepsLatest(entries, name);
      DistinctLatestIsLookup(entries, name);
    }
  }

  /** The sub-protocol list the client is built with: none for a missing or
      empty protocol, otherwise exactly that protocol. */
  function ProtocolList(protocol: Option<string>): (r: seq<string>)
    ensures r == [] <==> protocol.None? || protocol.value == ""
    ensures r != [] ==> r == [protocol.value]
  {
    if protocol.None? || protocol.value == "" then [] else [protocol.value]
  }

  /** The handlers Close detaches: all but the pong handler. */
  function DetachedOnClose(owner: object): (detached: set<Subscription>) {
    {Subscription(owner, ReceivedMessage), Subscription(owner, WebSocketClosed),
     Subscription(owner, WebSocketFailed), Subscription(owner, WebSocketOpened)}
  }

  /** All five handlers Open attaches. */
  function AttachedOnOpen(owner: object): (attached: set<Subscription>) {
    DetachedOnClose(owner) + {Subscription(owner, ReceivedPong)}
  }

  /** Close runs to its end: no exception from the close call (made only on an
      open client) or from the dispose call. */
  predicate ShutdownRuns(state: ReadyState, fault: ShutdownFault) {
    !(state == ReadyState.Open && fault.CloseThrows?) && !fault.DisposeThrows?
  }

  /** The calls Close issues on an attached client, in order. */
  function CloseCalls(state: ReadyState, fault: ShutdownFault): (calls: seq<ClientCall>)
    ensures 4 <= |calls|
    ensures calls[..4] == [Unsubscribe(ReceivedMessage), Unsubscribe(WebSocketClosed),
                           Unsubscribe(WebSocketFailed), Unsubscribe(WebSocketOpened)]
    ensures forall i :: 4 <= i < |calls| ==> calls[i] == CloseCall || calls[i] == DisposeCall
    ensures forall i :: 0 <= i < |calls| ==> calls[i] != Unsubscribe(ReceivedPong)
    ensures CloseCall in calls <==> state == ReadyState.Open
    ensures ShutdownRuns(state, fault) ==> calls[|calls| - 1] == DisposeCall
  {
    UnsubscribeCalls()
    + (if state == ReadyState.Open then [CloseCall] else [])
    + (if state == ReadyState.Open && fault.CloseThrows? then [] else [DisposeCall])
  }

  /** The subscriptions Open makes on a fresh client, in order. */
  function SubscribeCalls(): (calls: seq<ClientCall>) {
    [Subscribe(ReceivedMessage), Subscribe(ReceivedPong), Subscribe(WebSocketClosed),
     Subscribe(WebSocketFailed), Subscribe(WebSocketOpened)]
  }

  /** The unsubscriptions Close makes, in order. */
  function UnsubscribeCalls(): (calls: seq<ClientCall>) {
    [Unsubscribe(ReceivedMessage), Unsubscribe(WebSocketClosed), Unsubscribe(WebSocketFailed), Unsubscribe(WebSocketOpened)]
  }

  /** The native socket client, reduced to its ready state, its subscribers
      and the calls made on it. */
  class SocketClient {
    const request: Request
    const protocols: seq<string>
    var readyState: ReadyState
    var subscriptions: set<Subscription>
    var disposed: bool
    ghost var calls: seq<ClientCall>

    constructor (request: Request, protocols: seq<string>)
      ensures this.request == request && this.protocols == protocols
      ensures readyState == Connecting && subscriptions == {} && !disposed && calls == []
    {
      this.request := request;
      this.protocols := protocols;
      readyState := Connecting;
      subscriptions := {};
      disposed := false;
      calls := [];
    }

    /** Adds the five handlers of `owner`, one event at a time. */
    method SubscribeAll(owner: object)
      modifies this`subscriptions, this`calls
      ensures subscriptions == old(subscriptions) + AttachedOnOpen(owner)
      ensures calls == old(calls) + SubscribeCalls()
    {
      subscriptions := subscriptions + {Subscription(owner, ReceivedMessage)};
      subscriptions := subscriptions + {Subscription(owner, ReceivedPong)};
      subscriptions := subscriptions + {Subscription(owner, WebSocketClosed)};
      subscriptions := subscriptions + {Subscription(owner, WebSocketFailed)};
      subscriptions := subscriptions + {Subscription(owner, WebSocketOpened)};
      calls := calls + SubscribeCalls();
    }

    /** Removes the handlers of `owner` for every event but the pong. */
    method UnsubscribeAllButPong(owner: object)
      modifies this`subscriptions, this`calls
      ensures subscriptions == old(subscriptions) - DetachedOnClose(owner)
      ensures calls == old(calls) + UnsubscribeCalls()
    {
      subscriptions := subscriptions - {Subscription(owner, ReceivedMessage)};
      subscriptions := subscriptions - {Subscription(owner, WebSocketClosed)};
      subscriptions := subscriptions - {Subscription(owner, WebSocketFailed)};
      subscriptions := subscriptions - {Subscription(owner, WebSocketOpened)};
      calls := calls + UnsubscribeCalls();
    }

    /** The client's own progress through its ready states, driven by its I/O. */
    method Transition(next: ReadyState)
      modifies this`readyState
      ensures readyState == next
    {
      readyState := next;
    }
  }

  class Connection {
    var isOpen: bool
    var client: SocketClient?
    /** Every event raised so far, in order. */
    ghost var events: seq<Event>

    /** An attached client is not disposed and still delivers pongs here. */
    ghost predicate Valid()
      reads this, client
    {
      client != null ==> !client.disposed && Subscription(this, ReceivedPong) in client.subscriptions
    }

    constructor ()
      ensures Valid()
      ensures !isOpen && client == null && events == []
    {
      isOpen, client := false, null;
      events := [];
    }

    /** Detaches the handlers, shuts the client down and releases it, raising
        closed once; with no client it does nothing. The open flag is never
        touched, and the pong handler stays subscribed. An exception from the
        shutdown is raised as an error instead of closed and keeps the client. */
    method Close(fault: ShutdownFault)
      requires Valid()
      modifies this, client
      ensures Valid()
      ensures isOpen == old(isOpen)
      ensures old(client) == null ==> client == null && events == old(events)
      ensures old(client) != null ==>
        && old(client).subscriptions == old(client.subscriptions) - DetachedOnClose(this)
        && old(client).readyState == old(client.readyState)
        && old(client).calls == old(client.calls) + CloseCalls(old(client.readyState), fault)
      ensures old(client) != null && ShutdownRuns(old(client.readyState), fault) ==>
        client == null && old(client).disposed && events == old(events) + [OnClosed]
      ensures old(client) != null && !ShutdownRuns(old(client.readyState), fault) ==>
        client == old(client) && !client.disposed && events == old(events) + [OnError(fault.description)]
    {
      if client != null {
        var c := client;
        c.UnsubscribeAllButPong(this);

        if c.readyState == ReadyState.Open {
          c.calls := c.calls + [CloseCall];
          if fault.CloseThrows? {
            events := events + [OnError(fault.description)];
            return;
          }
        }

        c.calls := c.calls + [DisposeCall];
        if fault.DisposeThrows? {
          events := events + [OnError(fault.description)];
          return;
        }
        c.disposed := true;
        client := null;
        events := events + [OnClosed];
      }
    }

    /** The auth-token overload: Open with the dictionary built from the token. */
    method OpenWithToken(url: string, protocol: Option<string>, authToken: Option<string>,
                         closeFault: ShutdownFault, openFault: OpenFault)
      requires Valid()
      modifies this, client
      ensures Valid()
      ensures isOpen == old(isOpen)
      ensures old(client) != null ==>
        && old(client).subscriptions == old(client.subscriptions) - DetachedOnClose(this)
        && old(client).readyState == old(client.readyState)
        && old(client).calls == old(client.calls) + CloseCalls(old(client.readyState), closeFault)
        && old(client).disposed == ShutdownRuns(old(client.readyState), closeFault)
      ensures openFault.RequestFails? ==>
        client == if old(client) != null && !ShutdownRuns(old(client.readyState), closeFault) then old(client) else null
      ensures events == old(events) + old(CloseEvents(client, closeFault)) + OpenEvents(openFault)
      ensures !openFault.RequestFails? ==> fresh(client) && Started(url, protocol, Some(AuthHeaders(authToken)))
    {
      Open(url, protocol, Some(AuthHeaders(authToken)), closeFault, openFault);
    }

    /** Closes an attached client, builds the request and a fresh client for
        the protocol, subscribes all five handlers and opens it. Every
        exception is raised as one error and goes no further. */
    method Open(url: string, protocol: Option<string>, headers: Option<seq<Header>>,
                closeFault: ShutdownFault, openFault: OpenFault)
      requires Valid()
      modifies this, client
      ensures Valid()
      ensures isOpen == old(isOpen)
      ensures old(client) != null ==>
        && old(client).subscriptions == old(client.subscriptions) - DetachedOnClose(this)
        && old(client).readyState == old(client.readyState)
        && old(client).calls == old(client.calls) + CloseCalls(old(client.readyState), closeFault)
        && old(client).disposed == ShutdownRuns(old(client.readyState), closeFault)
      ensures openFault.RequestFails? ==>
        client == if old(client) != null && !ShutdownRuns(old(client.readyState), closeFault) then old(client) else null
      ensures events == old(events) + old(CloseEvents(client, closeFault)) + OpenEvents(openFault)
      ensures !openFault.RequestFails? ==> fresh(client) && Started(url, protocol, headers)
    {
      if client != null {
        Close(closeFault);
      }
      Start(url, protocol, headers, openFault);
    }

    /** The events Close raises for the client attached when it starts. */
    ghost function CloseEvents(attached: SocketClient?, fault: ShutdownFault): (evs: seq<Event>)
      reads attached
    {
      if attached == null then []
      else if ShutdownRuns(attached.readyState, fault) then [OnClosed]
      else [OnError(fault.description)]
    }

    /** The client attached by Open is the fresh one for this request and
        protocol, connecting, with all five handlers subscribed and opened. */
    ghost predicate Started(url: string, protocol: Option<string>, headers: Option<seq<Header>>)
      reads this, client
    {
      && client != null
      && client.request == RequestFor(url, headers)
      && client.protocols == ProtocolList(protocol)
      && client.readyState == Connecting && !client.disposed
      && client.subscriptions == AttachedOnOpen(this)
      && client.calls == SubscribeCalls() + [OpenCall]
    }

    /** Everything Open does once an attached client has been closed. */
    method Start(url: string, protocol: Option<string>, headers: Option<seq<Header>>, openFault: OpenFault)
      requires Valid()
      modifies this
      ensures Valid()
      ensures isOpen == old(isOpen)
      ensures openFault.RequestFails? ==> client == old(client)
      ensures events == old(events) + OpenEvents(openFault)
      ensures !openFault.RequestFails? ==> fresh(client) && Started(url, protocol, headers)
    {
      if openFault.RequestFails? {
        events := events + [OnError(openFault.description)];
        return;
      }
      var req := BuildRequest(url, headers);
      var c := new SocketClient(req, ProtocolList(protocol));
      client := c;
      c.SubscribeAll(this);
      c.calls := c.calls + [OpenCall];
      if openFault.OpenFails? {
        events := events + [OnError(openFault.description)];
      }
    }

    /** Sends text on an attached client; `fault` is an exception of that call. */
    method Send(message: string, fault: Option<string>)
      requires Valid()
      modifies this`events, {client}`calls
      ensures Valid()
      ensures client == old(client)
      ensures client == null ==> events == old(events)
      ensures client != null ==> client.calls == old(client.calls) + [SendCall(message)]
      ensures client != null ==> events == old(events) + if fault.Some? then [OnError(fault.value)] else []
    {
      if client != null {
        client.calls := client.calls + [SendCall(message)];
        if fault.Some? {
          events := events + [OnError(fault.value)];
        }
      }
    }

    /** Binary data is sent as the text `render` gives for the array. */
    method SendBytes(data: seq<bv8>, render: seq<bv8> -> string, fault: Option<string>)
      requires Valid()
      modifies this`events, {client}`calls
      ensures Valid()
      ensures client == old(client)
      ensures client == null ==> events == old(events)
      ensures client != null ==> client.calls == old(client.calls) + [SendCall(render(data))]
      ensures client != null ==> events == old(events) + if fault.Some? then [OnError(fault.value)] else []
    {
      Send(render(data), fault);
    }

    /** Sends a ping carrying `message` on an attached client. */
    method SendPing(message: string, fault: Option<string>)
      requires Valid()
      modifies this`events, {client}`calls
      ensures Valid()
      ensures client == old(client)
      ensures client == null ==> events == old(events)
      ensures client != null ==> client.calls == old(client.calls) + [PingCall(message)]
      ensures client != null ==> events == old(events) + if fault.Some? then [OnError(fault.value)] else []
    {
      if client != null {
        client.calls := client.calls + [PingCall(message)];
        if fault.Some? {
          events := events + [OnError(fault.value)];
        }
      }
    }

    /** Close, then one dispose event carrying this connection. */
    method Dispose(fault: ShutdownFault)
      requires Valid()
      modifies this, client
      ensures Valid()
      ensures isOpen == old(isOpen)
      ensures old(client) == null ==> client == null && events == old(events) + [OnDispose(this)]
      ensures old(client) != null ==>
        && old(client).subscriptions == old(client.subscriptions) - DetachedOnClose(this)
        && old(client).readyState == old(client.readyState)
        && old(client).calls == old(client.calls) + CloseCalls(old(client.readyState), fault)
      ensures old(client) != null && ShutdownRuns(old(client.readyState), fault) ==>
        client == null && old(client).disposed && events == old(events) + [OnClosed, OnDispose(this)]
      ensures old(client) != null && !ShutdownRuns(old(client.readyState), fault) ==>
        client == old(client) && !client.disposed && events == old(events) + [OnError(fault.description), OnDispose(this)]
    {
      Close(fault);
      events := events + [OnDispose(this)];
    }

    /** Handler of the client's opened event. */
    method ClientWebSocketOpened(sender: SocketClient)
      requires Valid()
      modifies this`isOpen, this`events
      ensures Valid()
      ensures Subscription(this, WebSocketOpened) in sender.subscriptions ==>
        isOpen && events == old(events) + [OnOpened]
      ensures Subscription(this, WebSocketOpened) !in sender.subscriptions ==>
        isOpen == old(isOpen) && events == old(events)
    {
      if Subscription(this, WebSocketOpened) in sender.subscriptions {
        isOpen := true;
        events := events + [OnOpened];
      }
    }

    /** Handler of the client's failed event: an error with the description or
        a generic text, then closed if the connection is open. Neither the
        open flag nor the client is cleared. */
    method ClientWebSocketFailed(sender: SocketClient, description: Option<string>)
      requires Valid()
      modifies this`events
      ensures Valid()
      ensures Subscription(this, WebSocketFailed) in sender.subscriptions ==>
        events == old(events) + [OnError(description.GetOr(UnknownErrorText))] + (if isOpen then [OnClosed] else [])
      ensures Subscription(this, WebSocketFailed) !in sender.subscriptions ==> events == old(events)
    {
      if Subscription(this, WebSocketFailed) in sender.subscriptions {
        if description.Some? {
          events := events + [OnError(description.value)];
        } else {
          events := events + [OnError(UnknownErrorText)];
        }
        if isOpen {
          events := events + [OnClosed];
        }
      }
    }

    /** Handler of the client's closed event. */
    method ClientWebSocketClosed(sender: SocketClient)
      requires Valid()
      modifies this`isOpen, this`events
      ensures Valid()
      ensures Subscription(this, WebSocketClosed) in sender.subscriptions ==>
        !isOpen && events == old(events) + [OnClosed]
      ensures Subscription(this, WebSocketClosed) !in sender.subscriptions ==>
        isOpen == old(isOpen) && events == old(events)
    {
      if Subscription(this, WebSocketClosed) in sender.subscriptions {
        isOpen := false;
        events := events + [OnClosed];
      }
    }

    /** Handler of an inbound message: any present message is raised as a
        message, "pong" included. */
    method ClientReceivedMessage(sender: SocketClient, message: Option<string>)
      requires Valid()
      modifies this`events
      ensures Valid()
      ensures events == old(events) +
        if Subscription(this, ReceivedMessage) in sender.subscriptions && message.Some?
        then [OnMessage(message.value)] else []
    {
      if Subscription(this, ReceivedMessage) in sender.subscriptions && message.Some? {
        events := events + [OnMessage(message.value)];
      }
    }

    /** Handler of an inbound pong: any present payload is raised as a pong. */
    method ClientReceivedPong(sender: SocketClient, payload: Option<string>)
      requires Valid()
      modifies this`events
      ensures Valid()
      ensures events == old(events) +
        if Subscription(this, ReceivedPong) in sender.subscriptions && payload.Some?
        then [OnPong(payload.value)] else []
    {
      if Subscription(this, ReceivedPong) in sender.subscriptions && payload.Some? {
        events := events + [OnPong(payload.value)];
      }
    }
  }
}
