/** The session manager object: its flags, stored selection, current
    connection, event log and ticket requests are fields that its methods
    update in place. Each method is proved to move the abstract state
    (View) exactly as the matching function of module Session says. */
module Socket {
  import opened Protocol
  import opened Transport
  import opened Session

  /** The configuration passed to the constructor. */
  datatype SocketConfig = SocketConfig(region: Region, applicationName: string, debugLogging: bool)

  /** The configuration used when none is given. */
  const DefaultConfig: SocketConfig := SocketConfig(Automatic, "dmd2 application", false)

  /** The ticket endpoint's base: the override when it is a non-empty
      string (an empty string is falsy), the public endpoint otherwise. */
  function BaseUrl(urlOverride: Option<string>): (u: string)
    ensures urlOverride.Some? && urlOverride.value != "" ==> u == urlOverride.value
    ensures urlOverride.None? || urlOverride.value == "" ==> u == DefaultBaseUrl
  {
    match urlOverride
    case Some(o) => if o != "" then o else DefaultBaseUrl
    case None => DefaultBaseUrl
  }

  class DMDataSocket {
    const appName: string
    const region: Region
    const baseUrl: string
    var isConnecting: bool
    var isConnected: bool
    var classifications: seq<Classification>
    var dataTypes: seq<DataTypeCode>
    var includingTests: bool
    /** The current connection; null until Start creates the first one. */
    var socket: WebSocket?
    /** Every emitted event, in order, with the flags at emission time. */
    var events: seq<Emission>
    /** Every ticket request sent, in order. */
    var requests: seq<TicketRequest>

    function View(): State
      reads this, socket
    {
      State(
        Config(region, appName, baseUrl),
        isConnecting, isConnected,
        Selection(classifications, dataTypes, includingTests),
        events,
        if socket == null then None else Some(socket.Value()),
        requests)
    }

    /** The object form of Consistent: a flag is set only once a socket
        exists. Every method keeps it; none needs it, because each that
        touches the socket requires it outright. */
    ghost predicate Valid()
      reads this, socket
    {
      Consistent(View())
    }

    /** A new manager is idle: no flags, no selection, no connection, no
        events and no requests. */
    constructor (config: SocketConfig, urlOverride: Option<string>)
      ensures Valid()
      ensures View() == State(
        Config(config.region, config.applicationName, BaseUrl(urlOverride)),
        false, false, Selection([], [], false), [], None, [])
    {
      appName := config.applicationName;
      region := config.region;
      baseUrl := BaseUrl(urlOverride);
      isConnecting, isConnected := false, false;
      classifications, dataTypes, includingTests := [], [], false;
      socket := null;
      events, requests := [], [];
    }

    /** The constructor called without a configuration. The defaults are
        defined once, by DefaultConfig (automatic region, application name
        "dmd2 application"); this constructor takes its fields from there. */
    constructor Default(urlOverride: Option<string>)
      ensures Valid()
      ensures View() == State(
        Config(Automatic, "dmd2 application", BaseUrl(urlOverride)),
        false, false, Selection([], [], false), [], None, [])
    {
      appName := DefaultConfig.applicationName;
      region := DefaultConfig.region;
      baseUrl := BaseUrl(urlOverride);
      isConnecting, isConnected := false, false;
      classifications, dataTypes, includingTests := [], [], false;
      socket := null;
      events, requests := [], [];
    }

    /** emit: the event goes to the log with the current flags. */
    method Emit(e: WebSocketEvent)
      modifies this`events
      ensures events == old(events) + [Emission(e, isConnecting, isConnected)]
    {
      events := events + [Emission(e, isConnecting, isConnected)];
    }

    /** fetchSocketTicket: sends the request built from the stored selection
        and returns the ticket unless the answer has an error status; an
        unreadable answer makes it throw. */
    method FetchSocketTicket(response: TicketResponse) returns (t: TicketOutcome)
      modifies this`requests
      ensures requests == old(requests) + [RequestFor(View().config, View().selection)]
      ensures t == TicketOf(response)
    {
      var body := TicketRequestBody(Selection(classifications, dataTypes, includingTests), appName);
      requests := requests + [TicketRequest(baseUrl + TicketPath, body)];
      match response
      case TicketError(_, _) => t := NoTicket;
      case TicketUnreadable => t := FetchThrew;
      case TicketOk(w) => t := GotTicket(w);
    }

    /** The error callback installed on the connection. It always acts on
        the current connection. */
    method OnError()
      requires socket != null
      modifies this, socket
      ensures socket == old(socket) && Valid()
      ensures View() == OnErrorSpec(old(View()))
    {
      if !isConnecting && !isConnected {
        return;
      }
      isConnecting := false;
      socket.Close();
      Emit(WsFailNoRetry);
    }

    /** The transport dispatching n error events in a row to the current
        connection's error callback. */
    method DispatchErrors(n: nat)
      requires socket != null
      modifies this, socket
      ensures socket == old(socket) && Valid()
      ensures View() == Handled(old(View()), n)
    {
      var j := 0;
      while j < n
        invariant 0 <= j <= n && socket == old(socket)
        invariant View() == Handled(old(View()), j)
      {
        OnError();
        j := j + 1;
      }
    }

    /** The handshake wait: one poll per one-second sleep while the
        connection is CONNECTING; the error callback may run during a sleep.
        It ends when the connection leaves CONNECTING or the polls run out. */
    method AwaitHandshake(steps: seq<PollStep>)
      requires socket != null && (isConnecting || socket.readyState != Connecting)
      modifies this, socket
      ensures socket == old(socket) && Valid()
      ensures View() == Wait(old(View()), steps)
    {
      ghost var before := View();
      var i := 0;
      while socket.readyState == Connecting && i < |steps|
        invariant 0 <= i <= |steps|
        invariant socket == old(socket)
        invariant isConnecting || socket.readyState != Connecting
        invariant Wait(View(), steps[i..]) == Wait(before, steps)
      {
        var step := steps[i];
        assert steps[i..][1..] == steps[i + 1..];
        DispatchErrors(step.errors);
        socket.Settle(step.observed);
        i := i + 1;
      }
    }

    /** Start: stores the selection, fetches a ticket and, given one,
        connects. */
    method Start(o: StartOptions, response: TicketResponse, env: Env) returns (outcome: Outcome)
      modifies this
      ensures socket == old(socket) || fresh(socket)
      ensures !response.TicketOk? || !env.urlAccepted ==> socket == old(socket)
      // The previous connection is neither closed nor otherwise touched.
      ensures old(socket) != null ==> unchanged(old(socket))
      ensures (View(), outcome) == StartSpec(old(View()), o, response, env)
      ensures old(Valid()) ==> Valid()
    {
      var sel := StoredSelection(o);
      classifications, dataTypes, includingTests := sel.classifications, sel.dataTypes, sel.includingTests;

      var t := FetchSocketTicket(response);
      match t
      case NoTicket => return Returned(false);
      case FetchThrew => return Rejected;
      case GotTicket(w) => outcome := Connect(w.ticket, env);
    }

    /** The try block of Start. */
    method Connect(ticket: string, env: Env) returns (outcome: Outcome)
      modifies this
      ensures socket == old(socket) || fresh(socket)
      ensures !env.urlAccepted ==> socket == old(socket)
      ensures old(socket) != null ==> unchanged(old(socket))
      ensures (View(), outcome) == ConnectSpec(old(View()), ticket, env)
      ensures Valid()
    {
      if !env.urlAccepted {
        // The connection constructor throws before anything is assigned.
        isConnecting, isConnected := false, false;
        Emit(WsFailNoRetry);
        return Returned(false);
      }

      var ws := new WebSocket(SocketUrl(region, ticket));
      socket := ws;
      isConnecting := true;
      ghost var created := View();

      AwaitHandshake(env.steps);
      ghost var waited := View();
      assert waited == Wait(created, env.steps);
      outcome := Report(env.connectedListenerThrows);
    }

    /** The branches after the wait. */
    method Report(listenerThrows: bool) returns (outcome: Outcome)
      requires socket != null
      modifies this
      ensures socket == old(socket)
      ensures (View(), outcome) == ReportSpec(old(View()), listenerThrows)
    {
      if socket.readyState == Connecting {
        return Suspended;
      }
      if socket.readyState == Open {
        Emit(WsConnected);
        if listenerThrows {
          // A listener throwing inside emit lands in the catch block.
          isConnecting, isConnected := false, false;
          Emit(WsFailNoRetry);
          return Returned(false);
        }
        isConnected := true;
        isConnecting := false;
        return Returned(true);
      }
      Emit(WsFailNoRetry);
      isConnecting, isConnected := false, false;
      return Returned(false);
    }

    /** The message callback: answer a ping on the current connection.
        When send() throws, the exception leaves the callback before the
        probe event is emitted. */
    method HandleFrame(m: Message)
      requires socket != null
      modifies this`events, socket
      ensures Valid()
      ensures View() == HandleFrameSpec(old(View()), m)
    {
      if m.msgType == "ping" {
        var threw := socket.Send(Pong(m.pingId));
        if threw {
          return;
        }
        Emit(WsPing);
      }
    }
  }
}
