/** Wire-level vocabulary of the DM-D.S.S client: regions, events, the
    subscription selection, the ticket request and response, the streaming
    URL and the JSON frames exchanged once streaming. Everything here is a
    pure value; the session that uses it lives in module Socket. */
module Protocol {

  datatype Option<+T> = None | Some(value: T)

  /** Classification and data-type identifiers are opaque strings taken from
      static catalogs (e.g. "telegram.earthquake", "VXSE53"). */
  type Classification = string
  type DataTypeCode = string

  // ---------------------------------------------------------------- regions

  /** The region selector. Several names share one prefix ("ws"); at run
      time such enum members are indistinguishable, which Prefix reflects. */
  datatype Region =
    | Any | Automatic | TokyoAndOsaka
    | Tokyo | TokyoAws001 | TokyoAws002
    | Osaka | OsakaAws003 | OsakaAws004

  /** The host prefix of the streaming endpoint for a region. */
  function Prefix(r: Region): (p: string)
    ensures p in {"ws", "ws-tokyo", "ws001", "ws002", "ws-osaka", "ws003", "ws004"}
  {
    match r
    case Any | Automatic | TokyoAndOsaka => "ws"
    case Tokyo => "ws-tokyo"
    case TokyoAws001 => "ws001"
    case TokyoAws002 => "ws002"
    case Osaka => "ws-osaka"
    case OsakaAws003 => "ws003"
    case OsakaAws004 => "ws004"
  }

  // ----------------------------------------------------------------- events

  /** The six event kinds of the event surface. */
  datatype WebSocketEvent =
    | WsFail | WsFailNoRetry | WsConnected | WsDisconnected | WsReconnecting | WsPing
  {
    /** The emitter key under which listeners are registered. */
    function Name(): (n: string)
      ensures |n| > 3 && n[..3] == "ws_"
    {
      match this
      case WsFail => "ws_fail"
      case WsFailNoRetry => "ws_fail_no_retry"
      case WsConnected => "ws_connected"
      case WsDisconnected => "ws_disconnected"
      case WsReconnecting => "ws_reconnect"
      case WsPing => "ws_ping"
    }
  }

  /** No two event kinds share an emitter key. */
  lemma EventNamesDistinct(a: WebSocketEvent, b: WebSocketEvent)
    requires a.Name() == b.Name()
    ensures a == b
  {
  }

  // ------------------------------------------------------ subscription selection

  /** What a session is subscribed to, as stored on the session object. */
  datatype Selection = Selection(
    classifications: seq<Classification>,
    dataTypes: seq<DataTypeCode>,
    includingTests: bool)

  /** The argument of Start: data types and test inclusion may be omitted. */
  datatype StartOptions = StartOptions(
    classifications: seq<Classification>,
    dataTypes: Option<seq<DataTypeCode>>,
    includeTests: Option<bool>)

  /** Start stores the classifications verbatim and defaults the omitted
      fields (`|| []`, `|| false`; an array is always truthy in JavaScript,
      so a given empty array stays empty). */
  function StoredSelection(o: StartOptions): (s: Selection)
    ensures s.classifications == o.classifications
    ensures o.dataTypes.None? ==> s.dataTypes == []
    ensures o.dataTypes.Some? ==> s.dataTypes == o.dataTypes.value
    ensures s.includingTests <==> o.includeTests == Some(true)
  {
    Selection(
      o.classifications,
      match o.dataTypes case Some(d) => d case None => [],
      match o.includeTests case Some(b) => b case None => false)
  }

  // ---------------------------------------------------------- ticket request

  /** The wire value of the request's `test` field. */
  datatype TestMode = TestNo | TestInclude {
    function Wire(): string {
      match this
      case TestNo => "no"
      case TestInclude => "include"
    }
  }

  /** The JSON body POSTed to the ticket endpoint; `types` is absent when
      the session has no data-type filter. */
  datatype RequestBody = RequestBody(
    classifications: seq<Classification>,
    types: Option<seq<DataTypeCode>>,
    appName: string,
    test: TestMode,
    formatMode: string)

  /** One POST to the ticketing endpoint. The Authorization header is not
      part of this model. */
  datatype TicketRequest = TicketRequest(url: string, body: RequestBody)

  const DefaultBaseUrl: string := "https://api.dmdata.jp"
  const TicketPath: string := "/v2/socket"

  /** Recovers the selection a request body was built from. */
  function SelectionOf(b: RequestBody): Selection {
    Selection(
      b.classifications,
      match b.types case Some(t) => t case None => [],
      b.test == TestInclude)
  }

  /** The body built from the stored selection: `types` only when the filter
      is non-empty, `test` is "include" exactly when tests are included,
      `appName` is the application name and `formatMode` is always "json".
      The selection can be read back from the body, so two selections give
      the same body only if they are equal. */
  function TicketRequestBody(s: Selection, appName: string): (b: RequestBody)
    ensures b.classifications == s.classifications
    ensures b.types.Some? <==> |s.dataTypes| > 0
    ensures b.types.Some? ==> b.types.value == s.dataTypes
    ensures b.test.Wire() == (if s.includingTests then "include" else "no")
    ensures b.appName == appName && b.formatMode == "json"
    ensures SelectionOf(b) == s
  {
    RequestBody(
      s.classifications,
      if |s.dataTypes| > 0 then Some(s.dataTypes) else None,
      appName,
      if s.includingTests then TestInclude else TestNo,
      "json")
  }

  // --------------------------------------------------------- ticket response

  /** The ticket's declared `test` field. Note the mismatch with the request:
      the request sends "include" while the response type declares
      "no" | "including". */
  datatype TicketTest = TicketNo | TicketIncluding

  /** A successful ticket response (the fields the client keeps). */
  datatype WSTicket = WSTicket(
    responseId: string,
    ticket: string,
    classifications: seq<Classification>,
    test: TicketTest,
    types: seq<DataTypeCode>,
    appName: string)

  /** What the ticket endpoint answers: status "ok" with a ticket, status
      "error" with a code and a message, or something fetchSocketTicket
      cannot read: the request itself fails, the body is not JSON, or an
      error status comes without its error object. */
  datatype TicketResponse =
    | TicketOk(t: WSTicket)
    | TicketError(code: int, message: string)
    | TicketUnreadable

  /** How fetchSocketTicket ends: with a ticket, with none, or by throwing. */
  datatype TicketOutcome = GotTicket(t: WSTicket) | NoTicket | FetchThrew

  /** The check of fetchSocketTicket: an error status yields no ticket, an
      unreadable answer throws, anything else yields the response itself. */
  function TicketOf(r: TicketResponse): (t: TicketOutcome)
    ensures t.NoTicket? <==> r.TicketError?
    ensures t.FetchThrew? <==> r.TicketUnreadable?
    ensures r.TicketOk? ==> t == GotTicket(r.t)
  {
    match r
    case TicketOk(w) => GotTicket(w)
    case TicketError(_, _) => NoTicket
    case TicketUnreadable => FetchThrew
  }

  // ----------------------------------------------------------- socket URL

  const Scheme: string := "wss://"
  const HostAndPath: string := ".api.dmdata.jp/v2/websocket?ticket="

  /** The streaming endpoint for a region and a ticket: it starts with the
      secure scheme and ends with the ticket verbatim. */
  function SocketUrl(r: Region, ticket: string): (u: string)
    ensures |u| == |Scheme| + |Prefix(r)| + |HostAndPath| + |ticket|
    ensures u[..|Scheme|] == Scheme
    ensures u[|u| - |ticket|..] == ticket
  {
    Scheme + Prefix(r) + HostAndPath + ticket
  }

  /** The index of the first '.' in s, or |s| when there is none. */
  function FirstDot(s: string): (i: nat)
    ensures i <= |s|
    ensures forall k :: 0 <= k < i ==> s[k] != '.'
    ensures i < |s| ==> s[i] == '.'
  {
    if s == [] then 0
    else if s[0] == '.' then 0
    else 1 + FirstDot(s[1..])
  }

  /** Splits a streaming URL into its region prefix and its ticket. */
  function ParseSocketUrl(u: string): Option<(string, string)> {
    if |u| < |Scheme| || u[..|Scheme|] != Scheme then None
    else
      var rest := u[|Scheme|..];
      var i := FirstDot(rest);
      var tail := rest[i..];
      if |tail| < |HostAndPath| || tail[..|HostAndPath|] != HostAndPath then None
      else Some((rest[..i], tail[|HostAndPath|..]))
  }

  /** A dot-free prefix in front of a string that starts with '.' puts the
      first dot right after the prefix. */
  lemma {:induction false} FirstDotAfterPrefix(p: string, s: string)
    requires forall k :: 0 <= k < |p| ==> p[k] != '.'
    requires s != [] && s[0] == '.'
    ensures FirstDot(p + s) == |p|
  {
    if p != [] {
      assert (p + s)[1..] == p[1..] + s;
      FirstDotAfterPrefix(p[1..], s);
    }
  }

  /** No region prefix holds a dot, so the host's first dot ends it. */
  lemma PrefixDotFree(r: Region)
    ensures forall k :: 0 <= k < |Prefix(r)| ==> Prefix(r)[k] != '.'
  {
  }

  /** Parsing the template filled with a dot-free prefix gives back the
      prefix and the ticket. */
  lemma ParseFilledTemplate(p: string, ticket: string)
    requires forall k :: 0 <= k < |p| ==> p[k] != '.'
    ensures ParseSocketUrl(Scheme + p + HostAndPath + ticket) == Some((p, ticket))
  {
    var rest := p + (HostAndPath + ticket);
    var u := Scheme + p + HostAndPath + ticket;
    assert u == Scheme + rest;
    assert u[..|Scheme|] == Scheme && u[|Scheme|..] == rest;
    FirstDotAfterPrefix(p, HostAndPath + ticket);
    assert rest[..|p|] == p;
    assert rest[|p|..] == HostAndPath + ticket;
  }

  /** The URL template loses nothing: the region prefix and the ticket are
      read back verbatim, whatever characters the ticket holds. */
  lemma SocketUrlRoundTrip(r: Region, ticket: string)
    ensures ParseSocketUrl(SocketUrl(r, ticket)) == Some((Prefix(r), ticket))
  {
    PrefixDotFree(r);
    ParseFilledTemplate(Prefix(r), ticket);
  }

  /** Two sessions connect to the same URL only if they use the same region
      prefix and the same ticket. */
  lemma SocketUrlInjective(r1: Region, t1: string, r2: Region, t2: string)
    requires SocketUrl(r1, t1) == SocketUrl(r2, t2)
    ensures Prefix(r1) == Prefix(r2) && t1 == t2
  {
    SocketUrlRoundTrip(r1, t1);
    SocketUrlRoundTrip(r2, t2);
  }

  // ----------------------------------------------------------------- frames

  /** An inbound frame after JSON parsing: its `type` and its `pingId`
      (absent when the frame carries none). Data frames and any other type
      are represented by their type string only. */
  datatype Message = Message(msgType: string, pingId: Option<string>)

  /** An outbound frame. A pong whose pingId is absent serialises without
      the key. */
  datatype OutFrame = Pong(pingId: Option<string>)
}
