/** The streaming transport, reduced to what the session manager touches:
    a connection object with a readiness state, close() and send(). The
    states and their order follow the WebSocket readyState constants. */
module Transport {
  import opened Protocol

  datatype ReadyState = Connecting | Open | Closing | Closed {
    /** The numeric readyState constant (CONNECTING = 0 ... CLOSED = 3). */
    function Code(): nat {
      match this
      case Connecting => 0
      case Open => 1
      case Closing => 2
      case Closed => 3
    }
  }

  /** The state a connection is in after the transport reports `observed`:
      readiness never goes back, so an earlier state is ignored. */
  function Settled(current: ReadyState, observed: ReadyState): (s: ReadyState)
    ensures s.Code() >= current.Code() && s.Code() >= observed.Code()
    ensures s == current || s == observed
  {
    if observed.Code() > current.Code() then observed else current
  }

  /** The abstract value of one connection: the URL it was opened with, its
      readiness and every frame send() accepted for transmission, in order. */
  datatype Link = Link(url: string, state: ReadyState, sent: seq<OutFrame>)

  /** close(): a connection still connecting or open starts closing; one
      already closing or closed is left alone. Frames and URL are kept. */
  function CloseLink(l: Link): (r: Link)
    ensures r.url == l.url && r.sent == l.sent
    ensures r.state != Connecting && r.state != Open
    ensures l.state.Code() >= Closing.Code() ==> r == l
  {
    if l.state == Connecting || l.state == Open then l.(state := Closing) else l
  }

  /** send() on a connection that has left CONNECTING: an open connection
      transmits the frame; a closing or closed one silently discards it.
      (On a CONNECTING connection send() throws; see WebSocket.Send.) */
  function SendLink(l: Link, f: OutFrame): (r: Link)
    requires l.state != Connecting
    ensures r.url == l.url && r.state == l.state
    ensures l.state == Open ==> r.sent == l.sent + [f]
    ensures l.state != Open ==> r.sent == l.sent
  {
    if l.state == Open then l.(sent := l.sent + [f]) else l
  }

  /** A connection object. `sent` is the log of transmitted frames. */
  class WebSocket {
    const url: string
    var readyState: ReadyState
    var sent: seq<OutFrame>

    function Value(): Link
      reads this
    {
      Link(url, readyState, sent)
    }

    /** A new connection is always CONNECTING and has sent nothing. */
    constructor (url: string)
      ensures Value() == Link(url, Connecting, [])
    {
      this.url := url;
      readyState := Connecting;
      sent := [];
    }

    method Close()
      modifies this
      ensures Value() == CloseLink(old(Value()))
    {
      if readyState == Connecting || readyState == Open {
        readyState := Closing;
      }
    }

    /** send(): throws an InvalidStateError while CONNECTING and changes
        nothing; otherwise behaves as SendLink. */
    method Send(f: OutFrame) returns (threw: bool)
      modifies this
      ensures threw <==> old(readyState) == Connecting
      ensures threw ==> Value() == old(Value())
      ensures !threw ==> Value() == SendLink(old(Value()), f)
    {
      threw := readyState == Connecting;
      if readyState == Open {
        sent := sent + [f];
      }
    }

    /** The transport's own progress, as seen between two polls. */
    method Settle(observed: ReadyState)
      modifies this
      ensures Value() == old(Value()).(state := Settled(old(readyState), observed))
    {
      readyState := Settled(readyState, observed);
    }
  }
}
