/** A WebSocket reduced to what the relay observes of it: its ready-state and
    the frames `send` accepted, in order. */
module Sockets {

  /** The four ready-states of a WebSocket (CONNECTING, OPEN, CLOSING, CLOSED). */
  datatype ReadyState = Connecting | Open | Closing | Closed

  class Socket<F> {
    var readyState: ReadyState
    /** Every frame `send` accepted without throwing, oldest first. */
    var outbox: seq<F>
    /** How many times `close` was called on this socket. */
    var closeCalls: nat

    constructor (state: ReadyState)
      ensures readyState == state && outbox == [] && closeCalls == 0
    {
      readyState := state;
      outbox := [];
      closeCalls := 0;
    }

    /** `send(JSON.stringify(frame))`. While the socket is CONNECTING `ws`
        throws and nothing is sent; otherwise the frame joins the outbox. */
    method Send(frame: F) returns (threw: bool)
      modifies this
      ensures threw == (old(readyState) == Connecting)
      ensures outbox == old(outbox) + (if threw then [] else [frame])
      ensures readyState == old(readyState) && closeCalls == old(closeCalls)
    {
      if readyState == Connecting {
        return true;
      }
      outbox := outbox + [frame];
      threw := false;
    }

    /** `close()` on an open socket starts the closing handshake. */
    method Close()
      requires readyState == Open
      modifies this
      ensures readyState == Closing && closeCalls == old(closeCalls) + 1
      ensures outbox == old(outbox)
    {
      readyState := Closing;
      closeCalls := closeCalls + 1;
    }

    /** The transport reports the handshake as done (the 'open' event). */
    method Opened()
      requires readyState == Connecting
      modifies this
      ensures readyState == Open
      ensures outbox == old(outbox) && closeCalls == old(closeCalls)
    {
      readyState := Open;
    }

    /** The transport reports the connection as gone (the 'close' event, which
        also follows an 'error'). */
    method Terminated()
      modifies this
      ensures readyState == Closed
      ensures outbox == old(outbox) && closeCalls == old(closeCalls)
    {
      readyState := Closed;
    }
  }
}
