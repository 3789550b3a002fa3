/**
 * The part of the browser's WebSocket that the components rely on, reduced to
 * an abstract ready state, the one-shot `open` listeners registered on it, the
 * log of frames it has transmitted, and whether a `message` listener is
 * attached. The URL, the wire protocol and the server are not modelled.
 */
module WebSocket {

  /** `WebSocket.readyState`. */
  datatype ReadyState = Connecting | Open | Closing | Closed

  /** An outgoing frame: the text handed to `send`, treated as opaque. */
  type Frame = string

  /**
   * The observable value of one socket. `onOpen` holds the frames of the
   * one-shot `open` listeners still registered, in registration order; each
   * such listener sends its frame when it runs.
   */
  datatype SocketView = SocketView(
    readyState: ReadyState,
    onOpen: seq<Frame>,
    sent: seq<Frame>,
    listening: bool)

  /** A socket as `new WebSocket(url)` returns it: still connecting, with no listeners and nothing sent. */
  const Fresh: SocketView := SocketView(Connecting, [], [], false)

  /**
   * `send(frame)` on a socket past the connecting state: an open socket
   * transmits the frame; a closing or closed one discards it.
   */
  function Transmit(v: SocketView, frame: Frame): SocketView
    requires v.readyState != Connecting
  {
    if v.readyState == Open then v.(sent := v.sent + [frame]) else v
  }

  /** `addEventListener('open', () => send(frame), {once: true})`. */
  function ListenForOpen(v: SocketView, frame: Frame): SocketView {
    v.(onOpen := v.onOpen + [frame])
  }

  /**
   * The `open` event: the socket becomes open and every one-shot listener is
   * removed and run, in registration order, each sending its frame.
   */
  function Opened(v: SocketView): SocketView
    requires v.readyState == Connecting
  {
    v.(readyState := Open, onOpen := [], sent := v.sent + v.onOpen)
  }

  /**
   * `close()`: a connecting or open socket starts closing; on a closing or
   * closed one it does nothing. Listeners stay registered.
   */
  function CloseRequested(v: SocketView): SocketView {
    if v.readyState == Connecting || v.readyState == Open then v.(readyState := Closing) else v
  }

  /** The `close` event: the connection is gone, whether it was closed, refused or dropped. */
  function Disconnected(v: SocketView): SocketView {
    v.(readyState := Closed)
  }

  /** One browser socket object. */
  class Socket {
    var readyState: ReadyState
    var onOpen: seq<Frame>
    var sent: seq<Frame>
    var listening: bool

    function View(): SocketView
      reads this
    {
      SocketView(readyState, onOpen, sent, listening)
    }

    /** `new WebSocket(url)`. */
    constructor ()
      ensures View() == Fresh
    {
      readyState, onOpen, sent, listening := Connecting, [], [], false;
    }

    /** `send(frame)`; calling it while still connecting is an error the components never commit. */
    method Send(frame: Frame)
      requires readyState != Connecting
      modifies this
      ensures View() == Transmit(old(View()), frame)
    {
      if readyState == Open {
        sent := sent + [frame];
      }
    }

    method AddOpenListener(frame: Frame)
      modifies this
      ensures View() == ListenForOpen(old(View()), frame)
    {
      onOpen := onOpen + [frame];
    }

    method AddMessageListener()
      modifies this
      ensures View() == old(View()).(listening := true)
    {
      listening := true;
    }

    method RemoveMessageListener()
      modifies this
      ensures View() == old(View()).(listening := false)
    {
      listening := false;
    }

    method Close()
      modifies this
      ensures View() == CloseRequested(old(View()))
    {
      if readyState == Connecting || readyState == Open {
        readyState := Closing;
      }
    }

    /**
     * Dispatch of the `open` event. The browser fires it once, on a connecting
     * socket. Each one-shot listener is unregistered before it runs.
     */
    method OpenEvent()
      requires readyState == Connecting
      modifies this
      ensures View() == Opened(old(View()))
    {
      readyState := Open;
      while onOpen != []
        invariant readyState == Open && listening == old(listening)
        invariant sent + onOpen == old(sent) + old(onOpen)
        decreases |onOpen|
      {
        var frame := onOpen[0];
        assert onOpen == [frame] + onOpen[1..];
        onOpen := onOpen[1..];
        Send(frame);
      }
    }

    /** Dispatch of the `close` event. */
    method CloseEvent()
      modifies this
      ensures View() == Disconnected(old(View()))
    {
      readyState := Closed;
    }
  }
}
