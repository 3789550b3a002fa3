/**
 * The Home component's connection handling: a socket reference that the
 * mount effect fills at most once and its teardown clears, and `sendMessage`
 * behind the Start Game button. The reference is `useRef`'s `current`.
 */
module HomeComponent {
  import opened WebSocket
  import Delivery

  class Home {
    var socketRef: Socket?

    /** Mounting: the reference starts empty. */
    constructor ()
      ensures socketRef == null
    {
      socketRef := null;
    }

    /**
     * The mount effect. With a socket already held it returns at once and
     * registers no teardown (`cleanup` is null). Otherwise it creates exactly
     * one socket, stores it, and returns it as the socket its teardown closes.
     */
    method Connect() returns (cleanup: Socket?)
      modifies this
      ensures old(socketRef) != null ==> socketRef == old(socketRef) && cleanup == null
      ensures old(socketRef) == null ==>
        socketRef != null && fresh(socketRef) && cleanup == socketRef && socketRef.View() == Fresh
    {
      if socketRef != null {
        return null;
      }
      var socket := new Socket();
      socketRef := socket;
      cleanup := socket;
    }

    /** The teardown returned by `Connect`: close the socket it created and empty the reference. */
    method Cleanup(socket: Socket)
      modifies this, socket
      ensures socketRef == null
      ensures socket.View() == CloseRequested(old(socket.View()))
    {
      socket.Close();
      socketRef := null;
    }

    /** `sendMessage`: nothing without a socket; otherwise the deferred-send rule on the held socket. */
    method SendMessage(message: Frame)
      modifies socketRef
      ensures socketRef == old(socketRef)
      ensures socketRef != null ==> socketRef.View() == Delivery.SendMessage(old(socketRef.View()), message)
    {
      var socket := socketRef;
      if socket == null {
        return;
      }
      if socket.readyState != Open {
        socket.AddOpenListener(message);
        return;
      }
      socket.Send(message);
    }

    /** The Start Game button: always the `START_GAME` frame. */
    method StartGame()
      modifies socketRef
      ensures socketRef == old(socketRef)
      ensures socketRef != null ==> socketRef.View() == Delivery.SendMessage(old(socketRef.View()), Delivery.StartGameFrame)
    {
      SendMessage(Delivery.StartGameFrame);
    }
  }
}
