/**
 * The Game component: the session kept by `useReducer`, the socket reference
 * its mount effect fills at most once (announcing CONNECTED as soon as the
 * socket exists) and its teardown clears, the socket's message handler, and
 * `sendMessage` behind the Start Game button.
 */
module GameComponent {
  import opened Session
  import opened WebSocket
  import Delivery

  class Game {
    var socketRef: Socket?
    var gameState: GameState

    /** Mounting: an empty reference and the initial session. */
    constructor ()
      ensures socketRef == null && gameState == InitialGameState
    {
      socketRef := null;
      gameState := InitialGameState;
    }

    /** `useReducer`'s dispatch. */
    method Dispatch(action: Action)
      modifies this`gameState
      ensures gameState == Reduce(old(gameState), action)
    {
      gameState := Reduce(gameState, action);
    }

    /**
     * The mount effect. With a socket already held it creates nothing,
     * dispatches nothing and registers no teardown. Otherwise it creates one
     * socket, stores it, dispatches `SET_STATUS CONNECTED` while the socket is
     * still connecting, and attaches the message handler.
     */
    method Connect() returns (cleanup: Socket?)
      modifies this
      ensures old(socketRef) != null ==>
        socketRef == old(socketRef) && gameState == old(gameState) && cleanup == null
      ensures old(socketRef) == null ==>
        && socketRef != null && fresh(socketRef) && cleanup == socketRef
        && socketRef.View() == Fresh.(listening := true)
        && gameState == Reduce(old(gameState), SetStatus(Connected))
        && gameState.status == Connected
    {
      if socketRef != null {
        return null;
      }
      var socket := new Socket();
      socketRef := socket;
      Dispatch(SetStatus(Connected));
      socket.AddMessageListener();
      cleanup := socket;
    }

    /**
     * A `message` event on `socket`. The handler, while attached, dispatches
     * the raw payload; the reducer does not recognise it, so the session stays
     * as it was.
     */
    method OnMessage(socket: Socket, data: string)
      modifies this`gameState
      ensures gameState == old(gameState)
    {
      if socket.listening {
        Dispatch(Unrecognised(data));
      }
    }

    /**
     * The teardown returned by `Connect`: detach the message handler, close
     * the socket, empty the reference. The session is left as it is.
     */
    method Cleanup(socket: Socket)
      modifies this, socket
      ensures socketRef == null && gameState == old(gameState)
      ensures socket.View() == CloseRequested(old(socket.View()).(listening := false))
      ensures !socket.listening
    {
      socket.RemoveMessageListener();
      socket.Close();
      socketRef := null;
    }

    /** `sendMessage`: nothing without a socket; otherwise the deferred-send rule on the held socket. */
    method SendMessage(message: Frame)
      modifies socketRef
      ensures socketRef == old(socketRef)
      ensures socketRef != null ==> socketRef.View() == Delivery.SendMessage(old(socketRef.View()), message)
    {
      var socket := socketRef;
      if socket == null {
        return;
      }
      if socket.readyState != Open {
        socket.AddOpenListener(message);
        return;
      }
      socket.Send(message);
    }

    /** The Start Game button, shown while the status is CONNECTED: always the `START_GAME` frame. */
    method StartGame()
      modifies socketRef
      ensures socketRef == old(socketRef)
      ensures socketRef != null ==>
        socketRef.View() == Delivery.SendMessage(old(socketRef.View()), Delivery.StartGameFrame)
    {
      SendMessage(Delivery.StartGameFrame);
    }
  }

  /**
   * Mount, unmount and mount again, as a development-mode double run does:
   * the second mount finds the reference empty and creates a second, distinct
   * socket, while the first is closing with its handler detached.
   */
  method Remount() returns (first: Socket, second: Socket)
    ensures first != second
    ensures first.readyState == Closing && !first.listening
    ensures second.View() == Fresh.(listening := true)
  {
    var game := new Game();
    var c1 := game.Connect();
    first := c1;
    game.Cleanup(first);
    var c2 := game.Connect();
    second := c2;
  }
}
