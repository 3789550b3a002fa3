/**
 * The deferred-send rule that both components' `sendMessage` follow, and what
 * it guarantees over any run of one socket: every frame handed to it is either
 * transmitted or waiting on a one-shot `open` listener, exactly once and in
 * submission order, and nothing goes out after `close()`.
 */
module Delivery {
  import opened WebSocket

  /** The frame the Start Game button sends: `JSON.stringify({type: 'START_GAME', payload: {}})`. */
  const StartGameFrame: Frame := "{\"type\":\"START_GAME\",\"payload\":{}}"

  /**
   * `sendMessage(frame)` on a held socket: send at once when the socket is
   * open, otherwise register a one-shot `open` listener that will send it.
   * (With no socket held the components return before reaching this rule.)
   */
  function SendMessage(v: SocketView, frame: Frame): (w: SocketView)
    ensures w.readyState == v.readyState && w.listening == v.listening
    ensures Settled(v) ==> Settled(w) && w.sent + w.onOpen == v.sent + v.onOpen + [frame]
    ensures v.readyState == Open ==> w.sent == v.sent + [frame]
    ensures v.readyState != Open ==> w.sent == v.sent
  {
    if v.readyState != Open then ListenForOpen(v, frame) else Transmit(v, frame)
  }

  /** What can happen to a held socket: a `sendMessage` call or one of the socket's own events. */
  datatype Event =
    | Submit(frame: Frame)
    | OpenFired
    | CloseCalled
    | CloseFired

  /** One event. The browser fires `open` only on a connecting socket; elsewhere it does nothing. */
  function Step(v: SocketView, e: Event): SocketView {
    match e
    case Submit(frame) => SendMessage(v, frame)
    case OpenFired => if v.readyState == Connecting then Opened(v) else v
    case CloseCalled => CloseRequested(v)
    case CloseFired => Disconnected(v)
  }

  /** The socket after `events`, first to last. */
  function Run(v: SocketView, events: seq<Event>): SocketView
    decreases |events|
  {
    if events == [] then v else Run(Step(v, events[0]), events[1..])
  }

  /** The frames handed to `sendMessage` in `events`, in order. */
  function Submitted(events: seq<Event>): seq<Frame>
    decreases |events|
  {
    if events == [] then []
    else if events[0].Submit? then [events[0].frame] + Submitted(events[1..])
    else Submitted(events[1..])
  }

  /** An open socket has no send still waiting for `open`. */
  predicate Settled(v: SocketView) {
    v.readyState == Open ==> v.onOpen == []
  }

  predicate ShutDown(v: SocketView) {
    v.readyState == Closing || v.readyState == Closed
  }

  // ---------------------------------------------------------------------
  // One step

  /** While connecting, a submitted frame is held back and waits for `open`. */
  lemma DeferredWhileConnecting(v: SocketView, frame: Frame)
    requires v.readyState == Connecting
    ensures SendMessage(v, frame).sent == v.sent
    ensures SendMessage(v, frame).onOpen == v.onOpen + [frame]
  {
  }

  // ---------------------------------------------------------------------
  // Whole runs

  /**
   * Conservation: on a socket with nothing waiting once open, every submitted
   * frame is, at every point, either in the sent log or waiting on a one-shot
   * listener, exactly once and in submission order.
   */
  lemma {:induction false} RunConserves(v: SocketView, events: seq<Event>)
    requires Settled(v)
    ensures Run(v, events).sent + Run(v, events).onOpen == v.sent + v.onOpen + Submitted(events)
    decreases |events|
  {
    if events != [] {
      var w := Step(v, events[0]);
      assert Settled(w);
      RunConserves(w, events[1..]);
      assert w.sent + w.onOpen == v.sent + v.onOpen + Submitted(events[..1]) by {
        assert events[..1] == [events[0]];
      }
      assert Submitted(events) == Submitted(events[..1]) + Submitted(events[1..]) by {
        assert events[..1] == [events[0]];
      }
    }
  }

  /** Once open, a socket never again has a send waiting for `open`. */
  lemma {:induction false} RunKeepsSettled(v: SocketView, events: seq<Event>)
    requires Settled(v)
    ensures Settled(Run(v, events))
    decreases |events|
  {
    if events != [] {
      RunKeepsSettled(Step(v, events[0]), events[1..]);
    }
  }

  /** Frames already sent stay sent: the log only grows at its end. */
  lemma {:induction false} RunExtendsSent(v: SocketView, events: seq<Event>)
    ensures v.sent <= Run(v, events).sent
    decreases |events|
  {
    if events != [] {
      var w := Step(v, events[0]);
      RunExtendsSent(w, events[1..]);
      assert v.sent <= w.sent;
    }
  }

  /** After `close()`, or once the connection is gone, nothing more is ever transmitted and the socket never reopens. */
  lemma {:induction false} ShutDownSendsNothing(v: SocketView, events: seq<Event>)
    requires ShutDown(v)
    ensures ShutDown(Run(v, events))
    ensures Run(v, events).sent == v.sent
    decreases |events|
  {
    if events != [] {
      ShutDownSendsNothing(Step(v, events[0]), events[1..]);
    }
  }

  predicate OnlySubmits(events: seq<Event>) {
    forall i :: 0 <= i < |events| ==> events[i].Submit?
  }

  /** Before `open` fires, nothing is transmitted: every frame submitted while connecting is queued, in order. */
  lemma {:induction false} QueuedWhileConnecting(v: SocketView, events: seq<Event>)
    requires v.readyState == Connecting && OnlySubmits(events)
    ensures Run(v, events).readyState == Connecting
    ensures Run(v, events).sent == v.sent
    ensures Run(v, events).onOpen == v.onOpen + Submitted(events)
    decreases |events|
  {
    if events != [] {
      var w := SendMessage(v, events[0].frame);
      assert OnlySubmits(events[1..]) by {
        forall i | 0 <= i < |events[1..]| ensures events[1..][i].Submit? {
          assert events[1..][i] == events[i + 1];
        }
      }
      QueuedWhileConnecting(w, events[1..]);
      assert v.onOpen + [events[0].frame] + Submitted(events[1..]) == v.onOpen + Submitted(events);
    }
  }

  /**
   * The next `open` sends every queued frame, in queue order, and leaves none
   * waiting; a later `open` (which the browser never fires) would find
   * nothing to send.
   */
  lemma FlushedOnOpen(v: SocketView, events: seq<Event>)
    requires v.readyState == Connecting && OnlySubmits(events)
    ensures var w := Run(v, events + [OpenFired]);
      w.readyState == Open && w.onOpen == [] && w.sent == v.sent + v.onOpen + Submitted(events)
    ensures Run(v, events + [OpenFired, OpenFired]) == Run(v, events + [OpenFired])
  {
    QueuedWhileConnecting(v, events);
    RunAppend(v, events, [OpenFired]);
    RunAppend(v, events, [OpenFired, OpenFired]);
    assert v.sent + (v.onOpen + Submitted(events)) == v.sent + v.onOpen + Submitted(events);
  }

  /** Running `a` and then `b` is running `a + b`. */
  lemma {:induction false} RunAppend(v: SocketView, a: seq<Event>, b: seq<Event>)
    ensures Run(v, a + b) == Run(Run(v, a), b)
    decreases |a|
  {
    if a == [] {
      assert a + b == b;
    } else {
      assert (a + b)[0] == a[0];
      assert (a + b)[1..] == a[1..] + b;
      RunAppend(Step(v, a[0]), a[1..], b);
    }
  }

  /**
   * Exactly once, in order: on a socket created by `new WebSocket`, whatever
   * happens, the frames transmitted are a prefix of the frames submitted, the
   * rest are waiting on `open`, and if the socket is open nothing is waiting,
   * so every submitted frame has been transmitted exactly once.
   */
  lemma ExactlyOnceInOrder(events: seq<Event>)
    ensures Run(Fresh, events).sent + Run(Fresh, events).onOpen == Submitted(events)
    ensures Run(Fresh, events).sent <= Submitted(events)
    ensures Run(Fresh, events).readyState == Open ==> Run(Fresh, events).sent == Submitted(events)
  {
    RunConserves(Fresh, events);
    RunKeepsSettled(Fresh, events);
  }
}
