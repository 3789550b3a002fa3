/**
 * The game session held by the Game component: the `GameState` record, its
 * initial value, and the pure reducer that `useReducer` applies to every
 * dispatched action, in dispatch order.
 */
module Session {
  import opened Optional

  /** A player's mark. */
  datatype Mark = X | O

  /** One square: 'X', 'O' or null. */
  type Cell = Option<Mark>

  /** A row of three squares (the source's `Line` tuple). */
  datatype Line = Line(left: Cell, centre: Cell, right: Cell)

  /** Three rows (the source's `Board` tuple). */
  datatype Board = Board(top: Line, middle: Line, bottom: Line)

  datatype Status = NotConnected | Connected | WaitingForOpponent | InProgress | Completed

  /** The `winner` field: 'X', 'O' or 'DRAW'. */
  datatype Winner = Won(mark: Mark) | Draw

  /**
   * The session record. The optional `currentTurn` and `winner` fields are
   * `None` when undefined; the nullable ones are `None` when null.
   */
  datatype GameState = GameState(
    status: Status,
    board: Board,
    playerSymbol: Option<Mark>,
    playerId: Option<string>,
    opponentId: Option<string>,
    gameId: Option<string>,
    currentTurn: Option<Mark>,
    winner: Option<Winner>)

  /**
   * What can reach the reducer. The two typed actions, and whatever raw
   * `event.data` the socket's message handler hands to the dispatcher: such a
   * payload carries no `type` tag that the reducer recognises.
   */
  datatype Action =
    | SetStatus(newStatus: Status)
    | SetPlayerId(newPlayerId: string)
    | Unrecognised(data: string)

  const EmptyLine: Line := Line(None, None, None)

  const InitialGameState: GameState :=
    GameState(NotConnected, Board(EmptyLine, EmptyLine, EmptyLine), None, None, None, None, None, None)

  /** The square in row `row` and column `col`, both counted from 0. */
  function CellAt(board: Board, row: nat, col: nat): Cell
    requires row < 3 && col < 3
  {
    var line := if row == 0 then board.top else if row == 1 then board.middle else board.bottom;
    if col == 0 then line.left else if col == 1 then line.centre else line.right
  }

  predicate IsEmptyBoard(board: Board) {
    forall row: nat, col: nat | row < 3 && col < 3 :: CellAt(board, row, col) == None
  }

  /** Every field except `status` and `playerId` agrees: the part no action touches. */
  predicate SameGame(s: GameState, t: GameState) {
    && s.board == t.board
    && s.playerSymbol == t.playerSymbol
    && s.opponentId == t.opponentId
    && s.gameId == t.gameId
    && s.currentTurn == t.currentTurn
    && s.winner == t.winner
  }

  /**
   * The reducer. `SET_STATUS` replaces the status, `SET_PLAYER_ID` the player
   * id, and anything else leaves the state as it was.
   */
  function Reduce(state: GameState, action: Action): (next: GameState)
    ensures SameGame(state, next)
    ensures next.status == (if action.SetStatus? then action.newStatus else state.status)
    ensures next.playerId == (if action.SetPlayerId? then Some(action.newPlayerId) else state.playerId)
    ensures action.Unrecognised? ==> next == state
  {
    match action
    case SetStatus(s) => state.(status := s)
    case SetPlayerId(p) => state.(playerId := Some(p))
    case Unrecognised(_) => state
  }

  /** The state after dispatching `actions`, first to last, starting from `state`. */
  function Replay(state: GameState, actions: seq<Action>): GameState
    decreases |actions|
  {
    if actions == [] then state else Replay(Reduce(state, actions[0]), actions[1..])
  }

  /** The status set by the last `SET_STATUS` in `actions`, if any (searched from the end). */
  function LastStatus(actions: seq<Action>): Option<Status>
    decreases |actions|
  {
    if actions == [] then None
    else if actions[|actions| - 1].SetStatus? then Some(actions[|actions| - 1].newStatus)
    else LastStatus(actions[..|actions| - 1])
  }

  /** The player id set by the last `SET_PLAYER_ID` in `actions`, if any. */
  function LastPlayerId(actions: seq<Action>): Option<string>
    decreases |actions|
  {
    if actions == [] then None
    else if actions[|actions| - 1].SetPlayerId? then Some(actions[|actions| - 1].newPlayerId)
    else LastPlayerId(actions[..|actions| - 1])
  }

  /** The typed actions of `actions`, in order: what remains when raw payloads are dropped. */
  function Recognised(actions: seq<Action>): (r: seq<Action>)
    decreases |actions|
  {
    if actions == [] then []
    else if actions[0].Unrecognised? then Recognised(actions[1..])
    else [actions[0]] + Recognised(actions[1..])
  }

  // ---------------------------------------------------------------------
  // Properties of the reducer

  lemma InitialGameStateIsBlank()
    ensures InitialGameState.status == NotConnected
    ensures IsEmptyBoard(InitialGameState.board)
    ensures InitialGameState.playerSymbol == None && InitialGameState.playerId == None
    ensures InitialGameState.opponentId == None && InitialGameState.gameId == None
    ensures InitialGameState.currentTurn == None && InitialGameState.winner == None
  {
  }

  /** Dispatching the same typed action twice is the same as dispatching it once. */
  lemma ReduceIdempotent(state: GameState, action: Action)
    ensures Reduce(Reduce(state, action), action) == Reduce(state, action)
  {
  }

  /** Setting the status and setting the player id touch different fields, so their order does not matter. */
  lemma StatusAndPlayerIdCommute(state: GameState, s: Status, p: string)
    ensures Reduce(Reduce(state, SetStatus(s)), SetPlayerId(p))
         == Reduce(Reduce(state, SetPlayerId(p)), SetStatus(s))
  {
  }

  // ---------------------------------------------------------------------
  // Properties of a whole dispatch sequence

  /** Dispatching `a` and then `b` is dispatching `a + b`. */
  lemma {:induction false} ReplayAppend(state: GameState, a: seq<Action>, b: seq<Action>)
    ensures Replay(state, a + b) == Replay(Replay(state, a), b)
    decreases |a|
  {
    if a == [] {
      assert a + b == b;
    } else {
      assert (a + b)[0] == a[0];
      assert (a + b)[1..] == a[1..] + b;
      ReplayAppend(Reduce(state, a[0]), a[1..], b);
    }
  }

  /** No sequence of actions changes the board, the symbol, the ids other than the player's, the turn or the winner. */
  lemma {:induction false} ReplayKeepsGame(state: GameState, actions: seq<Action>)
    ensures SameGame(state, Replay(state, actions))
    decreases |actions|
  {
    if actions != [] {
      ReplayKeepsGame(Reduce(state, actions[0]), actions[1..]);
    }
  }

  /** The final status is the one set by the last `SET_STATUS`, or the starting one when there is none. */
  lemma {:induction false} ReplayStatus(state: GameState, actions: seq<Action>)
    ensures Replay(state, actions).status == LastStatus(actions).GetOr(state.status)
    decreases |actions|
  {
    if actions != [] {
      var n := |actions| - 1;
      assert actions == actions[..n] + [actions[n]];
      ReplayAppend(state, actions[..n], [actions[n]]);
      ReplayStatus(state, actions[..n]);
    }
  }

  /** The final player id is the one set by the last `SET_PLAYER_ID`, or the starting one when there is none. */
  lemma {:induction false} ReplayPlayerId(state: GameState, actions: seq<Action>)
    ensures Replay(state, actions).playerId
         == if LastPlayerId(actions).Some? then LastPlayerId(actions) else state.playerId
    decreases |actions|
  {
    if actions != [] {
      var n := |actions| - 1;
      assert actions == actions[..n] + [actions[n]];
      ReplayAppend(state, actions[..n], [actions[n]]);
      ReplayPlayerId(state, actions[..n]);
    }
  }

  /** Raw message payloads dispatched in between have no effect on the outcome. */
  lemma {:induction false} ReplayIgnoresUnrecognised(state: GameState, actions: seq<Action>)
    ensures Replay(state, actions) == Replay(state, Recognised(actions))
    decreases |actions|
  {
    if actions != [] {
      ReplayIgnoresUnrecognised(Reduce(state, actions[0]), actions[1..]);
      if !actions[0].Unrecognised? {
        var r := [actions[0]] + Recognised(actions[1..]);
        assert r[0] == actions[0] && r[1..] == Recognised(actions[1..]);
      }
    }
  }

  /**
   * Every state the session can reach from its initial value has the initial
   * empty board and no symbol, opponent, game, turn or winner.
   */
  lemma ReachableStatesHaveNoGame(actions: seq<Action>)
    ensures var s := Replay(InitialGameState, actions);
      IsEmptyBoard(s.board) && s.playerSymbol == None && s.opponentId == None
      && s.gameId == None && s.currentTurn == None && s.winner == None
  {
    ReplayKeepsGame(InitialGameState, actions);
    InitialGameStateIsBlank();
  }
}
