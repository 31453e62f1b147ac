/** `GAME_ENGINES`: the engine of each game type, and the state a room stores for it. */
module Registry {
  import opened Common
  import opened GameTypes
  import TicTacToeEngine
  import ChessEngine

  /** The `gameState` column: the state of whichever engine the room plays. */
  datatype EngineState =
    | TttGame(ttt: StartState<TicTacToeEngine.Board>)
    | ChessGame(chess: StartState<ChessEngine.ChessSnapshot>)

  /** An engine's answer to a move, with the state wrapped for the room. */
  datatype MoveResult = Refused(error: string) | Moved(state: EngineState, end: Option<End>)

  function Status(s: EngineState): GameStatus {
    if s.TttGame? then s.ttt.status else s.chess.status
  }

  /** The state belongs to the room's game type (and a board has nine cells). */
  predicate Matches(g: GameType, s: EngineState) {
    match g
    case TicTacToe => s.TttGame? && |s.ttt.snapshot| == 9
    case Chess => s.ChessGame?
  }

  /** `engine.create()` for the room's game type. */
  function Create(js: ChessEngine.ChessJs, g: GameType): (s: EngineState)
    ensures Matches(g, s) && Status(s) == Active
    ensures g == TicTacToe ==> s == TttGame(TicTacToeEngine.Create())
    ensures g == Chess ==> s == ChessGame(ChessEngine.Create(js))
  {
    match g
    case TicTacToe => TttGame(TicTacToeEngine.Create())
    case Chess => ChessGame(ChessEngine.Create(js))
  }

  /** `engine.applyMove` for the room's game type. Both engines end a game
      exactly when they report an end, and never return to waiting. */
  function Apply(js: ChessEngine.ChessJs, g: GameType, s: EngineState, side: Side, move: Json)
    : (r: MoveResult)
    requires Matches(g, s)
    ensures r.Moved? ==> Matches(g, r.state)
    ensures r.Moved? ==> (r.end.Some? <==> Status(r.state) == Ended) && Status(r.state) != Waiting
    ensures r.Moved? && r.end.None? ==> Status(r.state) == Active
    ensures s.TttGame? ==> match TicTacToeEngine.ApplyMove(s.ttt, side, move)
      case Rejected(e) => r == Refused(e)
      case Applied(t, end) => r == Moved(TttGame(t), end)
    ensures s.ChessGame? ==> match ChessEngine.ApplyMove(js, s.chess, side, move)
      case Rejected(e) => r == Refused(e)
      case Applied(c, end) => r == Moved(ChessGame(c), end)
  {
    match s
    case TttGame(t) =>
      (match TicTacToeEngine.ApplyMove(t, side, move)
       case Rejected(e) => Refused(e)
       case Applied(t', end) =>
         TicTacToeEngine.MoveOutcome(t, side, move);
         Moved(TttGame(t'), end))
    case ChessGame(c) =>
      match ChessEngine.ApplyMove(js, c, side, move)
      case Rejected(e) => Refused(e)
      case Applied(c', end) => Moved(ChessGame(c'), end)
  }
}
