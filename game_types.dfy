/** The engine contract shared by every game: sides, the state envelope and move results. */
module GameTypes {
  import opened Common

  datatype Side = P1 | P2

  datatype GameStatus = Waiting | Active | Ended

  datatype EndReason =
    | Checkmate | Resign | Timeout | Draw | Stalemate | InsufficientMaterial
    | ThreefoldRepetition | FiftyMoveRule | TttWin | TttDraw | Forfeit

  /** The wire name of an end reason. */
  function ReasonName(r: EndReason): string {
    match r
    case Checkmate => "checkmate"
    case Resign => "resign"
    case Timeout => "timeout"
    case Draw => "draw"
    case Stalemate => "stalemate"
    case InsufficientMaterial => "insufficient_material"
    case ThreefoldRepetition => "threefold_repetition"
    case FiftyMoveRule => "fifty_move_rule"
    case TttWin => "ttt_win"
    case TttDraw => "ttt_draw"
    case Forfeit => "forfeit"
  }

  /** End of a game: no winner side is a draw. */
  datatype End = End(winnerSide: Option<Side>, reason: EndReason)

  /** The persisted state of a game; `S` is the engine's own snapshot. */
  datatype StartState<S> = StartState(status: GameStatus, nextTurn: Side, snapshot: S)

  datatype ApplyMoveResult<S> =
    | Rejected(error: string)
    | Applied(state: StartState<S>, end: Option<End>)
}
