/** The chess wrapper around chess.js: colours, UCI parsing, the guard order of a
    move and the classification of a finished game. The rules of chess belong to
    chess.js and enter the model as the parameter `js`. */
module ChessEngine {
  import opened Common
  import opened JsString
  import opened GameTypes

  datatype Color = White | Black

  /** What the engine stores after every move. */
  datatype ChessSnapshot = ChessSnapshot(fen: string, pgn: string, turn: Color, isGameOver: bool)

  /** The argument handed to `chess.move`; `promotion` is passed on unchecked. */
  datatype MoveRequest = MoveRequest(from: string, to: string, promotion: Option<Json>)

  /** A legal move as chess.js reports it: the position after it and the
      game-over predicates of that position. */
  datatype Played = Played(
    after: ChessSnapshot,
    isCheckmate: bool,
    isStalemate: bool,
    isInsufficientMaterial: bool,
    isThreefoldRepetition: bool,
    isDraw: bool)

  /** chess.js as the engine uses it: the starting position, the colour to move
      in a FEN, and `move`, which is `None` for an illegal move (null or a throw). */
  datatype ChessJs = ChessJs(
    start: ChessSnapshot,
    turnOf: string -> Color,
    move: (string, MoveRequest) -> Option<Played>)

  type ChessState = StartState<ChessSnapshot>

  function SideToTurn(side: Side): (c: Color)
    ensures c == White <==> side == P1
  {
    if side == P1 then White else Black
  }

  function NextTurnToSide(turn: Color): (s: Side)
    ensures s == P1 <==> turn == White
  {
    if turn == White then P1 else P2
  }

  /** The two mappings are inverse bijections between sides and colours. */
  lemma TurnMappingsInverse(side: Side, turn: Color)
    ensures NextTurnToSide(SideToTurn(side)) == side
    ensures SideToTurn(NextTurnToSide(turn)) == turn
  {
  }

  /** A move in UCI long algebraic notation, split as the engine splits it. */
  datatype UciMove = UciMove(from: string, to: string, promotion: Option<char>)

  /** `parseUci`: after trimming, at least four characters; the first two are the
      origin, the next two the target and a fifth, unchecked, the promotion. */
  function ParseUci(uci: string): (r: Result<UciMove>)
    ensures r.Err? <==> |Trim(uci)| < 4
    ensures r.Err? ==> r.error == "Invalid UCI"
    ensures r.Ok? ==> var t := Trim(uci);
      && t == r.value.from + r.value.to + t[4..]
      && |r.value.from| == 2 && |r.value.to| == 2
      && (r.value.promotion.Some? <==> |t| > 4)
      && (r.value.promotion.Some? ==> r.value.promotion.value == t[4])
  {
    var t := Trim(uci);
    if |t| < 4 then Err("Invalid UCI")
    else
      var promo := t[4..if |t| < 5 then |t| else 5];
      Ok(UciMove(t[0..2], t[2..4], if promo != [] then Some(promo[0]) else None))
  }

  /** The UCI text of a move. */
  function ToUci(m: UciMove): string {
    m.from + m.to + (if m.promotion.Some? then [m.promotion.value] else [])
  }

  /** Well-formed squares: two characters, neither of them white space. */
  predicate UciSquares(m: UciMove) {
    && |m.from| == 2 && |m.to| == 2
    && !IsSpace(m.from[0])
    && (m.promotion.None? ==> !IsSpace(m.to[1]))
    && (m.promotion.Some? ==> !IsSpace(m.promotion.value))
  }

  /** Parsing the text of a move gives the move back. */
  lemma ParseUciRoundTrip(m: UciMove)
    requires UciSquares(m)
    ensures ParseUci(ToUci(m)) == Ok(m)
  {
    var s := ToUci(m);
    assert s[0] == m.from[0];
    assert s[|s| - 1] == if m.promotion.Some? then m.promotion.value else m.to[1];
    TrimIdentity(s);
    assert s[0..2] == m.from && s[2..4] == m.to;
  }

  /** With a promotion, whatever follows the fifth character is ignored. */
  lemma ParseUciIgnoresTail(m: UciMove, tail: string)
    requires UciSquares(m) && m.promotion.Some?
    requires tail == [] || !IsSpace(tail[|tail| - 1])
    ensures ParseUci(ToUci(m) + tail) == Ok(m)
  {
    var s := ToUci(m) + tail;
    assert s[0] == m.from[0];
    assert s[|s| - 1] == if tail == [] then m.promotion.value else tail[|tail| - 1];
    TrimIdentity(s);
    assert s[0..2] == m.from && s[2..4] == m.to && s[4] == m.promotion.value;
  }

  /** The request a move object makes: a string `uci` is parsed (a parse error
      makes the move illegal); otherwise string `from` and `to` are passed with
      whatever `promotion` holds; anything else requests nothing. */
  function Requested(mv: Json): (r: Option<MoveRequest>)
    ensures (match Field(mv, "uci") case Some(JStr(u)) => true case _ => false) ==>
      var u := Field(mv, "uci").value.s;
      r == (match ParseUci(u)
            case Ok(m) => Some(MoveRequest(m.from, m.to, if m.promotion.Some? then Some(JStr([m.promotion.value])) else None))
            case Err(_) => None)
    ensures r.Some? && !(match Field(mv, "uci") case Some(JStr(_)) => true case _ => false) ==>
      && Field(mv, "from") == Some(JStr(r.value.from))
      && Field(mv, "to") == Some(JStr(r.value.to))
      && r.value.promotion == Field(mv, "promotion")
  {
    match Field(mv, "uci")
    case Some(JStr(u)) =>
      (match ParseUci(u)
       case Ok(m) => Some(MoveRequest(m.from, m.to, if m.promotion.Some? then Some(JStr([m.promotion.value])) else None))
       case Err(_) => None)
    case _ =>
      match (Field(mv, "from"), Field(mv, "to"))
      case (Some(JStr(f)), Some(JStr(t))) => Some(MoveRequest(f, t, Field(mv, "promotion")))
      case _ => None
  }

  /** How a finished game ended, in the order the engine asks chess.js. */
  function Classify(side: Side, p: Played): (e: End)
    ensures e.winnerSide.Some? <==> p.isCheckmate
    ensures e.winnerSide.Some? ==> e.winnerSide.value == side && e.reason == Checkmate
    ensures !p.isCheckmate && p.isStalemate ==> e.reason == Stalemate
    ensures !p.isCheckmate && !p.isStalemate && p.isInsufficientMaterial ==> e.reason == InsufficientMaterial
    ensures !p.isCheckmate && !p.isStalemate && !p.isInsufficientMaterial && p.isThreefoldRepetition
      ==> e.reason == ThreefoldRepetition
    ensures !p.isCheckmate && !p.isStalemate && !p.isInsufficientMaterial && !p.isThreefoldRepetition
      ==> e.reason == Draw
  {
    if p.isCheckmate then End(Some(side), Checkmate)
    else if p.isStalemate then End(None, Stalemate)
    else if p.isInsufficientMaterial then End(None, InsufficientMaterial)
    else if p.isThreefoldRepetition then End(None, ThreefoldRepetition)
    else if p.isDraw then End(None, Draw)
    else End(None, Draw)
  }

  function Create(js: ChessJs): (s: ChessState)
    ensures s.status == Active && s.nextTurn == P1 && s.snapshot == js.start
  {
    StartState(Active, P1, js.start)
  }

  /** The move is accepted: the game runs, the mover's colour is to move in the
      stored position, and the move object requests a move chess.js plays. */
  predicate Legal(js: ChessJs, state: ChessState, side: Side, move: Json) {
    && state.status == Active
    && js.turnOf(state.snapshot.fen) == SideToTurn(side)
    && IsObject(move)
    && Requested(move).Some?
    && js.move(state.snapshot.fen, Requested(move).value).Some?
  }

  function ApplyMove(js: ChessJs, state: ChessState, side: Side, move: Json): (r: ApplyMoveResult<ChessSnapshot>)
    ensures r.Applied? <==> Legal(js, state, side, move)
    ensures state.status != Active ==> r == Rejected("Game is not active")
    ensures state.status == Active && js.turnOf(state.snapshot.fen) != SideToTurn(side)
      ==> r == Rejected("Not your turn")
    ensures state.status == Active && js.turnOf(state.snapshot.fen) == SideToTurn(side) && !IsObject(move)
      ==> r == Rejected("Invalid move")
    ensures (state.status == Active && js.turnOf(state.snapshot.fen) == SideToTurn(side) && IsObject(move)
      && !Legal(js, state, side, move)) ==> r == Rejected("Illegal move")
    ensures r.Applied? ==>
      var p := js.move(state.snapshot.fen, Requested(move).value).value;
      && r.state.snapshot == p.after
      && (!p.after.isGameOver ==> r.state.status == Active && r.state.nextTurn == NextTurnToSide(p.after.turn) && r.end.None?)
      && (p.after.isGameOver ==> r.state.status == Ended && r.state.nextTurn == state.nextTurn && r.end == Some(Classify(side, p)))
  {
    if state.status != Active then Rejected("Game is not active")
    else if js.turnOf(state.snapshot.fen) != SideToTurn(side) then Rejected("Not your turn")
    else if !IsObject(move) then Rejected("Invalid move")
    else match Requested(move)
      case None => Rejected("Illegal move")
      case Some(req) =>
        match js.move(state.snapshot.fen, req)
        case None => Rejected("Illegal move")
        case Some(p) =>
          var over := p.after.isGameOver;
          var next := StartState(
            if over then Ended else Active,
            if over then state.nextTurn else NextTurnToSide(p.after.turn),
            p.after);
          if !over then Applied(next, None) else Applied(next, Some(Classify(side, p)))
  }

  /** Only a checkmate names a winner, and then it is the side that moved. */
  lemma OnlyCheckmateWins(js: ChessJs, state: ChessState, side: Side, move: Json)
    requires Legal(js, state, side, move)
    ensures var r := ApplyMove(js, state, side, move);
      r.end.Some? && r.end.value.winnerSide.Some? ==>
        r.end.value.winnerSide == Some(side) && r.end.value.reason == Checkmate
  {
  }

  /** A running game after an accepted move has the side of the colour to move next. */
  lemma RunningGameTurn(js: ChessJs, state: ChessState, side: Side, move: Json)
    requires Legal(js, state, side, move)
    ensures var r := ApplyMove(js, state, side, move);
      r.state.status == Active ==>
        SideToTurn(r.state.nextTurn) == r.state.snapshot.turn && r.end.None?
  {
  }
}
