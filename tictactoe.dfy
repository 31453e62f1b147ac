/** The tic-tac-toe rules: a 3x3 board of nine cells, p1 plays X, p2 plays O. */
module TicTacToeEngine {
  import opened Common
  import opened GameTypes

  datatype Cell = Empty | X | O

  /** Cells 0..8, row by row. */
  type Board = seq<Cell>

  type TttState = StartState<Board>

  function MarkForSide(side: Side): (m: Cell)
    ensures m != Empty
    ensures m == X <==> side == P1
  {
    if side == P1 then X else O
  }

  function OtherSide(side: Side): (s: Side)
    ensures s != side
  {
    if side == P1 then P2 else P1
  }

  /** The side that plays a mark: the inverse of MarkForSide. */
  function SideOfMark(m: Cell): Side
    requires m != Empty
  {
    if m == X then P1 else P2
  }

  lemma SideOfMarkInverts(side: Side)
    ensures SideOfMark(MarkForSide(side)) == side
  {
  }

  /** The k-th of the eight lines in the order the engine scans them:
      the three rows, the three columns, the two diagonals. */
  function Line(k: nat): (l: (nat, nat, nat))
    requires k < 8
    ensures l.0 < 9 && l.1 < 9 && l.2 < 9
    ensures l.0 != l.1 && l.1 != l.2 && l.0 != l.2
  {
    if k == 0 then (0, 1, 2)
    else if k == 1 then (3, 4, 5)
    else if k == 2 then (6, 7, 8)
    else if k == 3 then (0, 3, 6)
    else if k == 4 then (1, 4, 7)
    else if k == 5 then (2, 5, 8)
    else if k == 6 then (0, 4, 8)
    else (2, 4, 6)
  }

  /** Line k holds three copies of the mark m. */
  predicate LineHolds(board: Board, k: nat, m: Cell)
    requires |board| == 9 && k < 8
  {
    var l := Line(k);
    m != Empty && board[l.0] == m && board[l.1] == m && board[l.2] == m
  }

  /** The scan of `winner` from line i on: the mark of the first complete line. */
  function WinnerFrom(board: Board, i: nat): (w: Cell)
    requires |board| == 9 && i <= 8
    ensures w != Empty ==> exists k :: i <= k < 8 && LineHolds(board, k, w)
    ensures w == Empty ==> forall k, m :: i <= k < 8 ==> !LineHolds(board, k, m)
    decreases 8 - i
  {
    if i == 8 then Empty
    else
      var l := Line(i);
      var v := board[l.0];
      if v != Empty && v == board[l.1] && v == board[l.2] then
        assert LineHolds(board, i, v);
        v
      else
        WinnerFrom(board, i + 1)
  }

  /** `winner`: some mark exactly when one of the eight lines is complete. */
  function Winner(board: Board): (w: Cell)
    requires |board| == 9
    ensures w != Empty ==> exists k :: 0 <= k < 8 && LineHolds(board, k, w)
    ensures w == Empty ==> forall k, m :: 0 <= k < 8 ==> !LineHolds(board, k, m)
  {
    WinnerFrom(board, 0)
  }

  /** `winner` as the engine runs it: the scan of the lines with an early return. */
  method WinnerScan(board: Board) returns (w: Cell)
    requires |board| == 9
    ensures w == Winner(board)
  {
    var k := 0;
    while k < 8
      invariant 0 <= k <= 8
      invariant WinnerFrom(board, k) == WinnerFrom(board, 0)
    {
      var l := Line(k);
      var v := board[l.0];
      if v != Empty && v == board[l.1] && v == board[l.2] {
        return v;
      }
      k := k + 1;
    }
    return Empty;
  }

  predicate Full(board: Board) {
    forall i :: 0 <= i < |board| ==> board[i] != Empty
  }

  /** Number of cells holding m. */
  function Count(board: Board, m: Cell): (n: nat)
    ensures n <= |board|
  {
    if board == [] then 0 else (if board[0] == m then 1 else 0) + Count(board[1..], m)
  }

  function Create(): (s: TttState)
    ensures s.status == Active && s.nextTurn == P1
    ensures |s.snapshot| == 9 && forall i :: 0 <= i < 9 ==> s.snapshot[i] == Empty
  {
    StartState(Active, P1, seq(9, _ => Empty))
  }

  /** The cell a move names: an object whose `index` is an integral number. */
  function MoveIndex(move: Json): Option<int> {
    match Field(move, "index")
    case Some(JNum(n)) => if n == n.Floor as real then Some(n.Floor) else None
    case _ => None
  }

  /** The move is accepted: the game runs, it is the mover's turn and the
      move names an empty cell 0..8. */
  predicate Legal(state: TttState, side: Side, move: Json)
    requires |state.snapshot| == 9
  {
    && state.status == Active
    && state.nextTurn == side
    && IsObject(move)
    && MoveIndex(move).Some?
    && 0 <= MoveIndex(move).value <= 8
    && state.snapshot[MoveIndex(move).value] == Empty
  }

  function ApplyMove(state: TttState, side: Side, move: Json): (r: ApplyMoveResult<Board>)
    requires |state.snapshot| == 9
    ensures r.Applied? <==> Legal(state, side, move)
    ensures state.status != Active ==> r == Rejected("Game is not active")
    ensures state.status == Active && state.nextTurn != side ==> r == Rejected("Not your turn")
    ensures state.status == Active && state.nextTurn == side && (!IsObject(move) || MoveIndex(move).None?)
      ==> r == Rejected("Invalid move")
    ensures state.status == Active && state.nextTurn == side && IsObject(move) && MoveIndex(move).Some?
      ==> var i := MoveIndex(move).value;
          && (!(0 <= i <= 8) ==> r == Rejected("Invalid cell"))
          && (0 <= i <= 8 && state.snapshot[i] != Empty ==> r == Rejected("Cell already taken"))
    ensures r.Applied? ==> r.state.snapshot == state.snapshot[MoveIndex(move).value := MarkForSide(side)]
  {
    if state.status != Active then Rejected("Game is not active")
    else if state.nextTurn != side then Rejected("Not your turn")
    else if !IsObject(move) then Rejected("Invalid move")
    else match MoveIndex(move)
      case None => Rejected("Invalid move")
      case Some(i) =>
        if i < 0 || i > 8 then Rejected("Invalid cell")
        else
          var board := state.snapshot;
          if board[i] != Empty then Rejected("Cell already taken")
          else
            var board := board[i := MarkForSide(side)];
            var w := Winner(board);
            var isDraw := w == Empty && Full(board);
            var next := StartState(
              if w != Empty || isDraw then Ended else Active,
              if w != Empty || isDraw then state.nextTurn else OtherSide(side),
              board);
            if w != Empty then Applied(next, Some(End(Some(if w == X then P1 else P2), TttWin)))
            else if isDraw then Applied(next, Some(End(None, TttDraw)))
            else Applied(next, None)
  }

  /** How an accepted move ends or continues the game: a complete line wins for
      the mark's side, a full board without one is a draw, otherwise the game
      goes on with the other side to move; a finished game keeps its nextTurn. */
  lemma MoveOutcome(state: TttState, side: Side, move: Json)
    requires |state.snapshot| == 9 && Legal(state, side, move)
    ensures var r := ApplyMove(state, side, move);
      var b := r.state.snapshot;
      && (r.end.Some? <==> r.state.status == Ended)
      && (r.end.None? ==> r.state.status == Active && r.state.nextTurn == OtherSide(side))
      && (r.end.Some? ==> r.state.nextTurn == state.nextTurn)
      && (Winner(b) != Empty ==> r.end == Some(End(Some(SideOfMark(Winner(b))), TttWin)))
      && (Winner(b) == Empty && Full(b) ==> r.end == Some(End(None, TttDraw)))
      && (Winner(b) == Empty && !Full(b) ==> r.end.None?)
  {
  }

  /** The states the engine can reach from Create: a running game has no
      complete line and a free cell, the marks alternate starting with X, and
      p1 is to move exactly when both sides have placed equally many marks. */
  ghost predicate Consistent(s: TttState) {
    && |s.snapshot| == 9
    && s.status != Waiting
    && var x, o := Count(s.snapshot, X), Count(s.snapshot, O);
    && (x == o || x == o + 1)
    && (s.status == Active ==> Winner(s.snapshot) == Empty && !Full(s.snapshot))
    && (s.status == Active ==> (s.nextTurn == P1 <==> x == o))
  }

  lemma {:induction false} CountEmptyBoard(n: nat)
    ensures Count(seq(n, _ => Empty), X) == 0 && Count(seq(n, _ => Empty), O) == 0
  {
    if n > 0 {
      assert seq(n, _ => Empty)[1..] == seq(n - 1, _ => Empty);
      CountEmptyBoard(n - 1);
    }
  }

  lemma CreateConsistent()
    ensures Consistent(Create())
  {
    CountEmptyBoard(9);
    assert Create().snapshot[0] == Empty;
  }

  /** Writing m into an empty cell adds one m and leaves every other count alone. */
  lemma {:induction false} CountAfterWrite(b: Board, i: nat, m: Cell, c: Cell)
    requires i < |b| && b[i] == Empty && m != Empty
    ensures Count(b[i := m], c) == Count(b, c) + (if c == m then 1 else 0) - (if c == Empty then 1 else 0)
  {
    if i > 0 {
      assert b[i := m][1..] == b[1..][i - 1 := m];
      CountAfterWrite(b[1..], i - 1, m, c);
    } else {
      assert b[i := m][1..] == b[1..];
    }
  }

  /** A complete line after a move from a running game carries the mover's mark. */
  lemma OnlyMoverCompletesLine(b: Board, i: nat, m: Cell, k: nat, c: Cell)
    requires |b| == 9 && i < 9 && k < 8 && m != Empty
    requires forall j, d :: 0 <= j < 8 ==> !LineHolds(b, j, d)
    requires LineHolds(b[i := m], k, c)
    ensures c == m
  {
    var l := Line(k);
    assert !LineHolds(b, k, c);
    assert i == l.0 || i == l.1 || i == l.2;
  }

  /** In a reachable game only the mover can win. */
  lemma WinIsMover(state: TttState, side: Side, move: Json)
    requires Consistent(state) && Legal(state, side, move)
    ensures var r := ApplyMove(state, side, move);
      r.end.Some? && r.end.value.winnerSide.Some? ==> r.end.value.winnerSide == Some(side)
  {
    var r := ApplyMove(state, side, move);
    var b := state.snapshot;
    var i := MoveIndex(move).value;
    var b' := b[i := MarkForSide(side)];
    var w := Winner(b');
    if w != Empty {
      var k :| 0 <= k < 8 && LineHolds(b', k, w);
      OnlyMoverCompletesLine(b, i, MarkForSide(side), k, w);
    }
  }

  /** Accepted moves keep a reachable game reachable. */
  lemma ApplyKeepsConsistent(state: TttState, side: Side, move: Json)
    requires Consistent(state) && Legal(state, side, move)
    ensures Consistent(ApplyMove(state, side, move).state)
  {
    var b := state.snapshot;
    var i := MoveIndex(move).value;
    var m := MarkForSide(side);
    CountAfterWrite(b, i, m, X);
    CountAfterWrite(b, i, m, O);
  }

  /** The board X X _ / O O _ / _ _ _ with p1 playing cell 2 ends in a win for p1. */
  lemma ExampleRowWin()
    ensures ApplyMove(
      StartState(Active, P1, [X, X, Empty, O, O, Empty, Empty, Empty, Empty]),
      P1, JObj(map["index" := JNum(2.0)]))
      == Applied(
        StartState(Ended, P1, [X, X, X, O, O, Empty, Empty, Empty, Empty]),
        Some(End(Some(P1), TttWin)))
  {
    var b' := [X, X, X, O, O, Empty, Empty, Empty, Empty];
    assert LineHolds(b', 0, X);
    assert [X, X, Empty, O, O, Empty, Empty, Empty, Empty][2 := X] == b';
  }
}
