/** The client's reading of a FEN string: the piece-placement field of
    Forsyth-Edwards Notation (section 16.1.3.1 of the PGN Standard) expanded to
    64 squares, a8 first and h1 last, and the names of those squares. */
module ChessBoard {
  import opened Common
  import opened JsString

  /** A square holds the character of a piece, or nothing. */
  type Square = Option<char>

  /** `/\d/`: the ASCII digits. */
  predicate IsDigit(c: char) {
    '0' <= c <= '9'
  }

  function DigitValue(c: char): (n: nat)
    requires IsDigit(c)
    ensures n <= 9
  {
    c as int - '0' as int
  }

  /** One character of a rank: a digit n is n empty squares, anything else one
      square holding that character. */
  function ExpandChar(c: char): (cells: seq<Square>)
    ensures IsDigit(c) ==> |cells| == DigitValue(c) && forall i :: 0 <= i < |cells| ==> cells[i] == None
    ensures !IsDigit(c) ==> cells == [Some(c)]
  {
    if IsDigit(c) then Empties(DigitValue(c)) else [Some(c)]
  }

  /** n empty squares. */
  function Empties(n: nat): (cells: seq<Square>)
    ensures |cells| == n && forall i :: 0 <= i < n ==> cells[i] == None
  {
    if n == 0 then [] else Empties(n - 1) + [None]
  }

  function ExpandRow(row: string): seq<Square> {
    if row == [] then [] else ExpandRow(row[..|row| - 1]) + ExpandChar(row[|row| - 1])
  }

  function ExpandRows(rows: seq<string>): seq<Square> {
    if rows == [] then [] else ExpandRows(rows[..|rows| - 1]) + ExpandRow(rows[|rows| - 1])
  }

  /** `fen.split(' ')[0]`: the text before the first space. */
  function Placement(fen: string): string {
    Split(fen, ' ')[0]
  }

  function Expansion(fen: string): seq<Square> {
    ExpandRows(Split(Placement(fen), '/'))
  }

  /** The board the client draws: the expansion when it has 64 squares, an empty
      board otherwise. */
  function Cells(fen: string): (b: seq<Square>)
    ensures |b| == 64
    ensures |Expansion(fen)| == 64 ==> b == Expansion(fen)
    ensures |Expansion(fen)| != 64 ==> forall i :: 0 <= i < 64 ==> b[i] == None
  {
    if |Expansion(fen)| == 64 then Expansion(fen) else seq(64, _ => None)
  }

  lemma ExpandRowStep(row: string, j: nat)
    requires j < |row|
    ensures ExpandRow(row[..j + 1]) == ExpandRow(row[..j]) + ExpandChar(row[j])
  {
    assert row[..j + 1][..j] == row[..j];
  }

  lemma ExpandRowsStep(rows: seq<string>, r: nat)
    requires r < |rows|
    ensures ExpandRows(rows[..r + 1]) == ExpandRows(rows[..r]) + ExpandRow(rows[r])
  {
    assert rows[..r + 1][..r] == rows[..r];
  }

  /** `fenBoard`, with the three nested loops of the client pushing squares. */
  method FenBoard(fen: string) returns (board: seq<Square>)
    ensures board == Cells(fen)
  {
    var placement := Split(fen, ' ')[0];
    var rows := Split(placement, '/');
    var out := PushRows(rows);
    if |out| == 64 {
      board := out;
    } else {
      board := seq(64, _ => None);
    }
  }

  /** The outer loop of `fenBoard`: every rank pushed in order. */
  method PushRows(rows: seq<string>) returns (out: seq<Square>)
    ensures out == ExpandRows(rows)
  {
    out := [];
    var r := 0;
    while r < |rows|
      invariant 0 <= r <= |rows|
      invariant out == ExpandRows(rows[..r])
    {
      out := PushRow(out, rows[r]);
      ExpandRowsStep(rows, r);
      r := r + 1;
    }
    assert rows[..|rows|] == rows;
  }

  /** The middle loop: every character of a rank pushed in order. */
  method PushRow(before: seq<Square>, row: string) returns (out: seq<Square>)
    ensures out == before + ExpandRow(row)
  {
    out := before;
    var j := 0;
    while j < |row|
      invariant 0 <= j <= |row|
      invariant out == before + ExpandRow(row[..j])
    {
      var ch := row[j];
      if IsDigit(ch) {
        out := PushEmpties(out, DigitValue(ch));
      } else {
        out := out + [Some(ch)];
      }
      ExpandRowStep(row, j);
      j := j + 1;
    }
    assert row[..|row|] == row;
  }

  /** The inner loop: a digit's worth of empty squares. */
  method PushEmpties(before: seq<Square>, n: nat) returns (out: seq<Square>)
    ensures out == before + Empties(n)
  {
    out := before;
    var i := 0;
    while i < n
      invariant 0 <= i <= n
      invariant out == before + Empties(i)
    {
      out := out + [None];
      i := i + 1;
    }
  }

  /** The characters of a string other than `c`. */
  function Without(s: string, c: char): string {
    if s == [] then [] else Without(s[..|s| - 1], c) + (if s[|s| - 1] == c then [] else [s[|s| - 1]])
  }

  lemma {:induction false} ExpandRowAppend(a: string, b: string)
    ensures ExpandRow(a + b) == ExpandRow(a) + ExpandRow(b)
    decreases |b|
  {
    if b == [] {
      assert a + b == a;
    } else {
      assert (a + b)[..|a + b| - 1] == a + b[..|b| - 1];
      ExpandRowAppend(a, b[..|b| - 1]);
    }
  }

  lemma {:induction false} WithoutAppend(a: string, b: string, c: char)
    ensures Without(a + b, c) == Without(a, c) + Without(b, c)
    decreases |b|
  {
    if b == [] {
      assert a + b == a;
    } else {
      assert (a + b)[..|a + b| - 1] == a + b[..|b| - 1];
      WithoutAppend(a, b[..|b| - 1], c);
    }
  }

  lemma {:induction false} WithoutAbsent(s: string, c: char)
    requires c !in s
    ensures Without(s, c) == s
  {
    if s != [] {
      WithoutAbsent(s[..|s| - 1], c);
    }
  }

  /** The rank separators carry no squares: expanding the ranks one by one is
      expanding the placement with its slashes dropped. */
  lemma {:induction false} WithoutSeparator(head: string, rest: string)
    requires '/' !in head
    ensures Without(head + ['/'] + rest, '/') == head + Without(rest, '/')
  {
    calc {
      Without(head + ['/'] + rest, '/');
      { WithoutAppend(head + ['/'], rest, '/'); }
      Without(head + ['/'], '/') + Without(rest, '/');
      { WithoutAppend(head, ['/'], '/');
        assert Without(['/'], '/') == [] by { assert ['/'][..0] == []; }
        WithoutAbsent(head, '/'); }
      head + Without(rest, '/');
    }
  }

  lemma {:induction false} RanksDoNotMatter(placement: string)
    ensures ExpandRows(Split(placement, '/')) == ExpandRow(Without(placement, '/'))
    decreases |placement|
  {
    var i := IndexOf(placement, '/');
    if i == -1 {
      WithoutAbsent(placement, '/');
      assert Split(placement, '/') == [placement];
      assert [placement][..0] == [];
    } else {
      var head, rest := placement[..i], placement[i + 1..];
      assert Split(placement, '/') == [head] + Split(rest, '/');
      assert head + ['/'] + rest == placement;
      assert '/' !in head;
      RanksDoNotMatter(rest);
      FirstRank(head, rest);
    }
  }

  /** One step of the induction above: the first rank and the rest. */
  lemma FirstRank(head: string, rest: string)
    requires '/' !in head
    requires ExpandRows(Split(rest, '/')) == ExpandRow(Without(rest, '/'))
    ensures ExpandRows([head] + Split(rest, '/')) == ExpandRow(Without(head + ['/'] + rest, '/'))
  {
    calc {
      ExpandRows([head] + Split(rest, '/'));
      { ExpandRowsPrepend(head, Split(rest, '/')); }
      ExpandRow(head) + ExpandRows(Split(rest, '/'));
      ExpandRow(head) + ExpandRow(Without(rest, '/'));
      { ExpandRowAppend(head, Without(rest, '/')); }
      ExpandRow(head + Without(rest, '/'));
      { WithoutSeparator(head, rest); }
      ExpandRow(Without(head + ['/'] + rest, '/'));
    }
  }

  lemma {:induction false} ExpandRowsPrepend(row: string, rows: seq<string>)
    ensures ExpandRows([row] + rows) == ExpandRow(row) + ExpandRows(rows)
    decreases |rows|
  {
    if rows == [] {
      assert ([row] + rows)[..0] == [];
      assert [row] + rows == [row];
    } else {
      var all, init := [row] + rows, rows[..|rows| - 1];
      assert all[..|all| - 1] == [row] + init && all[|all| - 1] == rows[|rows| - 1];
      assert rows == init + [rows[|rows| - 1]];
      ExpandRowsPrepend(row, init);
      assert ExpandRows(all) == ExpandRows([row] + init) + ExpandRow(rows[|rows| - 1]);
      assert ExpandRows(rows) == ExpandRows(init) + ExpandRow(rows[|rows| - 1]);
    }
  }

  /** Only the text before the first space is read. */
  lemma PlacementIgnoresRest(placement: string, rest: string)
    requires ' ' !in placement
    ensures Cells(placement + [' '] + rest) == Cells(placement)
  {
    var fen := placement + [' '] + rest;
    assert fen[|placement|] == ' ';
    assert fen[..|placement|] == placement;
    assert IndexOf(fen, ' ') == |placement|;
    assert IndexOf(placement, ' ') == -1;
  }

  /** The decimal digits of an integer, as `String(n)` writes them. */
  function IntString(n: int): (s: string)
    ensures |s| >= 1
  {
    if n < 0 then "-" + NatString(-n) else NatString(n)
  }

  function NatString(n: nat): (s: string)
    ensures |s| >= 1
    ensures n < 10 ==> s == [('0' as int + n) as char]
  {
    if n < 10 then [('0' as int + n) as char] else NatString(n / 10) + [('0' as int + n % 10) as char]
  }

  /** `idxToSquare`: the file letter of the column and the rank counted from 8 down. */
  function IdxToSquare(idx: nat): (sq: string)
  {
    ["abcdefgh"[idx % 8]] + IntString(8 - idx / 8)
  }

  /** The board index a square name denotes, for the 64 names a1..h8. */
  function SquareToIdx(sq: string): Option<nat> {
    if |sq| == 2 && 'a' <= sq[0] <= 'h' && '1' <= sq[1] <= '8' then
      Some((sq[0] as int - 'a' as int) + 8 * ('8' as int - sq[1] as int))
    else None
  }

  /** Every board index has a two-character name that leads back to it. */
  lemma SquareRoundTrip(idx: nat)
    requires idx < 64
    ensures |IdxToSquare(idx)| == 2
    ensures SquareToIdx(IdxToSquare(idx)) == Some(idx)
  {
    var f := idx % 8;
    assert "abcdefgh"[f] as int == 'a' as int + f by {
      if f == 0 {} else if f == 1 {} else if f == 2 {} else if f == 3 {}
      else if f == 4 {} else if f == 5 {} else if f == 6 {} else {}
    }
  }

  /** No two squares of the board share a name. */
  lemma IdxToSquareInjective(i: nat, j: nat)
    requires i < 64 && j < 64 && IdxToSquare(i) == IdxToSquare(j)
    ensures i == j
  {
    SquareRoundTrip(i);
    SquareRoundTrip(j);
  }

  /** The first square is a8 and the last h1. */
  lemma CornerSquares()
    ensures IdxToSquare(0) == "a8" && IdxToSquare(63) == "h1"
  {
  }
}
