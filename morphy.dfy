/**
 * `parse` and `unparse` of js/morphy.js as the loops they are, each proved
 * against the functions of module Fen.  The reader walks the text with one
 * cursor `j` and writes the board with `Board[i++] = v`; the printer runs
 * one turn per square, carrying the count of pending empty squares.
 */
module Morphy {
  import opened Pieces
  import opened Decimal
  import opened Fen
  import opened PlacementLaws
  import opened TailLaws

  // ---------------------------------------------------------------------
  // Reading
  // ---------------------------------------------------------------------

  /** `board[i] = v` on a JavaScript array, i at most its length: replace or append. */
  function Write(board: seq<int>, i: nat, v: int): (b: seq<int>)
    requires i <= |board|
    ensures |b| == if i < |board| then |board| else |board| + 1
    ensures b[i] == v && forall k :: 0 <= k < |board| && k != i ==> b[k] == board[k]
  {
    if i < |board| then board[i := v] else board + [v]
  }

  /** Writing the squares read so far over a board, one more square at a time. */
  lemma OverlayWrite(prior: seq<int>, w: seq<int>, v: int)
    ensures |w| <= |Overlay(prior, w)|
    ensures Overlay(prior, w + [v]) == Write(Overlay(prior, w), |w|, v)
  {
    var a, b := Overlay(prior, w + [v]), Write(Overlay(prior, w), |w|, v);
    assert |a| == |b|;
    forall k | 0 <= k < |a| ensures a[k] == b[k] {
      if k < |w| {
        assert a[k] == a[..|w| + 1][k];
        assert Overlay(prior, w)[k] == Overlay(prior, w)[..|w|][k];
      } else if k == |w| {
        assert a[k] == a[..|w| + 1][k];
      }
    }
  }

  /** The text from cursor j on, cut after its first character. */
  lemma Unroll(fen: string, j: nat)
    requires j < |fen|
    ensures fen[j..] != [] && fen[j..][0] == fen[j] && fen[j..][1..] == fen[j + 1..]
  {
  }

  /** `Board[i++] = NONE`, k times: the inner loop of a digit. */
  method WriteEmpties(board0: seq<int>, i0: nat, k0: nat, ghost prior: seq<int>, ghost w0: seq<int>)
    returns (board: seq<int>, i: nat, ghost w: seq<int>)
    requires board0 == Overlay(prior, w0) && i0 == |w0|
    ensures board == Overlay(prior, w0 + Empties(k0)) && i == i0 + k0
    ensures board == Overlay(prior, w) && i == |w| && w == w0 + Empties(k0)
  {
    board, i, w := board0, i0, w0;
    var k := k0;
    while k > 0
      invariant 0 <= k <= k0
      invariant board == Overlay(prior, w) && i == |w| && w == w0 + Empties(k0 - k)
    {
      OverlayWrite(prior, w, NONE);
      board := Write(board, i, NONE);
      assert Empties(k0 - k + 1) == Empties(k0 - k) + [NONE];
      w := w + [NONE];
      i := i + 1;
      k := k - 1;
    }
  }

  /**
   * The `while(flag)` loop over the placement field, writing `Board[i++]`
   * over `board0` from index 0: it stops after a blank, or before any
   * other character it does not know, or at the end of the text.
   */
  method ReadPlacement(fen: string, board0: seq<int>) returns (j: nat, board: seq<int>)
    ensures j <= |fen|
    ensures var r := Placement(fen, []);
      board == Overlay(board0, r.value) && fen[j..] == r.rest
  {
    j := 0;
    board := board0;
    var i := 0;
    ghost var w: seq<int> := [];
    var flag := true;
    while flag
      invariant j <= |fen| && i == |w| && board == Overlay(board0, w)
      invariant flag ==> Placement(fen[j..], w) == Placement(fen, [])
      invariant !flag ==> Scan(w, fen[j..]) == Placement(fen, [])
      decreases if flag then |fen| - j + 1 else 0
    {
      if j == |fen| {
        assert fen[j..] == [];
        flag := false;
      } else {
        var c := fen[j];
        Unroll(fen, j);
        if IsRankDigit(c) {
          board, i, w := WriteEmpties(board, i, DigitValue(c), board0, w);
          j := j + 1;
        } else if IsPieceLetter(c) {
          OverlayWrite(board0, w, PieceCode(c));
          board := Write(board, i, PieceCode(c));
          w := w + [PieceCode(c)];
          i := i + 1;
          j := j + 1;
        } else if c == '/' {
          assert Squares(c) == [];
          assert w + [] == w;
          j := j + 1;
        } else if c == ' ' {
          flag := false;
          j := j + 1;
        } else {
          flag := false;
        }
      }
    }
  }

  /** The switch on the side to move. */
  method ReadSide(fen: string, j0: nat, P0: Position) returns (j: nat, P: Position)
    requires j0 <= |fen|
    ensures j <= |fen| && Cursor(P, fen[j..]) == SideStep(Cursor(P0, fen[j0..]))
  {
    j, P := j0, P0;
    if j < |fen| {
      Unroll(fen, j);
      if fen[j] == 'w' {
        P := P.(SideToMove := WHITE);
        j := j + 1;
      } else if fen[j] == 'b' {
        P := P.(SideToMove := BLACK);
        j := j + 1;
      }
    }
  }

  /** The switch on a blank. */
  method ReadBlank(fen: string, j0: nat) returns (j: nat)
    requires j0 <= |fen|
    ensures j <= |fen| && fen[j..] == SkipBlank(fen[j0..])
  {
    j := j0;
    if j < |fen| {
      Unroll(fen, j);
      if fen[j] == ' ' {
        j := j + 1;
      }
    }
  }

  /** One of the four castling switches: '-' clears the flag, its letter sets it. */
  method ReadCastle(fen: string, j0: nat, letter: char, cur: bool) returns (j: nat, flag: bool)
    requires j0 <= |fen| && letter != '-'
    ensures j <= |fen| && Scan(flag, fen[j..]) == CastleField(fen[j0..], letter, cur)
  {
    j, flag := j0, cur;
    if j < |fen| {
      Unroll(fen, j);
      if fen[j] == '-' {
        flag := false;
        j := j + 1;
      } else if fen[j] == letter {
        flag := true;
        j := j + 1;
      }
    }
  }

  /** The four castling switches, in the order K, Q, k, q. */
  method ReadCastling(fen: string, j0: nat, P0: Position) returns (j: nat, P: Position)
    requires j0 <= |fen|
    ensures j <= |fen| && Cursor(P, fen[j..]) == CastlingStep(Cursor(P0, fen[j0..]))
  {
    var wk, wq, bk, bq;
    j, wk := ReadCastle(fen, j0, 'K', P0.WhiteCanOO);
    j, wq := ReadCastle(fen, j, 'Q', P0.WhiteCanOOO);
    j, bk := ReadCastle(fen, j, 'k', P0.BlackCanOO);
    j, bq := ReadCastle(fen, j, 'q', P0.BlackCanOOO);
    P := P0.(WhiteCanOO := wk, WhiteCanOOO := wq, BlackCanOO := bk, BlackCanOOO := bq);
  }

  /** The en passant field: '-', or a file letter followed by '3' or '6'. */
  method ReadEp(fen: string, j0: nat, P0: Position) returns (j: nat, P: Position)
    requires j0 <= |fen|
    ensures j <= |fen| && Cursor(P, fen[j..]) == EpStep(Cursor(P0, fen[j0..]))
  {
    j, P := j0, P0;
    if j < |fen| && fen[j] == '-' {
      Unroll(fen, j);
      P := P.(epSquare := None);
      j := j + 1;
    } else if j + 1 < |fen| && IsFileLetter(fen[j]) && (fen[j + 1] == '3' || fen[j + 1] == '6') {
      var s := fen[j..];
      assert s[0] == fen[j] && s[1] == fen[j + 1] && s[2..] == fen[j + 2..];
      P := P.(epSquare := Some(8 * (DigitValue(fen[j + 1]) - 1) + FileIndex(fen[j])));
      j := j + 2;
    }
  }

  /** The `while` over decimal digits: `acc = 10*acc + Number(fen[j])`. */
  method ReadDigits(fen: string, j0: nat, acc0: int) returns (j: nat, acc: int)
    requires j0 <= |fen|
    ensures j <= |fen| && Scan(acc, fen[j..]) == DigitRun(fen[j0..], acc0)
  {
    j, acc := j0, acc0;
    while j < |fen| && IsDigit(fen[j])
      invariant j0 <= j <= |fen|
      invariant DigitRun(fen[j..], acc) == DigitRun(fen[j0..], acc0)
    {
      Unroll(fen, j);
      acc := 10 * acc + DigitValue(fen[j]);
      j := j + 1;
    }
    if j < |fen| {
      Unroll(fen, j);
    } else {
      assert fen[j..] == [];
    }
  }

  /** The halfmove clock: a first digit, then the digit loop. */
  method ReadHalfMove(fen: string, j0: nat, P0: Position) returns (j: nat, P: Position)
    requires j0 <= |fen|
    ensures j <= |fen| && Cursor(P, fen[j..]) == HalfMoveStep(Cursor(P0, fen[j0..]))
  {
    j, P := j0, P0;
    var clock := P.HalfMoveClock;
    if j < |fen| && IsDigit(fen[j]) {
      Unroll(fen, j);
      clock := DigitValue(fen[j]);
      j := j + 1;
    } else if j < |fen| {
      Unroll(fen, j);
    }
    j, clock := ReadDigits(fen, j, clock);
    P := P.(HalfMoveClock := clock);
  }

  /** The fullmove counter: a first digit 1..9, then the digit loop. */
  method ReadFullMove(fen: string, j0: nat, P0: Position) returns (j: nat, P: Position)
    requires j0 <= |fen|
    ensures j <= |fen| && Cursor(P, fen[j..]) == FullMoveStep(Cursor(P0, fen[j0..]))
  {
    j, P := j0, P0;
    var counter := P.FullMoveCounter;
    if j < |fen| && IsNonZeroDigit(fen[j]) {
      Unroll(fen, j);
      counter := DigitValue(fen[j]);
      j := j + 1;
    } else if j < |fen| {
      Unroll(fen, j);
    }
    j, counter := ReadDigits(fen, j, counter);
    P := P.(FullMoveCounter := counter);
  }

  /**
   * The whole reader, filling in `start`: the placement loop writes over
   * its board, each later field that does not match keeps its value.
   * Returns the record and the cursor.
   */
  method ReadInto(fen: string, start: Position) returns (P: Position, j: nat)
    ensures j <= |fen| && Cursor(P, fen[j..]) == ParseInto(fen, start)
  {
    var board;
    j, board := ReadPlacement(fen, start.Board);
    P := start.(Board := board);
    assert fen[0..] == fen;
    assert Cursor(P, fen[j..]) == PlacementStep(Cursor(start, fen));
    j, P := ReadSide(fen, j, P);
    j := ReadBlank(fen, j);
    j, P := ReadCastling(fen, j, P);
    j := ReadBlank(fen, j);
    j, P := ReadEp(fen, j, P);
    j := ReadBlank(fen, j);
    j, P := ReadHalfMove(fen, j, P);
    j := ReadBlank(fen, j);
    j, P := ReadFullMove(fen, j, P);
  }

  /** `parse`: the reader started on `emptyPosition()`. */
  method Parse(fen: string) returns (P: Position)
    ensures P == ParseFen(fen)
  {
    var j;
    P, j := ReadInto(fen, EmptyPosition());
  }

  // ---------------------------------------------------------------------
  // Writing
  // ---------------------------------------------------------------------

  /** What one turn of the printer's loop added, in front of the rest of the placement. */
  lemma TurnRegroup(before: string, turn: string, e: string, whole: string)
    requires before + (turn + e) == whole
    ensures (before + turn) + e == whole
  {
  }

  /**
   * One turn of the `for` loop of `unparse` for square i: count the empty
   * square, flush the pending count before a piece or at a rank's end,
   * write the piece's letter, write '/' after a rank but the last.
   */
  method UnparseSquare(B: seq<int>, i: nat, count0: nat, fen0: string)
    returns (fenstring: string, count: nat)
    requires ValidBoard(B) && i < 64
    ensures fenstring == fen0 + SquareText(B, i, count0) && count == Carry(B, i, count0)
  {
    fenstring, count := fen0, count0;
    ghost var flush, letter := "", "";
    if B[i] == NONE {
      count := count + 1;
    }
    if count > 0 && (B[i] != NONE || i % 8 == 7) {
      fenstring := fenstring + NatToString(count);
      flush := NatToString(count);
      count := 0;
    } else {
      assert fenstring == fenstring + flush;
    }
    if B[i] != NONE {
      fenstring := fenstring + [Letter(B[i])];
      letter := [Letter(B[i])];
    } else {
      assert fenstring == fenstring + letter;
    }
    if i % 8 == 7 && i < 63 {
      fenstring := fenstring + "/";
    } else {
      assert fenstring == fenstring + RankSep(i);
    }
    assert fenstring == ((fen0 + flush) + letter) + RankSep(i);
  }

  /** `unparse`: the text of the placement loop, then the five other fields. */
  method Unparse(P: Position) returns (fenstring: string)
    requires Encodable(P)
    ensures fenstring == FenOf(P)
  {
    fenstring := "";
    var emptySquareCount := 0;
    for i := 0 to 64
      invariant fenstring + Emit(P.Board, i, emptySquareCount) == Emit(P.Board, 0, 0)
    {
      ghost var before, count := fenstring, emptySquareCount;
      fenstring, emptySquareCount := UnparseSquare(P.Board, i, emptySquareCount, fenstring);
      EmitStep(P.Board, i, count);
      TurnRegroup(before, SquareText(P.Board, i, count), Emit(P.Board, i + 1, emptySquareCount), Emit(P.Board, 0, 0));
    }
    assert fenstring == Emit(P.Board, 0, 0);
    fenstring := fenstring + " ";
    fenstring := UnparseTail(P, fenstring);
  }

  lemma FourAppends(t: string, a: char, b: char, c: char, d: char)
    ensures (((t + [a]) + [b]) + [c]) + [d] == t + [a, b, c, d]
  {
  }

  /** The five fields after the placement, appended to `fen0` one `+=` at a time. */
  method UnparseTail(P: Position, fen0: string) returns (fenstring: string)
    requires TailPrintable(P)
    ensures fenstring == fen0 + TailText(P)
  {
    fenstring := UnparseFront(P, fen0);
    ghost var front := SideText(P.SideToMove) + " " + CastlingText(P) + " ";
    fenstring := UnparseBack(P, fenstring);
    TailSplit(fen0, front, EpText(P.epSquare), IntText(P.HalfMoveClock), IntText(P.FullMoveCounter));
  }

  /** The side to move and the castling flags, each followed by its blank. */
  method UnparseFront(P: Position, fen0: string) returns (fenstring: string)
    requires TailPrintable(P)
    ensures fenstring == fen0 + (SideText(P.SideToMove) + " " + CastlingText(P) + " ")
  {
    fenstring := fen0;
    if P.SideToMove == WHITE {
      fenstring := fenstring + "w";
    } else if P.SideToMove == BLACK {
      fenstring := fenstring + "b";
    }
    ghost var t := SideText(P.SideToMove);
    fenstring := fenstring + " ";
    Assoc(fen0, t, " ");
    t := t + " ";
    ghost var castling := fenstring;
    fenstring := fenstring + [if P.WhiteCanOO then 'K' else '-'];
    fenstring := fenstring + [if P.WhiteCanOOO then 'Q' else '-'];
    fenstring := fenstring + [if P.BlackCanOO then 'k' else '-'];
    fenstring := fenstring + [if P.BlackCanOOO then 'q' else '-'];
    FourAppends(castling, if P.WhiteCanOO then 'K' else '-', if P.WhiteCanOOO then 'Q' else '-',
                if P.BlackCanOO then 'k' else '-', if P.BlackCanOOO then 'q' else '-');
    Assoc(fen0, t, CastlingText(P));
    t := t + CastlingText(P);
    fenstring := fenstring + " ";
    Assoc(fen0, t, " ");
  }

  /** The en passant square and the two clocks, separated by blanks. */
  method UnparseBack(P: Position, fen0: string) returns (fenstring: string)
    requires TailPrintable(P)
    ensures fenstring == fen0 + (EpText(P.epSquare) + " " + IntText(P.HalfMoveClock) + " " + IntText(P.FullMoveCounter))
  {
    fenstring := fen0;
    if P.epSquare.None? {
      fenstring := fenstring + "-";
    } else {
      fenstring := fenstring + ([FileLetter(P.epSquare.value % 8)] + NatToString(P.epSquare.value / 8 + 1));
    }
    ghost var t := EpText(P.epSquare);
    fenstring := fenstring + " ";
    Assoc(fen0, t, " ");
    t := t + " ";
    fenstring := fenstring + IntText(P.HalfMoveClock);
    Assoc(fen0, t, IntText(P.HalfMoveClock));
    t := t + IntText(P.HalfMoveClock);
    fenstring := fenstring + " ";
    Assoc(fen0, t, " ");
    t := t + " ";
    fenstring := fenstring + IntText(P.FullMoveCounter);
    Assoc(fen0, t, IntText(P.FullMoveCounter));
  }

  /** The front of the tail joined to its back. */
  lemma TailSplit(f0: string, front: string, e: string, h: string, f: string)
    ensures (f0 + front) + (e + " " + h + " " + f) == f0 + ((((front + e) + " " + h) + " ") + f)
  {
    Assoc(f0, front, e + " " + h + " " + f);
    Assoc(front, e + " " + h + " ", f);
    Assoc(front, e + " " + h, " ");
    Assoc(front, e + " ", h);
    Assoc(front, e, " ");
  }
}
