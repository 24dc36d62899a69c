/**
 * The board-update rules of js/morphy.js: the copy-on-write `nextBoard` and
 * `nextPosition`, and the square-level state machine of `doMouseDown`,
 * which moves pieces on the shared record `_P` in place.
 */
module Moves {
  import opened Pieces
  import opened Fen
  import opened Decimal

  // ---------------------------------------------------------------------
  // nextBoard and nextPosition
  // ---------------------------------------------------------------------

  /** A move `[from, to]`: two squares of the board. */
  datatype Move = Move(from: nat, to: nat)

  predicate OnBoard(P: Position, m: Move) {
    m.from < |P.Board| && m.to < |P.Board|
  }

  /** The test `nextBoard` makes: the piece on `from` belongs to the side to move, the one on `to` does not. */
  predicate MoveAllowed(P: Position, m: Move)
    requires OnBoard(P, m)
  {
    Color(P.Board[m.from]) == P.SideToMove && Color(P.Board[m.to]) != P.SideToMove
  }

  /** `nextBoard`: a copy of the board, with the piece moved when the move is allowed. */
  function NextBoard(P: Position, m: Move): (b: seq<int>)
    requires OnBoard(P, m)
    ensures |b| == |P.Board|
    ensures MoveAllowed(P, m) ==> m.from != m.to && b[m.to] == P.Board[m.from] && b[m.from] == NONE
    ensures !MoveAllowed(P, m) ==> b == P.Board
    ensures forall k :: 0 <= k < |b| && k != m.from && k != m.to ==> b[k] == P.Board[k]
  {
    var board := P.Board;
    if MoveAllowed(P, m) then board[m.from := NONE][m.to := P.Board[m.from]] else board
  }

  /** A board of 64 valid codes stays one. */
  lemma NextBoardValid(P: Position, m: Move)
    requires ValidPosition(P) && OnBoard(P, m)
    ensures |NextBoard(P, m)| == 64 && forall k :: 0 <= k < 64 ==> ValidCode(NextBoard(P, m)[k])
  {
    var b := NextBoard(P, m);
    forall k | 0 <= k < 64 ensures ValidCode(b[k]) {
      if k == m.to && MoveAllowed(P, m) {
        assert b[k] == P.Board[m.from];
      }
    }
  }

  /** Only the side to move moves, and it never lands on its own piece. */
  lemma NextBoardMoverLands(P: Position, m: Move)
    requires OnBoard(P, m) && (P.SideToMove == WHITE || P.SideToMove == BLACK)
    requires NextBoard(P, m) != P.Board
    ensures P.Board[m.from] != NONE && Color(P.Board[m.to]) != P.SideToMove
    ensures Color(NextBoard(P, m)[m.to]) == P.SideToMove
  {
  }

  /** The colour that moves after `side`. */
  function Opponent(side: int): (r: int)
    requires side == WHITE || side == BLACK
    ensures (r == WHITE || r == BLACK) && r != side
  {
    if side == WHITE then BLACK else WHITE
  }

  /**
   * `nextPosition` as written: the side to move becomes `WHITE ? BLACK :
   * WHITE`, which is always BLACK since WHITE is the non-zero constant 8;
   * the fullmove counter grows when WHITE was to move; the halfmove clock
   * always grows; castling and en passant are copied.
   */
  function NextPosition(P: Position, m: Move): Position
    requires OnBoard(P, m)
  {
    var side := if WHITE != 0 then BLACK else WHITE;
    P.(Board := NextBoard(P, m),
       SideToMove := side,
       HalfMoveClock := P.HalfMoveClock + 1,
       FullMoveCounter := if P.SideToMove == WHITE then P.FullMoveCounter + 1 else P.FullMoveCounter)
  }

  /** What `nextPosition` does to each field, whether or not `nextBoard` made the move. */
  lemma NextPositionFields(P: Position, m: Move)
    requires OnBoard(P, m)
    ensures var Q := NextPosition(P, m);
      && Q.Board == NextBoard(P, m) && Q.SideToMove == BLACK
      && Q.HalfMoveClock == P.HalfMoveClock + 1
      && (Q.FullMoveCounter == P.FullMoveCounter + 1 <==> P.SideToMove == WHITE)
      && (P.SideToMove != WHITE ==> Q.FullMoveCounter == P.FullMoveCounter)
      && Q.WhiteCanOO == P.WhiteCanOO && Q.WhiteCanOOO == P.WhiteCanOOO
      && Q.BlackCanOO == P.BlackCanOO && Q.BlackCanOOO == P.BlackCanOOO
      && Q.epSquare == P.epSquare
  {
  }

  /** As written, BLACK stays to move after BLACK's move: the sides never alternate. */
  lemma NextPositionSideStuck(P: Position, m: Move)
    requires OnBoard(P, m) && P.SideToMove == BLACK
    ensures NextPosition(P, m).SideToMove == P.SideToMove
  {
  }

  /** As written, the fullmove counter grows after WHITE's move and not after BLACK's. */
  lemma NextPositionCountsWhite(P: Position, m: Move)
    requires OnBoard(P, m) && P.SideToMove == WHITE
    ensures NextPosition(P, m).FullMoveCounter == P.FullMoveCounter + 1
    ensures NextPosition(NextPosition(P, m), m).FullMoveCounter == P.FullMoveCounter + 1
  {
  }

  /**
   * `nextPosition` as intended: the other side moves next, and the
   * fullmove counter grows after BLACK's move (section 16.1.3.6 of the PGN
   * Standard).
   */
  function NextPositionIntended(P: Position, m: Move): (Q: Position)
    requires OnBoard(P, m) && (P.SideToMove == WHITE || P.SideToMove == BLACK)
    ensures Q.SideToMove == Opponent(P.SideToMove)
    ensures Q.FullMoveCounter == if P.SideToMove == BLACK then P.FullMoveCounter + 1 else P.FullMoveCounter
  {
    P.(Board := NextBoard(P, m),
       SideToMove := Opponent(P.SideToMove),
       HalfMoveClock := P.HalfMoveClock + 1,
       FullMoveCounter := if P.SideToMove == BLACK then P.FullMoveCounter + 1 else P.FullMoveCounter)
  }

  /** The intended rule keeps a position the printer and the reader handle. */
  lemma NextPositionIntendedValid(P: Position, m: Move)
    requires ValidPosition(P) && OnBoard(P, m)
    requires P.HalfMoveClock < MAX_SAFE_INTEGER && P.FullMoveCounter < MAX_SAFE_INTEGER
    ensures ValidPosition(NextPositionIntended(P, m))
  {
    NextBoardValid(P, m);
  }

  /** Under the intended rule, a WHITE move and a BLACK move make one full move. */
  lemma {:induction false} FullMovePerTwoPlies(P: Position, m1: Move, m2: Move)
    requires OnBoard(P, m1) && P.SideToMove == WHITE
    requires OnBoard(NextPositionIntended(P, m1), m2)
    ensures var R := NextPositionIntended(NextPositionIntended(P, m1), m2);
      R.SideToMove == WHITE && R.FullMoveCounter == P.FullMoveCounter + 1
      && R.HalfMoveClock == P.HalfMoveClock + 2
  {
    var Q := NextPositionIntended(P, m1);
    assert Q.SideToMove == BLACK && Q.FullMoveCounter == P.FullMoveCounter;
  }

  // ---------------------------------------------------------------------
  // doMouseDown
  // ---------------------------------------------------------------------

  const READY := 0
  const MOVING := 1

  /** The state the click handler reads and writes: `State`, `FromSq`, `DestSq` and the board. */
  datatype Ui = Ui(State: int, FromSq: int, DestSq: int, Board: seq<int>)

  /** A board of 64 valid codes, a known state, and in MOVING a piece on `FromSq`. */
  predicate ValidUi(u: Ui) {
    && |u.Board| == 64 && (forall k :: 0 <= k < 64 ==> ValidCode(u.Board[k]))
    && (u.State == READY || u.State == MOVING)
    && (u.State == MOVING ==> 0 <= u.FromSq < 64 && u.Board[u.FromSq] != NONE)
  }

  /** `Board[to] = Board[from]; Board[from] = NONE`: the piece taken to `to`, `from` left empty. */
  function MovePiece(board: seq<int>, from: nat, to: nat): (b: seq<int>)
    requires from < |board| && to < |board|
    ensures |b| == |board| && b[from] == NONE
    ensures from != to ==> b[to] == board[from]
    ensures forall k :: 0 <= k < |b| && k != from && k != to ==> b[k] == board[k]
  {
    board[to := board[from]][from := NONE]
  }

  /**
   * One click on square s.  READY: s becomes `FromSq`, and a piece there
   * starts a move.  MOVING: s becomes `DestSq`; clicking `FromSq` again
   * cancels; an empty square or one of the other colour receives the
   * piece; a square of the same colour changes nothing more.
   */
  function Click(u: Ui, s: nat): (r: Ui)
    requires ValidUi(u) && s < 64
    ensures ValidUi(r)
    ensures r.Board != u.Board ==> u.State == MOVING && r.State == READY
  {
    if u.State == READY then
      u.(FromSq := s, State := if u.Board[s] != NONE then MOVING else READY)
    else
      var v := u.(DestSq := s);
      if u.FromSq == s then
        v.(FromSq := NONE, DestSq := NONE, State := READY)
      else if Color(u.Board[s]) == NONE then
        v.(Board := MovePiece(u.Board, u.FromSq, s), State := READY)
      else if Color(u.Board[s]) != Color(u.Board[u.FromSq]) then
        v.(Board := MovePiece(u.Board, u.FromSq, s), State := READY)
      else
        v
  }

  /** READY: the clicked square is remembered, and a move starts exactly when it holds a piece. */
  lemma ClickReady(u: Ui, s: nat)
    requires ValidUi(u) && s < 64 && u.State == READY
    ensures Click(u, s).FromSq == s && Click(u, s).Board == u.Board
    ensures Click(u, s).State == MOVING <==> u.Board[s] != NONE
  {
  }

  /** MOVING, clicking the square the move started on: back to READY, nothing moved. */
  lemma ClickCancel(u: Ui)
    requires ValidUi(u) && u.State == MOVING
    ensures Click(u, u.FromSq) == u.(FromSq := NONE, DestSq := NONE, State := READY)
  {
  }

  /**
   * MOVING, clicking another square: the piece moves exactly when the
   * target is empty or of the other colour, and then every other square
   * keeps its content.
   */
  lemma ClickMove(u: Ui, s: nat)
    requires ValidUi(u) && s < 64 && u.State == MOVING && s != u.FromSq
    ensures var r := Click(u, s);
      && r.DestSq == s
      && (r.State == READY <==> Color(u.Board[s]) != Color(u.Board[u.FromSq]))
      && (r.State == READY ==> r.Board[s] == u.Board[u.FromSq] && r.Board[u.FromSq] == NONE)
      && (r.State == MOVING ==> r == u.(DestSq := s))
      && forall k :: 0 <= k < 64 && k != s && k != u.FromSq ==> r.Board[k] == u.Board[k]
  {
    assert Color(u.Board[u.FromSq]) != NONE;
  }

  /**
   * The handler on the shared record `_P` and the module variables
   * `State`, `FromSq`, `DestSq`.
   */
  class Gui {
    var State: int
    var FromSq: int
    var DestSq: int
    var P: Position

    function Snapshot(): Ui
      reads this
    {
      Ui(State, FromSq, DestSq, P.Board)
    }

    predicate Valid()
      reads this
    {
      ValidUi(Snapshot())
    }

    /** `_P = parse(Iposn)` with `State = READY`. */
    constructor (start: Position)
      requires ValidPosition(start)
      ensures Valid() && State == READY && P == start
    {
      State, FromSq, DestSq := READY, 0, 0;
      P := start;
    }

    /** `doMouseDown` for a click on square s; the redraws are left out. */
    method MouseDown(s: nat)
      requires Valid() && s < 64
      modifies this
      ensures Snapshot() == Click(old(Snapshot()), s)
      ensures P == old(P).(Board := P.Board)
      ensures Valid()
    {
      if State == READY {
        FromSq := s;
        if P.Board[FromSq] != NONE {
          State := MOVING;
        }
      } else if State == MOVING {
        DestSq := s;
        if FromSq == DestSq {
          FromSq := NONE;
          DestSq := NONE;
          State := READY;
        } else if Color(P.Board[DestSq]) == NONE {
          var board := P.Board;
          board := board[DestSq := board[FromSq]];
          board := board[FromSq := NONE];
          P := P.(Board := board);
          State := READY;
        } else if Color(P.Board[DestSq]) != Color(P.Board[FromSq]) {
          var board := P.Board;
          board := board[DestSq := board[FromSq]];
          board := board[FromSq := NONE];
          P := P.(Board := board);
          State := READY;
        }
      }
    }
  }
}
