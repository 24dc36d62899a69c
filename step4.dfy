/**
 * version/morphy_step4.js: the same reader, printer and click handler on
 * module globals instead of a position record.  The reader writes the
 * globals it reads and leaves the others, and the board is written over
 * from index 0 without being cleared first.
 */
module Step4 {
  import opened Pieces
  import opened Fen
  import opened Morphy
  import opened Moves
  import opened Canon
  import opened RoundTrip

  /** The globals `Board`, `SideToMove`, ..., `FullMoveCounter`, `State`, `FromSq`, `DestSq`. */
  class Globals {
    var Board: seq<int>
    var SideToMove: int
    var WhiteCanOO: bool
    var WhiteCanOOO: bool
    var BlackCanOO: bool
    var BlackCanOOO: bool
    var epSquare: Option<int>
    var HalfMoveClock: int
    var FullMoveCounter: int
    var State: int
    var FromSq: int
    var DestSq: int

    /** The eight position globals as a record. */
    function Snapshot(): Position
      reads this
    {
      Position(Board, SideToMove, WhiteCanOO, WhiteCanOOO, BlackCanOO, BlackCanOOO,
               epSquare, HalfMoveClock, FullMoveCounter)
    }

    /** The click-handler globals, with the board. */
    function Clicks(): Ui
      reads this
    {
      Ui(State, FromSq, DestSq, Board)
    }

    /** `var Board = []` and `State = Ready`; the globals the source leaves undefined start at 0, false or None. */
    constructor ()
      ensures Board == [] && State == READY
    {
      Board := [];
      SideToMove, WhiteCanOO, WhiteCanOOO, BlackCanOO, BlackCanOOO := 0, false, false, false, false;
      epSquare, HalfMoveClock, FullMoveCounter := None, 0, 0;
      State, FromSq, DestSq := READY, 0, 0;
    }

    /**
     * `parse(fen)`: the reader started on the current globals.  A field
     * that does not match keeps its global; the board is written over.
     */
    method Parse(fen: string)
      modifies this
      ensures Snapshot() == ParseInto(fen, old(Snapshot())).P
      ensures State == old(State) && FromSq == old(FromSq) && DestSq == old(DestSq)
    {
      var P, j := ReadInto(fen, Snapshot());
      Store(P);
    }

    /** The assignments to the eight position globals. */
    method Store(P: Position)
      modifies this
      ensures Snapshot() == P
      ensures State == old(State) && FromSq == old(FromSq) && DestSq == old(DestSq)
    {
      Board, SideToMove := P.Board, P.SideToMove;
      WhiteCanOO, WhiteCanOOO, BlackCanOO, BlackCanOOO := P.WhiteCanOO, P.WhiteCanOOO, P.BlackCanOO, P.BlackCanOOO;
      epSquare, HalfMoveClock, FullMoveCounter := P.epSquare, P.HalfMoveClock, P.FullMoveCounter;
    }

    /** `unparse()`: the text for the current globals. */
    method Unparse() returns (fenstring: string)
      requires Encodable(Snapshot())
      ensures fenstring == FenOf(Snapshot())
    {
      fenstring := Morphy.Unparse(Snapshot());
    }

    /** `parse(fen)` followed by `unparse()` gives a canonical text back, whatever the globals held. */
    method ParseThenUnparse(fen: string) returns (fenstring: string)
      requires Canonical(fen)
      modifies this
      ensures fenstring == fen
    {
      ghost var S := Snapshot();
      Parse(fen);
      CanonicalRoundTrip(fen, S);
      fenstring := Unparse();
    }

    /** `doMouseDown` for a click on square s, on the global board in place. */
    method MouseDown(s: nat)
      requires ValidUi(Clicks()) && s < 64
      modifies this
      ensures Clicks() == Click(old(Clicks()), s)
      ensures Snapshot() == old(Snapshot()).(Board := Board)
    {
      if State == READY {
        FromSq := s;
        if Board[FromSq] != NONE {
          State := MOVING;
        }
      } else if State == MOVING {
        DestSq := s;
        if FromSq == DestSq {
          FromSq := NONE;
          DestSq := NONE;
          State := READY;
        } else if Color(Board[DestSq]) == NONE {
          Board, State := MovePiece(Board, FromSq, DestSq), READY;
        } else if Color(Board[DestSq]) != Color(Board[FromSq]) {
          Board, State := MovePiece(Board, FromSq, DestSq), READY;
        }
      }
    }
  }

  /** The reader writes the board from index 0 on and leaves every later entry as it was. */
  lemma ParseWritesPrefix(fen: string, S: Position)
    ensures var w := Placement(fen, []).value;
      var b := ParseInto(fen, S).P.Board;
      && |b| >= |w| && b[..|w|] == w
      && forall k :: |w| <= k < |S.Board| ==> b[k] == S.Board[k]
  {
  }

  /** An empty text changes no global: nothing is reset to a default. */
  lemma ParseEmptyKeepsAll(S: Position)
    ensures ParseInto("", S) == Cursor(S, "")
  {
    assert Overlay(S.Board, []) == S.Board;
  }

  /** When the side to move is missing, its global keeps its value. */
  lemma ParseSideMissing(fen: string, S: Position)
    requires var r := Placement(fen, []).rest; r == [] || (r[0] != 'w' && r[0] != 'b')
    ensures ParseInto(fen, S).P.SideToMove == S.SideToMove
  {
  }
}
