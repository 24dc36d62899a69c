/**
 * Piece codes of Morphy: a piece is one small integer, its colour in the
 * high bits (WHITE = 8, BLACK = 16) plus its kind in the low three bits
 * (PAWN = 1, ROOK = 3, KNIGHT = 4, BISHOP = 5, KING = 6, QUEEN = 7).
 * An empty square holds NONE = 0.
 */
module Pieces {

  const WHITE := 8
  const BLACK := 16

  const NONE := 0
  const PAWN := 1
  const ROOK := 3
  const KNIGHT := 4
  const BISHOP := 5
  const KING := 6
  const QUEEN := 7

  /** The kinds a piece code can carry in its low three bits. */
  predicate IsKind(k: int) {
    k == PAWN || k == ROOK || k == KNIGHT || k == BISHOP || k == KING || k == QUEEN
  }

  /** One of the twelve codes a square can hold when it is occupied. */
  predicate IsPiece(p: int) {
    (p - p % 8 == WHITE || p - p % 8 == BLACK) && IsKind(p % 8)
  }

  /** A code the board may hold: NONE or a piece. */
  predicate ValidCode(p: int) {
    p == NONE || IsPiece(p)
  }

  /** The colour of a square's content, decided by thresholds on the code. */
  function Color(piece: int): (r: int)
    ensures r == NONE || r == WHITE || r == BLACK
    ensures IsPiece(piece) ==> r == piece - piece % 8
    ensures ValidCode(piece) ==> (r == NONE <==> piece == NONE)
  {
    if piece > 16 then BLACK
    else if piece > 8 then WHITE
    else NONE
  }

  /** The six letters of the placement field that name BLACK pieces. */
  predicate IsBlackLetter(c: char) {
    c == 'k' || c == 'q' || c == 'r' || c == 'b' || c == 'n' || c == 'p'
  }

  /** The twelve letters of the placement field. */
  predicate IsPieceLetter(c: char) {
    || IsBlackLetter(c)
    || c == 'K' || c == 'Q' || c == 'R' || c == 'B' || c == 'N' || c == 'P'
  }

  /** The code the placement field writes for a letter: lower case is BLACK. */
  function PieceCode(c: char): (p: int)
    requires IsPieceLetter(c)
    ensures IsPiece(p)
    ensures Color(p) == (if IsBlackLetter(c) then BLACK else WHITE)
  {
    match c
    case 'k' => BLACK + KING
    case 'q' => BLACK + QUEEN
    case 'r' => BLACK + ROOK
    case 'b' => BLACK + BISHOP
    case 'n' => BLACK + KNIGHT
    case 'p' => BLACK + PAWN
    case 'K' => WHITE + KING
    case 'Q' => WHITE + QUEEN
    case 'R' => WHITE + ROOK
    case 'B' => WHITE + BISHOP
    case 'N' => WHITE + KNIGHT
    case 'P' => WHITE + PAWN
  }

  /** The letter the printer writes for an occupied square. */
  function Letter(p: int): char
    requires IsPiece(p)
  {
    if p == BLACK + ROOK then 'r'
    else if p == BLACK + KNIGHT then 'n'
    else if p == BLACK + BISHOP then 'b'
    else if p == BLACK + QUEEN then 'q'
    else if p == BLACK + KING then 'k'
    else if p == BLACK + PAWN then 'p'
    else if p == WHITE + PAWN then 'P'
    else if p == WHITE + ROOK then 'R'
    else if p == WHITE + KNIGHT then 'N'
    else if p == WHITE + BISHOP then 'B'
    else if p == WHITE + QUEEN then 'Q'
    else 'K'
  }

  /** Every piece has a letter, and the letter names that piece. */
  lemma LetterCode(p: int)
    requires IsPiece(p)
    ensures IsPieceLetter(Letter(p))
    ensures PieceCode(Letter(p)) == p
  {
  }

  lemma LetterOfPieceCode(c: char)
    requires IsPieceLetter(c)
    ensures Letter(PieceCode(c)) == c
  {
  }
}
