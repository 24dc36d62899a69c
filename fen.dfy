/**
 * Forsyth-Edwards Notation as Morphy reads and writes it (section 16.1 of
 * the PGN Standard, with Morphy's own rigid castling field).
 *
 * The reader is specified field by field on the unread suffix of the text:
 * every field function takes what is left and returns the value it read
 * together with what is left after it.  A field that does not match keeps
 * the value it was given and consumes nothing, except the fullmove counter,
 * whose digit loop still runs and accumulates onto that value.  The value
 * kept is the default of `EmptyPosition` in js/morphy.js and the previous
 * global in version/morphy_step4.js, so both readers are `ParseInto` from a
 * different starting position.
 */
module Fen {
  import opened Pieces
  import opened Decimal

  datatype Option<T> = None | Some(value: T)

  /** The position record of js/morphy.js; also the globals of version/morphy_step4.js. */
  datatype Position = Position(
    Board: seq<int>,
    SideToMove: int,
    WhiteCanOO: bool,
    WhiteCanOOO: bool,
    BlackCanOO: bool,
    BlackCanOOO: bool,
    epSquare: Option<int>,
    HalfMoveClock: int,
    FullMoveCounter: int)

  function EmptyPosition(): Position {
    Position([], WHITE, true, true, true, true, None, 0, 0)
  }

  /** The squares a pawn can skip over with a double step: 16..23 and 40..47. */
  predicate IsEpSquare(e: int) {
    16 <= e < 24 || 40 <= e < 48
  }

  /**
   * The five fields after the placement, as the reader can produce them
   * from a well-formed text, with clocks a double holds exactly.
   */
  predicate ValidTail(P: Position) {
    && (P.SideToMove == WHITE || P.SideToMove == BLACK)
    && (P.epSquare.Some? ==> IsEpSquare(P.epSquare.value))
    && 0 <= P.HalfMoveClock <= MAX_SAFE_INTEGER
    && 1 <= P.FullMoveCounter <= MAX_SAFE_INTEGER
  }

  /** A position that is a value the reader can produce from a well-formed text. */
  predicate ValidPosition(P: Position) {
    && |P.Board| == 64
    && (forall k :: 0 <= k < 64 ==> ValidCode(P.Board[k]))
    && ValidTail(P)
  }

  // ---------------------------------------------------------------------
  // Reading
  // ---------------------------------------------------------------------

  /** What a field read, and the text left after it. */
  datatype Scan<T> = Scan(value: T, rest: string)

  /** A digit the placement loop expands into empty squares. */
  predicate IsRankDigit(c: char) {
    '1' <= c <= '8'
  }

  /** The characters the placement loop does not stop on without consuming. */
  predicate InPlacement(c: char) {
    IsRankDigit(c) || IsPieceLetter(c) || c == '/' || c == ' '
  }

  function Empties(k: nat): (e: seq<int>)
    ensures |e| == k && forall m :: 0 <= m < k ==> e[m] == NONE
  {
    seq(k, _ => NONE)
  }

  /** The squares one placement character writes: k empties for a digit k, one piece for a letter. */
  function Squares(c: char): (w: seq<int>)
    requires InPlacement(c) && c != ' '
    ensures forall m :: 0 <= m < |w| ==> ValidCode(w[m])
  {
    if IsRankDigit(c) then Empties(DigitValue(c))
    else if IsPieceLetter(c) then [PieceCode(c)]
    else []
  }

  /**
   * The placement loop: a digit k appends k empty squares, a letter one
   * piece, '/' nothing; a blank ends the field and is consumed; any other
   * character, or the end of the text, ends it without being consumed.
   * Nothing checks rank sums or the number of squares written.
   */
  function Placement(s: string, acc: seq<int>): (r: Scan<seq<int>>)
    ensures |acc| <= |r.value| && r.value[..|acc|] == acc
    ensures forall m :: |acc| <= m < |r.value| ==> ValidCode(r.value[m])
    decreases |s|
  {
    if s == [] then Scan(acc, s)
    else if s[0] == ' ' then Scan(acc, s[1..])
    else if !InPlacement(s[0]) then Scan(acc, s)
    else
      var a := acc + Squares(s[0]);
      var r := Placement(s[1..], a);
      assert r.value[..|acc|] == a[..|acc|];
      assert forall m :: |acc| <= m < |r.value| ==> ValidCode(r.value[m]) by {
        forall m | |acc| <= m < |a| ensures ValidCode(r.value[m]) {
          assert r.value[m] == r.value[..|a|][m] == a[m];
        }
      }
      r
  }

  /** Side to move: 'w' or 'b'; anything else keeps `cur` and consumes nothing. */
  function SideField(s: string, cur: int): (r: Scan<int>)
    ensures r.rest == s <==> (s == [] || (s[0] != 'w' && s[0] != 'b'))
    ensures r.rest == s ==> r.value == cur
    ensures r.rest != s ==> r.rest == s[1..] && (r.value == WHITE <==> s[0] == 'w') && (r.value == WHITE || r.value == BLACK)
  {
    if s != [] && s[0] == 'w' then Scan(WHITE, s[1..])
    else if s != [] && s[0] == 'b' then Scan(BLACK, s[1..])
    else Scan(cur, s)
  }

  /** A single blank separator; when it is missing nothing is consumed. */
  function SkipBlank(s: string): string {
    if s != [] && s[0] == ' ' then s[1..] else s
  }

  /** One of the four rigid castling positions: its own letter, or '-'. */
  function CastleField(s: string, letter: char, cur: bool): (r: Scan<bool>)
    requires letter != '-'
    ensures r.rest == s <==> (s == [] || (s[0] != letter && s[0] != '-'))
    ensures r.rest == s ==> r.value == cur
    ensures r.rest != s ==> r.rest == s[1..] && (r.value <==> s[0] == letter)
  {
    if s != [] && s[0] == '-' then Scan(false, s[1..])
    else if s != [] && s[0] == letter then Scan(true, s[1..])
    else Scan(cur, s)
  }

  predicate IsFileLetter(c: char) {
    'a' <= c <= 'h'
  }

  /** The letter of file f, as `"abcdefgh"[f]`. */
  function FileLetter(f: nat): (c: char)
    requires f < 8
    ensures IsFileLetter(c)
  {
    (('a' as int) + f) as char
  }

  /** The file of a letter, as `"abcdefgh".indexOf(c)`. */
  function FileIndex(c: char): (f: nat)
    requires IsFileLetter(c)
    ensures f < 8 && FileLetter(f) == c
  {
    (c as int) - ('a' as int)
  }

  /** En passant target: '-' clears it; a file letter and '3' or '6' sets `8*(digit-1)+file`. */
  function EpField(s: string, cur: Option<int>): (r: Scan<Option<int>>)
    ensures r.rest == s ==> r.value == cur
    ensures r.rest != s ==> r.value.None? || IsEpSquare(r.value.value)
  {
    if s != [] && s[0] == '-' then Scan(None, s[1..])
    else if |s| >= 2 && IsFileLetter(s[0]) && (s[1] == '3' || s[1] == '6') then
      Scan(Some(8 * (DigitValue(s[1]) - 1) + FileIndex(s[0])), s[2..])
    else Scan(cur, s)
  }

  /** The `while` over decimal digits: `acc := 10*acc + digit` over the longest digit run. */
  function DigitRun(s: string, acc: int): (r: Scan<int>)
    ensures |r.rest| <= |s|
    ensures r.rest == [] || !IsDigit(r.rest[0])
    ensures AllDigits(s[..|s| - |r.rest|]) && r.value == Accumulate(acc, s[..|s| - |r.rest|])
    decreases |s|
  {
    if s != [] && IsDigit(s[0]) then
      var r := DigitRun(s[1..], 10 * acc + DigitValue(s[0]));
      assert s[..|s| - |r.rest|] == [s[0]] + s[1..][..|s[1..]| - |r.rest|];
      r
    else
      assert s[..|s| - |s|] == [];
      Scan(acc, s)
  }

  /** Halfmove clock: a first digit, then the digit loop; no digit keeps `cur`. */
  function HalfMoveField(s: string, cur: int): Scan<int> {
    if s != [] && IsDigit(s[0]) then DigitRun(s[1..], DigitValue(s[0])) else Scan(cur, s)
  }

  /**
   * Fullmove counter: the first digit must be 1..9; when it is not, the digit
   * loop still runs, accumulating onto `cur`.
   */
  function FullMoveField(s: string, cur: int): (r: Scan<int>)
    ensures |r.rest| <= |s| && (r.rest == [] || !IsDigit(r.rest[0]))
    ensures var n := |s| - |r.rest|;
      && AllDigits(s[..n])
      && r.value == Accumulate(if n > 0 && IsNonZeroDigit(s[0]) then 0 else cur, s[..n])
  {
    if s != [] && IsNonZeroDigit(s[0]) then
      var r := DigitRun(s[1..], DigitValue(s[0]));
      assert s[..|s| - |r.rest|][1..] == s[1..][..|s[1..]| - |r.rest|];
      r
    else DigitRun(s, cur)
  }

  /**
   * A leading '0' is read by the fallback loop like any other digit: it
   * multiplies the old counter by ten, so "05" over 7 gives 705.
   */
  lemma FullMoveLeadingZero(t: string, cur: int)
    ensures FullMoveField("0" + t, cur) == DigitRun(t, 10 * cur)
    ensures FullMoveField("05", 7).value == 705
  {
    assert ("0" + t)[1..] == t;
    assert "05"[1..] == "5";
  }

  /** The record being filled in, and the unread text. */
  datatype Cursor = Cursor(P: Position, rest: string)

  /** `Board[i++] = v` from i = 0 over an existing array: the first |w| entries are replaced. */
  function Overlay(prior: seq<int>, w: seq<int>): (b: seq<int>)
    ensures |b| == if |w| >= |prior| then |w| else |prior|
    ensures b[..|w|] == w
    ensures forall m :: |w| <= m < |b| ==> b[m] == prior[m]
  {
    if |w| >= |prior| then w else w + prior[|w|..]
  }

  function PlacementStep(c: Cursor): Cursor {
    var r := Placement(c.rest, []);
    Cursor(c.P.(Board := Overlay(c.P.Board, r.value)), r.rest)
  }

  function SideStep(c: Cursor): Cursor {
    var r := SideField(c.rest, c.P.SideToMove);
    Cursor(c.P.(SideToMove := r.value), r.rest)
  }

  function BlankStep(c: Cursor): Cursor {
    c.(rest := SkipBlank(c.rest))
  }

  function CastlingStep(c: Cursor): Cursor {
    var wk := CastleField(c.rest, 'K', c.P.WhiteCanOO);
    var wq := CastleField(wk.rest, 'Q', c.P.WhiteCanOOO);
    var bk := CastleField(wq.rest, 'k', c.P.BlackCanOO);
    var bq := CastleField(bk.rest, 'q', c.P.BlackCanOOO);
    Cursor(c.P.(WhiteCanOO := wk.value, WhiteCanOOO := wq.value,
                BlackCanOO := bk.value, BlackCanOOO := bq.value), bq.rest)
  }

  function EpStep(c: Cursor): Cursor {
    var r := EpField(c.rest, c.P.epSquare);
    Cursor(c.P.(epSquare := r.value), r.rest)
  }

  function HalfMoveStep(c: Cursor): Cursor {
    var r := HalfMoveField(c.rest, c.P.HalfMoveClock);
    Cursor(c.P.(HalfMoveClock := r.value), r.rest)
  }

  function FullMoveStep(c: Cursor): Cursor {
    var r := FullMoveField(c.rest, c.P.FullMoveCounter);
    Cursor(c.P.(FullMoveCounter := r.value), r.rest)
  }

  /** The six fields after the placement, with the blanks between them. */
  function FieldsStep(c: Cursor): Cursor {
    FullMoveStep(BlankStep(HalfMoveStep(BlankStep(EpStep(BlankStep(CastlingStep(BlankStep(SideStep(c)))))))))
  }

  /** The whole reader, starting from the record `start`. */
  function ParseInto(fen: string, start: Position): Cursor {
    FieldsStep(PlacementStep(Cursor(start, fen)))
  }

  /** `parse` of js/morphy.js: the reader started on `emptyPosition()`. */
  function ParseFen(fen: string): Position {
    ParseInto(fen, EmptyPosition()).P
  }

  // ---------------------------------------------------------------------
  // Writing
  // ---------------------------------------------------------------------

  predicate ValidBoard(B: seq<int>) {
    |B| >= 64 && forall k :: 0 <= k < 64 ==> ValidCode(B[k])
  }

  /** What the printer needs after the placement: a side and a non-negative en passant square. */
  predicate TailPrintable(P: Position) {
    && (P.SideToMove == WHITE || P.SideToMove == BLACK)
    && (P.epSquare.Some? ==> P.epSquare.value >= 0)
  }

  /** What the printer needs: 64 valid codes and a printable tail. */
  predicate Encodable(P: Position) {
    ValidBoard(P.Board) && TailPrintable(P)
  }

  /** Empty squares waiting to be written once square i has been looked at. */
  function Pending(B: seq<int>, i: nat, count: nat): nat
    requires ValidBoard(B) && i < 64
  {
    if B[i] == NONE then count + 1 else count
  }

  /** The run of empty squares is written before a piece and at the end of each rank. */
  predicate Flushes(B: seq<int>, i: nat, count: nat)
    requires ValidBoard(B) && i < 64
  {
    Pending(B, i, count) > 0 && (B[i] != NONE || i % 8 == 7)
  }

  /** The count the printer's loop carries to square i + 1. */
  function Carry(B: seq<int>, i: nat, count: nat): nat
    requires ValidBoard(B) && i < 64
  {
    if Flushes(B, i, count) then 0 else Pending(B, i, count)
  }

  /** The '/' the printer writes after the last square of every rank but the last. */
  function RankSep(i: int): string {
    if i % 8 == 7 && i < 63 then "/" else ""
  }

  /** What one turn of the printer's loop appends for square i. */
  function SquareText(B: seq<int>, i: nat, count: nat): string
    requires ValidBoard(B) && i < 64
  {
    (if Flushes(B, i, count) then NatToString(Pending(B, i, count)) else "")
    + (if B[i] != NONE then [Letter(B[i])] else "")
    + RankSep(i)
  }

  /**
   * The placement text from square i on, when `count` empty squares before i
   * are still to be written: one turn of the printer's loop per square.
   */
  function Emit(B: seq<int>, i: nat, count: nat): string
    requires ValidBoard(B) && i <= 64
    decreases 64 - i
  {
    if i == 64 then "" else SquareText(B, i, count) + Emit(B, i + 1, Carry(B, i, count))
  }

  function SideText(side: int): string
    requires side == WHITE || side == BLACK
  {
    if side == WHITE then "w" else "b"
  }

  function CastlingText(P: Position): string {
    [if P.WhiteCanOO then 'K' else '-', if P.WhiteCanOOO then 'Q' else '-',
     if P.BlackCanOO then 'k' else '-', if P.BlackCanOOO then 'q' else '-']
  }

  function EpText(ep: Option<int>): string
    requires ep.Some? ==> ep.value >= 0
  {
    if ep.None? then "-" else [FileLetter(ep.value % 8)] + NatToString(ep.value / 8 + 1)
  }

  /** Everything after the placement field's blank. */
  function TailText(P: Position): string
    requires TailPrintable(P)
  {
    SideText(P.SideToMove) + " " + CastlingText(P) + " " + EpText(P.epSquare)
    + " " + IntText(P.HalfMoveClock) + " " + IntText(P.FullMoveCounter)
  }

  /** `unparse`: the text the printer builds for a position. */
  function FenOf(P: Position): string
    requires Encodable(P)
  {
    Emit(P.Board, 0, 0) + " " + TailText(P)
  }
}
