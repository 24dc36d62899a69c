# Morphy FEN codec, in Dafny

Morphy is a small browser chess GUI. Its core reads and writes
Forsyth-Edwards Notation (FEN, section 16.1 of the PGN Standard). FEN is one
line of text holding six fields: the piece placement, the side to move,
castling rights, the en passant target, the halfmove clock and the fullmove
counter. Around that core sit a copy-on-write move (`nextBoard`,
`nextPosition`) and a two-state mouse handler that moves pieces on the board.

This project models that core in two versions:

- `js/morphy.js`: `parse` builds a position record from `emptyPosition()`.
  `unparse` prints a record back.
- `version/morphy_step4.js`: the same reader, printer and handler, working
  on module globals instead of a record.

How the modules split the work:

- `Pieces` holds the integer piece codes, where the colour sits in the high
  bits (WHITE = 8, BLACK = 16) and the kind in the low three bits, plus
  `Color` and the letter tables.
- `Decimal` holds numerals: `String(n)` and the reader's
  `acc = 10*acc + digit`.
- `Fen` holds the specification functions.
  - The reader is specified field by field on the unread text. Each field
    returns what it read and the text left after it. A field that does not
    match keeps the value it was given and consumes nothing. The fullmove
    counter is the exception: when its first character is not 1-9, its
    digit loop still runs and accumulates onto the old counter. Every
    digit, the leading 0 included, multiplies the counter by ten, so "05"
    gives `100*old + 5`.
  - `ParseInto(fen, start)` is the whole reader. `parse` in
    `js/morphy.js` starts it from `emptyPosition()`; `parse` in
    `version/morphy_step4.js` starts it from the current globals.
  - `FenOf` is the printer, run one loop turn per square (`Emit`).
- `PlacementLaws`, `TailLaws`, `Canon`, `TailCanon` and `RoundTrip` state
  and prove the two laws the source's comment promises:
  `parse(unparse(P)) = P` and `unparse(parse(fen)) = fen`.
  - The first law holds for every position the reader can produce
    (`ValidPosition`).
  - The second law is proved for every canonical text, a shape that
    `Canon.Canonical` states on characters alone.
  - `RoundTrip.CanonicalIffPrinted` proves the canonical texts are exactly
    the texts `unparse` writes for those positions. A few texts outside
    that shape also come back unchanged, such as one whose fullmove
    counter is "0": the fallback loop reads it as 0, which prints as "0".
  - Both laws are stated for clocks of at most `Number.MAX_SAFE_INTEGER`
    (2^53 - 1), the range where the source's doubles are exact.
- `Morphy` holds `parse` and `unparse` as the loops they are: the
  `while(flag)` placement loop, the digit loops, and the 64-turn printer
  loop. Each is proved equal to the specification functions.
- `Moves` holds `nextBoard`, `nextPosition` and `doMouseDown`.
  - `Click` is a function on the handler state.
  - Class `Gui` is the handler that updates `State`, `FromSq`, `DestSq`
    and the shared record `_P` in place.
- `Step4` holds class `Globals`, the globals of `version/morphy_step4.js`,
  with its `parse`, `unparse` and `doMouseDown` as methods.

JavaScript details that the model writes out:

- `fen[j]` past the end of the text is `undefined`, so no switch case
  matches it. The model treats the end of the text like an unrecognised
  character.
- `Board[i++] = v` on an existing array replaces entries from index 0 on and
  never shortens the array (`Fen.Overlay`, `Morphy.Write`).
- `String(n)` of a negative number writes a minus sign (`Decimal.IntText`).

Where the code and the design description disagree, the model follows the
code:

- Decoding has no error result, and the reader always goes on to the next
  field. A field that does not match keeps its previous value and consumes
  nothing, except the fullmove counter, described above. Most fields log a
  message when they do not match; the en passant field logs nothing.
  Because there is no error result, `unparse(parse(t)) = t` is proved for
  canonical texts, not for "texts that decode without error".
- The rank sums are not checked while reading.
- `nextBoard` allows a move when the piece on `from` has the colour of the
  side to move and the piece on `to` does not. It does not use the rule
  "from is occupied and to is empty or of the other colour".
- `nextPosition` always increments the halfmove clock.
- `nextPosition` as written does not flip the side to move and does not
  count full moves after BLACK's move. Both are recorded under Findings.

## Model

| member | source | states |
|---|---|---|
| Pieces.Color | js/morphy.js:93-101 | returns NONE, WHITE or BLACK; for a piece code it is the code's colour bits; for a valid code it is NONE exactly on the empty square |
| Pieces.PieceCode | js/morphy.js:218-229 | every placement letter gives one of the twelve piece codes; lower-case letters give BLACK pieces and upper-case letters WHITE pieces |
| Pieces.LetterCode | js/morphy.js:370-382 | the printer's switch (`Pieces.Letter`) has a letter for every piece code; that letter is a placement letter, and reading it gives the same code back |
| Pieces.LetterOfPieceCode | js/morphy.js:218-229 | the printer's letter for the code read from a letter is that letter |
| Decimal.NatToString | js/morphy.js:365 | `String(n)` gives only digits, with no leading zero when n >= 1, and is a single character exactly when n < 10 |
| Decimal.IntText | js/morphy.js:432-441 | `String(n)` of a clock: the numeral for n >= 0, a minus sign before the numeral of -n otherwise (exact up to `MAX_SAFE_INTEGER`, see Left out) |
| Decimal.AccumulateNatToString | js/morphy.js:320-323 | the reader's digit loop gives back the number `String(n)` wrote |
| Decimal.NatToStringAccumulate | js/morphy.js:320-323 | a decimal numeral without a leading zero is `String` of the value the digit loop reads from it |
| Fen.Empties | js/morphy.js:209-215 | a digit k writes exactly k NONE squares |
| Fen.Placement | js/morphy.js:206-236 | the placement loop only appends squares, and every square it appends is a valid code |
| Fen.SideField | js/morphy.js:240-246 | the side switch consumes a character exactly when it is 'w' or 'b'; 'w' gives WHITE and 'b' gives BLACK; otherwise the side is kept |
| Fen.CastleField | js/morphy.js:256-262 | a castling switch consumes a character exactly when it is '-' or its own letter; the flag becomes true exactly on the letter; otherwise the flag is kept |
| Fen.FileIndex | js/morphy.js:299 | `"abcdefgh".indexOf(c)` of a file letter is a file below 8, and printing that file gives the letter back |
| Fen.EpField | js/morphy.js:296-302 | the en passant field either keeps the value and consumes nothing, or gives None or a square on the third or sixth rank |
| Fen.DigitRun | js/morphy.js:320-323 | the digit loop consumes the longest run of digits, stops before a non-digit, and accumulates `10*acc + d` over that run (exact up to `MAX_SAFE_INTEGER`, see Left out) |
| Fen.Overlay | version/morphy_step4.js:169-199 | writing `Board[i++]` from index 0 over an existing board: the written squares come first, later entries keep their old values, and the array never shrinks |
| Morphy.Write | js/morphy.js:212 | `board[i] = v` with i at most the length replaces entry i, or appends v when i is the length; every other entry is kept |
| Morphy.OverlayWrite | js/morphy.js:212 | one more `Board[i++] = v` on the overlaid board is the overlay with v appended |
| Morphy.WriteEmpties | js/morphy.js:209-215 | the inner `while (k > 0)` loop appends exactly k empty squares to the squares written so far |
| Morphy.ReadPlacement | js/morphy.js:206-236 | the `while(flag)` loop writes the squares `Placement` reads over the starting board, and leaves the cursor where `Placement` leaves the text |
| Morphy.ReadSide | js/morphy.js:240-246 | the side switch on the cursor does what `SideField` does on the unread text |
| Morphy.ReadBlank | js/morphy.js:248-253 | a separator switch leaves the cursor where `Fen.SkipBlank` leaves the text: one blank is skipped, anything else is left unread |
| Morphy.ReadCastle | js/morphy.js:256-262 | one castling switch on the cursor does what `CastleField` does |
| Morphy.ReadCastling | js/morphy.js:256-283 | the four castling switches, in the order K, Q, k, q, do what `CastlingStep` does |
| Morphy.ReadEp | js/morphy.js:296-302 | the en passant test on `fen[j]` and `fen[j+1]` does what `EpField` does |
| Morphy.ReadDigits | js/morphy.js:320-323 | the `while` over digits leaves the cursor and the accumulator where `DigitRun` leaves them |
| Morphy.ReadHalfMove | js/morphy.js:315-324 | the halfmove clock reader does what `Fen.HalfMoveField` does: a first digit starts the clock, the loop reads the rest, and no digit keeps the old clock |
| Fen.FullMoveField | js/morphy.js:337-346 | the fullmove field reads the longest run of digits and stops before a non-digit; its value is that run accumulated onto 0 when it starts with 1..9, and onto the old counter otherwise |
| Fen.FullMoveLeadingZero | js/morphy.js:340-346 | a leading '0' reaches the fallback loop, which reads the rest onto ten times the old counter: "05" over 7 gives 705 |
| Morphy.ReadFullMove | js/morphy.js:337-346 | the fullmove reader does what `Fen.FullMoveField` does: a first digit 1..9, otherwise the loop accumulates onto the old counter |
| Morphy.ReadInto | js/morphy.js:200-349 | the whole reader, started on any record, gives the record and the unread text of `Fen.ParseInto`, the placement step followed by the six field steps in the source's order |
| Morphy.Parse | js/morphy.js:200-349 | `parse(fen)` is `Fen.ParseFen(fen)`, the reader started on `Fen.EmptyPosition()`: the `emptyPosition()` of js/morphy.js:173-184, with an empty board, WHITE to move, all four castling rights, no en passant square and both clocks 0 |
| Morphy.UnparseSquare | js/morphy.js:361-391 | one turn of the printer's loop appends `Fen.SquareText` (the pending count before a piece or at a rank end, the piece's letter, '/' after a rank but the last) and carries the count of pending empty squares |
| Morphy.Unparse | js/morphy.js:356-444 | for 64 valid codes and a side of WHITE or BLACK, `unparse(P)` is `Fen.FenOf(P)`: the 64 turns of `Fen.Emit`, a blank, then `Fen.TailText(P)` |
| Morphy.UnparseTail | js/morphy.js:397-441 | the appends after the placement's blank add exactly `TailText(P)` |
| Morphy.UnparseFront | js/morphy.js:397-414 | the side letter and the four castling characters, each followed by a blank |
| Morphy.UnparseBack | js/morphy.js:420-441 | the en passant field and the two clocks, separated by blanks |
| PlacementLaws.ReadPlacementText | js/morphy.js:206-236 | reading the printer's placement followed by a blank gives back the 64 squares it came from, and stops right after the blank |
| PlacementLaws.PlacementSlashes | js/morphy.js:388-391 | the printer's placement has exactly seven '/' |
| PlacementLaws.EmitFirst64 | js/morphy.js:360 | the printer reads only the first 64 squares |
| TailLaws.SideRoundTrip | js/morphy.js:240-246 | the side letter the printer writes is read back as that side |
| TailLaws.CastlingRoundTrip | js/morphy.js:256-283 | the printer's four castling characters are read back into the four flags, and nothing else changes |
| TailLaws.EpTextShape | js/morphy.js:420-424 | a third- or sixth-rank square prints as a file letter and '3' or '6', and the reader's formula `8*(d-1)+file` gives the square back |
| TailLaws.EpRoundTrip | js/morphy.js:296-302 | the printer's en passant field is read back as the same value |
| TailLaws.HalfMoveRoundTrip | js/morphy.js:315-324 | a non-negative halfmove clock printed by `String` and followed by a non-digit is read back |
| TailLaws.FullMoveRoundTrip | js/morphy.js:337-346 | a fullmove counter of at least 1, printed and followed by a non-digit, is read back |
| TailLaws.ReadTailText | js/morphy.js:240-346 | reading the printer's five last fields gives them back, leaves the board alone and consumes the whole text |
| Canon.CanonRead | js/morphy.js:206-236 | reading a canonical placement writes exactly 64 valid squares, stops after the blank, and the printer writes that placement back from the squares |
| Canon.EmitCanon | js/morphy.js:359-392 | the printer's placement is canonical: ranks summing to 8, single digits never side by side, '/' between ranks |
| TailCanon.PrintedTailCanonical | js/morphy.js:397-441 | for a record the reader can produce, the printer's tail is canonical |
| TailCanon.CanonTailRead | js/morphy.js:240-346 | reading a canonical tail consumes all of it, keeps the board, and gives a record whose printed tail is that same text |
| RoundTrip.ParsePrinted | version/morphy_step4.js:164-310 | reading what the printer wrote, from any start, writes the 64 squares over the start's board, restores the five other fields and consumes the whole text |
| RoundTrip.ParseFenOf | js/morphy.js:194-197 | `parse(unparse(P)) = P` for every position with 64 valid squares, a side, a third- or sixth-rank en passant square, 0 <= halfmove and 1 <= fullmove, both at most `MAX_SAFE_INTEGER` |
| RoundTrip.CanonicalRoundTrip | js/morphy.js:480-483 | from any start, a canonical text is read completely, and the record read prints back as the same text |
| RoundTrip.CanonicalParseFen | js/morphy.js:194-197 | `unparse(parse(fen)) = fen` for every canonical text, and `parse` gives a valid position |
| RoundTrip.PrintedIsCanonical | js/morphy.js:356-444 | every text `unparse` writes for a position the reader can produce is canonical |
| RoundTrip.CanonicalIffPrinted | js/morphy.js:194-197 | a text is canonical exactly when it is `unparse` of some valid position (other texts, such as a fullmove counter of "0", may also print back unchanged) |
| Moves.NextBoard | js/morphy.js:605-612 | an allowed move puts the piece on `to` and empties `from`; a move that is not allowed returns the board unchanged; every other square is kept |
| Moves.NextBoardValid | js/morphy.js:605-612 | a board of 64 valid codes stays one |
| Moves.NextBoardMoverLands | js/morphy.js:607-610 | when the board changes, the mover's piece was on `from`, `to` did not hold its own piece, and `to` now holds a piece of the side to move |
| Moves.NextPositionFields | js/morphy.js:596-603 | `Moves.NextPosition` as written: the board is `nextBoard`, the side is always BLACK, the halfmove clock grows by one, the fullmove counter grows exactly when WHITE was to move, and castling and en passant are copied |
| Moves.NextPositionSideStuck | js/morphy.js:599 | as written, after BLACK's move BLACK is still to move |
| Moves.NextPositionCountsWhite | js/morphy.js:601 | as written, the fullmove counter grows after WHITE's move and not after the following move |
| Moves.Opponent | js/morphy.js:599 | the other colour is WHITE or BLACK and differs from the side given |
| Moves.NextPositionIntended | js/morphy.js:596-603 | as intended: the other side moves next, and the fullmove counter grows after BLACK's move |
| Moves.NextPositionIntendedValid | js/morphy.js:596-603 | the intended rule keeps a valid position valid, when its clocks are below `MAX_SAFE_INTEGER` |
| Moves.FullMovePerTwoPlies | js/morphy.js:601 | under the intended rule, a WHITE move then a BLACK move gives WHITE to move, one more full move and two more halfmoves |
| Moves.Click | js/morphy.js:636-672 | one click keeps the handler state valid (64 valid squares, READY or MOVING, a piece on `FromSq` while MOVING); the board changes only on a click in MOVING, which ends in READY |
| Moves.ClickReady | js/morphy.js:637-644 | READY: the clicked square becomes `FromSq`, the board is kept, and the state becomes MOVING exactly when the square holds a piece |
| Moves.ClickCancel | js/morphy.js:648-653 | MOVING, clicking `FromSq` again: both squares reset to NONE, back to READY, nothing moved |
| Moves.MovePiece | js/morphy.js:656-657 | `Board[DestSq] = Board[FromSq]; Board[FromSq] = NONE`: `from` ends empty, `to` gets the piece when the squares differ, and every other square is kept |
| Moves.ClickMove | js/morphy.js:655-668 | MOVING, another square: the move happens exactly when the target is empty or of the other colour; the piece lands there, `from` is emptied and every other square is kept; otherwise only `DestSq` changes |
| Moves.Gui.constructor | js/morphy.js:746 | the shared record starts as a parsed position, in READY |
| Moves.Gui.MouseDown | js/morphy.js:631-677 | the handler on `_P` in place does what `Click` does, changes nothing in `_P` but its board, and keeps the handler state valid |
| Step4.Globals.constructor | version/morphy_step4.js:450-455 | `var State = Ready`, and `var Board = []` from line 148 |
| Step4.Globals.Parse | version/morphy_step4.js:164-310 | `parse(fen)` sets the position globals to `ParseInto(fen, old globals)`, so fields that do not match keep their old values; the click globals are untouched |
| Step4.Globals.Store | version/morphy_step4.js:148-157 | the assignments of `parse` to the eight position globals: they take the values of the record read, and `State`, `FromSq`, `DestSq` keep theirs |
| Step4.Globals.Unparse | version/morphy_step4.js:314-402 | `unparse()` is `FenOf` of the current globals |
| Step4.Globals.ParseThenUnparse | version/morphy_step4.js:164-402 | `parse(fen)` then `unparse()` gives a canonical text back, whatever the globals held before |
| Step4.Globals.MouseDown | version/morphy_step4.js:457-503 | the handler on the global board in place does what `Click` does and changes no other position global |
| Step4.ParseWritesPrefix | version/morphy_step4.js:169-199 | the reader writes the squares it reads from index 0 on and leaves every later entry of the old board as it was |
| Step4.ParseEmptyKeepsAll | version/morphy_step4.js:164-310 | reading an empty text changes no global |
| Step4.ParseSideMissing | version/morphy_step4.js:203-209 | when the side to move is missing, its global keeps its old value |

## Left out

- Drawing, images, canvas scaling and the pixel-to-square geometry (`inBox`, `findSquare`) are UI plumbing. A click is modelled as a square 0..63 inside the board. A click outside the board does nothing in the source, and the model has no such input.
- Console messages are left out. So is the `flag` variable after the placement loop: it is false whatever the loop reads, and nothing afterwards uses it.
- The `default: unrecognized state` branch of `doMouseDown` is not modelled. `State` is only ever set to READY or MOVING, and `ValidUi` requires one of them.
- Moves.Gui.constructor, Step4.Globals.constructor: variables the source leaves `undefined` (`FromSq` and `DestSq` at js/morphy.js:625-626, and the globals of version/morphy_step4.js) start as 0, false or None. `undefined` itself is not modelled.
- In `version/morphy_step4.js`, `unparse` writes the implicit globals `fenstring` and `emptySquareCount`. In the model they are locals.
- Morphy.Unparse, Step4.Globals.Unparse: require 64 valid codes on the board, a side of WHITE or BLACK and a non-negative en passant square. Outside that, the two sources differ. In js/morphy.js a side other than WHITE or BLACK throws a ReferenceError at line 401, whose log names the undeclared `SideToMove`, so no text is returned. version/morphy_step4.js logs at line 359 and writes no side letter. In both, an unknown piece code logs a message and writes no letter. A negative en passant square prints as `undefined` followed by a rank digit. These paths are not modelled.
- Fen.DigitRun, Decimal.IntText: the source keeps the clocks as JavaScript doubles, which are exact only up to `Number.MAX_SAFE_INTEGER` (2^53 - 1) and print in exponent form from 1e21. The model's integers are exact at every size, so it departs from the source on longer clock numerals; for example "9007199254740993" reads back as 9007199254740992 in the source. The round-trip theorems are therefore stated only for clocks up to `MAX_SAFE_INTEGER` (`Fen.ValidTail`, `Canon.CanonClocks`), where the two agree.
- Moves.NextPositionIntendedValid: requires both clocks below `MAX_SAFE_INTEGER`, so that the incremented clocks stay in the exact range that `Fen.ValidTail` demands.
- Moves.NextBoard: requires both squares to be inside the board. When `from` is off the board the source refuses the move (its empty entry has colour NONE, which is not the side to move) and returns the copy unchanged. Only an on-board `from` with an off-board `to` writes past the end of the array at js/morphy.js:609. Neither case is modelled.
- Moves.Gui.MouseDown: requires a 64-square board of valid codes, which `_P = parse(Iposn)` at js/morphy.js:746 provides. The handler on a shorter board is not modelled.
- The halfmove clock reset on captures and pawn moves is not in the source, so it is not in the model.
- Concrete instances of the four test positions (js/morphy.js:455-458) are not stated separately. Each is covered by `RoundTrip.CanonicalParseFen` once it is canonical.

## Findings

| source | as written | input that shows it | evidently intended | confidence | as-written member | corrected member |
|---|---|---|---|---|---|---|
| js/morphy.js:599 | `SideToMove: ( WHITE ? BLACK : WHITE )` tests the constant WHITE (8, always truthy), so the side to move is always BLACK | any move from a position with BLACK to move: BLACK is to move again | `P.SideToMove == WHITE ? BLACK : WHITE`: the other side moves next | high, not executed | Moves.NextPositionSideStuck | Moves.NextPositionIntended |
| js/morphy.js:601 | the fullmove counter grows when WHITE was to move | WHITE moves from move 1: the counter becomes 2 before BLACK has replied | the counter grows after BLACK's move (section 16.1.3.6 of the PGN Standard) | high, not executed | Moves.NextPositionCountsWhite | Moves.FullMovePerTwoPlies |
