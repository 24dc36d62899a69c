/**
 * The printer and the reader together.  Reading what `unparse` wrote gives
 * the record back (on any starting record, the board being written over
 * its first 64 entries); printing what `parse` read from a canonical text
 * gives the text back; and the canonical texts are exactly the texts the
 * printer writes.
 */
module RoundTrip {
  import opened Pieces
  import opened Fen
  import opened PlacementLaws
  import opened TailLaws
  import opened Canon
  import opened TailCanon

  /** Writing 64 valid squares over a board. */
  lemma OverlayBoard(prior: seq<int>, w: seq<int>)
    requires |w| == 64 && ValidBoard(w)
    ensures ValidBoard(Overlay(prior, w)) && Overlay(prior, w)[..64] == w[..64]
  {
    var b := Overlay(prior, w);
    assert w[..64] == w;
    forall k | 0 <= k < 64 ensures ValidCode(b[k]) {
      assert b[k] == b[..64][k];
    }
  }

  /**
   * Reading the printer's text from any starting record: the 64 squares are
   * written over the start's board, the five other fields come back as
   * they were, and the whole text is consumed.
   */
  lemma ParsePrinted(P: Position, S: Position)
    requires Encodable(P) && ValidTail(P)
    ensures ParseInto(FenOf(P), S) == Cursor(P.(Board := Overlay(S.Board, P.Board[..64])), "")
  {
    var t := TailText(P);
    ReadPlacementText(P.Board, t);
    var Q := S.(Board := Overlay(S.Board, P.Board[..64]));
    assert PlacementStep(Cursor(S, FenOf(P))) == Cursor(Q, t);
    ReadTailText(P, Q);
  }

  /** `parse(unparse(P))` is P for every record the reader can produce. */
  lemma ParseFenOf(P: Position)
    requires ValidPosition(P)
    ensures Encodable(P) && ParseFen(FenOf(P)) == P
  {
    assert P.Board[..64] == P.Board;
    ParsePrinted(P, EmptyPosition());
    assert Overlay([], P.Board) == P.Board;
  }

  /**
   * Reading a canonical text from any starting record consumes all of it
   * and gives a record the printer writes as that same text.
   */
  lemma CanonicalRoundTrip(fen: string, S: Position)
    requires Canonical(fen)
    ensures var c := ParseInto(fen, S);
      && c.rest == [] && Encodable(c.P) && ValidTail(c.P)
      && FenOf(c.P) == fen
  {
    var t := CanonPlacement(fen, 0, false).value;
    CanonRead(fen, 0, false, [], t);
    var B := Placement(fen, []).value;
    var b := Overlay(S.Board, B);
    var Q := S.(Board := b);
    assert PlacementStep(Cursor(S, fen)) == Cursor(Q, t);
    OverlayBoard(S.Board, B);
    CanonTailRead(t, Q);
    EmitFirst64(b, B, 0, 0);
  }

  /** `parse` from `emptyPosition()` gives exactly 64 squares on a canonical text. */
  lemma CanonicalParseFen(fen: string)
    requires Canonical(fen)
    ensures ValidPosition(ParseFen(fen)) && FenOf(ParseFen(fen)) == fen
  {
    CanonicalRoundTrip(fen, EmptyPosition());
    var t := CanonPlacement(fen, 0, false).value;
    CanonRead(fen, 0, false, [], t);
  }

  /** The printer writes canonical text for every record the reader can produce. */
  lemma PrintedIsCanonical(P: Position)
    requires Encodable(P) && ValidTail(P)
    ensures Canonical(FenOf(P))
  {
    EmitCanon(P.Board, 0, TailText(P));
    PrintedTailCanonical(P);
  }

  /** The canonical texts are exactly the texts the printer writes. */
  lemma CanonicalIffPrinted(fen: string)
    ensures Canonical(fen) <==> exists P :: ValidPosition(P) && FenOf(P) == fen
  {
    if Canonical(fen) {
      CanonicalParseFen(fen);
    }
    if P :| ValidPosition(P) && FenOf(P) == fen {
      PrintedIsCanonical(P);
    }
  }
}
