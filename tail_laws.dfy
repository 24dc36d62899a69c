/**
 * Laws of the five fields after the placement: side to move, castling,
 * en passant, halfmove clock and fullmove counter.  Each field the printer
 * writes is read back into the value it came from, and each field of the
 * canonical shape is the printer's text for the value the reader gets.
 */
module TailLaws {
  import opened Pieces
  import opened Decimal
  import opened Fen

  // ---------------------------------------------------------------------
  // Numerals
  // ---------------------------------------------------------------------

  /** The digit loop over a run of digits followed by a non-digit reads exactly the run. */
  lemma {:induction false} DigitRunAppend(d: string, r: string, acc: int)
    requires AllDigits(d)
    requires r == [] || !IsDigit(r[0])
    ensures DigitRun(d + r, acc) == Scan(Accumulate(acc, d), r)
    decreases |d|
  {
    if d == [] {
      assert d + r == r;
    } else {
      assert (d + r)[0] == d[0];
      assert (d + r)[1..] == d[1..] + r;
      DigitRunAppend(d[1..], r, 10 * acc + DigitValue(d[0]));
    }
  }

  /** A numeral read by the clock fields: its first digit starts the value, the loop reads the rest. */
  lemma NumeralRead(s: string, r: string)
    requires IsDecimal(s)
    requires r == [] || !IsDigit(r[0])
    ensures s + r != [] && IsDigit((s + r)[0])
    ensures DigitRun((s + r)[1..], DigitValue((s + r)[0])) == Scan(Accumulate(0, s), r)
  {
    assert (s + r)[0] == s[0];
    assert (s + r)[1..] == s[1..] + r;
    DigitRunAppend(s[1..], r, DigitValue(s[0]));
    assert Accumulate(0, s) == Accumulate(DigitValue(s[0]), s[1..]);
  }

  /** The halfmove clock as the printer writes it is read back. */
  lemma HalfMoveRoundTrip(h: int, r: string, cur: int)
    requires h >= 0
    requires r == [] || !IsDigit(r[0])
    ensures HalfMoveField(IntText(h) + r, cur) == Scan(h, r)
  {
    NumeralRead(NatToString(h), r);
    AccumulateNatToString(h);
  }

  /** The fullmove counter as the printer writes it is read back when it is at least 1. */
  lemma FullMoveRoundTrip(f: int, r: string, cur: int)
    requires f >= 1
    requires r == [] || !IsDigit(r[0])
    ensures FullMoveField(IntText(f) + r, cur) == Scan(f, r)
  {
    var s := NatToString(f);
    NumeralRead(s, r);
    AccumulateNatToString(f);
    assert (s + r)[0] == s[0];
    assert IsNonZeroDigit(s[0]);
  }

  // ---------------------------------------------------------------------
  // The other fields
  // ---------------------------------------------------------------------

  lemma SideRoundTrip(side: int, r: string, cur: int)
    requires side == WHITE || side == BLACK
    ensures SideField(SideText(side) + r, cur) == Scan(side, r)
  {
    assert (SideText(side) + r)[1..] == r;
  }

  lemma CastleRoundTrip(c: char, letter: char, r: string, cur: bool)
    requires letter != '-' && (c == letter || c == '-')
    ensures CastleField([c] + r, letter, cur) == Scan(c == letter, r)
  {
    assert ([c] + r)[1..] == r;
  }

  lemma FourChars(c: string, r: string)
    requires |c| == 4
    ensures c + r == [c[0]] + ([c[1]] + ([c[2]] + ([c[3]] + r)))
  {
    assert c == [c[0], c[1], c[2], c[3]];
  }

  /** The four castling characters are read back into the four flags, in the order K, Q, k, q. */
  lemma CastlingRoundTrip(P: Position, Q: Position, r: string)
    ensures CastlingStep(Cursor(Q, CastlingText(P) + r))
         == Cursor(Q.(WhiteCanOO := P.WhiteCanOO, WhiteCanOOO := P.WhiteCanOOO,
                      BlackCanOO := P.BlackCanOO, BlackCanOOO := P.BlackCanOOO), r)
  {
    var c := CastlingText(P);
    FourChars(c, r);
    CastleRoundTrip(c[0], 'K', [c[1]] + ([c[2]] + ([c[3]] + r)), Q.WhiteCanOO);
    CastleRoundTrip(c[1], 'Q', [c[2]] + ([c[3]] + r), Q.WhiteCanOOO);
    CastleRoundTrip(c[2], 'k', [c[3]] + r, Q.BlackCanOO);
    CastleRoundTrip(c[3], 'q', r, Q.BlackCanOOO);
  }

  /** A square the en passant field can name is written as a file letter and the digit 3 or 6. */
  lemma EpTextShape(e: int)
    requires IsEpSquare(e)
    ensures EpText(Some(e)) == [FileLetter(e % 8), DigitChar(e / 8 + 1)]
    ensures DigitChar(e / 8 + 1) == '3' || DigitChar(e / 8 + 1) == '6'
    ensures 8 * (DigitValue(DigitChar(e / 8 + 1)) - 1) + FileIndex(FileLetter(e % 8)) == e
  {
    assert e / 8 + 1 == 3 || e / 8 + 1 == 6;
  }

  lemma EpRoundTrip(ep: Option<int>, r: string, cur: Option<int>)
    requires ep.Some? ==> IsEpSquare(ep.value)
    ensures EpField(EpText(ep) + r, cur) == Scan(ep, r)
  {
    if ep.Some? {
      EpTextShape(ep.value);
      assert (EpText(ep) + r)[2..] == r;
    } else {
      assert (EpText(ep) + r)[1..] == r;
    }
  }

  lemma BlankRead(r: string)
    ensures SkipBlank(" " + r) == r
  {
    assert (" " + r)[1..] == r;
  }

  lemma Assoc(a: string, b: string, c: string)
    ensures (a + b) + c == a + (b + c)
  {
  }

  /** Nine texts joined from the left are the same texts joined from the right. */
  lemma NestRight(a1: string, a2: string, a3: string, a4: string, a5: string,
                  a6: string, a7: string, a8: string, a9: string)
    ensures a1 + a2 + a3 + a4 + a5 + a6 + a7 + a8 + a9
         == a1 + (a2 + (a3 + (a4 + (a5 + (a6 + (a7 + (a8 + a9)))))))
  {
    var r8 := a8 + a9;
    Assoc(a1 + a2 + a3 + a4 + a5 + a6 + a7, a8, a9);
    var r7 := a7 + r8;
    Assoc(a1 + a2 + a3 + a4 + a5 + a6, a7, r8);
    var r6 := a6 + r7;
    Assoc(a1 + a2 + a3 + a4 + a5, a6, r7);
    var r5 := a5 + r6;
    Assoc(a1 + a2 + a3 + a4, a5, r6);
    var r4 := a4 + r5;
    Assoc(a1 + a2 + a3, a4, r5);
    var r3 := a3 + r4;
    Assoc(a1 + a2, a3, r4);
    Assoc(a1, a2, r3);
  }

  /** The printer's tail, regrouped field by field from the right. */
  lemma TailTextFields(P: Position)
    requires TailPrintable(P)
    ensures TailText(P)
         == SideText(P.SideToMove) + (" " + (CastlingText(P) + (" " + (EpText(P.epSquare)
            + (" " + (IntText(P.HalfMoveClock) + (" " + IntText(P.FullMoveCounter))))))))
  {
    NestRight(SideText(P.SideToMove), " ", CastlingText(P), " ", EpText(P.epSquare),
              " ", IntText(P.HalfMoveClock), " ", IntText(P.FullMoveCounter));
  }

  // ---------------------------------------------------------------------
  // The same, one reader step at a time
  // ---------------------------------------------------------------------

  lemma SideStepRead(Q: Position, side: int, r: string)
    requires side == WHITE || side == BLACK
    ensures SideStep(Cursor(Q, SideText(side) + r)) == Cursor(Q.(SideToMove := side), r)
  {
    SideRoundTrip(side, r, Q.SideToMove);
  }

  lemma BlankStepRead(Q: Position, r: string)
    ensures BlankStep(Cursor(Q, " " + r)) == Cursor(Q, r)
  {
    BlankRead(r);
  }

  lemma EpStepRead(Q: Position, ep: Option<int>, r: string)
    requires ep.Some? ==> IsEpSquare(ep.value)
    ensures EpStep(Cursor(Q, EpText(ep) + r)) == Cursor(Q.(epSquare := ep), r)
  {
    EpRoundTrip(ep, r, Q.epSquare);
  }

  lemma HalfMoveStepRead(Q: Position, h: int, r: string)
    requires h >= 0 && (r == [] || !IsDigit(r[0]))
    ensures HalfMoveStep(Cursor(Q, IntText(h) + r)) == Cursor(Q.(HalfMoveClock := h), r)
  {
    HalfMoveRoundTrip(h, r, Q.HalfMoveClock);
  }

  lemma FullMoveStepRead(Q: Position, f: int)
    requires f >= 1
    ensures FullMoveStep(Cursor(Q, IntText(f))) == Cursor(Q.(FullMoveCounter := f), "")
  {
    assert IntText(f) + "" == IntText(f);
    FullMoveRoundTrip(f, "", Q.FullMoveCounter);
  }

  /** Side to move and castling, with the blanks after them. */
  lemma ReadTailFront(P: Position, Q: Position, e: string)
    requires P.SideToMove == WHITE || P.SideToMove == BLACK
    ensures BlankStep(CastlingStep(BlankStep(SideStep(Cursor(Q, SideText(P.SideToMove) + (" " + (CastlingText(P) + (" " + e))))))))
         == Cursor(Q.(SideToMove := P.SideToMove, WhiteCanOO := P.WhiteCanOO, WhiteCanOOO := P.WhiteCanOOO,
                      BlackCanOO := P.BlackCanOO, BlackCanOOO := P.BlackCanOOO), e)
  {
    var c := CastlingText(P) + (" " + e);
    var q1 := Q.(SideToMove := P.SideToMove);
    SideStepRead(Q, P.SideToMove, " " + c);
    BlankStepRead(q1, c);
    CastlingRoundTrip(P, q1, " " + e);
    var q2 := q1.(WhiteCanOO := P.WhiteCanOO, WhiteCanOOO := P.WhiteCanOOO,
                  BlackCanOO := P.BlackCanOO, BlackCanOOO := P.BlackCanOOO);
    BlankStepRead(q2, e);
  }

  /** En passant and the two clocks, with the blanks between them. */
  lemma ReadTailBack(P: Position, Q: Position)
    requires ValidTail(P)
    ensures FullMoveStep(BlankStep(HalfMoveStep(BlankStep(EpStep(Cursor(Q,
              EpText(P.epSquare) + (" " + (IntText(P.HalfMoveClock) + (" " + IntText(P.FullMoveCounter))))))))))
         == Cursor(Q.(epSquare := P.epSquare, HalfMoveClock := P.HalfMoveClock, FullMoveCounter := P.FullMoveCounter), "")
  {
    var f := IntText(P.FullMoveCounter);
    var h := IntText(P.HalfMoveClock) + (" " + f);
    EpStepRead(Q, P.epSquare, " " + h);
    var q3 := Q.(epSquare := P.epSquare);
    BlankStepRead(q3, h);
    HalfMoveStepRead(q3, P.HalfMoveClock, " " + f);
    var q4 := q3.(HalfMoveClock := P.HalfMoveClock);
    BlankStepRead(q4, f);
    FullMoveStepRead(q4, P.FullMoveCounter);
  }

  /**
   * Reading the printer's tail: the five fields come back as they were, the
   * board is left alone, and the whole text is consumed.
   */
  lemma ReadTailText(P: Position, Q: Position)
    requires ValidTail(P)
    ensures TailPrintable(P)
    ensures FieldsStep(Cursor(Q, TailText(P))) == Cursor(P.(Board := Q.Board), "")
  {
    var e := EpText(P.epSquare) + (" " + (IntText(P.HalfMoveClock) + (" " + IntText(P.FullMoveCounter))));
    TailTextFields(P);
    ReadTailFront(P, Q, e);
    var q2 := Q.(SideToMove := P.SideToMove, WhiteCanOO := P.WhiteCanOO, WhiteCanOOO := P.WhiteCanOOO,
                 BlackCanOO := P.BlackCanOO, BlackCanOOO := P.BlackCanOOO);
    ReadTailBack(P, q2);
  }
}
