/**
 * The canonical shape of the five fields after the placement, in both
 * directions: the printer's tail is canonical, and the reader turns a
 * canonical tail into a record whose printed tail is that same text.
 */
module TailCanon {
  import opened Pieces
  import opened Decimal
  import opened Fen
  import opened TailLaws
  import opened Canon

  // ---------------------------------------------------------------------
  // Text helpers
  // ---------------------------------------------------------------------

  /** The leading run of digits of a numeral followed by a non-digit is the numeral. */
  lemma {:induction false} DigitPrefixAppend(d: string, r: string)
    requires AllDigits(d) && (r == [] || !IsDigit(r[0]))
    ensures DigitPrefix(d + r) == |d|
    decreases |d|
  {
    if d == [] {
      assert d + r == r;
    } else {
      assert (d + r)[0] == d[0];
      assert (d + r)[1..] == d[1..] + r;
      DigitPrefixAppend(d[1..], r);
    }
  }

  /** A text cut at a single character. */
  lemma SplitAt(c: string, k: nat)
    requires k < |c|
    ensures c == c[..k] + ([c[k]] + c[k + 1..])
  {
    assert c == c[..k] + c[k..];
    assert c[k..] == [c[k]] + c[k + 1..];
  }

  /** The side, the castling characters and what follows them, joined by blanks. */
  lemma FrontShape(s: string, c: string, e: string)
    requires |s| == 1 && |c| == 4
    ensures var t := s + (" " + (c + (" " + e)));
      && |t| == 7 + |e| && t[0] == s[0] && t[1] == ' '
      && t[2] == c[0] && t[3] == c[1] && t[4] == c[2] && t[5] == c[3]
      && t[6] == ' ' && t[7..] == e
  {
  }

  /** A text of at least seven characters, cut into the side, the castling characters and the rest. */
  lemma FrontSplit(t: string)
    requires |t| >= 7 && t[1] == ' ' && t[6] == ' '
    ensures t == [t[0]] + (" " + (t[2..6] + (" " + t[7..])))
  {
    var r := [t[0]] + (" " + (t[2..6] + (" " + t[7..])));
    FrontShape([t[0]], t[2..6], t[7..]);
    assert |r| == |t|;
    assert r[..7] == t[..7];
    assert r == r[..7] + r[7..];
    assert t == t[..7] + t[7..];
  }

  // ---------------------------------------------------------------------
  // The printer's tail is canonical
  // ---------------------------------------------------------------------

  /** The printer's numeral for a non-negative integer has no leading zero. */
  lemma NumeralIsDecimal(n: nat)
    ensures IsDecimal(NatToString(n))
  {
  }

  /** The printer's two clocks have the canonical shape. */
  lemma PrintedClocks(h: int, f: int)
    requires 0 <= h <= MAX_SAFE_INTEGER && 1 <= f <= MAX_SAFE_INTEGER
    ensures CanonClocks(IntText(h) + (" " + IntText(f)))
  {
    var a, b := NatToString(h), NatToString(f);
    var u := a + (" " + b);
    DigitPrefixAppend(a, " " + b);
    assert u[..|a|] == a;
    assert u[|a|] == ' ';
    assert u[|a| + 1..] == b;
    NumeralIsDecimal(h);
    NumeralIsDecimal(f);
    AccumulateNatToString(h);
    AccumulateNatToString(f);
  }

  /** The printer's en passant field, its blank and the clocks have the canonical shape. */
  lemma PrintedEpAndClocks(P: Position)
    requires ValidTail(P)
    ensures CanonEpAndClocks(EpText(P.epSquare) + (" " + (IntText(P.HalfMoveClock) + (" " + IntText(P.FullMoveCounter)))))
  {
    var c := IntText(P.HalfMoveClock) + (" " + IntText(P.FullMoveCounter));
    PrintedClocks(P.HalfMoveClock, P.FullMoveCounter);
    var ep := EpText(P.epSquare);
    var u := ep + (" " + c);
    if P.epSquare.Some? {
      EpTextShape(P.epSquare.value);
      assert u[0] == ep[0] && u[1] == ep[1] && u[2] == ' ';
      assert u[3..] == c;
    } else {
      assert u[0] == '-' && u[1] == ' ';
      assert u[2..] == c;
    }
  }

  /** The printer's tail for a record the reader can produce is canonical. */
  lemma PrintedTailCanonical(P: Position)
    requires ValidTail(P)
    ensures TailPrintable(P) && CanonTail(TailText(P))
  {
    var e := EpText(P.epSquare) + (" " + (IntText(P.HalfMoveClock) + (" " + IntText(P.FullMoveCounter))));
    TailTextFields(P);
    FrontShape(SideText(P.SideToMove), CastlingText(P), e);
    PrintedEpAndClocks(P);
  }

  // ---------------------------------------------------------------------
  // A canonical tail is a printed tail
  // ---------------------------------------------------------------------

  /** Canonical clocks are the printer's text for two numbers. */
  lemma ClocksWitness(c: string) returns (h: int, f: int)
    requires CanonClocks(c)
    ensures 0 <= h <= MAX_SAFE_INTEGER && 1 <= f <= MAX_SAFE_INTEGER
    ensures IntText(h) + (" " + IntText(f)) == c
  {
    var k := DigitPrefix(c);
    var a, b := c[..k], c[k + 1..];
    NatToStringAccumulate(a);
    NatToStringAccumulate(b);
    h, f := Accumulate(0, a), Accumulate(0, b);
    assert b[0] != '0';
    SplitAt(c, k);
  }

  /** A canonical en passant field and the clocks after it. */
  lemma EpWitness(u: string) returns (ep: Option<int>, c: string)
    requires CanonEpAndClocks(u)
    ensures ep.Some? ==> IsEpSquare(ep.value)
    ensures CanonClocks(c)
    ensures EpText(ep) + (" " + c) == u
  {
    if |u| >= 2 && u[0] == '-' && u[1] == ' ' && CanonClocks(u[2..]) {
      ep, c := None, u[2..];
      SplitAt(u, 1);
      assert u[..1] == "-";
      assert u[1..] == " " + c;
    } else {
      var file, digit := FileIndex(u[0]), DigitValue(u[1]);
      var e := 8 * (digit - 1) + file;
      assert digit == 3 || digit == 6;
      assert e % 8 == file && e / 8 + 1 == digit;
      ep, c := Some(e), u[3..];
      EpTextShape(e);
      assert DigitChar(digit) == u[1];
      assert EpText(ep) == u[..2];
      SplitAt(u, 2);
      assert u[2..] == " " + c;
    }
  }

  /** Four canonical castling characters are the printer's text for the flags they set. */
  lemma CastlingTextOf(P: Position, k: string)
    requires |k| == 4
    requires (k[0] == 'K' || k[0] == '-') && (k[1] == 'Q' || k[1] == '-')
    requires (k[2] == 'k' || k[2] == '-') && (k[3] == 'q' || k[3] == '-')
    requires P.WhiteCanOO == (k[0] == 'K') && P.WhiteCanOOO == (k[1] == 'Q')
    requires P.BlackCanOO == (k[2] == 'k') && P.BlackCanOOO == (k[3] == 'q')
    ensures CastlingText(P) == k
  {
    assert k == [k[0], k[1], k[2], k[3]];
  }

  /** A canonical tail is the printer's tail for a record with the board of Q. */
  lemma TailWitness(t: string, Q: Position) returns (P: Position)
    requires CanonTail(t)
    ensures ValidTail(P) && P.Board == Q.Board
    ensures TailText(P) == t
  {
    var ep, c := EpWitness(t[7..]);
    var h, f := ClocksWitness(c);
    var k := t[2..6];
    assert k[0] == t[2] && k[1] == t[3] && k[2] == t[4] && k[3] == t[5];
    P := Q.(SideToMove := if t[0] == 'w' then WHITE else BLACK,
            WhiteCanOO := k[0] == 'K', WhiteCanOOO := k[1] == 'Q',
            BlackCanOO := k[2] == 'k', BlackCanOOO := k[3] == 'q',
            epSquare := ep, HalfMoveClock := h, FullMoveCounter := f);
    TailTextFields(P);
    assert SideText(P.SideToMove) == [t[0]];
    CastlingTextOf(P, k);
    FrontSplit(t);
  }

  /**
   * Reading a canonical tail consumes all of it, leaves the board alone,
   * gives a record the printer can write, and the printer writes that same
   * tail back.
   */
  lemma CanonTailRead(t: string, Q: Position)
    requires CanonTail(t)
    ensures var c := FieldsStep(Cursor(Q, t));
      && c.rest == [] && c.P.Board == Q.Board && ValidTail(c.P)
      && TailText(c.P) == t
  {
    var P := TailWitness(t, Q);
    ReadTailText(P, Q);
    assert P.(Board := Q.Board) == P;
  }
}
