/**
 * The canonical shape of a FEN text, stated on its characters alone, and
 * its two laws: every canonical text is the printer's text for the
 * position the reader gets from it, and every text the printer writes for
 * a valid position is canonical.
 *
 * Canonical means: eight ranks of piece letters and single digits 1..8,
 * each summing to 8 with no two digits side by side, separated by '/';
 * then a blank, the side 'w' or 'b', the four castling characters K|-,
 * Q|-, k|-, q|-, the en passant field '-' or a file letter and 3 or 6,
 * a halfmove clock in decimal without leading zero and a fullmove counter
 * in decimal starting with 1..9, single blanks between them and nothing
 * after them.
 */
module Canon {
  import opened Pieces
  import opened Decimal
  import opened Fen
  import opened PlacementLaws

  // ---------------------------------------------------------------------
  // The shape
  // ---------------------------------------------------------------------

  /**
   * The placement field from square n on, `afterDigit` telling whether the
   * character before was a digit: the text after the field's blank, or None
   * when the placement is not canonical.  One token is a piece letter or a
   * digit that keeps the rank within 8 squares and does not follow a digit.
   */
  function CanonPlacement(s: string, n: nat, afterDigit: bool): Option<string>
    requires n < 64
    decreases |s|, 1
  {
    if s == [] then None
    else if IsPieceLetter(s[0]) then
      RankFits(n, 1);
      CanonAfter(s[1..], n + 1, false)
    else if IsRankDigit(s[0]) && !afterDigit && n % 8 + DigitValue(s[0]) <= 8 then
      RankFits(n, DigitValue(s[0]));
      CanonAfter(s[1..], n + DigitValue(s[0]), true)
    else None
  }

  /**
   * What may follow a token that ends before square m: more of the rank,
   * '/' and the next rank, or the blank after the 64th square.
   */
  function CanonAfter(u: string, m: nat, afterDigit: bool): Option<string>
    requires 0 < m <= 64
    decreases |u|, 2
  {
    if m % 8 != 0 then
      RankFits(m, 0);
      CanonPlacement(u, m, afterDigit)
    else if u == [] then None
    else if m == 64 then (if u[0] == ' ' then Some(u[1..]) else None)
    else if u[0] == '/' then CanonPlacement(u[1..], m, false)
    else None
  }

  /** A field that stays inside the rank of square n ends at most at 64. */
  lemma RankFits(n: nat, w: nat)
    requires n <= 64 && (n < 64 ==> n % 8 + w <= 8) && (n == 64 ==> w == 0)
    ensures n + w <= 64
    ensures (n + w) % 8 != 0 ==> n + w < 64 && (n + w) % 8 == n % 8 + w
  {
  }

  /** The square after one that does not end a rank lies one file further in the same rank. */
  lemma FileStep(i: nat)
    requires i < 64 && i % 8 < 7
    ensures i + 1 < 64 && (i + 1) % 8 == i % 8 + 1
  {
  }

  /** The square after a rank end starts a rank. */
  lemma RankStartAfter(i: nat)
    requires i % 8 == 7
    ensures (i + 1) % 8 == 0
  {
  }

  /** The length of the leading run of digits. */
  function DigitPrefix(u: string): (k: nat)
    ensures k <= |u| && AllDigits(u[..k]) && (k == |u| || !IsDigit(u[k]))
    decreases |u|
  {
    if u != [] && IsDigit(u[0]) then
      var k := 1 + DigitPrefix(u[1..]);
      assert u[..k] == [u[0]] + u[1..][..k - 1];
      k
    else 0
  }

  /**
   * The two clocks: decimal without leading zeros, the second one not
   * starting with 0, each naming an integer a double holds exactly.
   */
  predicate CanonClocks(u: string) {
    var k := DigitPrefix(u);
    && k < |u| && u[k] == ' ' && IsDecimal(u[..k]) && IsDecimal(u[k + 1..]) && u[k + 1] != '0'
    && Accumulate(0, u[..k]) <= MAX_SAFE_INTEGER && Accumulate(0, u[k + 1..]) <= MAX_SAFE_INTEGER
  }

  /** The en passant field, its blank and the clocks. */
  predicate CanonEpAndClocks(u: string) {
    || (|u| >= 2 && u[0] == '-' && u[1] == ' ' && CanonClocks(u[2..]))
    || (|u| >= 3 && IsFileLetter(u[0]) && (u[1] == '3' || u[1] == '6') && u[2] == ' ' && CanonClocks(u[3..]))
  }

  /** Everything after the placement field's blank. */
  predicate CanonTail(t: string) {
    && |t| >= 7
    && (t[0] == 'w' || t[0] == 'b') && t[1] == ' '
    && (t[2] == 'K' || t[2] == '-') && (t[3] == 'Q' || t[3] == '-')
    && (t[4] == 'k' || t[4] == '-') && (t[5] == 'q' || t[5] == '-')
    && t[6] == ' '
    && CanonEpAndClocks(t[7..])
  }

  predicate Canonical(fen: string) {
    var p := CanonPlacement(fen, 0, false);
    p.Some? && CanonTail(p.value)
  }

  // ---------------------------------------------------------------------
  // The printer's placement, one token at a time
  // ---------------------------------------------------------------------

  /** An empty square inside a rank only lengthens the pending run. */
  lemma EmitQuiet(B: seq<int>, i: nat, count: nat)
    requires ValidBoard(B) && i < 64 && B[i] == NONE && i % 8 != 7
    ensures Emit(B, i, count) == Emit(B, i + 1, count + 1)
  {
    SquareTextQuiet(B, i, count);
    assert Emit(B, i, count) == "" + Emit(B, i + 1, count + 1);
  }

  lemma FlushShape(d: string, l: string, r: string, e: string)
    ensures ((d + l) + r) + e == d + ((("" + l) + r) + e)
  {
  }

  /** A piece after a pending run writes the run first. */
  lemma EmitFlush(B: seq<int>, i: nat, count: nat)
    requires ValidBoard(B) && i < 64 && B[i] != NONE && 0 < count < 8
    ensures Emit(B, i, count) == [DigitChar(count)] + Emit(B, i, 0)
  {
    SquareTextPiece(B, i, count);
    SquareTextPiece(B, i, 0);
    EmitStep(B, i, count);
    EmitStep(B, i, 0);
    FlushShape([DigitChar(count)], [Letter(B[i])], RankSep(i), Emit(B, i + 1, 0));
  }

  /** An occupied square with nothing pending: its letter, then '/' at a rank end. */
  lemma EmitPiece(B: seq<int>, i: nat)
    requires ValidBoard(B) && i < 64 && B[i] != NONE
    ensures IsPiece(B[i])
    ensures Emit(B, i, 0) == [Letter(B[i])] + RankSep(i) + Emit(B, i + 1, 0)
  {
    SquareTextPiece(B, i, 0);
    EmitStep(B, i, 0);
    EmptyFront([Letter(B[i])], RankSep(i), Emit(B, i + 1, 0));
  }

  lemma EmptyFront(l: string, r: string, e: string)
    ensures (("" + l) + r) + e == (l + r) + e
  {
  }

  /** An empty square ending a rank writes the whole run. */
  lemma EmitRankEnd(B: seq<int>, i: nat, count: nat)
    requires ValidBoard(B) && i < 64 && B[i] == NONE && i % 8 == 7 && count < 8
    ensures Emit(B, i, count) == [DigitChar(count + 1)] + RankSep(i) + Emit(B, i + 1, 0)
  {
    SquareTextRankEnd(B, i, count);
  }

  /** Squares i up to e, e excluded, are empty and e lies in the rank of i. */
  predicate QuietRun(B: seq<int>, i: nat, e: nat)
    requires ValidBoard(B)
  {
    i <= e < 64 && e % 8 == i % 8 + (e - i) && forall m :: i <= m < e ==> B[m] == NONE
  }

  lemma QuietRunStep(B: seq<int>, i: nat, e: nat)
    requires ValidBoard(B) && QuietRun(B, i, e) && i < e
    ensures B[i] == NONE && i % 8 != 7 && QuietRun(B, i + 1, e)
  {
    FileStep(i);
  }

  /** Empty squares inside a rank, from square i up to square e, only lengthen the pending run. */
  lemma {:induction false} EmitSkip(B: seq<int>, i: nat, c: nat, e: nat, ce: nat)
    requires ValidBoard(B) && QuietRun(B, i, e) && ce == c + (e - i)
    ensures Emit(B, i, c) == Emit(B, e, ce)
    decreases e - i
  {
    if i < e {
      QuietRunStep(B, i, e);
      EmitQuiet(B, i, c);
      EmitSkip(B, i + 1, c + 1, e, ce);
    } else {
      assert i == e && c == ce;
    }
  }

  /**
   * A maximal run of k empty squares from square n, with nothing pending
   * before it, is written as the single digit k (and the '/' if the run
   * ends a rank).
   */
  lemma EmitRun(B: seq<int>, n: nat, k: nat)
    requires ValidBoard(B) && n < 64 && 1 <= k && n % 8 + k <= 8
    requires forall m :: n <= m < n + k ==> B[m] == NONE
    requires (n + k) % 8 == 0 || (n + k < 64 && B[n + k] != NONE)
    ensures n + k <= 64
    ensures Emit(B, n, 0) == [DigitChar(k)] + RankSep(n + k - 1) + Emit(B, n + k, 0)
  {
    RankFits(n, k);
    RankFits(n, k - 1);
    var last := n + k - 1;
    EmitSkip(B, n, 0, last, k - 1);
    assert B[last] == NONE;
    if (n + k) % 8 == 0 {
      RankEndBefore(n + k);
    }
    EmitRunLast(B, last, k - 1);
    assert last + 1 == n + k && k - 1 + 1 == k;
  }

  /** The last empty square of a run, c squares pending before it, writes the run. */
  lemma EmitRunLast(B: seq<int>, i: nat, c: nat)
    requires ValidBoard(B) && i < 64 && B[i] == NONE && c <= i % 8
    requires i % 8 == 7 || (i + 1 < 64 && B[i + 1] != NONE)
    ensures Emit(B, i, c) == [DigitChar(c + 1)] + RankSep(i) + Emit(B, i + 1, 0)
  {
    if i % 8 == 7 {
      EmitRankEnd(B, i, c);
    } else {
      EmitQuiet(B, i, c);
      EmitFlush(B, i + 1, c + 1);
      assert RankSep(i) == "";
      EmptyRight([DigitChar(c + 1)]);
    }
  }

  /** The square before a rank start ends a rank. */
  lemma RankEndBefore(m: nat)
    requires m > 0 && m % 8 == 0
    ensures (m - 1) % 8 == 7
  {
  }

  /** A square that does not start a rank is not preceded by a rank end. */
  lemma RankSepInside(m: nat)
    requires m % 8 != 0
    ensures RankSep(m - 1) == ""
  {
  }

  lemma EmptyRight(a: string)
    ensures a + "" == a
  {
  }

  /** The run of empty squares from square n to the next piece or the end of the rank. */
  function RunLength(B: seq<int>, n: nat): (k: nat)
    requires ValidBoard(B) && n < 64 && B[n] == NONE
    ensures 1 <= k && n % 8 + k <= 8
    ensures forall m :: n <= m < n + k ==> B[m] == NONE
    ensures (n + k) % 8 == 0 || (n + k < 64 && B[n + k] != NONE)
    decreases 64 - n
  {
    if n % 8 == 7 then
      RankStartAfter(n);
      1
    else
      FileStep(n);
      if B[n + 1] != NONE then 1 else 1 + RunLength(B, n + 1)
  }

  // ---------------------------------------------------------------------
  // The reader on a canonical placement
  // ---------------------------------------------------------------------

  /** Regrouping the pieces of a placement text around the blank. */
  lemma Regroup(a: string, r: string, e: string, t: string)
    ensures a + (((r + e) + " ") + t) == (((a + r) + e) + " ") + t
  {
  }

  /** The placement field of a canonical text is read into 64 valid squares that the printer writes back. */
  lemma {:induction false} CanonRead(s: string, n: nat, afterDigit: bool, acc: seq<int>, t: string)
    requires n < 64 && CanonPlacement(s, n, afterDigit) == Some(t)
    requires |acc| == n && forall m :: 0 <= m < n ==> ValidCode(acc[m])
    ensures |Placement(s, acc).value| == 64 && ValidBoard(Placement(s, acc).value)
    ensures Placement(s, acc).rest == t
    ensures afterDigit ==> Placement(s, acc).value[n] != NONE
    ensures s == Emit(Placement(s, acc).value, n, 0) + " " + t
    decreases |s|, 1
  {
    if IsRankDigit(s[0]) {
      CanonReadDigit(s, n, afterDigit, acc, t);
    } else {
      CanonReadLetter(s, n, afterDigit, acc, t);
    }
  }

  /** What follows a token that ends before square m: more of the rank, '/' and the next rank, or the blank. */
  lemma {:induction false} CanonReadAfter(u: string, m: nat, afterDigit: bool, acc: seq<int>, t: string)
    requires 0 < m <= 64 && CanonAfter(u, m, afterDigit) == Some(t)
    requires |acc| == m && forall q :: 0 <= q < m ==> ValidCode(acc[q])
    ensures |Placement(u, acc).value| == 64 && ValidBoard(Placement(u, acc).value)
    ensures Placement(u, acc).rest == t
    ensures m < 64 && afterDigit && m % 8 != 0 ==> Placement(u, acc).value[m] != NONE
    ensures u == RankSep(m - 1) + Emit(Placement(u, acc).value, m, 0) + " " + t
    decreases |u|, 2
  {
    if m % 8 != 0 {
      RankFits(m, 0);
      RankSepInside(m);
      CanonRead(u, m, afterDigit, acc, t);
      var E := Emit(Placement(u, acc).value, m, 0);
      assert "" + E == E;
    } else if m == 64 {
      assert u == " " + t;
      PlacementBlank(t, acc);
      assert RankSep(m - 1) + Emit(acc, m, 0) + " " == " ";
    } else {
      var v := u[1..];
      assert u == "/" + v;
      PlacementCons('/', v, acc);
      assert acc + Squares('/') == acc;
      CanonRead(v, m, false, acc, t);
      RankEndBefore(m);
      assert RankSep(m - 1) == "/";
      Regroup("/", "", Emit(Placement(v, acc).value, m, 0), t);
      assert "/" + "" == "/";
      assert "" + Emit(Placement(v, acc).value, m, 0) == Emit(Placement(v, acc).value, m, 0);
    }
  }

  /** The k empty squares a digit adds stay on the board the rest of the field builds. */
  lemma ReadEmpties(u: string, acc: seq<int>, k: nat)
    ensures forall q :: |acc| <= q < |acc| + k ==> Placement(u, acc + Empties(k)).value[q] == NONE
  {
    var a := acc + Empties(k);
    var B := Placement(u, a).value;
    forall q | |acc| <= q < |acc| + k ensures B[q] == NONE {
      assert B[q] == B[..|a|][q] == a[q];
    }
  }

  /** A square already read stays on the board the rest of the field builds. */
  lemma ReadKeeps(u: string, a: seq<int>, q: nat)
    requires q < |a|
    ensures Placement(u, a).value[q] == a[q]
  {
    assert Placement(u, a).value[q] == Placement(u, a).value[..|a|][q];
  }

  lemma {:induction false} CanonReadDigit(s: string, n: nat, afterDigit: bool, acc: seq<int>, t: string)
    requires n < 64 && CanonPlacement(s, n, afterDigit) == Some(t)
    requires |acc| == n && forall m :: 0 <= m < n ==> ValidCode(acc[m])
    requires s != [] && IsRankDigit(s[0])
    ensures |Placement(s, acc).value| == 64 && ValidBoard(Placement(s, acc).value)
    ensures Placement(s, acc).rest == t
    ensures afterDigit ==> Placement(s, acc).value[n] != NONE
    ensures s == Emit(Placement(s, acc).value, n, 0) + " " + t
    decreases |s|, 0
  {
    var c, u := s[0], s[1..];
    var k := DigitValue(c);
    assert !afterDigit && n % 8 + k <= 8;
    RankFits(n, k);
    var m := n + k;
    assert CanonAfter(u, m, true) == Some(t);
    assert s == [c] + u;
    PlacementCons(c, u, acc);
    var acc' := acc + Squares(c);
    assert acc' == acc + Empties(k);
    CanonReadAfter(u, m, true, acc', t);
    var B := Placement(u, acc').value;
    ReadEmpties(u, acc, k);
    EmitRun(B, n, k);
    assert DigitChar(k) == c;
    assert m - 1 == n + k - 1;
    Regroup([c], RankSep(m - 1), Emit(B, m, 0), t);
  }

  lemma {:induction false} CanonReadLetter(s: string, n: nat, afterDigit: bool, acc: seq<int>, t: string)
    requires n < 64 && CanonPlacement(s, n, afterDigit) == Some(t)
    requires |acc| == n && forall m :: 0 <= m < n ==> ValidCode(acc[m])
    requires s != [] && !IsRankDigit(s[0])
    ensures |Placement(s, acc).value| == 64 && ValidBoard(Placement(s, acc).value)
    ensures Placement(s, acc).rest == t
    ensures afterDigit ==> Placement(s, acc).value[n] != NONE
    ensures s == Emit(Placement(s, acc).value, n, 0) + " " + t
    decreases |s|, 0
  {
    var c, u := s[0], s[1..];
    assert IsPieceLetter(c);
    RankFits(n, 1);
    var m := n + 1;
    assert CanonAfter(u, m, false) == Some(t);
    assert s == [c] + u;
    LetterOfPieceCode(c);
    LetterIsPieceLetter(PieceCode(c));
    PlacementCons(c, u, acc);
    var acc' := acc + Squares(c);
    assert acc' == acc + [PieceCode(c)];
    CanonReadAfter(u, m, false, acc', t);
    var B := Placement(u, acc').value;
    ReadKeeps(u, acc', n);
    EmitPiece(B, n);
    assert m - 1 == n;
    Regroup([c], RankSep(m - 1), Emit(B, m, 0), t);
  }

  // ---------------------------------------------------------------------
  // The printer's placement is canonical
  // ---------------------------------------------------------------------

  /** Square n follows an empty square of its own rank: the printer's token before it is a digit. */
  predicate AfterEmpty(B: seq<int>, n: nat)
    requires ValidBoard(B) && n < 64
  {
    0 < n && n % 8 != 0 && B[n - 1] == NONE
  }

  /**
   * The printer's text from square n on, with nothing pending, is a
   * canonical placement; n is a token start: after an empty square inside
   * the rank there must be a piece.
   */
  lemma {:induction false} EmitCanon(B: seq<int>, n: nat, t: string)
    requires ValidBoard(B) && n < 64
    requires AfterEmpty(B, n) ==> B[n] != NONE
    ensures CanonPlacement(Emit(B, n, 0) + " " + t, n, AfterEmpty(B, n)) == Some(t)
    decreases 64 - n, 1
  {
    if B[n] != NONE {
      EmitCanonPiece(B, n, t);
    } else {
      EmitCanonRun(B, n, t);
    }
  }

  /** What follows a token that ends before square m, as the canonical shape reads it. */
  lemma {:induction false} EmitCanonAfter(B: seq<int>, m: nat, afterDigit: bool, t: string)
    requires ValidBoard(B) && 0 < m <= 64
    requires m % 8 != 0 ==> (afterDigit <==> B[m - 1] == NONE)
    requires m % 8 != 0 && B[m - 1] == NONE ==> B[m] != NONE
    ensures CanonAfter(RankSep(m - 1) + Emit(B, m, 0) + " " + t, m, afterDigit) == Some(t)
    decreases 64 - m, 2
  {
    var u := RankSep(m - 1) + Emit(B, m, 0) + " " + t;
    if m % 8 != 0 {
      RankFits(m, 0);
      RankSepInside(m);
      var E := Emit(B, m, 0);
      assert "" + E == E;
      EmitCanon(B, m, t);
    } else if m == 64 {
      assert RankSep(m - 1) + Emit(B, m, 0) + " " == " ";
      assert u == " " + t;
      assert u[1..] == t;
    } else {
      RankEndBefore(m);
      assert RankSep(m - 1) == "/";
      var E := Emit(B, m, 0);
      Regroup("/", "", E, t);
      assert "/" + "" == "/";
      assert "" + E == E;
      assert u == "/" + ((E + " ") + t);
      assert u[0] == '/' && u[1..] == (E + " ") + t;
      EmitCanon(B, m, t);
    }
  }

  lemma {:induction false} EmitCanonPiece(B: seq<int>, n: nat, t: string)
    requires ValidBoard(B) && n < 64 && B[n] != NONE
    ensures CanonPlacement(Emit(B, n, 0) + " " + t, n, AfterEmpty(B, n)) == Some(t)
    decreases 64 - n, 0
  {
    EmitPiece(B, n);
    var c := Letter(B[n]);
    RankFits(n, 1);
    var m := n + 1;
    assert m - 1 == n;
    var E := Emit(B, m, 0);
    Regroup([c], RankSep(m - 1), E, t);
    var u := RankSep(m - 1) + E + " " + t;
    var s := Emit(B, n, 0) + " " + t;
    assert s == [c] + u;
    assert s[0] == c && s[1..] == u;
    EmitCanonAfter(B, m, false, t);
  }

  lemma {:induction false} EmitCanonRun(B: seq<int>, n: nat, t: string)
    requires ValidBoard(B) && n < 64 && B[n] == NONE
    requires !AfterEmpty(B, n)
    ensures CanonPlacement(Emit(B, n, 0) + " " + t, n, AfterEmpty(B, n)) == Some(t)
    decreases 64 - n, 0
  {
    var k := RunLength(B, n);
    EmitRun(B, n, k);
    DigitCharInRange(k);
    var d := DigitChar(k);
    var m := n + k;
    assert m - 1 == n + k - 1;
    assert B[m - 1] == NONE;
    var E := Emit(B, m, 0);
    Regroup([d], RankSep(m - 1), E, t);
    var u := RankSep(m - 1) + E + " " + t;
    var s := Emit(B, n, 0) + " " + t;
    assert s == [d] + u;
    assert s[0] == d && s[1..] == u;
    EmitCanonAfter(B, m, true, t);
  }
}
