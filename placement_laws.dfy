/**
 * Laws of the placement field: what the printer's loop writes, and how the
 * reader's loop reads it back.
 */
module PlacementLaws {
  import opened Pieces
  import opened Decimal
  import opened Fen

  /** How many times `c` occurs in `s`. */
  function Occurrences(s: string, c: char): nat
    decreases |s|
  {
    if s == [] then 0 else (if s[0] == c then 1 else 0) + Occurrences(s[1..], c)
  }

  lemma {:induction false} OccurrencesAppend(a: string, b: string, c: char)
    ensures Occurrences(a + b, c) == Occurrences(a, c) + Occurrences(b, c)
    decreases |a|
  {
    if a == [] {
      assert a + b == b;
    } else {
      assert (a + b)[0] == a[0];
      assert (a + b)[1..] == a[1..] + b;
      OccurrencesAppend(a[1..], b, c);
    }
  }

  lemma {:induction false} NoSlashInNumeral(s: string)
    requires AllDigits(s)
    ensures Occurrences(s, '/') == 0
    decreases |s|
  {
    if s != [] {
      NoSlashInNumeral(s[1..]);
    }
  }

  /** One turn of the printer's loop writes a '/' exactly after squares 7, 15, ..., 55. */
  lemma SquareTextSlashes(B: seq<int>, i: nat, count: nat)
    requires ValidBoard(B) && i < 64
    ensures Occurrences(SquareText(B, i, count), '/') == if i % 8 == 7 && i < 63 then 1 else 0
  {
    var f := if Flushes(B, i, count) then NatToString(Pending(B, i, count)) else "";
    var l := if B[i] != NONE then [Letter(B[i])] else "";
    var sl := RankSep(i);
    OccurrencesAppend(f + l, sl, '/');
    OccurrencesAppend(f, l, '/');
    NoSlashInNumeral(f);
    assert Occurrences(l, '/') == 0;
  }

  lemma SlashArith(i: nat)
    requires i < 64
    ensures (63 - i) / 8 == (if i % 8 == 7 && i < 63 then 1 else 0) + (if i + 1 == 64 then 0 else (63 - (i + 1)) / 8)
  {
  }

  /**
   * The text from square i on holds one '/' for each of the squares
   * 7, 15, ..., 55 at or after i.
   */
  lemma {:induction false} EmitSlashes(B: seq<int>, i: nat, count: nat)
    requires ValidBoard(B) && i <= 64
    ensures Occurrences(Emit(B, i, count), '/') == if i == 64 then 0 else (63 - i) / 8
    decreases 64 - i
  {
    if i < 64 {
      OccurrencesAppend(SquareText(B, i, count), Emit(B, i + 1, Carry(B, i, count)), '/');
      SquareTextSlashes(B, i, count);
      EmitSlashes(B, i + 1, Carry(B, i, count));
      SlashArith(i);
    }
  }

  /** The placement text of a 64-square board has exactly seven '/'. */
  lemma PlacementSlashes(B: seq<int>)
    requires ValidBoard(B)
    ensures Occurrences(Emit(B, 0, 0), '/') == 7
  {
    EmitSlashes(B, 0, 0);
  }

  /** The printer reads only the first 64 squares. */
  lemma {:induction false} EmitFirst64(B1: seq<int>, B2: seq<int>, i: nat, count: nat)
    requires ValidBoard(B1) && ValidBoard(B2) && B1[..64] == B2[..64] && i <= 64
    ensures Emit(B1, i, count) == Emit(B2, i, count)
    decreases 64 - i
  {
    if i < 64 {
      assert B1[i] == B1[..64][i] == B2[..64][i] == B2[i];
      assert SquareText(B1, i, count) == SquareText(B2, i, count);
      EmitFirst64(B1, B2, i + 1, Carry(B1, i, count));
    }
  }

  // ---------------------------------------------------------------------
  // Single characters as the reader sees them
  // ---------------------------------------------------------------------

  lemma DigitCharInRange(k: nat)
    requires 1 <= k <= 8
    ensures IsRankDigit(DigitChar(k)) && InPlacement(DigitChar(k)) && DigitChar(k) != ' '
    ensures !IsPieceLetter(DigitChar(k))
    ensures Squares(DigitChar(k)) == Empties(k)
  {
  }

  lemma LetterIsPieceLetter(p: int)
    requires IsPiece(p)
    ensures !IsRankDigit(Letter(p)) && InPlacement(Letter(p)) && Letter(p) != ' ' && Letter(p) != '/'
    ensures Squares(Letter(p)) == [p]
  {
  }

  lemma PlacementCons(ch: char, s: string, acc: seq<int>)
    requires InPlacement(ch) && ch != ' '
    ensures Placement([ch] + s, acc) == Placement(s, acc + Squares(ch))
  {
    assert ([ch] + s)[0] == ch;
    assert ([ch] + s)[1..] == s;
  }

  lemma PlacementBlank(s: string, acc: seq<int>)
    ensures Placement(" " + s, acc) == Scan(acc, s)
  {
    assert (" " + s)[0] == ' ';
    assert (" " + s)[1..] == s;
  }

  // ---------------------------------------------------------------------
  // Reading back what the printer wrote
  // ---------------------------------------------------------------------

  /** The optional '/' after a square is skipped by the reader. */
  lemma ReadSlash(i: nat, x: string, acc: seq<int>)
    requires i < 64
    ensures Placement(RankSep(i) + x, acc) == Placement(x, acc)
  {
    if i % 8 == 7 && i < 63 {
      PlacementCons('/', x, acc);
      assert Squares('/') == [];
      assert acc + [] == acc;
    } else {
      assert "" + x == x;
    }
  }

  /** A numeral below ten is one digit. */
  lemma SmallNumeral(n: nat)
    requires n < 10
    ensures NatToString(n) == [DigitChar(n)]
  {
  }

  /** An empty square inside a rank writes nothing and extends the pending run. */
  lemma SquareTextQuiet(B: seq<int>, i: nat, count: nat)
    requires ValidBoard(B) && i < 64 && B[i] == NONE && i % 8 != 7
    ensures SquareText(B, i, count) == "" && Carry(B, i, count) == count + 1
  {
  }

  /** An empty square ending a rank writes the run, then '/' unless it is the last rank. */
  lemma SquareTextRankEnd(B: seq<int>, i: nat, count: nat)
    requires ValidBoard(B) && i < 64 && B[i] == NONE && i % 8 == 7 && count < 8
    ensures SquareText(B, i, count) == [DigitChar(count + 1)] + RankSep(i)
    ensures Carry(B, i, count) == 0
  {
    SmallNumeral(count + 1);
  }

  /** An occupied square writes the pending run if any, its letter, then '/' at a rank end. */
  lemma SquareTextPiece(B: seq<int>, i: nat, count: nat)
    requires ValidBoard(B) && i < 64 && B[i] != NONE && count < 8
    ensures IsPiece(B[i])
    ensures SquareText(B, i, count)
         == (if count > 0 then [DigitChar(count)] else "") + [Letter(B[i])] + RankSep(i)
    ensures Carry(B, i, count) == 0
  {
    assert ValidCode(B[i]);
    if count > 0 {
      SmallNumeral(count);
    }
  }

  /** Reading the run of `k` empty squares and the optional '/' after it. */
  lemma ReadRun(k: nat, sl: string, x: string, acc: seq<int>, i: nat)
    requires 1 <= k <= 8 && i < 64
    requires sl == RankSep(i)
    ensures Placement([DigitChar(k)] + sl + x, acc) == Placement(x, acc + Empties(k))
  {
    DigitCharInRange(k);
    assert [DigitChar(k)] + sl + x == [DigitChar(k)] + (sl + x);
    PlacementCons(DigitChar(k), sl + x, acc);
    ReadSlash(i, x, acc + Empties(k));
  }

  /** Reading an occupied square's letter and the optional '/' after it. */
  lemma ReadLetter(p: int, sl: string, x: string, acc: seq<int>, i: nat)
    requires IsPiece(p) && i < 64
    requires sl == RankSep(i)
    ensures Placement([Letter(p)] + sl + x, acc) == Placement(x, acc + [p])
  {
    LetterIsPieceLetter(p);
    assert [Letter(p)] + sl + x == [Letter(p)] + (sl + x);
    PlacementCons(Letter(p), sl + x, acc);
    ReadSlash(i, x, acc + [p]);
  }

  /** An empty square inside a rank, read back: nothing is read. */
  lemma ReadQuiet(B: seq<int>, i: nat, count: nat, acc: seq<int>, x: string)
    requires ValidBoard(B) && i < 64 && B[i] == NONE && i % 8 != 7
    ensures Placement(SquareText(B, i, count) + x, acc) == Placement(x, acc)
  {
    SquareTextQuiet(B, i, count);
    assert SquareText(B, i, count) + x == x;
  }

  /** An empty square ending a rank, read back: the whole run is written. */
  lemma ReadRankEnd(B: seq<int>, i: nat, count: nat, acc: seq<int>, x: string)
    requires ValidBoard(B) && i < 64 && B[i] == NONE && i % 8 == 7 && count < 8
    ensures Placement(SquareText(B, i, count) + x, acc) == Placement(x, acc + Empties(count + 1))
  {
    var sl := RankSep(i);
    SquareTextRankEnd(B, i, count);
    ReadRun(count + 1, sl, x, acc, i);
  }

  /** An occupied square, read back: the pending run, then the piece. */
  lemma ReadPiece(B: seq<int>, i: nat, count: nat, acc: seq<int>, x: string)
    requires ValidBoard(B) && i < 64 && B[i] != NONE && count < 8
    ensures Placement(SquareText(B, i, count) + x, acc) == Placement(x, acc + Empties(count) + [B[i]])
  {
    var sl := RankSep(i);
    SquareTextPiece(B, i, count);
    if count > 0 {
      var lx := [Letter(B[i])] + sl + x;
      assert SquareText(B, i, count) + x == [DigitChar(count)] + "" + lx;
      ReadRun(count, "", lx, acc, 0);
      ReadLetter(B[i], sl, x, acc + Empties(count), i);
    } else {
      assert SquareText(B, i, count) + x == [Letter(B[i])] + sl + x;
      ReadLetter(B[i], sl, x, acc, i);
      assert acc + Empties(count) == acc;
    }
  }

  /** The reader's squares before a pending run, then the run, are the board's squares up to n. */
  lemma RunExtends(B: seq<int>, n: nat, count: nat, acc: seq<int>)
    requires count <= n <= |B|
    requires forall m :: n - count <= m < n ==> B[m] == NONE
    requires acc == B[..n - count]
    ensures acc + Empties(count) == B[..n]
  {
    assert acc + Empties(count) == B[..n];
  }

  /** The same, with the occupied square i after the run. */
  lemma RunThenPiece(B: seq<int>, i: nat, count: nat, acc: seq<int>)
    requires count <= i < |B|
    requires forall m :: i - count <= m < i ==> B[m] == NONE
    requires acc == B[..i - count]
    ensures acc + Empties(count) + [B[i]] == B[..i + 1]
  {
    RunExtends(B, i, count, acc);
    assert B[..i] + [B[i]] == B[..i + 1];
  }

  lemma ColumnBound(i: nat)
    ensures i % 8 <= i && i % 8 < 8
  {
  }

  /** What the reader has written when the printer has `count` empty squares pending at square i. */
  predicate ReadUpTo(B: seq<int>, i: nat, count: nat, acc: seq<int>)
    requires ValidBoard(B) && i < 64
  {
    && count <= i % 8
    && (forall m :: i - count <= m < i ==> B[m] == NONE)
    && acc == B[..i - count]
  }

  lemma ReadQuietSquare(B: seq<int>, i: nat, count: nat, acc: seq<int>, x: string)
    requires ValidBoard(B) && i < 64 && ReadUpTo(B, i, count, acc)
    requires B[i] == NONE && i % 8 != 7
    ensures Carry(B, i, count) <= i + 1
    ensures Placement(SquareText(B, i, count) + x, acc) == Placement(x, B[..i + 1 - Carry(B, i, count)])
  {
    SquareTextQuiet(B, i, count);
    ReadQuiet(B, i, count, acc, x);
    assert i + 1 - Carry(B, i, count) == i - count;
  }

  lemma ReadRankEndSquare(B: seq<int>, i: nat, count: nat, acc: seq<int>, x: string)
    requires ValidBoard(B) && i < 64 && ReadUpTo(B, i, count, acc)
    requires B[i] == NONE && i % 8 == 7
    ensures Carry(B, i, count) <= i + 1
    ensures Placement(SquareText(B, i, count) + x, acc) == Placement(x, B[..i + 1 - Carry(B, i, count)])
  {
    ColumnBound(i);
    SquareTextRankEnd(B, i, count);
    ReadRankEnd(B, i, count, acc, x);
    assert i + 1 - (count + 1) == i - count;
    RunExtends(B, i + 1, count + 1, acc);
    assert i + 1 - Carry(B, i, count) == i + 1;
  }

  lemma ReadPieceSquare(B: seq<int>, i: nat, count: nat, acc: seq<int>, x: string)
    requires ValidBoard(B) && i < 64 && ReadUpTo(B, i, count, acc)
    requires B[i] != NONE
    ensures Carry(B, i, count) <= i + 1
    ensures Placement(SquareText(B, i, count) + x, acc) == Placement(x, B[..i + 1 - Carry(B, i, count)])
  {
    ColumnBound(i);
    assert Carry(B, i, count) == 0;
    ReadPiece(B, i, count, acc, x);
    RunThenPiece(B, i, count, acc);
    assert i + 1 - Carry(B, i, count) == i + 1;
  }

  /**
   * One turn of the printer's loop, read back: with `count` empty squares
   * pending and the reader having written everything before them, reading
   * the square's text leaves the reader having written every square whose
   * text is out.
   */
  lemma ReadSquareText(B: seq<int>, i: nat, count: nat, acc: seq<int>, x: string)
    requires ValidBoard(B) && i < 64 && ReadUpTo(B, i, count, acc)
    ensures Carry(B, i, count) <= i + 1
    ensures Placement(SquareText(B, i, count) + x, acc) == Placement(x, B[..i + 1 - Carry(B, i, count)])
  {
    if B[i] == NONE && i % 8 != 7 {
      ReadQuietSquare(B, i, count, acc, x);
    } else if B[i] == NONE {
      ReadRankEndSquare(B, i, count, acc, x);
    } else {
      ReadPieceSquare(B, i, count, acc, x);
    }
  }

  /** The situation of the reader carries over from one square to the next. */
  lemma CarryKeeps(B: seq<int>, i: nat, count: nat, acc: seq<int>)
    requires ValidBoard(B) && i < 63 && ReadUpTo(B, i, count, acc)
    ensures Carry(B, i, count) <= i + 1
    ensures ReadUpTo(B, i + 1, Carry(B, i, count), B[..i + 1 - Carry(B, i, count)])
  {
    if B[i] == NONE && i % 8 != 7 {
      SquareTextQuiet(B, i, count);
      assert (i + 1) % 8 == i % 8 + 1;
    } else if B[i] == NONE {
      assert Carry(B, i, count) == 0;
    } else {
      assert Carry(B, i, count) == 0;
    }
  }

  /** After the last square nothing is pending. */
  lemma CarryAtEnd(B: seq<int>, count: nat)
    requires ValidBoard(B)
    ensures Carry(B, 63, count) == 0
  {
  }

  /** One turn of the printer's loop. */
  lemma EmitStep(B: seq<int>, i: nat, count: nat)
    requires ValidBoard(B) && i < 64
    ensures Emit(B, i, count) == SquareText(B, i, count) + Emit(B, i + 1, Carry(B, i, count))
  {
  }

  lemma BlankRegroup(a: string, b: string, t: string)
    ensures ((a + b) + " ") + t == a + ((b + " ") + t)
  {
  }

  lemma EmitUnfold(B: seq<int>, i: nat, count: nat, t: string)
    requires ValidBoard(B) && i < 64
    ensures Emit(B, i, count) + " " + t == SquareText(B, i, count) + (Emit(B, i + 1, Carry(B, i, count)) + " " + t)
  {
    EmitStep(B, i, count);
    BlankRegroup(SquareText(B, i, count), Emit(B, i + 1, Carry(B, i, count)), t);
  }

  /**
   * Reading the printer's text from square i on, in the same situation,
   * writes the rest of the 64 squares and consumes the blank after them.
   */
  lemma {:induction false} ReadEmit(B: seq<int>, i: nat, count: nat, acc: seq<int>, t: string)
    requires ValidBoard(B) && i < 64 && ReadUpTo(B, i, count, acc)
    ensures Placement(Emit(B, i, count) + " " + t, acc) == Scan(B[..64], t)
    decreases 64 - i
  {
    var carry := Carry(B, i, count);
    var x := Emit(B, i + 1, carry) + " " + t;
    EmitUnfold(B, i, count, t);
    ReadSquareText(B, i, count, acc, x);
    if i == 63 {
      CarryAtEnd(B, count);
      assert i + 1 - carry == 64;
      assert x == " " + t;
      PlacementBlank(t, B[..64]);
    } else {
      CarryKeeps(B, i, count, acc);
      ReadEmit(B, i + 1, carry, B[..i + 1 - carry], t);
    }
  }

  /** The reader recovers the 64 squares the printer wrote, and stops after the blank. */
  lemma ReadPlacementText(B: seq<int>, t: string)
    requires ValidBoard(B)
    ensures Placement(Emit(B, 0, 0) + " " + t, []) == Scan(B[..64], t)
  {
    ReadEmit(B, 0, 0, [], t);
  }
}
