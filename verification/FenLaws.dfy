/** The text of the standard start, and of ranks of men and of none. */
module FenLaws {
  import opened Positions
  import opened Fen

  const KINDS: seq<Kind> := [Pawn, Knight, Bishop, Rook, Queen, King]

  /** White's men are written in capitals. */
  lemma {:induction false} LettersOfMen(i: nat)
    requires i < 6
    ensures Letter(Man(White, KINDS[i])) == "PNBRQK"[i] && Letter(Man(Black, KINDS[i])) == "pnbrqk"[i]
    ensures CharToPiece("PNBRQK"[i]) == Man(White, KINDS[i]) && CharToPiece("pnbrqk"[i]) == Man(Black, KINDS[i])
  {
  }

  /** A rank of men is written as their letters. */
  lemma {:induction false} MenWritten(row: Rank, text: string, f: nat)
    requires f <= 8 && |text| == 8 && forall i :: 0 <= i < 8 ==> row[i].Man? && Letter(row[i]) == text[i]
    ensures RankFrom(row, f, 0) == text[f..]
    decreases 8 - f
  {
    if f < 8 {
      MenWritten(row, text, f + 1);
      assert text[f..] == [text[f]] + text[f + 1..];
      assert "" + ([Letter(row[f])] + RankFrom(row, f + 1, 0)) == [text[f]] + text[f + 1..];
    }
  }

  /** And one without men as the number of its squares. */
  lemma {:induction false} NoneWritten(row: Rank, f: nat)
    requires f < 8 && forall i :: 0 <= i < 8 ==> row[i] == Empty
    ensures RankFrom(row, f, f) == "8"
    decreases 8 - f
  {
    if f < 7 {
      NoneWritten(row, f + 1);
    }
  }

  lemma {:induction false} InitialRow(f: int, r: int)
    requires On(f) && On(r)
    ensures RankOf(StandardStart().board, r)[f] == InitialMan(f, r)
  {
    assert (8 * f + r) / 8 == f && (8 * f + r) % 8 == r;
  }

  lemma {:induction false} InitialRank(r: int, text: string)
    requires On(r) && |text| == 8 && !(2 <= r <= 5)
    requires forall f :: 0 <= f < 8 ==> InitialMan(f, r).Man? && Letter(InitialMan(f, r)) == text[f]
    ensures RankText(StandardStart().board, r) == text
  {
    forall f | 0 <= f < 8
      ensures RankOf(StandardStart().board, r)[f] == InitialMan(f, r)
    {
      InitialRow(f, r);
    }
    MenWritten(RankOf(StandardStart().board, r), text, 0);
  }

  lemma {:induction false} EmptyInitialRank(r: int)
    requires 2 <= r <= 5
    ensures RankText(StandardStart().board, r) == "8"
  {
    forall f | 0 <= f < 8
      ensures RankOf(StandardStart().board, r)[f] == Empty
    {
      InitialRow(f, r);
    }
    NoneWritten(RankOf(StandardStart().board, r), 0);
  }

  lemma {:induction false} PawnRanks()
    ensures RankText(StandardStart().board, 6) == "pppppppp" && RankText(StandardStart().board, 1) == "PPPPPPPP"
  {
    InitialRank(6, "pppppppp");
    InitialRank(1, "PPPPPPPP");
  }

  lemma {:induction false} BlackRank()
    ensures RankText(StandardStart().board, 7) == "rnbqkbnr"
  {
    InitialRank(7, "rnbqkbnr");
  }

  lemma {:induction false} WhiteRank()
    ensures RankText(StandardStart().board, 0) == "RNBQKBNR"
  {
    InitialRank(0, "RNBQKBNR");
  }

  /** The texts of the ranks from the r-th down, with slashes between them. */
  function Slashed(t: seq<string>, r: nat): string
    requires r < |t|
  {
    if r == 0 then t[0] else t[r] + ("/" + Slashed(t, r - 1))
  }

  lemma {:induction false} RanksJoined(b: Board, t: seq<string>, r: int)
    requires |t| == 8 && On(r) && forall y :: 0 <= y < 8 ==> RankText(b, y) == t[y]
    ensures Placement(b, r) == Slashed(t, r)
    decreases r
  {
    if r > 0 {
      RanksJoined(b, t, r - 1);
    }
  }

  const START: seq<string> := ["RNBQKBNR", "PPPPPPPP", "8", "8", "8", "8", "pppppppp", "rnbqkbnr"]

  lemma {:induction false} StartRank(r: int)
    requires On(r)
    ensures RankText(StandardStart().board, r) == START[r]
  {
    if r == 0 {
      WhiteRank();
    } else if r == 7 {
      BlackRank();
    } else if 2 <= r <= 5 {
      EmptyInitialRank(r);
    } else {
      PawnRanks();
    }
  }

  /** The standard start is written as in every chess program. */
  lemma {:induction false} StartIsWritten()
    ensures FenText(StandardStart().board, White) == Slashed(START, 7) + " w"
  {
    forall r | 0 <= r < 8
      ensures RankText(StandardStart().board, r) == START[r]
    {
      StartRank(r);
    }
    RanksJoined(StandardStart().board, START, 7);
  }
}
