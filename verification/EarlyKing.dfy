/** A position in which taking back the first move of the game costs White the right to castle. */
module EarlyKing {
  import opened Positions
  import opened Legality
  import opened Attacks
  import opened Targets
  import opened Interposition
  import opened Runs
  import opened Takeback
  import opened KingFlags
  import opened Sessions

  /** White Ke1, Rh1, Pa2; Black Ke8, Pa7. */
  function EarlyMan(f: int, r: int): Piece {
    if (f, r) == (4, 0) then Man(White, King)
    else if (f, r) == (7, 0) then Man(White, Rook)
    else if (f, r) == (0, 1) then Man(White, Pawn)
    else if (f, r) == (0, 6) then Man(Black, Pawn)
    else if (f, r) == (4, 7) then Man(Black, King)
    else Empty
  }

  /** White is to move; no king and no rook has moved. */
  function Early(): Position {
    Position(seq(64, i requires 0 <= i < 64 => EarlyMan(i / 8, i % 8)), seq(10, _ => 0),
             MovedFlags(false, false, false, false, false, false), seq(16, _ => 0), -1, White, 1)
  }

  lemma {:induction false} EarlyAt(f: int, r: int)
    requires On(f) && On(r)
    ensures At(Early().board, f, r) == EarlyMan(f, r)
  {
  }

  /** White's king stands on the first rank, away from Black's men. */
  ghost predicate BlackFar(b: Board, kf: int) {
    && OneKing(b, White, kf, 0) && 4 <= kf
    && forall f, r :: On(f) && On(r) && Own(b, Black, f, r) ==>
         At(b, f, r) == (if f == 0 && r == 6 then Man(Black, Pawn) else Man(Black, King)) && r >= 6
  }

  lemma {:induction false} FarIsSafe(b: Board, kf: int)
    requires BlackFar(b, kf)
    ensures !KingHit(b, White)
  {
    OneKingHit(b, White, kf, 0);
    forall f, r | On(f) && On(r)
      ensures !Hits(b, Black, f, r, kf, 0)
    {
    }
  }

  /** White's king has gone to (kf, 0). */
  ghost predicate Elsewhere(b: Board, kf: int) {
    4 <= kf < 7 && forall f, r :: 0 <= f < 8 && 0 <= r < 8 ==> At(b, f, r) == MovedTo(kf, f, r)
  }

  function MovedTo(kf: int, f: int, r: int): Piece {
    if (f, r) == (kf, 0) then Man(White, King) else if (f, r) == (4, 0) then Empty else EarlyMan(f, r)
  }

  lemma {:induction false} ElsewhereIsSafe(b: Board, kf: int)
    requires Elsewhere(b, kf)
    ensures !KingHit(b, White) && OneKing(b, White, kf, 0) && OneKing(b, Black, 4, 7)
  {
    assert BlackFar(b, kf);
    FarIsSafe(b, kf);
  }

  lemma {:induction false} EarlyIsElsewhere()
    ensures Elsewhere(Early().board, 4)
  {
    forall f, r | 0 <= f < 8 && 0 <= r < 8
      ensures At(Early().board, f, r) == EarlyMan(f, r)
    {
      EarlyAt(f, r);
    }
  }

  lemma {:induction false} BlackIsSafe()
    ensures !KingHit(Early().board, Black)
  {
    EarlyIsElsewhere();
    ElsewhereIsSafe(Early().board, 4);
    OneKingHit(Early().board, Black, 4, 7);
    forall f, r | On(f) && On(r)
      ensures !Hits(Early().board, White, f, r, 4, 7)
    {
      EarlyAt(f, r);
    }
  }

  /** A game can be in it. */
  lemma {:induction false} EarlyIsSound()
    ensures Sound(Early())
  {
    EarlyIsElsewhere();
    ElsewhereIsSafe(Early().board, 4);
    BlackIsSafe();
    CheckIsHit(Early());
    forall f, r | 0 <= f < 8 && 0 <= r < 8
      ensures IsPawn(At(Early().board, f, r)) ==> r != 0 && r != 7
    {
      EarlyAt(f, r);
    }
  }

  lemma {:induction false} LiftedIsElsewhere(b: Board, kf: int)
    requires Elsewhere(b, 4) && (kf == 4 || kf == 5)
    ensures Elsewhere(Put(Put(b, 4, 0, Empty), kf, 0, Man(White, King)), kf)
  {
    var lifted := Put(Put(b, 4, 0, Empty), kf, 0, Man(White, King));
    forall f, r | 0 <= f < 8 && 0 <= r < 8
      ensures At(lifted, f, r) == MovedTo(kf, f, r)
    {
      assert At(b, f, r) == MovedTo(4, f, r);
    }
  }

  lemma {:induction false} NotAttacked(kf: int)
    requires kf == 4 || kf == 5
    ensures !SquareAttacked(Early(), kf, 0)
  {
    var lifted := KingLifted(Early(), kf, 0);
    EarlyIsElsewhere();
    LiftedIsElsewhere(Early().board, kf);
    ElsewhereIsSafe(lifted.board, kf);
    CheckIsHit(lifted);
  }

  /** White may castle. */
  lemma {:induction false} MayCastle()
    ensures LegalMove(Early(), 4, 0, 6, 0)
  {
    NotAttacked(4);
    NotAttacked(5);
    EarlyIsElsewhere();
    LegalIsPlainOrCastling(Early(), 4, 0, 6, 0);
    assert Castles(Early(), KingSide);
  }

  /** The king's step to f1. */
  const STEP := Choice(Square(4, 0), 5, 0, Queen)

  lemma {:induction false} StepMovesKing(b: Board, c: Color, m: Move)
    requires Elsewhere(b, 4) && m.from == Square(4, 0) && m.toFile == 5 && m.toRank == 0 && m.piecePromotionTo == Empty
    ensures Elsewhere(BoardAfter(b, c, m), 5)
  {
    assert At(b, 4, 0) == Man(White, King);
    forall f, r | 0 <= f < 8 && 0 <= r < 8
      ensures At(BoardAfter(b, c, m), f, r) == MovedTo(5, f, r)
    {
      assert At(b, f, r) == MovedTo(4, f, r);
    }
  }

  lemma {:induction false} StepIsLegal(p: Position)
    requires Elsewhere(p.board, 4) && p.onMove.White?
    ensures LegalMove(p, 4, 0, 5, 0)
  {
    LegalIsPlainOrCastling(p, 4, 0, 5, 0);
    assert At(p.board, 4, 0) == MovedTo(4, 4, 0) && At(p.board, 5, 0) == MovedTo(4, 5, 0);
  }

  lemma {:induction false} StepIsAllowed(t: Table)
    ensures Allowed(Early(), STEP, t)
  {
    EarlyIsElsewhere();
    StepIsLegal(Early());
    EarlyAt(4, 0);
    var m := MoveRecord(Early(), Square(4, 0), 5, 0, Queen);
    StepMovesKing(Early().board, White, m);
    ElsewhereIsSafe(BoardAfter(Early().board, White, m), 5);
    AcceptedIsSafe(Early(), Square(4, 0), 5, 0, Queen, t);
  }

  /** After 1. Kf1 and a takeback White, whose men stand as if nothing had happened, may not castle. */
  lemma {:induction false} CastlingIsLost(ms: seq<Move>)
    ensures Sound(Early()) && LegalMove(Early(), 4, 0, 6, 0)
    ensures var s := Session(Early(), ms, []);
      && IsSession(s, [Make(STEP), Back])
      && SameMen(SessionEnd(s, [Make(STEP), Back]).p, Early())
      && !LegalMove(SessionEnd(s, [Make(STEP), Back]).p, 4, 0, 6, 0)
  {
    var s := Session(Early(), ms, []);
    EarlyIsSound();
    MayCastle();
    StepIsAllowed(Seat(0, false));
    var next := Do(s, Make(STEP));
    SamePut(ms, 0, Noted(Early(), STEP), 0);
    UndoStep(next.p, s.p, next.ms, 0, STEP, next.p);
    var back := Do(next, Back).p;
    assert IsSession(next, [Back]);
    assert back == Undo(next.p, next.ms, 1);
    EarlyAt(4, 0);
    UndoKingFlags(next.p, next.ms, 1, White);
    MovedKingStays(back);
  }

  lemma {:induction false} MovedKingStays(p: Position)
    requires SameMen(p, Early()) && p.moved.wkmoved
    ensures !LegalMove(p, 4, 0, 6, 0)
  {
    EarlyAt(4, 0);
    LegalIsPlainOrCastling(p, 4, 0, 6, 0);
  }
}
