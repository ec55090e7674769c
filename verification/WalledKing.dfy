/** A position of bughouse in which the server calls stalemate although a queen could be dropped. */
module WalledKing {
  import opened Positions
  import opened Legality
  import opened Attacks
  import opened Targets
  import opened Mate
  import opened Judgement
  import opened Interposition
  import opened Runs

  /** White Ka1, Pa2; Black Ke8, Pa3, Nb1, Nb2, Rh1. */
  function WalledMan(f: int, r: int): Piece {
    if (f, r) == (0, 0) then Man(White, King)
    else if (f, r) == (0, 1) then Man(White, Pawn)
    else if (f, r) == (0, 2) then Man(Black, Pawn)
    else if (f, r) == (1, 0) || (f, r) == (1, 1) then Man(Black, Knight)
    else if (f, r) == (7, 0) then Man(Black, Rook)
    else if (f, r) == (4, 7) then Man(Black, King)
    else Empty
  }

  /** White is to move; no king and no rook may castle. */
  function Walled(): Position {
    Position(seq(64, i requires 0 <= i < 64 => WalledMan(i / 8, i % 8)), seq(10, _ => 0),
             MovedFlags(true, true, true, true, true, true), seq(16, _ => 0), -1, White, 40)
  }

  lemma {:induction false} WalledAt(f: int, r: int)
    requires On(f) && On(r)
    ensures At(Walled().board, f, r) == WalledMan(f, r)
  {
  }

  lemma {:induction false} WalledKings()
    ensures OneKing(Walled().board, White, 0, 0) && OneKing(Walled().board, Black, 4, 7)
  {
    forall f, r | On(f) && On(r)
      ensures At(Walled().board, f, r) == Man(White, King) <==> (f, r) == (0, 0)
      ensures At(Walled().board, f, r) == Man(Black, King) <==> (f, r) == (4, 7)
    {
      WalledAt(f, r);
    }
  }

  /** Nobody hits either king. */
  lemma {:induction false} NobodyHits(f: int, r: int)
    requires On(f) && On(r)
    ensures !Hits(Walled().board, Black, f, r, 0, 0) && !Hits(Walled().board, White, f, r, 4, 7)
  {
    WalledAt(f, r);
    WalledAt(1, 0);
    if (f, r) == (7, 0) {
      assert Go(7, -1, 6) == 1 && Go(0, 0, 6) == 0;
      assert !Clear(Walled().board, 7, 0, -1, 0, 7);
    }
  }

  lemma {:induction false} WalledIsQuiet()
    ensures !KingHit(Walled().board, White) && !KingHit(Walled().board, Black)
  {
    WalledKings();
    OneKingHit(Walled().board, White, 0, 0);
    OneKingHit(Walled().board, Black, 4, 7);
    forall f, r | On(f) && On(r)
      ensures !Hits(Walled().board, Black, f, r, 0, 0) && !Hits(Walled().board, White, f, r, 4, 7)
    {
      NobodyHits(f, r);
    }
  }

  /** It is a position that a game can be in. */
  lemma {:induction false} WalledIsSound()
    ensures Sound(Walled())
  {
    WalledKings();
    WalledIsQuiet();
    CheckIsHit(Walled());
    forall f, r | 0 <= f < 8 && 0 <= r < 8
      ensures IsPawn(At(Walled().board, f, r)) ==> r != 0 && r != 7
    {
      WalledAt(f, r);
    }
  }

  /** Only the king could go anywhere: to a knight. */
  lemma {:induction false} OnlyKnights(ff: int, fr: int, tf: int, tr: int)
    requires On(ff) && On(fr) && On(tf) && On(tr) && LegalMove(Walled(), ff, fr, tf, tr)
    ensures (ff, fr) == (0, 0) && ((tf, tr) == (1, 0) || (tf, tr) == (1, 1))
  {
    WalledAt(ff, fr);
    WalledAt(tf, tr);
    WalledAt(0, 2);
    LegalIsPlainOrCastling(Walled(), ff, fr, tf, tr);
  }

  /** The board after the king has taken the knight on (1, tr). */
  function Taken(tr: int): Board
    requires On(tr)
  {
    Put(Put(Walled().board, 1, tr, Man(White, King)), 0, 0, Empty)
  }

  lemma {:induction false} TakenAt(tr: int, f: int, r: int)
    requires (tr == 0 || tr == 1) && On(f) && On(r)
    ensures At(Taken(tr), f, r)
         == if (f, r) == (1, tr) then Man(White, King) else if (f, r) == (0, 0) then Empty else WalledMan(f, r)
  {
    WalledAt(f, r);
  }

  lemma {:induction false} TakenKing(tr: int)
    requires tr == 0 || tr == 1
    ensures OneKing(Taken(tr), White, 1, tr)
  {
    forall f, r | On(f) && On(r)
      ensures At(Taken(tr), f, r) == Man(White, King) <==> (f, r) == (1, tr)
    {
      TakenAt(tr, f, r);
    }
  }

  lemma {:induction false} PawnProtects()
    ensures Hits(Taken(1), Black, 0, 2, 1, 1)
  {
    TakenAt(1, 0, 2);
  }

  lemma {:induction false} RookProtects()
    ensures Hits(Taken(0), Black, 7, 0, 1, 0)
  {
    var b := Taken(0);
    TakenAt(0, 7, 0);
    forall k | 0 < k < 6
      ensures On(Go(7, -1, k)) && At(b, Go(7, -1, k), 0) == Empty
    {
      TakenAt(0, 7 - k, 0);
    }
    assert Clear(b, 7, 0, -1, 0, 6);
  }

  /** Both knights are protected. */
  lemma {:induction false} KnightsProtected(tr: int)
    requires tr == 0 || tr == 1
    ensures KingHit(Taken(tr), White)
  {
    TakenKing(tr);
    OneKingHit(Taken(tr), White, 1, tr);
    if tr == 1 {
      PawnProtects();
    } else {
      RookProtects();
    }
  }

  lemma {:induction false} MayNotTake(tr: int, t: Table)
    requires tr == 0 || tr == 1
    ensures !LegalAndCheck(Walled(), Square(0, 0), 1, tr, t)
  {
    WalledAt(0, 0);
    WalledAt(1, tr);
    AcceptedIsSafe(Walled(), Square(0, 0), 1, tr, Queen, t);
    KnightsProtected(tr);
  }

  lemma {:induction false} MayNotMove(ff: int, fr: int, tf: int, tr: int, t: Table)
    requires On(ff) && On(fr) && On(tf) && On(tr)
    ensures !LegalAndCheck(Walled(), Square(ff, fr), tf, tr, t)
  {
    if LegalAndCheck(Walled(), Square(ff, fr), tf, tr, t) {
      OnlyKnights(ff, fr, tf, tr);
      MayNotTake(tr, t);
    }
  }

  lemma {:induction false} NoMoves(t: Table)
    ensures !HasBoardMove(Walled(), t)
  {
    forall ff, fr, tf, tr | On(ff) && On(fr) && On(tf) && On(tr)
      ensures !LegalAndCheck(Walled(), Square(ff, fr), tf, tr, t)
    {
      MayNotMove(ff, fr, tf, tr, t);
    }
  }

  /** No square beside the king is empty; d4 is. */
  lemma {:induction false} WhereItIsEmpty()
    ensures !EmptyBeside(Walled().board, 0, 0) && At(Walled().board, 3, 3) == Empty
  {
    WalledAt(3, 3);
    forall f, r | On(f) && On(r) && KingStep(0, 0, f, r)
      ensures At(Walled().board, f, r) != Empty
    {
      WalledAt(f, r);
    }
  }

  lemma {:induction false} QueenCouldDrop()
    ensures SafeDrop(Walled().board, White, 3, 3) && SomeEmpty(Walled().board)
  {
    WalledKings();
    WalledIsQuiet();
    WhereItIsEmpty();
    QuietDropIsSafe(Walled().board, White, 0, 0, 3, 3);
  }

  /** The server calls stalemate, although a queen could be dropped on d4. */
  lemma {:induction false} WalledKingIsMissed(t: Table)
    requires t.Bughouse()
    ensures Sound(Walled()) && SafeDrop(Walled().board, White, 3, 3)
    ensures !HasMove(Walled(), t) && Status(Walled(), t) == Stalemate
  {
    WalledIsSound();
    WalledKings();
    WalledIsQuiet();
    NoMoves(t);
    WhereItIsEmpty();
    QueenCouldDrop();
    NoneBeside(Walled(), t);
  }

  lemma {:induction false} NoneBeside(p: Position, t: Table)
    requires t.Bughouse() && OneKing(p.board, p.onMove, 0, 0) && p.holding[HoldSlot(p.onMove, Queen)] >= 0
    requires !HasBoardMove(p, t) && !KingHit(p.board, p.onMove) && !EmptyBeside(p.board, 0, 0)
    requires SafeDrop(p.board, p.onMove, 3, 3) && SomeEmpty(p.board)
    ensures !HasMove(p, t)
  {
    BughouseExact(p, t, 0, 0);
  }
}
