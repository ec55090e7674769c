/** Checks depend on the board alone: no flag, no counter and no castling clause
    can give or take a check. */
module Attacks {
  import opened Positions
  import opened Legality

  /** The man of colour c on (f, r) bears on (tf, tr), taking it to hold an enemy. */
  ghost predicate Hits(b: Board, c: Color, f: int, r: int, tf: int, tr: int)
    requires On(f) && On(r) && On(tf) && On(tr)
  {
    && Own(b, c, f, r)
    && !(f == tf && r == tr)
    && match At(b, f, r).kind
       case Pawn => Abs(f - tf) == 1 && tr - r == c.Forward()
       case Knight => KnightMove(f, r, tf, tr)
       case Bishop => BishopMove(b, f, r, tf, tr)
       case Rook => RookMove(b, f, r, tf, tr)
       case Queen => QueenMove(b, f, r, tf, tr)
       case King => KingStep(f, r, tf, tr)
  }

  /** The first king of colour c is hit by an enemy man. */
  ghost predicate KingHit(b: Board, c: Color) {
    exists kf, kr ::
      && IsFirstKing(b, c, kf, kr)
      && exists f, r :: On(f) && On(r) && Hits(b, c.Toggle(), f, r, kf, kr)
  }

  /** Moving onto an enemy man is a matter of the board only. */
  lemma {:induction false} CaptureIsHit(p: Position, f: int, r: int, tf: int, tr: int)
    requires On(f) && On(r) && On(tf) && On(tr)
    requires Own(p.board, p.onMove.Toggle(), tf, tr)
    ensures LegalMove(p, f, r, tf, tr) <==> Hits(p.board, p.onMove, f, r, tf, tr)
  {
  }

  lemma {:induction false} CheckIsHit(p: Position)
    ensures InCheck(p) <==> KingHit(p.board, p.onMove.Toggle())
  {
    if InCheck(p) {
      CheckHits(p);
    }
    if KingHit(p.board, p.onMove.Toggle()) {
      HitChecks(p);
    }
  }

  lemma {:induction false} CheckHits(p: Position)
    requires InCheck(p)
    ensures KingHit(p.board, p.onMove.Toggle())
  {
    var kf, kr :|
      && IsFirstKing(p.board, p.onMove.Toggle(), kf, kr)
      && exists f, r :: On(f) && On(r) && LegalMove(p, f, r, kf, kr);
    var f, r :| On(f) && On(r) && LegalMove(p, f, r, kf, kr);
    FirstKingStands(p.board, p.onMove.Toggle(), kf, kr);
    CaptureIsHit(p, f, r, kf, kr);
    assert Hits(p.board, p.onMove, f, r, kf, kr);
  }

  lemma {:induction false} FirstKingStands(b: Board, c: Color, kf: int, kr: int)
    requires IsFirstKing(b, c, kf, kr)
    ensures On(kf) && On(kr) && At(b, kf, kr) == Man(c, King)
  {
  }

  lemma {:induction false} HitChecks(p: Position)
    requires KingHit(p.board, p.onMove.Toggle())
    ensures InCheck(p)
  {
    var kf, kr :|
      && IsFirstKing(p.board, p.onMove.Toggle(), kf, kr)
      && exists f, r :: On(f) && On(r) && Hits(p.board, p.onMove, f, r, kf, kr);
    var f, r :| On(f) && On(r) && Hits(p.board, p.onMove, f, r, kf, kr);
    CaptureIsHit(p, f, r, kf, kr);
  }

  /** The move is geometrically fine and the mover's own king is not hit on the new board. */
  lemma {:induction false} AcceptedIsSafe(p: Position, from: Origin, tf: int, tr: int, promote: Kind, t: Table)
    requires InRange(from, tf, tr)
    ensures Accepted(p, from, tf, tr, promote, t)
      <==> Legal(p, from, tf, tr) && !KingHit(BoardAfter(p.board, p.onMove, MoveRecord(p, from, tf, tr, promote)),
          p.onMove)
  {
    if Legal(p, from, tf, tr) {
      CheckIsHit(Execute(p, MoveRecord(p, from, tf, tr, promote), t));
    }
  }

  /** A side that may castle may also take its king one step toward the rook. */
  lemma {:induction false} CastlingImpliesStep(p: Position, side: Side, t: Table)
    requires At(p.board, 4, p.onMove.Home()) == Man(p.onMove, King)
    requires Castles(p, side)
    ensures LegalAndCheck(p, Square(4, p.onMove.Home()), side.Transit(), p.onMove.Home(), t)
  {
    var h := p.onMove.Home();
    var from := Square(4, h);
    var lifted := KingLifted(p, side.Transit(), h);
    var m := MoveRecord(p, from, side.Transit(), h, Queen);
    var stepped := BoardAfter(p.board, p.onMove, m);
    assert KingMove(p, 4, h, side.Transit(), h);
    assert stepped == lifted.board;
    CheckIsHit(lifted);
    AcceptedIsSafe(p, from, side.Transit(), h, Queen, t);
  }
}
