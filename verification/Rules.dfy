/** The laws of chess square by square, and that the server's tests keep to them. */
module Rules {
  import opened Positions
  import opened Legality
  import opened Attacks
  import opened Targets
  import opened Interposition
  import opened Runs

  /** (x, y) lies on the line from (f, r) to (tf, tr), strictly between the two. */
  predicate Between(f: int, r: int, tf: int, tr: int, x: int, y: int) {
    || (f == x == tf && (r < y < tr || tr < y < r))
    || (r == y == tr && (f < x < tf || tf < x < f))
    || (tf - f == tr - r && x - f == y - r && (f < x < tf || tf < x < f))
    || (tf - f == r - tr && x - f == r - y && (f < x < tf || tf < x < f))
  }

  /** Nothing stands between two squares. */
  ghost predicate Open(b: Board, f: int, r: int, tf: int, tr: int) {
    forall x, y :: 0 <= x < 8 && 0 <= y < 8 && Between(f, r, tf, tr, x, y) ==> At(b, x, y) == Empty
  }

  predicate Straight(f: int, r: int, tf: int, tr: int) { (f == tf) != (r == tr) }

  predicate Diagonal(f: int, r: int, tf: int, tr: int) { f != tf && (tf - f == tr - r || tf - f == r - tr) }

  /** The square of the distance. */
  function Apart(f: int, r: int, tf: int, tr: int): int { (tf - f) * (tf - f) + (tr - r) * (tr - r) }

  /** How many ranks ahead for a pawn of the colour. */
  function Ahead(c: Color, r: int, tr: int): int { if c == White then tr - r else r - tr }

  /** A man of colour c on (f, r) attacks (tf, tr). */
  ghost predicate Strikes(b: Board, c: Color, f: int, r: int, tf: int, tr: int)
    requires On(f) && On(r) && On(tf) && On(tr)
  {
    || (At(b, f, r) == Man(c, Pawn) && (tf == f + 1 || tf == f - 1) && Ahead(c, r, tr) == 1)
    || (At(b, f, r) == Man(c, Knight) && Apart(f, r, tf, tr) == 5)
    || (At(b, f, r) == Man(c, Bishop) && Diagonal(f, r, tf, tr) && Open(b, f, r, tf, tr))
    || (At(b, f, r) == Man(c, Rook) && Straight(f, r, tf, tr) && Open(b, f, r, tf, tr))
    || (At(b, f, r) == Man(c, Queen) && (Diagonal(f, r, tf, tr) || Straight(f, r, tf, tr)) && Open(b, f, r, tf, tr))
    || (At(b, f, r) == Man(c, King) && 1 <= Apart(f, r, tf, tr) <= 2)
  }

  /** Some enemy of colour c attacks the square. */
  ghost predicate Struck(b: Board, c: Color, x: int, y: int)
    requires On(x) && On(y)
  {
    exists f, r :: On(f) && On(r) && Strikes(b, c.Toggle(), f, r, x, y)
  }

  lemma {:induction false} StraightIsRook(b: Board, f: int, r: int, tf: int, tr: int)
    requires On(f) && On(r) && On(tf) && On(tr) && (f, r) != (tf, tr)
    ensures RookMove(b, f, r, tf, tr) <==> Straight(f, r, tf, tr) && Open(b, f, r, tf, tr)
  {
    if Straight(f, r, tf, tr) {
      WayIsOpen(b, f, r, tf, tr);
    }
  }

  lemma {:induction false} DiagonalIsBishop(b: Board, f: int, r: int, tf: int, tr: int)
    requires On(f) && On(r) && On(tf) && On(tr) && (f, r) != (tf, tr)
    ensures BishopMove(b, f, r, tf, tr) <==> Diagonal(f, r, tf, tr) && Open(b, f, r, tf, tr)
  {
    if Diagonal(f, r, tf, tr) {
      WayIsOpen(b, f, r, tf, tr);
    }
  }

  /** Along a line, what is walked over is what lies between. */
  lemma {:induction false} WayIsOpen(b: Board, f: int, r: int, tf: int, tr: int)
    requires On(f) && On(r) && On(tf) && On(tr) && (Straight(f, r, tf, tr) || Diagonal(f, r, tf, tr))
    ensures var n := if f == tf then Abs(r - tr) else Abs(f - tf);
      Clear(b, f, r, Toward(f, tf), Toward(r, tr), n) <==> Open(b, f, r, tf, tr)
  {
    var n := if f == tf then Abs(r - tr) else Abs(f - tf);
    var dx, dy := Toward(f, tf), Toward(r, tr);
    if Clear(b, f, r, dx, dy, n) {
      forall x, y | On(x) && On(y) && Between(f, r, tf, tr, x, y)
        ensures At(b, x, y) == Empty
      {
        var k := if f == tf then Abs(y - r) else Abs(x - f);
        assert Go(f, dx, k) == x && Go(r, dy, k) == y;
      }
    }
    if Open(b, f, r, tf, tr) {
      forall k | 0 < k < n && On(Go(f, dx, k)) && On(Go(r, dy, k))
        ensures At(b, Go(f, dx, k), Go(r, dy, k)) == Empty
      {
        assert Between(f, r, tf, tr, Go(f, dx, k), Go(r, dy, k));
      }
    }
  }

  lemma {:induction false} JumpsApart(f: int, r: int, tf: int, tr: int)
    requires On(f) && On(r) && On(tf) && On(tr)
    ensures KnightMove(f, r, tf, tr) <==> Apart(f, r, tf, tr) == 5
    ensures KingStep(f, r, tf, tr) <==> Apart(f, r, tf, tr) <= 2
    ensures Apart(f, r, tf, tr) == 0 <==> (f, r) == (tf, tr)
  {
    Squared(tf - f);
    Squared(tr - r);
  }

  lemma {:induction false} Squared(x: int)
    requires -8 < x < 8
    ensures x * x == if Abs(x) == 0 then 0 else if Abs(x) == 1 then 1 else if Abs(x) == 2 then 4
                     else if Abs(x) == 3 then 9 else if Abs(x) == 4 then 16 else if Abs(x) == 5 then 25
                     else if Abs(x) == 6 then 36 else 49
  {
  }

  /** What the server takes for an attack is one. */
  lemma {:induction false} HitsByTheRules(b: Board, c: Color, f: int, r: int, tf: int, tr: int)
    requires On(f) && On(r) && On(tf) && On(tr)
    ensures Hits(b, c, f, r, tf, tr) <==> Strikes(b, c, f, r, tf, tr)
  {
    JumpsApart(f, r, tf, tr);
    if (f, r) != (tf, tr) {
      StraightIsRook(b, f, r, tf, tr);
      DiagonalIsBishop(b, f, r, tf, tr);
    }
  }

  /** The one king of the colour is attacked exactly when the server says so. */
  lemma {:induction false} CheckByTheRules(b: Board, c: Color, kf: int, kr: int)
    requires OneKing(b, c, kf, kr)
    ensures KingHit(b, c) <==> Struck(b, c, kf, kr)
  {
    OneKingHit(b, c, kf, kr);
    forall f, r | On(f) && On(r)
      ensures Hits(b, c.Toggle(), f, r, kf, kr) <==> Strikes(b, c.Toggle(), f, r, kf, kr)
    {
      HitsByTheRules(b, c.Toggle(), f, r, kf, kr);
    }
  }

  /** Castling as the laws have it: king and rook have not moved, nothing stands between them, and
      the king neither stands on an attacked square nor passes one. */
  ghost predicate CastlesTo(p: Position, tf: int) {
    var c := p.onMove;
    var h, rook, past := if c == White then 0 else 7, if tf == 6 then 7 else 0, if tf == 6 then 5 else 3;
    && (tf == 6 || tf == 2)
    && (if c == White then !p.moved.wkmoved && (if tf == 6 then !p.moved.wkrmoved else !p.moved.wqrmoved)
        else !p.moved.bkmoved && (if tf == 6 then !p.moved.bkrmoved else !p.moved.bqrmoved))
    && At(p.board, 4, h) == Man(c, King) && At(p.board, rook, h) == Man(c, Rook) && Open(p.board, 4, h, rook, h)
    && !Struck(p.board, c, 4, h)
    && !Struck(Put(Put(p.board, 4, h, Empty), past, h, Man(c, King)), c, past, h)
  }

  /** The server castles exactly when the laws allow it. */
  lemma {:induction false} CastlesByTheRules(p: Position, side: Side)
    requires OneKing(p.board, p.onMove, 4, if p.onMove == White then 0 else 7)
    ensures Castles(p, side) <==> CastlesTo(p, if side == KingSide then 6 else 2)
  {
    var c := p.onMove;
    var h := if c == White then 0 else 7;
    LiftedIsStruck(p, 4, h);
    LiftedIsStruck(p, if side == KingSide then 5 else 3, h);
    assert Put(Put(p.board, 4, h, Empty), 4, h, Man(c, King)) == p.board;
    RankOpen(p.board, h, side);
  }

  lemma {:induction false} RankOpen(b: Board, h: int, side: Side)
    requires On(h)
    ensures Open(b, 4, h, if side == KingSide then 7 else 0, h)
      <==> if side == KingSide then At(b, 5, h) == Empty && At(b, 6, h) == Empty
           else At(b, 1, h) == Empty && At(b, 2, h) == Empty && At(b, 3, h) == Empty
  {
    if side == KingSide {
      assert Between(4, h, 7, h, 5, h) && Between(4, h, 7, h, 6, h);
    } else {
      assert Between(4, h, 0, h, 1, h) && Between(4, h, 0, h, 2, h) && Between(4, h, 0, h, 3, h);
    }
  }

  lemma {:induction false} LiftedIsStruck(p: Position, x: int, h: int)
    requires On(x) && On(h) && OneKing(p.board, p.onMove, 4, h)
    ensures SquareAttacked(p, x, h)
      <==> Struck(Put(Put(p.board, 4, h, Empty), x, h, Man(p.onMove, King)), p.onMove, x, h)
  {
    var lifted := KingLifted(p, x, h);
    CheckIsHit(lifted);
    forall f, r | On(f) && On(r)
      ensures At(lifted.board, f, r) == Man(p.onMove, King) <==> f == x && r == h
    {
      assert At(p.board, f, r) == Man(p.onMove, King) <==> f == 4 && r == h;
    }
    assert OneKing(lifted.board, p.onMove, x, h);
    CheckByTheRules(lifted.board, p.onMove, x, h);
  }

  /** Where the flags let a pawn take en passant: beside it stands an enemy pawn they name. */
  predicate Passing(p: Position, f: int, r: int, tf: int)
    requires On(f) && On(r) && On(tf)
  {
    if p.onMove == White then p.ep[f] == tf - f && At(p.board, tf, r) == Man(Black, Pawn)
    else p.ep[8 + f] == tf - f && At(p.board, tf, r) == Man(White, Pawn)
  }

  /** A pawn of the side to move may go from (f, r) to (tf, tr): a step ahead, two from its start over
      an empty square, or a step to the side onto an enemy or en passant. */
  ghost predicate PawnMayGo(p: Position, f: int, r: int, tf: int, tr: int)
    requires On(f) && On(r) && On(tf) && On(tr)
  {
    var c, b := p.onMove, p.board;
    || (tf == f && Ahead(c, r, tr) == 1 && At(b, tf, tr) == Empty)
    || (tf == f && r == (if c == White then 1 else 6) && Ahead(c, r, tr) == 2 && At(b, tf, tr) == Empty
        && Open(b, f, r, tf, tr))
    || (Strikes(b, c, f, r, tf, tr) && (At(b, tf, tr) != Empty || Passing(p, f, r, tf)))
  }

  /** A man of the side to move may go from (f, r) to (tf, tr). */
  ghost predicate MayGo(p: Position, f: int, r: int, tf: int, tr: int)
    requires On(f) && On(r) && On(tf) && On(tr)
  {
    var c, b := p.onMove, p.board;
    && At(b, f, r).Man? && At(b, f, r).color == c && !(At(b, tf, tr).Man? && At(b, tf, tr).color == c)
    && if At(b, f, r) == Man(c, Pawn) then PawnMayGo(p, f, r, tf, tr)
       else Strikes(b, c, f, r, tf, tr)
            || (At(b, f, r) == Man(c, King) && f == 4 && r == tr == (if c == White then 0 else 7) && CastlesTo(p, tf))
  }

  lemma {:induction false} PawnByTheRules(p: Position, f: int, r: int, tf: int, tr: int)
    requires On(f) && On(r) && On(tf) && On(tr) && At(p.board, f, r) == Man(p.onMove, Pawn)
    requires !Own(p.board, p.onMove, tf, tr)
    ensures PawnMove(p, f, r, tf, tr) <==> PawnMayGo(p, f, r, tf, tr)
  {
    if f == tf && Ahead(p.onMove, r, tr) == 2 && r == (if p.onMove == White then 1 else 6) {
      assert forall x, y :: Between(f, r, tf, tr, x, y) <==> x == f && y == (r + tr) / 2;
      assert Between(f, r, tf, tr, f, (r + tr) / 2);
    }
  }

  lemma {:induction false} PlainByTheRules(p: Position, f: int, r: int, tf: int, tr: int)
    requires On(f) && On(r) && On(tf) && On(tr) && Own(p.board, p.onMove, f, r) && !Own(p.board, p.onMove, tf, tr)
    ensures Plain(p, f, r, tf, tr) <==>
      if At(p.board, f, r) == Man(p.onMove, Pawn) then PawnMayGo(p, f, r, tf, tr)
      else Strikes(p.board, p.onMove, f, r, tf, tr)
  {
    if At(p.board, f, r) == Man(p.onMove, Pawn) {
      PawnByTheRules(p, f, r, tf, tr);
    } else {
      HitsByTheRules(p.board, p.onMove, f, r, tf, tr);
    }
  }

  /** With one king of the mover on the board, the server's test is the law. */
  lemma {:induction false} LegalByTheRules(p: Position, f: int, r: int, tf: int, tr: int)
    requires On(f) && On(r) && On(tf) && On(tr) && HasOneKing(p.board, p.onMove)
    ensures LegalMove(p, f, r, tf, tr) <==> MayGo(p, f, r, tf, tr)
  {
    LegalIsPlainOrCastling(p, f, r, tf, tr);
    if Own(p.board, p.onMove, f, r) && !Own(p.board, p.onMove, tf, tr) {
      PlainByTheRules(p, f, r, tf, tr);
      if At(p.board, f, r) == Man(p.onMove, King) && f == 4 && r == tr == p.onMove.Home() {
        CastlingByTheRules(p, r, tf);
      }
    }
  }

  lemma {:induction false} CastlingByTheRules(p: Position, h: int, tf: int)
    requires HasOneKing(p.board, p.onMove) && h == p.onMove.Home() && On(tf)
    requires At(p.board, 4, h) == Man(p.onMove, King)
    ensures Castling(p, 4, h, tf, h) <==> CastlesTo(p, tf)
  {
    var kf, kr :| OneKing(p.board, p.onMove, kf, kr);
    assert OneKing(p.board, p.onMove, 4, h);
    CastlesByTheRules(p, KingSide);
    CastlesByTheRules(p, QueenSide);
    RankOpen(p.board, h, KingSide);
    RankOpen(p.board, h, QueenSide);
  }
}
