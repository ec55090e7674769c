/** Kings that nobody hits because their neighbours are in the way. */
module Shelter {
  import opened Positions
  import opened Legality
  import opened Attacks
  import opened Targets
  import opened Interposition

  /** From (kf, kr) in one direction the first n - 1 squares are empty, and the n-th is beyond the
      edge or holds a man of colour c or an enemy knight. */
  ghost predicate GuardedAt(b: Board, c: Color, kf: int, kr: int, dx: int, dy: int, n: int) {
    && 1 <= n <= 3
    && (forall k :: 0 < k < n ==>
          var x, y := Go(kf, dx, k), Go(kr, dy, k); On(x) && On(y) && At(b, x, y) == Empty)
    && var x, y := Go(kf, dx, n), Go(kr, dy, n);
       !On(x) || !On(y) || Own(b, c, x, y) || At(b, x, y) == Man(c.Toggle(), Knight)
  }

  ghost predicate Guarded(b: Board, c: Color, kf: int, kr: int, dx: int, dy: int) {
    exists n :: GuardedAt(b, c, kf, kr, dx, dy, n)
  }

  /** The king of colour c is guarded all round, and no enemy knight is a jump away. */
  ghost predicate Sheltered(b: Board, c: Color, kf: int, kr: int) {
    && OneKing(b, c, kf, kr)
    && (forall dx, dy :: Direction(dx, dy) ==> Guarded(b, c, kf, kr, dx, dy))
    && forall x, y :: On(x) && On(y) && At(b, x, y) == Man(c.Toggle(), Knight) ==> !KnightMove(x, y, kf, kr)
  }

  /** A man in the way, seen from the king, is in the way of whoever looks at the king. */
  lemma {:induction false} GuardInTheWay(b: Board, kf: int, kr: int, x: int, y: int, n: int)
    requires On(kf) && On(kr) && On(x) && On(y) && (x, y) != (kf, kr)
    requires x == kf || y == kr || Abs(x - kf) == Abs(y - kr)
    requires 0 < n < Distance(x, y, kf, kr)
    ensures var gx, gy := Go(kf, Toward(kf, x), n), Go(kr, Toward(kr, y), n);
      On(gx) && On(gy) && (At(b, gx, gy) != Empty ==> !LineClear(b, x, y, kf, kr))
  {
    var k := Distance(x, y, kf, kr) - n;
    assert Go(x, Toward(x, kf), k) == Go(kf, Toward(kf, x), n) && Go(y, Toward(y, kr), k) == Go(kr, Toward(kr, y), n);
  }

  lemma {:induction false} NobodyPasses(b: Board, c: Color, kf: int, kr: int, x: int, y: int)
    requires Sheltered(b, c, kf, kr) && On(x) && On(y) && Own(b, c.Toggle(), x, y) && At(b, x, y).kind != Knight
    requires (x == kf || y == kr || Abs(x - kf) == Abs(y - kr)) && (x, y) != (kf, kr)
    ensures !LineClear(b, x, y, kf, kr) && Distance(x, y, kf, kr) > 1
  {
    var dx, dy := Toward(kf, x), Toward(kr, y);
    assert Direction(dx, dy) && Guarded(b, c, kf, kr, dx, dy);
    var n :| GuardedAt(b, c, kf, kr, dx, dy, n);
    var m := Distance(x, y, kf, kr);
    assert Go(kf, dx, m) == x && Go(kr, dy, m) == y;
    if n < m {
      GuardInTheWay(b, kf, kr, x, y, n);
    }
  }

  lemma {:induction false} ShelterHolds(b: Board, c: Color, kf: int, kr: int)
    requires Sheltered(b, c, kf, kr)
    ensures !KingHit(b, c)
  {
    OneKingHit(b, c, kf, kr);
    forall x, y | On(x) && On(y)
      ensures !Hits(b, c.Toggle(), x, y, kf, kr)
    {
      NobodyHits(b, c, kf, kr, x, y);
    }
  }

  lemma {:induction false} NobodyHits(b: Board, c: Color, kf: int, kr: int, x: int, y: int)
    requires Sheltered(b, c, kf, kr) && On(x) && On(y)
    ensures !Hits(b, c.Toggle(), x, y, kf, kr)
  {
    if Hits(b, c.Toggle(), x, y, kf, kr) && At(b, x, y).kind != Knight {
      if Slides(At(b, x, y).kind) {
        SliderHits(b, c.Toggle(), x, y, kf, kr);
      }
      NobodyPasses(b, c, kf, kr, x, y);
    }
  }
}
