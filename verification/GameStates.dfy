/** The game state as the server keeps it, updated in place, and the tests on it
    that scan the board. Each is proved against its definition in `Legality`. */
module GameStates {
  import opened Positions
  import opened Legality

  class GameState {
    const board: array<Piece>
    const holding: array<int>
    const ep: array<int>
    var wkmoved: bool
    var wqrmoved: bool
    var wkrmoved: bool
    var bkmoved: bool
    var bqrmoved: bool
    var bkrmoved: bool
    var lastIrreversible: int
    var onMove: Color
    var moveNum: int

    ghost predicate Valid() {
      board.Length == 64 && holding.Length == 10 && ep.Length == 16 && holding != ep
    }

    function Snapshot(): Position
      requires Valid()
      reads this, board, holding, ep
    {
      Position(board[..], holding[..], MovedFlags(wkmoved, wqrmoved, wkrmoved, bkmoved, bqrmoved, bkrmoved),
               ep[..], lastIrreversible, onMove, moveNum)
    }

    /** A fresh state holding the given position. */
    constructor (p: Position)
      ensures Valid() && fresh(board) && fresh(holding) && fresh(ep)
      ensures Snapshot() == p
    {
      board := new Piece[64](i requires 0 <= i < 64 => p.board[i]);
      holding := new int[10](i requires 0 <= i < 10 => p.holding[i]);
      ep := new int[16](i requires 0 <= i < 16 => p.ep[i]);
      wkmoved, wqrmoved, wkrmoved := p.moved.wkmoved, p.moved.wqrmoved, p.moved.wkrmoved;
      bkmoved, bqrmoved, bkrmoved := p.moved.bkmoved, p.moved.bqrmoved, p.moved.bkrmoved;
      lastIrreversible, onMove, moveNum := p.lastIrreversible, p.onMove, p.moveNum;
      new;
      assert board[..] == p.board && holding[..] == p.holding && ep[..] == p.ep;
    }
  }

  /** No man of colour c stands on the squares from the m-th up to the n-th of the scan. */
  ghost predicate NoneBetween(b: Board, c: Color, m: int, n: int) {
    forall x, y :: On(x) && On(y) && m <= 8 * x + y < n ==> !Own(b, c, x, y)
  }

  /** Advances file by file to the next man of a colour. */
  method NextPiece(b: Board, f: int, r: int, c: Color) returns (found: bool, nf: int, nr: int)
    requires On(f) && -1 <= r < 8
    ensures found ==> On(nf) && On(nr) && Own(b, c, nf, nr) && Earlier(f, r, nf, nr)
    ensures NoneBetween(b, c, 8 * f + r + 1, if found then 8 * nf + nr else 64)
  {
    nf, nr := f, r;
    while true
      invariant On(nf) && -1 <= nr < 8 && (Earlier(f, r, nf, nr) || (nf == f && nr == r))
      invariant forall x, y :: On(x) && On(y) && Earlier(f, r, x, y) && !Earlier(nf, nr, x, y) ==> !Own(b, c, x, y)
      decreases 8 - nf, 8 - nr
    {
      nr := nr + 1;
      if nr > 7 {
        nr := 0;
        nf := nf + 1;
        if nf > 7 {
          return false, nf, nr;
        }
      }
      if At(b, nf, nr) != Empty && At(b, nf, nr).color == c {
        return true, nf, nr;
      }
    }
  }

  method LegalBishopMove(gs: GameState, ff: int, fr: int, tf: int, tr: int) returns (legal: bool)
    requires gs.Valid() && On(ff) && On(fr) && On(tf) && On(tr) && !(ff == tf && fr == tr)
    ensures legal == BishopMove(gs.board[..], ff, fr, tf, tr)
  {
    ghost var b: Board := gs.board[..];
    var dx, dy, incx, incy;
    if ff > tf { dx, incx := ff - tf, -1; } else { dx, incx := tf - ff, 1; }
    var x := ff + incx;
    if fr > tr { dy, incy := fr - tr, -1; } else { dy, incy := tr - fr, 1; }
    var y := fr + incy;
    if dx != dy {
      return false;
    }
    assert incx == Toward(ff, tf) && incy == Toward(fr, tr) && dx == Abs(ff - tf);
    if dx == 1 {
      return true;
    }
    legal := WalkDiagonal(gs, ff, fr, x, y, incx, incy, dx);
  }

  /** Walks from (x, y), a step from (ff, fr), over the squares before the dx-th. */
  method WalkDiagonal(gs: GameState, ghost ff: int, ghost fr: int, x: int, y: int, incx: int, incy: int, dx: int)
    returns (clear: bool)
    requires gs.Valid() && On(ff) && On(fr) && -1 <= incx <= 1 && -1 <= incy <= 1 && dx > 1
    requires On(Go(ff, incx, dx)) && On(Go(fr, incy, dx)) && x == ff + incx && y == fr + incy
    ensures clear == Clear(gs.board[..], ff, fr, incx, incy, dx)
  {
    ghost var b: Board := gs.board[..];
    var f, r, count := x, y, dx - 1;
    while count != 0
      invariant 0 <= count < dx
      invariant f == Go(ff, incx, dx - count) && r == Go(fr, incy, dx - count)
      invariant Clear(b, ff, fr, incx, incy, dx - count)
    {
      ClearGrows(b, ff, fr, incx, incy, dx - count, dx);
      if gs.board[8 * f + r] != Empty {
        return false;
      }
      f, r, count := f + incx, r + incy, count - 1;
    }
    return true;
  }

  /** One more square on the way. */
  lemma {:induction false} ClearGrows(b: Board, f: int, r: int, dx: int, dy: int, k: int, n: int)
    requires On(f) && On(r) && -1 <= dx <= 1 && -1 <= dy <= 1 && 0 < k < n && On(Go(f, dx, n)) && On(Go(r, dy, n))
    ensures On(Go(f, dx, k)) && On(Go(r, dy, k))
    ensures At(b, Go(f, dx, k), Go(r, dy, k)) != Empty ==> !Clear(b, f, r, dx, dy, n)
    ensures Clear(b, f, r, dx, dy, k) && At(b, Go(f, dx, k), Go(r, dy, k)) == Empty ==> Clear(b, f, r, dx, dy, k + 1)
  {
  }

  method LegalRookMove(gs: GameState, ff: int, fr: int, tf: int, tr: int) returns (legal: bool)
    requires gs.Valid() && On(ff) && On(fr) && On(tf) && On(tr) && !(ff == tf && fr == tr)
    ensures legal == RookMove(gs.board[..], ff, fr, tf, tr)
  {
    ghost var b: Board := gs.board[..];
    if ff == tf {
      if Abs(fr - tr) == 1 {
        return true;
      }
      var start, stop := if fr < tr then fr + 1 else tr + 1, if fr < tr then tr - 1 else fr - 1;
      ghost var d := Toward(fr, tr);
      for i := start to stop + 1
        invariant forall j :: start <= j < i ==> At(b, ff, j) == Empty
      {
        if gs.board[8 * ff + i] != Empty {
          assert At(b, Go(ff, 0, Abs(fr - i)), Go(fr, d, Abs(fr - i))) != Empty;
          return false;
        }
      }
      assert Clear(b, ff, fr, 0, d, Abs(fr - tr));
      return true;
    } else if fr == tr {
      if Abs(ff - tf) == 1 {
        return true;
      }
      var start, stop := if ff < tf then ff + 1 else tf + 1, if ff < tf then tf - 1 else ff - 1;
      ghost var d := Toward(ff, tf);
      for i := start to stop + 1
        invariant forall j :: start <= j < i ==> At(b, j, fr) == Empty
      {
        if gs.board[8 * i + fr] != Empty {
          assert At(b, Go(ff, d, Abs(ff - i)), Go(fr, 0, Abs(ff - i))) != Empty;
          return false;
        }
      }
      assert Clear(b, ff, fr, d, 0, Abs(ff - tf));
      return true;
    } else {
      return false;
    }
  }

  method LegalQueenMove(gs: GameState, ff: int, fr: int, tf: int, tr: int) returns (legal: bool)
    requires gs.Valid() && On(ff) && On(fr) && On(tf) && On(tr) && !(ff == tf && fr == tr)
    ensures legal == QueenMove(gs.board[..], ff, fr, tf, tr)
  {
    legal := LegalRookMove(gs, ff, fr, tf, tr);
    if !legal {
      legal := LegalBishopMove(gs, ff, fr, tf, tr);
    }
  }

  /** Would the king of the side to move be in check on (kf, kr)? Tried on a copy. */
  method IsSquareAttacked(gs: GameState, kf: int, kr: int) returns (attacked: bool)
    requires gs.Valid() && On(kf) && On(kr)
    ensures attacked == SquareAttacked(gs.Snapshot(), kf, kr)
    decreases 0, 4
  {
    var fake := new GameState(gs.Snapshot());
    fake.board[8 * 4 + kr] := Empty;
    fake.board[8 * kf + kr] := Man(fake.onMove, King);
    fake.onMove := fake.onMove.Toggle();
    assert fake.Snapshot() == KingLifted(gs.Snapshot(), kf, kr);
    attacked := IsInCheck(fake);
  }

  method LegalKingMove(gs: GameState, ff: int, fr: int, tf: int, tr: int) returns (legal: bool)
    requires gs.Valid() && On(ff) && On(fr) && On(tf) && On(tr)
    ensures legal == KingMove(gs.Snapshot(), ff, fr, tf, tr)
    decreases if At(gs.board[..], tf, tr) == Empty then 1 else 0, 1
  {
    if ff == 4 && fr == tr == gs.onMove.Home() && (tf == 6 || tf == 2) && gs.board[8 * tf + tr] == Empty {
      var castles := MayCastle(gs, if tf == 6 then KingSide else QueenSide);
      if castles {
        return true;
      }
    }
    return Abs(ff - tf) <= 1 && Abs(fr - tr) <= 1;
  }

  /** King and rook have not moved, the way is free, and the king does not go out of or
      through check. */
  method MayCastle(gs: GameState, side: Side) returns (castles: bool)
    requires gs.Valid()
    ensures castles == Castles(gs.Snapshot(), side)
    decreases 1, 0
  {
    var p := gs.Snapshot();
    var h := gs.onMove.Home();
    var moved := match (gs.onMove, side)
      case (White, KingSide) => gs.wkmoved || gs.wkrmoved
      case (White, QueenSide) => gs.wkmoved || gs.wqrmoved
      case (Black, KingSide) => gs.bkmoved || gs.bkrmoved
      case (Black, QueenSide) => gs.bkmoved || gs.bqrmoved;
    if moved || At(p.board, side.Transit(), h) != Empty || At(p.board, side.KingTo(), h) != Empty
      || (side.QueenSide? && At(p.board, 1, h) != Empty) || At(p.board, side.RookFrom(), h) != Man(gs.onMove, Rook)
    {
      return false;
    }
    var here := IsSquareAttacked(gs, 4, h);
    if here {
      return false;
    }
    var there := IsSquareAttacked(gs, side.Transit(), h);
    return !there;
  }

  method IsLegalMove(gs: GameState, ff: int, fr: int, tf: int, tr: int) returns (legal: bool)
    requires gs.Valid() && On(ff) && On(fr) && On(tf) && On(tr)
    ensures legal == LegalMove(gs.Snapshot(), ff, fr, tf, tr)
    decreases if At(gs.board[..], tf, tr) == Empty then 1 else 0, 2
  {
    var p := gs.Snapshot();
    if At(p.board, ff, fr) == Empty || At(p.board, ff, fr).color != gs.onMove
      || (At(p.board, tf, tr) != Empty && At(p.board, tf, tr).color == gs.onMove)
      || (ff == tf && fr == tr)
    {
      return false;
    }
    match At(p.board, ff, fr).kind
    case Pawn => legal := PawnMove(p, ff, fr, tf, tr);
    case Knight => legal := KnightMove(ff, fr, tf, tr);
    case Bishop => legal := LegalBishopMove(gs, ff, fr, tf, tr);
    case Rook => legal := LegalRookMove(gs, ff, fr, tf, tr);
    case Queen => legal := LegalQueenMove(gs, ff, fr, tf, tr);
    case King => legal := LegalKingMove(gs, ff, fr, tf, tr);
  }

  /** The first king of a colour in the scan, file by file. */
  method FindKing(b: Board, c: Color) returns (found: bool, kf: int, kr: int)
    ensures found ==> IsFirstKing(b, c, kf, kr)
    ensures !found ==> forall f, r :: On(f) && On(r) ==> At(b, f, r) != Man(c, King)
  {
    for f := 0 to 8
      invariant forall x, y :: On(x) && On(y) && x < f ==> At(b, x, y) != Man(c, King)
    {
      for r := 0 to 8
        invariant forall x, y :: On(x) && On(y) && Earlier(x, y, f, r) ==> At(b, x, y) != Man(c, King)
      {
        if At(b, f, r) == Man(c, King) {
          return true, f, r;
        }
      }
    }
    return false, 0, 0;
  }

  /** None of the men on the first n squares reaches the king. */
  ghost predicate NoneReaches(p: Position, n: int, kf: int, kr: int)
    requires On(kf) && On(kr)
  {
    forall x, y :: On(x) && On(y) && 8 * x + y < n ==> !LegalMove(p, x, y, kf, kr)
  }

  lemma {:induction false} NoneReachesOn(p: Position, n: int, m: int, kf: int, kr: int)
    requires On(kf) && On(kr) && NoneReaches(p, n, kf, kr) && NoneBetween(p.board, p.onMove, n, m)
    ensures NoneReaches(p, m, kf, kr)
  {
    forall x, y | On(x) && On(y) && n <= 8 * x + y < m
      ensures !LegalMove(p, x, y, kf, kr)
    {
      assert !Own(p.board, p.onMove, x, y);
    }
  }

  /** What no square before one does, and it does not do, no square up to it does. */
  lemma {:induction false} NoneUpTo(does: (int, int) -> bool, f: int, r: int)
    requires On(f) && On(r) && !does(f, r)
    requires forall x, y :: 0 <= x < 8 && 0 <= y < 8 && 8 * x + y < 8 * f + r ==> !does(x, y)
    ensures forall x, y :: 0 <= x < 8 && 0 <= y < 8 && 8 * x + y < 8 * f + r + 1 ==> !does(x, y)
  {
    forall x, y | 0 <= x < 8 && 0 <= y < 8 && 8 * x + y < 8 * f + r + 1
      ensures !does(x, y)
    {
      assert 8 * x + y == 8 * f + r ==> x == f && y == r;
    }
  }

  lemma {:induction false} NoneReachesAt(p: Position, f: int, r: int, kf: int, kr: int)
    requires On(f) && On(r) && On(kf) && On(kr) && NoneReaches(p, 8 * f + r, kf, kr) && !LegalMove(p, f, r, kf, kr)
    ensures NoneReaches(p, 8 * f + r + 1, kf, kr)
  {
    NoneUpTo((x, y) => On(x) && On(y) && LegalMove(p, x, y, kf, kr), f, r);
    forall x, y | On(x) && On(y) && 8 * x + y < 8 * f + r + 1
      ensures !LegalMove(p, x, y, kf, kr)
    {
      var reaches := (x, y) => On(x) && On(y) && LegalMove(p, x, y, kf, kr);
      assert !reaches(x, y);
    }
  }

  method IsInCheck(gs: GameState) returns (check: bool)
    requires gs.Valid()
    ensures check == InCheck(gs.Snapshot())
    decreases 0, 3
  {
    var p := gs.Snapshot();
    var found, kf, kr := FindKing(p.board, gs.onMove.Toggle());
    if !found {
      return false;
    }
    var f, r := 0, -1;
    var more;
    more, f, r := NextPiece(p.board, f, r, gs.onMove);
    NoneReachesOn(p, 0, if more then 8 * f + r else 64, kf, kr);
    while more
      invariant more ==> On(f) && On(r) && Own(p.board, p.onMove, f, r)
      invariant NoneReaches(p, if more then 8 * f + r else 64, kf, kr)
      decreases more, 8 - f, 8 - r
    {
      var hit := IsLegalMove(gs, f, r, kf, kr);
      if hit {
        return true;
      }
      NoneReachesAt(p, f, r, kf, kr);
      ghost var n := 8 * f + r + 1;
      more, f, r := NextPiece(p.board, f, r, gs.onMove);
      NoneReachesOn(p, n, if more then 8 * f + r else 64, kf, kr);
    }
    FirstKingUnique(p.board, p.onMove.Toggle(), kf, kr);
    return false;
  }

  lemma {:induction false} FirstKingUnique(b: Board, c: Color, kf: int, kr: int)
    requires IsFirstKing(b, c, kf, kr)
    ensures forall f, r :: IsFirstKing(b, c, f, r) ==> f == kf && r == kr
  {
  }
}
