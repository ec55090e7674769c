/** In bughouse a mate can be answered by dropping a man. The server tries a queen on
    the squares beside the king only; this says when that is enough. */
module Interposition {
  import opened Positions
  import opened Legality
  import opened Attacks
  import opened Mate

  /** (kf, kr) is the one king of colour c. */
  ghost predicate OneKing(b: Board, c: Color, kf: int, kr: int) {
    && On(kf) && On(kr)
    && forall f, r :: On(f) && On(r) ==> (At(b, f, r) == Man(c, King) <==> f == kf && r == kr)
  }

  lemma {:induction false} OneKingHit(b: Board, c: Color, kf: int, kr: int)
    requires OneKing(b, c, kf, kr)
    ensures KingHit(b, c) <==> exists f, r :: On(f) && On(r) && Hits(b, c.Toggle(), f, r, kf, kr)
  {
    assert IsFirstKing(b, c, kf, kr);
  }

  /** The queen of colour c on (f, r), an empty square. */
  function WithQueen(b: Board, c: Color, f: int, r: int): Board
    requires On(f) && On(r)
  {
    Put(b, f, r, Man(c, Queen))
  }

  /** A queen dropped on the empty square (f, r) leaves c's king safe. */
  ghost predicate SafeDrop(b: Board, c: Color, f: int, r: int) {
    On(f) && On(r) && At(b, f, r) == Empty && !KingHit(WithQueen(b, c, f, r), c)
  }

  predicate Slides(k: Kind) { k == Bishop || k == Rook || k == Queen }

  predicate Aligned(k: Kind, x: int, y: int, kf: int, kr: int) {
    || ((k == Rook || k == Queen) && (x == kf || y == kr))
    || ((k == Bishop || k == Queen) && Abs(x - kf) == Abs(y - kr))
  }

  function Distance(x: int, y: int, kf: int, kr: int): int { if x == kf then Abs(y - kr) else Abs(x - kf) }

  /** Nothing stands between (x, y) and (kf, kr). */
  ghost predicate LineClear(b: Board, x: int, y: int, kf: int, kr: int) {
    Clear(b, x, y, Toward(x, kf), Toward(y, kr), Distance(x, y, kf, kr))
  }

  /** A sliding man hits along a clear line; any other hits whatever stands around it. */
  lemma {:induction false} SliderHits(b: Board, e: Color, x: int, y: int, kf: int, kr: int)
    requires On(x) && On(y) && On(kf) && On(kr) && Own(b, e, x, y) && Slides(At(b, x, y).kind)
    ensures Hits(b, e, x, y, kf, kr)
            <==> (x, y) != (kf, kr) && Aligned(At(b, x, y).kind, x, y, kf, kr) && LineClear(b, x, y, kf, kr)
  {
  }

  lemma {:induction false} LeaperHits(a: Board, b: Board, e: Color, x: int, y: int, kf: int, kr: int)
    requires On(x) && On(y) && On(kf) && On(kr) && At(a, x, y) == At(b, x, y) && Own(b, e, x, y)
    requires !Slides(At(b, x, y).kind)
    ensures Hits(a, e, x, y, kf, kr) <==> Hits(b, e, x, y, kf, kr)
  {
  }

  /** An added man of c only takes lines away from the enemy. */
  lemma {:induction false} DropOnlyBlocks(b: Board, c: Color, f: int, r: int, x: int, y: int, kf: int, kr: int)
    requires On(f) && On(r) && At(b, f, r) == Empty && On(x) && On(y) && On(kf) && On(kr)
    requires Hits(WithQueen(b, c, f, r), c.Toggle(), x, y, kf, kr)
    ensures Hits(b, c.Toggle(), x, y, kf, kr)
  {
    var after := WithQueen(b, c, f, r);
    assert Own(after, c.Toggle(), x, y) && (x, y) != (f, r);
    if Slides(At(b, x, y).kind) {
      SliderHits(after, c.Toggle(), x, y, kf, kr);
      SliderHits(b, c.Toggle(), x, y, kf, kr);
      ClearBefore(b, c, f, r, x, y, Toward(x, kf), Toward(y, kr), Distance(x, y, kf, kr));
    } else {
      LeaperHits(after, b, c.Toggle(), x, y, kf, kr);
    }
  }

  lemma {:induction false} ClearBefore(b: Board, c: Color, f: int, r: int, x: int, y: int, dx: int, dy: int, n: int)
    requires On(f) && On(r) && At(b, f, r) == Empty && Clear(WithQueen(b, c, f, r), x, y, dx, dy, n)
    ensures Clear(b, x, y, dx, dy, n)
  {
    forall k | 0 < k < n && On(Go(x, dx, k)) && On(Go(y, dy, k))
      ensures At(b, Go(x, dx, k), Go(y, dy, k)) == Empty
    {
      assert At(WithQueen(b, c, f, r), Go(x, dx, k), Go(y, dy, k)) == Empty;
    }
  }

  /** The coordinate next to k on the way to another. */
  function Beside(k: int, to: int): int { k + Toward(k, to) }

  /** A queen on (f, r) that cuts a line to the king stands on that line; so does the
      square beside the king. */
  lemma {:induction false} CutLine(b: Board, c: Color, f: int, r: int, x: int, y: int, kf: int, kr: int, k: Kind)
    requires On(f) && On(r) && On(x) && On(y) && On(kf) && On(kr)
    requires Aligned(k, x, y, kf, kr) && LineClear(b, x, y, kf, kr) && !LineClear(WithQueen(b, c, f, r), x, y, kf, kr)
    ensures On(Beside(kf, f)) && On(Beside(kr, r)) && At(b, Beside(kf, f), Beside(kr, r)) == Empty
    ensures !LineClear(WithQueen(b, c, Beside(kf, f), Beside(kr, r)), x, y, kf, kr)
  {
    var after := WithQueen(b, c, f, r);
    var dx, dy, n := Toward(x, kf), Toward(y, kr), Distance(x, y, kf, kr);
    var i :| 0 < i < n && On(Go(x, dx, i)) && On(Go(y, dy, i)) && At(after, Go(x, dx, i), Go(y, dy, i)) != Empty;
    assert At(b, Go(x, dx, i), Go(y, dy, i)) == Empty;
    assert f == Go(x, dx, i) && r == Go(y, dy, i);
    assert Beside(kf, f) == Go(x, dx, n - 1) && Beside(kr, r) == Go(y, dy, n - 1);
    assert At(WithQueen(b, c, Beside(kf, f), Beside(kr, r)), Go(x, dx, n - 1), Go(y, dy, n - 1)) != Empty;
  }

  /** An enemy line to the king that a queen on (f, r) cuts is cut by a queen next to
      the king on the same line as well. */
  lemma {:induction false} CutBeside(b: Board, c: Color, f: int, r: int, x: int, y: int, kf: int, kr: int)
    requires On(f) && On(r) && At(b, f, r) == Empty && On(x) && On(y) && On(kf) && On(kr)
    requires Hits(b, c.Toggle(), x, y, kf, kr) && !Hits(WithQueen(b, c, f, r), c.Toggle(), x, y, kf, kr)
    ensures On(Beside(kf, f)) && On(Beside(kr, r)) && At(b, Beside(kf, f), Beside(kr, r)) == Empty
    ensures !Hits(WithQueen(b, c, Beside(kf, f), Beside(kr, r)), c.Toggle(), x, y, kf, kr)
  {
    var e, far := c.Toggle(), WithQueen(b, c, f, r);
    assert Own(b, e, x, y) && (x, y) != (f, r) && At(far, x, y) == At(b, x, y);
    if !Slides(At(b, x, y).kind) {
      LeaperHits(far, b, e, x, y, kf, kr);
    }
    SliderHits(b, e, x, y, kf, kr);
    SliderHits(far, e, x, y, kf, kr);
    CutLine(b, c, f, r, x, y, kf, kr, At(b, x, y).kind);
    var near := WithQueen(b, c, Beside(kf, f), Beside(kr, r));
    if Hits(near, e, x, y, kf, kr) {
      SliderHits(near, e, x, y, kf, kr);
    }
  }

  /** A safe drop is one that no enemy man hits past. */
  lemma {:induction false} SafeDropMeans(b: Board, c: Color, kf: int, kr: int, f: int, r: int)
    requires OneKing(b, c, kf, kr) && On(f) && On(r) && At(b, f, r) == Empty
    ensures SafeDrop(b, c, f, r)
      <==> forall u, v :: On(u) && On(v) ==> !Hits(WithQueen(b, c, f, r), c.Toggle(), u, v, kf, kr)
  {
    assert OneKing(WithQueen(b, c, f, r), c, kf, kr);
    OneKingHit(WithQueen(b, c, f, r), c, kf, kr);
  }

  /** When the side is in check, a drop that helps anywhere also helps beside the king. */
  lemma {:induction false} BesideIsEnough(b: Board, c: Color, kf: int, kr: int, f: int, r: int)
    requires OneKing(b, c, kf, kr) && KingHit(b, c) && SafeDrop(b, c, f, r)
    ensures KingStep(kf, kr, Beside(kf, f), Beside(kr, r)) && SafeDrop(b, c, Beside(kf, f), Beside(kr, r))
  {
    OneKingHit(b, c, kf, kr);
    SafeDropMeans(b, c, kf, kr, f, r);
    var x, y :| On(x) && On(y) && Hits(b, c.Toggle(), x, y, kf, kr);
    CutBeside(b, c, f, r, x, y, kf, kr);
    forall u, v | On(u) && On(v)
      ensures !Hits(WithQueen(b, c, Beside(kf, f), Beside(kr, r)), c.Toggle(), u, v, kf, kr)
    {
      StillCut(b, c, f, r, u, v, kf, kr);
    }
    SafeDropMeans(b, c, kf, kr, Beside(kf, f), Beside(kr, r));
  }

  lemma {:induction false} StillCut(b: Board, c: Color, f: int, r: int, x: int, y: int, kf: int, kr: int)
    requires On(f) && On(r) && At(b, f, r) == Empty && On(x) && On(y) && On(kf) && On(kr)
    requires !Hits(WithQueen(b, c, f, r), c.Toggle(), x, y, kf, kr)
    requires On(Beside(kf, f)) && On(Beside(kr, r)) && At(b, Beside(kf, f), Beside(kr, r)) == Empty
    ensures !Hits(WithQueen(b, c, Beside(kf, f), Beside(kr, r)), c.Toggle(), x, y, kf, kr)
  {
    if Hits(WithQueen(b, c, Beside(kf, f), Beside(kr, r)), c.Toggle(), x, y, kf, kr) {
      DropOnlyBlocks(b, c, Beside(kf, f), Beside(kr, r), x, y, kf, kr);
      CutBeside(b, c, f, r, x, y, kf, kr);
    }
  }

  /** When the side is not in check, a drop on any empty square leaves it so. */
  lemma {:induction false} QuietDropIsSafe(b: Board, c: Color, kf: int, kr: int, f: int, r: int)
    requires OneKing(b, c, kf, kr) && !KingHit(b, c) && On(f) && On(r) && At(b, f, r) == Empty
    ensures SafeDrop(b, c, f, r)
  {
    OneKingHit(b, c, kf, kr);
    forall u, v | On(u) && On(v)
      ensures !Hits(WithQueen(b, c, f, r), c.Toggle(), u, v, kf, kr)
    {
      if Hits(WithQueen(b, c, f, r), c.Toggle(), u, v, kf, kr) {
        DropOnlyBlocks(b, c, f, r, u, v, kf, kr);
      }
    }
    SafeDropMeans(b, c, kf, kr, f, r);
  }

  /** The server's test of a queen drop is the safety of the drop. */
  lemma {:induction false} DropTestIsSafety(p: Position, t: Table, f: int, r: int)
    requires On(f) && On(r) && p.holding[HoldSlot(p.onMove, Queen)] >= 0
    ensures LegalAndCheck(QueenInHand(p), Drop(Queen), f, r, t) <==> SafeDrop(p.board, p.onMove, f, r)
  {
    AcceptedIsSafe(QueenInHand(p), Drop(Queen), f, r, Queen, t);
  }

  ghost predicate SomeSafeDrop(b: Board, c: Color) {
    exists f, r :: On(f) && On(r) && SafeDrop(b, c, f, r)
  }

  ghost predicate EmptyBeside(b: Board, kf: int, kr: int) {
    exists f, r :: On(f) && On(r) && KingStep(kf, kr, f, r) && At(b, f, r) == Empty
  }

  ghost predicate SomeEmpty(b: Board) {
    exists f, r :: On(f) && On(r) && At(b, f, r) == Empty
  }

  /** Trying the squares beside the king answers whether any square would do, in check
      always, and out of check unless the king is walled in on a board with room. */
  lemma {:induction false} DropBesideIsExact(p: Position, t: Table, kf: int, kr: int)
    requires OneKing(p.board, p.onMove, kf, kr) && p.holding[HoldSlot(p.onMove, Queen)] >= 0
    ensures (DropBeside(p, t, kf, kr) <==> SomeSafeDrop(p.board, p.onMove))
      <==> KingHit(p.board, p.onMove) || EmptyBeside(p.board, kf, kr) || !SomeEmpty(p.board)
  {
    var b, c := p.board, p.onMove;
    if DropBeside(p, t, kf, kr) {
      var f, r :| KingStep(kf, kr, f, r) && DropWorks(QueenInHand(p), t, f, r);
      DropTestIsSafety(p, t, f, r);
    }
    if SomeSafeDrop(b, c) {
      var f, r :| On(f) && On(r) && SafeDrop(b, c, f, r);
      if KingHit(b, c) {
        BesideIsEnough(b, c, kf, kr, f, r);
        DropTestIsSafety(p, t, Beside(kf, f), Beside(kr, r));
        assert DropWorks(QueenInHand(p), t, Beside(kf, f), Beside(kr, r));
      }
    }
    if !KingHit(b, c) {
      if EmptyBeside(b, kf, kr) {
        var f, r :| On(f) && On(r) && KingStep(kf, kr, f, r) && At(b, f, r) == Empty;
        QuietDropIsSafe(b, c, kf, kr, f, r);
        DropTestIsSafety(p, t, f, r);
        assert DropWorks(QueenInHand(p), t, f, r);
      }
      if SomeEmpty(b) {
        var f, r :| On(f) && On(r) && At(b, f, r) == Empty;
        QuietDropIsSafe(b, c, kf, kr, f, r);
      }
    }
  }

  /** In a bughouse game the side to move is told it has a move exactly when it has one
      on the board or could drop a queen somewhere, except when it is not in check, has
      no move, every square beside its king is taken, and there is room elsewhere. */
  lemma {:induction false} BughouseExact(p: Position, t: Table, kf: int, kr: int)
    requires t.Bughouse()
    requires OneKing(p.board, p.onMove, kf, kr) && p.holding[HoldSlot(p.onMove, Queen)] >= 0
    ensures (HasMove(p, t) <==> HasBoardMove(p, t) || SomeSafeDrop(p.board, p.onMove))
      <==> HasBoardMove(p, t) || KingHit(p.board, p.onMove) || EmptyBeside(p.board, kf, kr) || !SomeEmpty(p.board)
  {
    assert KingAmong(p.board, p.onMove, 64, kf, kr);
    KingAmongUnique(p.board, p.onMove, kf, kr);
    DropBesideIsExact(p, t, kf, kr);
  }
}
