/** The check a set-up position passes before it is played from. */
module Setup {
  import opened Positions
  import opened Legality
  import opened GameStates
  import opened Interposition
  import opened Runs

  /** Among the first n squares of the scan colour c has `count` kings, at most one, and
      one would be on (kf, kr). */
  ghost predicate KingsSeen(b: Board, c: Color, n: int, count: int, kf: int, kr: int) {
    && 0 <= count <= 1
    && (count == 1 ==> On(kf) && On(kr) && 8 * kf + kr < n && At(b, kf, kr) == Man(c, King))
    && forall f, r :: On(f) && On(r) && 8 * f + r < n && At(b, f, r) == Man(c, King)
        ==> count == 1 && f == kf && r == kr
  }

  ghost predicate EdgesSeen(b: Board, n: int) {
    forall f, r :: 0 <= f < 8 && 0 <= r < 8 && 8 * f + r < n && IsPawn(At(b, f, r)) ==> r != 0 && r != 7
  }

  /** Two kings of a colour rule a position out. */
  lemma {:induction false} SecondKing(b: Board, c: Color, f: int, r: int, kf: int, kr: int)
    requires On(f) && On(r) && On(kf) && On(kr) && (f, r) != (kf, kr)
    requires At(b, f, r) == At(b, kf, kr) == Man(c, King)
    ensures !HasOneKing(b, c)
  {
  }

  lemma {:induction false} NextSquare(b: Board, c: Color, f: int, r: int, count: int, kf: int, kr: int)
    requires On(f) && On(r) && KingsSeen(b, c, 8 * f + r, count, kf, kr)
    ensures At(b, f, r) != Man(c, King) ==> KingsSeen(b, c, 8 * f + r + 1, count, kf, kr)
    ensures At(b, f, r) == Man(c, King) && count == 0 ==> KingsSeen(b, c, 8 * f + r + 1, 1, f, r)
  {
    forall x, y | On(x) && On(y) && 8 * x + y < 8 * f + r + 1
      ensures 8 * x + y < 8 * f + r || (x == f && y == r)
    {
    }
  }

  lemma {:induction false} NextEdge(b: Board, f: int, r: int)
    requires On(f) && On(r) && EdgesSeen(b, 8 * f + r) && (IsPawn(At(b, f, r)) ==> r != 0 && r != 7)
    ensures EdgesSeen(b, 8 * f + r + 1)
  {
    forall x, y | On(x) && On(y) && 8 * x + y < 8 * f + r + 1
      ensures 8 * x + y < 8 * f + r || (x == f && y == r)
    {
    }
  }

  /** Looks at one square for a king of colour c; a second one is one too many. */
  method CountKing(b: Board, c: Color, f: int, r: int, count: int, ghost kf: int, ghost kr: int)
    returns (tooMany: bool, count': int, ghost kf': int, ghost kr': int)
    requires On(f) && On(r) && KingsSeen(b, c, 8 * f + r, count, kf, kr)
    ensures if tooMany then !HasOneKing(b, c) else KingsSeen(b, c, 8 * f + r + 1, count', kf', kr')
  {
    NextSquare(b, c, f, r, count, kf, kr);
    tooMany, count', kf', kr' := false, count, kf, kr;
    if At(b, f, r) == Man(c, King) {
      count' := count + 1;
      if count' == 2 {
        SecondKing(b, c, f, r, kf, kr);
        tooMany := true;
      } else {
        kf', kr' := f, r;
      }
    }
  }

  /** Counts kings and looks for pawns on the edge ranks. */
  method MenInOrder(b: Board) returns (ok: bool)
    ensures ok == (HasOneKing(b, White) && HasOneKing(b, Black) && NoEdgePawns(b))
  {
    var white, black, tooMany := 0, 0, false;
    ghost var wf, wr, bf, br := 0, 0, 0, 0;
    for f := 0 to 8
      invariant KingsSeen(b, White, 8 * f, white, wf, wr) && KingsSeen(b, Black, 8 * f, black, bf, br)
      invariant EdgesSeen(b, 8 * f)
    {
      for r := 0 to 8
        invariant KingsSeen(b, White, 8 * f + r, white, wf, wr) && KingsSeen(b, Black, 8 * f + r, black, bf, br)
        invariant EdgesSeen(b, 8 * f + r)
      {
        tooMany, white, wf, wr := CountKing(b, White, f, r, white, wf, wr);
        if tooMany {
          return false;
        }
        tooMany, black, bf, br := CountKing(b, Black, f, r, black, bf, br);
        if tooMany {
          return false;
        }
        if IsPawn(At(b, f, r)) && (r == 0 || r == 7) {
          return false;
        }
        NextEdge(b, f, r);
      }
    }
    KingsCounted(b, White, white, wf, wr);
    KingsCounted(b, Black, black, bf, br);
    assert EdgesSeen(b, 64) ==> NoEdgePawns(b);
    return white == 1 && black == 1;
  }

  lemma {:induction false} KingsCounted(b: Board, c: Color, count: int, kf: int, kr: int)
    requires KingsSeen(b, c, 64, count, kf, kr)
    ensures HasOneKing(b, c) <==> count == 1
  {
    if count == 1 {
      assert OneKing(b, c, kf, kr);
    }
  }

  /** How many kings of colour c stand on the first n squares of the scan. */
  function Kings(b: Board, c: Color, n: nat): nat
    requires n <= 64
  {
    if n == 0 then 0 else Kings(b, c, n - 1) + if b[n - 1] == Man(c, King) then 1 else 0
  }

  /** The k-th of the first n squares holds a king of colour c, and no other does. */
  ghost predicate OnlyKing(b: Board, c: Color, n: nat, k: int)
    requires n <= 64
  {
    0 <= k < n && b[k] == Man(c, King) && forall i :: 0 <= i < n && i != k ==> b[i] != Man(c, King)
  }

  /** None is counted just if there is none. */
  lemma {:induction false} NoneCounted(b: Board, c: Color, n: nat)
    requires n <= 64
    ensures Kings(b, c, n) == 0 <==> forall i :: 0 <= i < n ==> b[i] != Man(c, King)
  {
    if n > 0 {
      NoneCounted(b, c, n - 1);
    }
  }

  /** One is counted just if there is one. */
  lemma {:induction false} OnlyKingCounts(b: Board, c: Color, n: nat, k: int)
    requires n <= 64 && OnlyKing(b, c, n, k)
    ensures Kings(b, c, n) == 1
  {
    if k == n - 1 {
      NoneCounted(b, c, n - 1);
    } else {
      OnlyKingCounts(b, c, n - 1, k);
    }
  }

  lemma {:induction false} OneIsOnly(b: Board, c: Color, n: nat) returns (k: int)
    requires n <= 64 && Kings(b, c, n) == 1
    ensures OnlyKing(b, c, n, k)
  {
    if b[n - 1] == Man(c, King) {
      k := n - 1;
      NoneCounted(b, c, n - 1);
    } else {
      k := OneIsOnly(b, c, n - 1);
    }
  }

  lemma {:induction false} OneKingCounted(b: Board, c: Color)
    ensures HasOneKing(b, c) <==> Kings(b, c, 64) == 1
  {
    if HasOneKing(b, c) {
      var kf, kr :| OneKing(b, c, kf, kr);
      forall i | 0 <= i < 64 && i != 8 * kf + kr
        ensures b[i] != Man(c, King)
      {
        assert At(b, i / 8, i % 8) == b[i];
      }
      OnlyKingCounts(b, c, 64, 8 * kf + kr);
    }
    if Kings(b, c, 64) == 1 {
      var k := OneIsOnly(b, c, 64);
      assert OneKing(b, c, k / 8, k % 8);
    }
  }

  /** Counts all kings, without an early exit. */
  method CheckKings(b: Board) returns (perfect: bool)
    ensures perfect == (HasOneKing(b, White) && HasOneKing(b, Black))
  {
    var black, white := 0, 0;
    for f := 0 to 8
      invariant white == Kings(b, White, 8 * f) && black == Kings(b, Black, 8 * f)
    {
      for r := 0 to 8
        invariant white == Kings(b, White, 8 * f + r) && black == Kings(b, Black, 8 * f + r)
      {
        if At(b, f, r) == Man(Black, King) {
          black := black + 1;
        } else if At(b, f, r) == Man(White, King) {
          white := white + 1;
        }
      }
    }
    OneKingCounted(b, White);
    OneKingCounted(b, Black);
    return black == 1 && white == 1;
  }

  /** The position is accepted exactly when its men are in order and only the side to
      move may be in check. */
  method ValidatePosition(gs: GameState) returns (valid: bool)
    requires gs.Valid()
    ensures valid == WellPlaced(gs.Snapshot())
  {
    valid := MenInOrder(gs.board[..]);
    if valid {
      var check := IsInCheck(gs);
      valid := !check;
    }
  }

  /** A validated position with nothing flagged or in hand, as a cleared board has it, is one to
      play from: every run keeps what is said of runs. */
  lemma {:induction false} SetUpRuns(p: Position, n: nat, linked: bool, es: seq<Event>)
    requires WellPlaced(p) && p.ep == seq(16, _ => 0) && p.holding == seq(10, _ => 0) && IsRun(p, n, linked, es)
    ensures Sound(p) && Sound(RunEnd(p, n, linked, es))
  {
    RunKeepsSound(p, n, linked, es);
  }
}
