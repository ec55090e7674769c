/** The squares the move generators list for a man, and why the lists are right:
    apart from castling they hold every square the legality test lets the man go to. */
module Targets {
  import opened Positions
  import opened Legality

  type Target = (int, int)

  /** Squares left between a coordinate and the edge in direction d. */
  function Room(x: int, d: int): int { if d > 0 then 7 - x else if d < 0 then x else 7 }

  predicate Direction(dx: int, dy: int) {
    -1 <= dx <= 1 && -1 <= dy <= 1 && !(dx == 0 && dy == 0)
  }

  /** The squares a sliding man of colour c reaches from (f, r) in one direction. */
  function RayTargets(b: Board, c: Color, f: int, r: int, dx: int, dy: int): (ts: seq<Target>)
    requires On(f) && On(r) && Direction(dx, dy)
    ensures |ts| <= Room(f, dx) && |ts| <= Room(r, dy)
    decreases (if dx == 0 then 0 else Room(f, dx)) + (if dy == 0 then 0 else Room(r, dy))
  {
    var x, y := f + dx, r + dy;
    if !On(x) || !On(y) || Own(b, c, x, y) then []
    else if At(b, x, y) != Empty then [(x, y)]
    else [(x, y)] + RayTargets(b, c, x, y, dx, dy)
  }

  function BishopTargets(b: Board, c: Color, f: int, r: int): seq<Target>
    requires On(f) && On(r)
  {
    RayTargets(b, c, f, r, -1, 1) + RayTargets(b, c, f, r, 1, 1)
    + RayTargets(b, c, f, r, -1, -1) + RayTargets(b, c, f, r, 1, -1)
  }

  function RookTargets(b: Board, c: Color, f: int, r: int): seq<Target>
    requires On(f) && On(r)
  {
    RayTargets(b, c, f, r, -1, 0) + RayTargets(b, c, f, r, 1, 0)
    + RayTargets(b, c, f, r, 0, 1) + RayTargets(b, c, f, r, 0, -1)
  }

  const KNIGHT_JUMPS: seq<Target> := [(-1, 2), (1, 2), (2, -1), (2, 1), (-1, -2), (1, -2), (-2, 1), (-2, -1)]

  const KING_JUMPS: seq<Target> := [(-1, -1), (0, -1), (1, -1), (-1, 1), (0, 1), (1, 1), (-1, 0), (1, 0)]

  /** A jump lands on the board and not on a man of its own colour. */
  predicate Lands(b: Board, c: Color, f: int, r: int, jump: Target) {
    On(f + jump.0) && On(r + jump.1) && !Own(b, c, f + jump.0, r + jump.1)
  }

  function JumpTargets(b: Board, c: Color, f: int, r: int, jumps: seq<Target>): (ts: seq<Target>)
    ensures |ts| <= |jumps|
  {
    if jumps == [] then []
    else
      var last := jumps[|jumps| - 1];
      var before := JumpTargets(b, c, f, r, jumps[..|jumps| - 1]);
      if Lands(b, c, f, r, last) then before + [(f + last.0, r + last.1)] else before
  }

  /** A man of the enemy stands on the square to the side, if there is one. */
  predicate EnemyOn(b: Board, c: Color, f: int, r: int)
    requires On(r)
  {
    On(f) && Own(b, c.Toggle(), f, r)
  }

  function PawnPushes(b: Board, c: Color, f: int, r: int): (ts: seq<Target>)
    requires On(f) && On(r) && On(r + c.Forward())
    ensures |ts| <= 2
  {
    var y := r + c.Forward();
    if At(b, f, y) != Empty then []
    else if r == (if c.White? then 1 else 6) && At(b, f, y + c.Forward()) == Empty then [(f, y), (f, y + c.Forward())]
    else [(f, y)]
  }

  function PawnTakes(b: Board, c: Color, f: int, r: int): (ts: seq<Target>)
    requires On(f) && On(r) && On(r + c.Forward())
    ensures |ts| <= 2
  {
    var y := r + c.Forward();
    (if EnemyOn(b, c, f - 1, y) then [(f - 1, y)] else []) + (if EnemyOn(b, c, f + 1, y) then [(f + 1, y)] else [])
  }

  function PawnFlagged(ep: EpFlags, c: Color, f: int, r: int): (ts: seq<Target>)
    requires On(f)
    ensures |ts| <= 1
  {
    var y := r + c.Forward();
    if EpAt(ep, c, f) == -1 then [(f - 1, y)] else if EpAt(ep, c, f) == 1 then [(f + 1, y)] else []
  }

  function PawnTargets(p: Position, f: int, r: int): (ts: seq<Target>)
    requires On(f) && On(r) && On(r + p.onMove.Forward())
    ensures |ts| <= 5
  {
    PawnPushes(p.board, p.onMove, f, r) + PawnTakes(p.board, p.onMove, f, r) + PawnFlagged(p.ep, p.onMove, f, r)
  }

  /** No pawn of the side to move stands on its last rank. */
  predicate PawnsCanAdvance(p: Position) {
    forall f, r :: 0 <= f < 8 && 0 <= r < 8 && At(p.board, f, r) == Man(p.onMove, Pawn) ==> On(r + p.onMove.Forward())
  }

  /** En-passant flags only name files of the board. */
  predicate EpSane(ep: EpFlags) {
    forall c: Color, f :: 0 <= f < 8
        ==> EpAt(ep, c, f) == 0 || (EpAt(ep, c, f) == 1 && f < 7) || (EpAt(ep, c, f) == -1 && f > 0)
  }

  /** What a position must satisfy for the generators to stay on the board. */
  predicate Playable(p: Position) { PawnsCanAdvance(p) && EpSane(p.ep) }

  function ManTargets(p: Position, f: int, r: int): seq<Target>
    requires Playable(p) && On(f) && On(r) && Own(p.board, p.onMove, f, r)
  {
    match At(p.board, f, r).kind
    case Pawn => PawnTargets(p, f, r)
    case Knight => JumpTargets(p.board, p.onMove, f, r, KNIGHT_JUMPS)
    case Bishop => BishopTargets(p.board, p.onMove, f, r)
    case Rook => RookTargets(p.board, p.onMove, f, r)
    case Queen => RookTargets(p.board, p.onMove, f, r) + BishopTargets(p.board, p.onMove, f, r)
    case King => JumpTargets(p.board, p.onMove, f, r, KING_JUMPS)
  }

  /** A legal move that is not castling. */
  ghost predicate Plain(p: Position, f: int, r: int, tf: int, tr: int)
    requires On(f) && On(r) && On(tf) && On(tr)
  {
    && Own(p.board, p.onMove, f, r)
    && !Own(p.board, p.onMove, tf, tr)
    && !(f == tf && r == tr)
    && match At(p.board, f, r).kind
       case Pawn => PawnMove(p, f, r, tf, tr)
       case Knight => KnightMove(f, r, tf, tr)
       case Bishop => BishopMove(p.board, f, r, tf, tr)
       case Rook => RookMove(p.board, f, r, tf, tr)
       case Queen => QueenMove(p.board, f, r, tf, tr)
       case King => KingStep(f, r, tf, tr)
  }

  /** A legal move is plain, or its king leaves the e-file for the c- or g-file. */
  lemma {:induction false} LegalIsPlainOrCastling(p: Position, f: int, r: int, tf: int, tr: int)
    requires On(f) && On(r) && On(tf) && On(tr)
    ensures LegalMove(p, f, r, tf, tr) <==> Plain(p, f, r, tf, tr) || Castling(p, f, r, tf, tr)
  {
    if Own(p.board, p.onMove, f, r) && At(p.board, f, r).kind == King {
      assert KingMove(p, f, r, tf, tr) <==>
        KingStep(f, r, tf, tr) || (At(p.board, tf, tr) == Empty && Castling(p, f, r, tf, tr));
    }
  }

  ghost predicate Castling(p: Position, f: int, r: int, tf: int, tr: int)
    requires On(f) && On(r) && On(tf) && On(tr)
  {
    && At(p.board, f, r) == Man(p.onMove, King) && f == 4 && r == tr == p.onMove.Home()
    && At(p.board, tf, tr) == Empty
    && ((tf == 6 && Castles(p, KingSide)) || (tf == 2 && Castles(p, QueenSide)))
  }

  /** An en-passant target the generator lists on the strength of the flag alone. */
  predicate Flagged(p: Position, f: int, r: int, tf: int, tr: int)
    requires On(f) && On(r)
  {
    && At(p.board, f, r) == Man(p.onMove, Pawn)
    && tr == r + p.onMove.Forward()
    && Abs(tf - f) == 1
    && EpAt(p.ep, p.onMove, f) == tf - f
  }

  /** A square lies on the ray exactly when it is some steps off, the way is clear
      and no own man stands there. */
  ghost predicate OnRay(b: Board, c: Color, f: int, r: int, dx: int, dy: int, tf: int, tr: int, n: int) {
    && n > 0 && tf == Go(f, dx, n) && tr == Go(r, dy, n)
    && On(tf) && On(tr) && !Own(b, c, tf, tr)
    && Clear(b, f, r, dx, dy, n)
  }

  /** Looking one step further along a ray. */
  lemma {:induction false} ClearStep(b: Board, f: int, r: int, dx: int, dy: int, n: int)
    requires On(f) && On(r) && Direction(dx, dy) && On(f + dx) && On(r + dy) && n > 1
    ensures Clear(b, f, r, dx, dy, n) <==> At(b, f + dx, r + dy) == Empty && Clear(b, f + dx, r + dy, dx, dy, n - 1)
  {
    assert Go(f, dx, 1) == f + dx && Go(r, dy, 1) == r + dy;
    if Clear(b, f, r, dx, dy, n) {
      var x, y := f + dx, r + dy;
      forall k | 0 < k < n - 1 && On(Go(x, dx, k)) && On(Go(y, dy, k))
        ensures At(b, Go(x, dx, k), Go(y, dy, k)) == Empty
      {
        GoOn(f, dx, k);
        GoOn(r, dy, k);
      }
    }
    if At(b, f + dx, r + dy) == Empty && Clear(b, f + dx, r + dy, dx, dy, n - 1) {
      forall k | 0 < k < n && On(Go(f, dx, k)) && On(Go(r, dy, k))
        ensures At(b, Go(f, dx, k), Go(r, dy, k)) == Empty
      {
        GoOn(f, dx, k - 1);
        GoOn(r, dy, k - 1);
      }
    }
  }

  lemma {:induction false} GoOn(x: int, d: int, k: int)
    requires -1 <= d <= 1
    ensures Go(x + d, d, k) == Go(x, d, k + 1)
  {
  }

  /** A square further along a ray lies on the ray from the next square. */
  lemma {:induction false} OnRayStep(b: Board, c: Color, f: int, r: int, dx: int, dy: int, tf: int, tr: int, n: int)
    requires On(f) && On(r) && Direction(dx, dy) && OnRay(b, c, f, r, dx, dy, tf, tr, n)
    ensures On(f + dx) && On(r + dy)
    ensures n == 1 ==> (tf, tr) == (f + dx, r + dy) && !Own(b, c, tf, tr)
    ensures n > 1 ==> At(b, f + dx, r + dy) == Empty && OnRay(b, c, f + dx, r + dy, dx, dy, tf, tr, n - 1)
    ensures n > 0
  {
    assert On(f + dx) && On(r + dy);
    if n > 1 {
      ClearStep(b, f, r, dx, dy, n);
    }
  }

  /** The first square of a ray, and the squares after an empty one. */
  lemma {:induction false} RayUnfolds(b: Board, c: Color, f: int, r: int, dx: int, dy: int, tf: int, tr: int)
    requires On(f) && On(r) && Direction(dx, dy) && On(f + dx) && On(r + dy)
    ensures !Own(b, c, f + dx, r + dy) ==> (f + dx, r + dy) in RayTargets(b, c, f, r, dx, dy)
    ensures At(b, f + dx, r + dy) == Empty && (tf, tr) in RayTargets(b, c, f + dx, r + dy, dx, dy)
            ==> (tf, tr) in RayTargets(b, c, f, r, dx, dy)
  {
  }

  lemma {:induction false} RayComplete(b: Board, c: Color, f: int, r: int, dx: int, dy: int, tf: int, tr: int, n: int)
    requires On(f) && On(r) && Direction(dx, dy)
    requires OnRay(b, c, f, r, dx, dy, tf, tr, n)
    ensures (tf, tr) in RayTargets(b, c, f, r, dx, dy)
    decreases n
  {
    var x, y := f + dx, r + dy;
    OnRayStep(b, c, f, r, dx, dy, tf, tr, n);
    if n > 1 {
      RayComplete(b, c, x, y, dx, dy, tf, tr, n - 1);
      assert (tf, tr) in RayTargets(b, c, x, y, dx, dy);
    } else {
      assert (tf, tr) == (x, y) && !Own(b, c, x, y);
    }
    RayUnfolds(b, c, f, r, dx, dy, tf, tr);
  }

  lemma {:induction false} RaySound(b: Board, c: Color, f: int, r: int, dx: int, dy: int, tf: int, tr: int)
      returns (n: int)
    requires On(f) && On(r) && Direction(dx, dy)
    requires (tf, tr) in RayTargets(b, c, f, r, dx, dy)
    ensures OnRay(b, c, f, r, dx, dy, tf, tr, n)
    decreases (if dx == 0 then 0 else Room(f, dx)) + (if dy == 0 then 0 else Room(r, dy))
  {
    var x, y := f + dx, r + dy;
    if (tf, tr) == (x, y) {
      n := 1;
    } else {
      var m := RaySound(b, c, x, y, dx, dy, tf, tr);
      n := m + 1;
      ClearStep(b, f, r, dx, dy, n);
    }
  }

  lemma {:induction false} BishopExact(b: Board, c: Color, f: int, r: int, tf: int, tr: int)
    requires On(f) && On(r) && On(tf) && On(tr) && !(f == tf && r == tr)
    ensures (tf, tr) in BishopTargets(b, c, f, r) <==> BishopMove(b, f, r, tf, tr) && !Own(b, c, tf, tr)
  {
    if BishopMove(b, f, r, tf, tr) && !Own(b, c, tf, tr) {
      RayComplete(b, c, f, r, Toward(f, tf), Toward(r, tr), tf, tr, Abs(f - tf));
    }
    if (tf, tr) in BishopTargets(b, c, f, r) {
      var dx, dy :| dx in {-1, 1} && dy in {-1, 1} && (tf, tr) in RayTargets(b, c, f, r, dx, dy);
      var n := RaySound(b, c, f, r, dx, dy, tf, tr);
      assert n == Abs(f - tf) && dx == Toward(f, tf) && dy == Toward(r, tr);
    }
  }

  lemma {:induction false} RookExact(b: Board, c: Color, f: int, r: int, tf: int, tr: int)
    requires On(f) && On(r) && On(tf) && On(tr) && !(f == tf && r == tr)
    ensures (tf, tr) in RookTargets(b, c, f, r) <==> RookMove(b, f, r, tf, tr) && !Own(b, c, tf, tr)
  {
    if RookMove(b, f, r, tf, tr) && !Own(b, c, tf, tr) {
      if f == tf {
        RayComplete(b, c, f, r, 0, Toward(r, tr), tf, tr, Abs(r - tr));
      } else {
        RayComplete(b, c, f, r, Toward(f, tf), 0, tf, tr, Abs(f - tf));
      }
    }
    if (tf, tr) in RookTargets(b, c, f, r) {
      var dx, dy :| (dx, dy) in {(-1, 0), (1, 0), (0, 1), (0, -1)} && (tf, tr) in RayTargets(b, c, f, r, dx, dy);
      var n := RaySound(b, c, f, r, dx, dy, tf, tr);
      assert dx == Toward(f, tf) && dy == Toward(r, tr);
    }
  }

  lemma {:induction false} BishopOffOrigin(b: Board, c: Color, f: int, r: int, tf: int, tr: int)
    requires On(f) && On(r) && (tf, tr) in BishopTargets(b, c, f, r)
    ensures On(tf) && On(tr) && (tf, tr) != (f, r)
  {
    var dx, dy :| dx in {-1, 1} && dy in {-1, 1} && (tf, tr) in RayTargets(b, c, f, r, dx, dy);
    var n := RaySound(b, c, f, r, dx, dy, tf, tr);
  }

  lemma {:induction false} RookOffOrigin(b: Board, c: Color, f: int, r: int, tf: int, tr: int)
    requires On(f) && On(r) && (tf, tr) in RookTargets(b, c, f, r)
    ensures On(tf) && On(tr) && (tf, tr) != (f, r)
  {
    var dx, dy :| (dx, dy) in {(-1, 0), (1, 0), (0, 1), (0, -1)} && (tf, tr) in RayTargets(b, c, f, r, dx, dy);
    var n := RaySound(b, c, f, r, dx, dy, tf, tr);
  }

  lemma {:induction false} PawnOffOrigin(p: Position, f: int, r: int, tf: int, tr: int)
    requires On(f) && On(r) && On(r + p.onMove.Forward()) && EpSane(p.ep)
    requires (tf, tr) in PawnTargets(p, f, r)
    ensures On(tf) && On(tr) && (tf, tr) != (f, r)
  {
    assert EpAt(p.ep, p.onMove, f) == -1 ==> f > 0;
    assert EpAt(p.ep, p.onMove, f) == 1 ==> f < 7;
  }

  lemma {:induction false} KnightJumpsExact(dx: int, dy: int)
    ensures (dx, dy) in KNIGHT_JUMPS <==> KnightMove(0, 0, dx, dy)
  {
    assert KNIGHT_JUMPS[0] == (-1, 2) && KNIGHT_JUMPS[1] == (1, 2) && KNIGHT_JUMPS[2] == (2, -1)
        && KNIGHT_JUMPS[3] == (2, 1);
    assert KNIGHT_JUMPS[4] == (-1, -2) && KNIGHT_JUMPS[5] == (1, -2) && KNIGHT_JUMPS[6] == (-2, 1)
        && KNIGHT_JUMPS[7] == (-2, -1);
  }

  lemma {:induction false} KingJumpsExact(dx: int, dy: int)
    ensures (dx, dy) in KING_JUMPS <==> KingStep(0, 0, dx, dy) && (dx, dy) != (0, 0)
  {
    assert KING_JUMPS[0] == (-1, -1) && KING_JUMPS[1] == (0, -1) && KING_JUMPS[2] == (1, -1)
        && KING_JUMPS[3] == (-1, 1);
    assert KING_JUMPS[4] == (0, 1) && KING_JUMPS[5] == (1, 1) && KING_JUMPS[6] == (-1, 0) && KING_JUMPS[7] == (1, 0);
  }

  lemma {:induction false} PawnExact(p: Position, f: int, r: int, tf: int, tr: int)
    requires On(f) && On(r) && On(r + p.onMove.Forward()) && EpSane(p.ep) && On(tf) && On(tr)
    requires At(p.board, f, r) == Man(p.onMove, Pawn)
    ensures (tf, tr) in PawnTargets(p, f, r)
      <==> (PawnMove(p, f, r, tf, tr) && !Own(p.board, p.onMove, tf, tr)) || Flagged(p, f, r, tf, tr)
  {
    PushesExact(p, f, r, tf, tr);
    TakesExact(p, f, r, tf, tr);
    FlaggedExact(p, f, r, tf, tr);
    if f != tf {
      PawnSideways(p, f, r, tf, tr);
    }
    assert (tf, tr) in PawnTargets(p, f, r) <==>
      || (tf, tr) in PawnPushes(p.board, p.onMove, f, r)
      || (tf, tr) in PawnTakes(p.board, p.onMove, f, r)
      || (tf, tr) in PawnFlagged(p.ep, p.onMove, f, r);
  }

  lemma {:induction false} PushesExact(p: Position, f: int, r: int, tf: int, tr: int)
    requires On(f) && On(r) && On(r + p.onMove.Forward()) && On(tf) && On(tr)
    ensures (tf, tr) in PawnPushes(p.board, p.onMove, f, r) <==> f == tf && PawnMove(p, f, r, tf, tr)
  {
  }

  lemma {:induction false} TakesExact(p: Position, f: int, r: int, tf: int, tr: int)
    requires On(f) && On(r) && On(r + p.onMove.Forward()) && On(tf) && On(tr)
    ensures (tf, tr) in PawnTakes(p.board, p.onMove, f, r)
      <==> Abs(tf - f) == 1 && tr == r + p.onMove.Forward() && Own(p.board, p.onMove.Toggle(), tf, tr)
  {
  }

  lemma {:induction false} FlaggedExact(p: Position, f: int, r: int, tf: int, tr: int)
    requires On(f) && On(r) && EpSane(p.ep) && At(p.board, f, r) == Man(p.onMove, Pawn)
    ensures (tf, tr) in PawnFlagged(p.ep, p.onMove, f, r) <==> Flagged(p, f, r, tf, tr)
  {
  }

  lemma {:induction false} PawnSideways(p: Position, f: int, r: int, tf: int, tr: int)
    requires On(f) && On(r) && On(tf) && On(tr) && f != tf
    ensures PawnMove(p, f, r, tf, tr) <==>
      && Abs(tf - f) == 1 && tr == r + p.onMove.Forward()
      && (|| Own(p.board, p.onMove.Toggle(), tf, tr)
          || (EpAt(p.ep, p.onMove, f) == tf - f && At(p.board, tf, r) == Man(p.onMove.Toggle(), Pawn)))
  {
  }

  lemma {:induction false} JumpExact(b: Board, c: Color, f: int, r: int, jumps: seq<Target>, x: int, y: int)
    ensures (x, y) in JumpTargets(b, c, f, r, jumps) <==> (x - f, y - r) in jumps && Lands(b, c, f, r, (x - f, y - r))
  {
    if jumps != [] {
      var n := |jumps| - 1;
      assert jumps == jumps[..n] + [jumps[n]];
      JumpExact(b, c, f, r, jumps[..n], x, y);
    }
  }

  lemma {:induction false} KnightExact(b: Board, c: Color, f: int, r: int, tf: int, tr: int)
    requires On(tf) && On(tr)
    ensures (tf, tr) in JumpTargets(b, c, f, r, KNIGHT_JUMPS) <==> KnightMove(f, r, tf, tr) && !Own(b, c, tf, tr)
  {
    JumpExact(b, c, f, r, KNIGHT_JUMPS, tf, tr);
    KnightJumpsExact(tf - f, tr - r);
  }

  lemma {:induction false} KingExact(b: Board, c: Color, f: int, r: int, tf: int, tr: int)
    requires On(tf) && On(tr) && (tf, tr) != (f, r)
    ensures (tf, tr) in JumpTargets(b, c, f, r, KING_JUMPS) <==> KingStep(f, r, tf, tr) && !Own(b, c, tf, tr)
  {
    JumpExact(b, c, f, r, KING_JUMPS, tf, tr);
    KingJumpsExact(tf - f, tr - r);
  }

  /** The generators list exactly the plain legal moves, and, for a pawn with an
      en-passant flag, the flagged square whatever stands around it. */
  lemma {:induction false} TargetsExact(p: Position, f: int, r: int, tf: int, tr: int)
    requires Playable(p) && On(f) && On(r) && Own(p.board, p.onMove, f, r) && On(tf) && On(tr)
    ensures (tf, tr) in ManTargets(p, f, r) <==> Plain(p, f, r, tf, tr) || Flagged(p, f, r, tf, tr)
  {
    if (f, r) != (tf, tr) {
      TargetsExactAway(p, f, r, tf, tr);
    } else if (tf, tr) in ManTargets(p, f, r) {
      OffOrigin(p, f, r, tf, tr);
    }
  }

  lemma {:induction false} TargetsExactAway(p: Position, f: int, r: int, tf: int, tr: int)
    requires Playable(p) && On(f) && On(r) && Own(p.board, p.onMove, f, r) && On(tf) && On(tr)
    requires (f, r) != (tf, tr)
    ensures (tf, tr) in ManTargets(p, f, r) <==> Plain(p, f, r, tf, tr) || Flagged(p, f, r, tf, tr)
  {
    var b, c := p.board, p.onMove;
    match At(b, f, r).kind
    case Pawn => PawnExact(p, f, r, tf, tr);
    case Knight => KnightExact(b, c, f, r, tf, tr);
    case Bishop => BishopExact(b, c, f, r, tf, tr);
    case Rook => RookExact(b, c, f, r, tf, tr);
    case Queen =>
      BishopExact(b, c, f, r, tf, tr);
      RookExact(b, c, f, r, tf, tr);
    case King => KingExact(b, c, f, r, tf, tr);
  }

  /** No man is given its own square as a target, and no target is off the board. */
  lemma {:induction false} OffOrigin(p: Position, f: int, r: int, tf: int, tr: int)
    requires Playable(p) && On(f) && On(r) && Own(p.board, p.onMove, f, r)
    requires (tf, tr) in ManTargets(p, f, r)
    ensures On(tf) && On(tr) && (tf, tr) != (f, r)
  {
    var b, c := p.board, p.onMove;
    match At(b, f, r).kind
    case Pawn => PawnOffOrigin(p, f, r, tf, tr);
    case Knight =>
      JumpExact(b, c, f, r, KNIGHT_JUMPS, tf, tr);
      KnightJumpsExact(tf - f, tr - r);
    case Bishop => BishopOffOrigin(b, c, f, r, tf, tr);
    case Rook => RookOffOrigin(b, c, f, r, tf, tr);
    case Queen =>
      if (tf, tr) in RookTargets(b, c, f, r) {
        RookOffOrigin(b, c, f, r, tf, tr);
      } else {
        BishopOffOrigin(b, c, f, r, tf, tr);
      }
    case King =>
      JumpExact(b, c, f, r, KING_JUMPS, tf, tr);
      KingJumpsExact(tf - f, tr - r);
  }

  lemma {:induction false} SlidersBound(b: Board, c: Color, f: int, r: int)
    requires On(f) && On(r)
    ensures |BishopTargets(b, c, f, r)| <= 13 && |RookTargets(b, c, f, r)| <= 14
  {
    var ne, nw, se, sw := RayTargets(b, c, f, r, 1, 1), RayTargets(b, c, f, r, -1, 1), RayTargets(b, c, f, r, 1, -1),
        RayTargets(b, c, f, r, -1, -1);
    assert |BishopTargets(b, c, f, r)| == |nw| + |ne| + |sw| + |se|;
  }

  /** A man adds at most 27 targets. */
  lemma {:induction false} AtMost27(p: Position, f: int, r: int)
    requires Playable(p) && On(f) && On(r) && Own(p.board, p.onMove, f, r)
    ensures |ManTargets(p, f, r)| <= 27
  {
    SlidersBound(p.board, p.onMove, f, r);
  }
}
