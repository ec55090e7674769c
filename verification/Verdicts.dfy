/** What a move makes of the board, square by square, and when the laws of chess call a position
    mate, stalemate or drawn: the server's verdicts are these. */
module Verdicts {
  import opened Positions
  import opened Legality
  import opened Attacks
  import opened Targets
  import opened Interposition
  import opened Judgement
  import opened Runs
  import opened Rules

  /** Who stands on (x, y) after the man of (f, r) has gone to (tf, tr), a pawn becoming k at the end. */
  function ManAfter(p: Position, f: int, r: int, tf: int, tr: int, k: Kind, x: int, y: int): Piece
    requires On(f) && On(r) && On(tf) && On(tr) && On(x) && On(y)
  {
    var b, c, q := p.board, p.onMove, At(p.board, f, r);
    if (x, y) == (tf, tr) then (if q == Man(c, Pawn) && (tr == 0 || tr == 7) then Man(c, k) else q)
    else if (x, y) == (f, r) then Empty
    else if q == Man(c, Pawn) && f != tf && At(b, tf, tr) == Empty && (x, y) == (tf, r) then Empty
    else if q == Man(c, King) && tf == f + 2 && y == r && x == 7 then Empty
    else if q == Man(c, King) && tf == f + 2 && y == r && x == 5 then Man(c, Rook)
    else if q == Man(c, King) && tf == f - 2 && y == r && x == 0 then Empty
    else if q == Man(c, King) && tf == f - 2 && y == r && x == 3 then Man(c, Rook)
    else At(b, x, y)
  }

  function After(p: Position, f: int, r: int, tf: int, tr: int, k: Kind): Board
    requires On(f) && On(r) && On(tf) && On(tr)
  {
    seq(64, i requires 0 <= i < 64 => ManAfter(p, f, r, tf, tr, k, i / 8, i % 8))
  }

  lemma {:induction false} PlainSquare(p: Position, f: int, r: int, tf: int, tr: int, k: Kind, x: int, y: int)
    requires On(f) && On(r) && On(tf) && On(tr) && On(x) && On(y) && (f, r) != (tf, tr)
    requires Own(p.board, p.onMove, f, r) && At(p.board, f, r).kind != King
    requires !TakesEnPassant(p.board, MoveRecord(p, Square(f, r), tf, tr, k))
    ensures At(BoardAfter(p.board, p.onMove, MoveRecord(p, Square(f, r), tf, tr, k)), x, y)
         == ManAfter(p, f, r, tf, tr, k, x, y)
  {
    PlainAt(p.board, p.onMove, MoveRecord(p, Square(f, r), tf, tr, k), x, y);
  }

  lemma {:induction false} PassingSquare(p: Position, f: int, r: int, tf: int, tr: int, k: Kind, x: int, y: int)
    requires On(f) && On(r) && On(tf) && On(tr) && On(x) && On(y)
    requires At(p.board, f, r) == Man(p.onMove, Pawn) && f != tf && At(p.board, tf, tr) == Empty && r != tr
    ensures At(BoardAfter(p.board, p.onMove, MoveRecord(p, Square(f, r), tf, tr, k)), x, y)
         == ManAfter(p, f, r, tf, tr, k, x, y)
  {
  }

  lemma {:induction false} StepSquare(p: Position, f: int, r: int, tf: int, tr: int, k: Kind, x: int, y: int)
    requires On(f) && On(r) && On(tf) && On(tr) && On(x) && On(y) && (f, r) != (tf, tr)
    requires At(p.board, f, r) == Man(p.onMove, King) && KingStep(f, r, tf, tr)
    ensures At(BoardAfter(p.board, p.onMove, MoveRecord(p, Square(f, r), tf, tr, k)), x, y)
         == ManAfter(p, f, r, tf, tr, k, x, y)
  {
  }

  lemma {:induction false} CastlingSquare(p: Position, f: int, r: int, tf: int, tr: int, k: Kind, x: int, y: int)
    requires On(f) && On(r) && On(tf) && On(tr) && On(x) && On(y) && Castling(p, f, r, tf, tr)
    ensures At(BoardAfter(p.board, p.onMove, MoveRecord(p, Square(f, r), tf, tr, k)), x, y)
         == ManAfter(p, f, r, tf, tr, k, x, y)
  {
    var side := if tf == 6 then KingSide else QueenSide;
    assert Castles(p, side);
  }

  lemma {:induction false} SquareByTheRules(p: Position, f: int, r: int, tf: int, tr: int, k: Kind, x: int, y: int)
    requires On(f) && On(r) && On(tf) && On(tr) && On(x) && On(y) && LegalMove(p, f, r, tf, tr)
    ensures At(BoardAfter(p.board, p.onMove, MoveRecord(p, Square(f, r), tf, tr, k)), x, y)
         == ManAfter(p, f, r, tf, tr, k, x, y)
  {
    LegalIsPlainOrCastling(p, f, r, tf, tr);
    if Castling(p, f, r, tf, tr) {
      CastlingSquare(p, f, r, tf, tr, k, x, y);
    } else if At(p.board, f, r).kind == King {
      StepSquare(p, f, r, tf, tr, k, x, y);
    } else if TakesEnPassant(p.board, MoveRecord(p, Square(f, r), tf, tr, k)) {
      PassingSquare(p, f, r, tf, tr, k, x, y);
    } else {
      PlainSquare(p, f, r, tf, tr, k, x, y);
    }
  }

  /** A legal move makes of the board what it should. */
  lemma {:induction false} BoardByTheRules(p: Position, f: int, r: int, tf: int, tr: int, k: Kind)
    requires On(f) && On(r) && On(tf) && On(tr) && LegalMove(p, f, r, tf, tr)
    ensures BoardAfter(p.board, p.onMove, MoveRecord(p, Square(f, r), tf, tr, k)) == After(p, f, r, tf, tr, k)
  {
    var a, b := BoardAfter(p.board, p.onMove, MoveRecord(p, Square(f, r), tf, tr, k)), After(p, f, r, tf, tr, k);
    forall x, y | On(x) && On(y)
      ensures At(a, x, y) == At(b, x, y)
    {
      SquareByTheRules(p, f, r, tf, tr, k, x, y);
      assert (8 * x + y) / 8 == x && (8 * x + y) % 8 == y;
    }
    BoardsEqual(a, b);
  }

  /** The one king of colour c is attacked. */
  ghost predicate Attacked(b: Board, c: Color) {
    exists kf, kr :: On(kf) && On(kr) && At(b, kf, kr) == Man(c, King) && Struck(b, c, kf, kr)
  }

  lemma {:induction false} AttackedIsHit(b: Board, c: Color)
    requires HasOneKing(b, c)
    ensures Attacked(b, c) <==> KingHit(b, c)
  {
    var kf, kr :| OneKing(b, c, kf, kr);
    CheckByTheRules(b, c, kf, kr);
  }

  /** The side to move has this move by the laws: the man may go there, and its king is not attacked then. */
  ghost predicate Lawful(p: Position, f: int, r: int, tf: int, tr: int, k: Kind)
    requires On(f) && On(r) && On(tf) && On(tr)
  {
    MayGo(p, f, r, tf, tr) && !Attacked(After(p, f, r, tf, tr, k), p.onMove)
  }

  lemma {:induction false} MoverHasKing(p: Position)
    requires WellPlaced(p)
    ensures HasOneKing(p.board, p.onMove)
  {
    assert p.onMove == White || p.onMove == Black;
  }

  /** The server accepts exactly the moves of the laws. */
  lemma {:induction false} AcceptedByTheRules(p: Position, f: int, r: int, tf: int, tr: int, k: Kind, t: Table)
    requires WellPlaced(p) && On(f) && On(r) && On(tf) && On(tr) && Promotable(k)
    ensures Accepted(p, Square(f, r), tf, tr, k, t) <==> Lawful(p, f, r, tf, tr, k)
  {
    AcceptedIsSafe(p, Square(f, r), tf, tr, k, t);
    MoverHasKing(p);
    LegalByTheRules(p, f, r, tf, tr);
    if LegalMove(p, f, r, tf, tr) {
      BoardByTheRules(p, f, r, tf, tr, k);
      KingsRemain(p, Square(f, r), tf, tr, k);
      AttackedIsHit(After(p, f, r, tf, tr, k), p.onMove);
    }
  }

  ghost predicate CanReply(p: Position) {
    exists f, r, tf, tr :: On(f) && On(r) && On(tf) && On(tr) && Lawful(p, f, r, tf, tr, Queen)
  }

  /** Neither side can mate: there is no pawn, rook or queen, and all knights and bishops are one. */
  ghost predicate Bare(b: Board) {
    && (forall f, r :: On(f) && On(r) && At(b, f, r).Man? ==> At(b, f, r).kind in {King, Knight, Bishop})
    && forall f, r, x, y :: On(f) && On(r) && On(x) && On(y) && BishopOrKnight(b, f, r) && BishopOrKnight(b, x, y) ==>
         (f, r) == (x, y)
  }

  predicate BishopOrKnight(b: Board, f: int, r: int)
    requires On(f) && On(r)
  {
    At(b, f, r).Man? && At(b, f, r).kind in {Bishop, Knight}
  }

  lemma {:induction false} ReplyIsTried(p: Position, t: Table)
    requires WellPlaced(p) && CanReply(p)
    ensures HasBoardMove(p, t)
  {
    var f, r, tf, tr :| On(f) && On(r) && On(tf) && On(tr) && Lawful(p, f, r, tf, tr, Queen);
    AcceptedByTheRules(p, f, r, tf, tr, Queen, t);
    assert LegalAndCheck(p, Square(f, r), tf, tr, t);
  }

  lemma {:induction false} TriedIsReply(p: Position, t: Table)
    requires WellPlaced(p) && HasBoardMove(p, t)
    ensures CanReply(p)
  {
    var f, r, tf, tr :| On(f) && On(r) && On(tf) && On(tr) && LegalAndCheck(p, Square(f, r), tf, tr, t);
    AcceptedByTheRules(p, f, r, tf, tr, Queen, t);
    assert Lawful(p, f, r, tf, tr, Queen);
  }

  lemma {:induction false} StatusTells(p: Position, t: Table)
    requires !t.Bughouse()
    ensures Status(p, t) == Checkmate <==> KingHit(p.board, p.onMove) && !HasBoardMove(p, t)
    ensures Status(p, t) == Stalemate <==> !KingHit(p.board, p.onMove) && !HasBoardMove(p, t)
    ensures Status(p, t) == NoMaterial
      <==> !KingHit(p.board, p.onMove) && HasBoardMove(p, t) && CannotMate(p.board)
  {
  }

  /** Outside bughouse each verdict is given exactly when the laws give it. */
  lemma {:induction false} VerdictByTheRules(p: Position, t: Table)
    requires WellPlaced(p) && !t.Bughouse()
    ensures Status(p, t) == Checkmate <==> Attacked(p.board, p.onMove) && !CanReply(p)
    ensures Status(p, t) == Stalemate <==> !Attacked(p.board, p.onMove) && !CanReply(p)
    ensures Status(p, t) == NoMaterial <==> !Attacked(p.board, p.onMove) && CanReply(p) && Bare(p.board)
  {
    if CanReply(p) {
      ReplyIsTried(p, t);
    }
    if HasBoardMove(p, t) {
      TriedIsReply(p, t);
    }
    MoverHasKing(p);
    AttackedIsHit(p.board, p.onMove);
    BareCannotMate(p.board);
    StatusTells(p, t);
  }

  /** At most one of the squares below n holds a minor piece. */
  ghost predicate OneMinor(b: Board, n: nat)
    requires n <= 64
  {
    forall i, j :: 0 <= i < n && 0 <= j < n && Minor(b[i]) && Minor(b[j]) ==> i == j
  }

  lemma {:induction false} MinorsTell(b: Board, n: nat)
    requires n <= 64
    ensures Minors(b[..n]) == 0 <==> forall i :: 0 <= i < n ==> !Minor(b[i])
    ensures Minors(b[..n]) <= 1 <==> OneMinor(b, n)
  {
    if n > 0 {
      MinorsTell(b, n - 1);
      assert b[..n][..n - 1] == b[..n - 1] && b[..n][n - 1] == b[n - 1];
      if !OneMinor(b, n - 1) {
        assert !OneMinor(b, n);
      }
      if Minor(b[n - 1]) && Minors(b[..n - 1]) > 0 {
        var i :| 0 <= i < n - 1 && Minor(b[i]);
        assert !OneMinor(b, n);
      }
    }
  }

  lemma {:induction false} BareIsLight(b: Board)
    ensures (forall i :: 0 <= i < 64 ==> !Heavy(b[i]))
      <==> forall f, r :: On(f) && On(r) && At(b, f, r).Man? ==> At(b, f, r).kind in {King, Knight, Bishop}
  {
    forall i | 0 <= i < 64
      ensures b[i] == At(b, i / 8, i % 8)
    {
    }
    forall f, r | On(f) && On(r)
      ensures At(b, f, r) == b[8 * f + r]
    {
    }
  }

  lemma {:induction false} BareHasOneMinor(b: Board)
    ensures OneMinor(b, 64)
      <==> forall f, r, x, y ::
             On(f) && On(r) && On(x) && On(y) && BishopOrKnight(b, f, r) && BishopOrKnight(b, x, y) ==>
               (f, r) == (x, y)
  {
    if OneMinor(b, 64) {
      forall f, r, x, y | On(f) && On(r) && On(x) && On(y) && BishopOrKnight(b, f, r) && BishopOrKnight(b, x, y)
        ensures (f, r) == (x, y)
      {
        assert Minor(b[8 * f + r]) && Minor(b[8 * x + y]);
      }
    } else {
      var i, j :| 0 <= i < 64 && 0 <= j < 64 && Minor(b[i]) && Minor(b[j]) && i != j;
      assert BishopOrKnight(b, i / 8, i % 8) && BishopOrKnight(b, j / 8, j % 8);
    }
  }

  lemma {:induction false} BareCannotMate(b: Board)
    ensures CannotMate(b) <==> Bare(b)
  {
    MinorsTell(b, 64);
    assert b[..64] == b;
    BareIsLight(b);
    BareHasOneMinor(b);
  }
}
