/** Playing a move for real: the status of the game afterwards. */
module Judgement {
  import opened Positions
  import opened Legality
  import opened Attacks
  import opened Targets
  import opened GameStates
  import opened Moves
  import opened Mate

  predicate Minor(q: Piece) { q.Man? && (q.kind == Knight || q.kind == Bishop) }

  predicate Heavy(q: Piece) { q.Man? && (q.kind == Pawn || q.kind == Rook || q.kind == Queen) }

  function Minors(b: seq<Piece>): nat {
    if b == [] then 0 else Minors(b[..|b| - 1]) + if Minor(b[|b| - 1]) then 1 else 0
  }

  /** Kings and at most one minor piece: nobody can mate. */
  ghost predicate CannotMate(b: Board) {
    (forall i :: 0 <= i < 64 ==> !Heavy(b[i])) && Minors(b) <= 1
  }

  /** The status with p.onMove to reply. */
  ghost function Status(p: Position, t: Table): Outcome {
    if !HasMove(p, t) then (if KingHit(p.board, p.onMove) then Checkmate else Stalemate)
    else if !KingHit(p.board, p.onMove) && CannotMate(p.board) then NoMaterial
    else Ok
  }

  /** Adds up the men that matter; anything heavy counts as two at once. */
  method InsufficientMaterial(gs: GameState) returns (none: bool)
    requires gs.Valid()
    ensures none == CannotMate(gs.board[..])
  {
    var b: Board := gs.board[..];
    var strength := 0;
    for i := 0 to 8
      invariant (exists k :: 0 <= k < 8 * i && Heavy(b[k])) ==> strength >= 2
      invariant (forall k :: 0 <= k < 8 * i ==> !Heavy(b[k])) ==> strength == Minors(b[..8 * i])
    {
      for j := 0 to 8
        invariant (exists k :: 0 <= k < 8 * i + j && Heavy(b[k])) ==> strength >= 2
        invariant (forall k :: 0 <= k < 8 * i + j ==> !Heavy(b[k])) ==> strength == Minors(b[..8 * i + j])
      {
        var q := At(b, i, j);
        assert b[..8 * i + j + 1][..8 * i + j] == b[..8 * i + j];
        if q.Man? {
          match q.kind
          case Knight => strength := strength + 1;
          case Bishop => strength := strength + 1;
          case King =>
          case _ => strength := 2;
        }
      }
    }
    assert b[..64] == b;
    return strength < 2;
  }

  /** Passes the turn and says how the game stands for the side now to move. */
  method Judge(gs: GameState, t: Table) returns (outcome: Outcome)
    requires gs.Valid()
    requires Playable(PassTurn(gs.Snapshot()))
    modifies gs`onMove, gs.holding
    ensures gs.Snapshot() == PassTurn(old(gs.Snapshot()))
    ensures outcome == Status(gs.Snapshot(), t)
  {
    CheckIsHit(gs.Snapshot());
    var check := IsInCheck(gs);
    gs.onMove := gs.onMove.Toggle();
    var any := HasLegalMove(gs, t);
    if check {
      return if any then Ok else Checkmate;
    }
    if !any {
      return Stalemate;
    }
    var none := InsufficientMaterial(gs);
    return if none then NoMaterial else Ok;
  }

  /** Plays the move in place and says how the game stands. */
  method ExecuteMove(gs: GameState, m: Move, t: Table) returns (recorded: Move, outcome: Outcome)
    requires gs.Valid() && InRange(m.from, m.toFile, m.toRank) && (m.from.Drop? ==> m.from.man != King)
    requires Playable(Execute(gs.Snapshot(), m, t))
    modifies gs, gs.board, gs.holding, gs.ep
    ensures gs.Snapshot() == Execute(old(gs.Snapshot()), m, t)
    ensures recorded == Recorded(old(gs.Snapshot()), m)
    ensures outcome == Status(gs.Snapshot(), t)
  {
    recorded := ApplyMove(gs, m, t);
    outcome := Judge(gs, t);
  }

  /** To colour c's king two boards look alike: the same squares are empty, and the
      enemy's men and c's king are the same. */
  ghost predicate AlikeForKing(a: Board, b: Board, c: Color) {
    forall f, r :: On(f) && On(r) ==>
      && (At(a, f, r) == Empty <==> At(b, f, r) == Empty)
      && (Own(a, c, f, r) <==> Own(b, c, f, r))
      && (!Own(a, c, f, r) || At(a, f, r).kind == King || At(b, f, r).kind == King ==> At(a, f, r) == At(b, f, r))
  }

  lemma {:induction false} AlikeClear(a: Board, b: Board, c: Color, f: int, r: int, dx: int, dy: int, n: int)
    requires AlikeForKing(a, b, c)
    ensures Clear(a, f, r, dx, dy, n) <==> Clear(b, f, r, dx, dy, n)
  {
  }

  lemma {:induction false} AlikeSlides(a: Board, b: Board, c: Color, f: int, r: int, tf: int, tr: int)
    requires AlikeForKing(a, b, c)
    ensures BishopMove(a, f, r, tf, tr) <==> BishopMove(b, f, r, tf, tr)
    ensures RookMove(a, f, r, tf, tr) <==> RookMove(b, f, r, tf, tr)
  {
    AlikeClear(a, b, c, f, r, Toward(f, tf), Toward(r, tr), Abs(f - tf));
    AlikeClear(a, b, c, f, r, Toward(f, tf), 0, Abs(f - tf));
    AlikeClear(a, b, c, f, r, 0, Toward(r, tr), Abs(r - tr));
  }

  lemma {:induction false} AlikeHits(a: Board, b: Board, c: Color, f: int, r: int, tf: int, tr: int)
    requires AlikeForKing(a, b, c) && On(f) && On(r) && On(tf) && On(tr)
    ensures Hits(a, c.Toggle(), f, r, tf, tr) <==> Hits(b, c.Toggle(), f, r, tf, tr)
  {
    AlikeSlides(a, b, c, f, r, tf, tr);
    assert At(a, f, r) == At(b, f, r) || (Own(a, c, f, r) && Own(b, c, f, r));
  }

  lemma {:induction false} AlikeKingHit(a: Board, b: Board, c: Color)
    requires AlikeForKing(a, b, c) && KingHit(a, c)
    ensures KingHit(b, c)
  {
    var kf, kr :| IsFirstKing(a, c, kf, kr) && exists f, r :: On(f) && On(r) && Hits(a, c.Toggle(), f, r, kf, kr);
    var f, r :| On(f) && On(r) && Hits(a, c.Toggle(), f, r, kf, kr);
    AlikeHits(a, b, c, f, r, kf, kr);
    forall x, y | On(x) && On(y)
      ensures At(a, x, y) == Man(c, King) <==> At(b, x, y) == Man(c, King)
    {
      assert At(a, x, y) == Man(c, King) ==> Own(a, c, x, y);
      assert At(b, x, y) == Man(c, King) ==> Own(b, c, x, y);
    }
    assert IsFirstKing(b, c, kf, kr);
  }

  /** Whether a move is accepted does not depend on what a pawn is promoted to. */
  lemma {:induction false} PromotionIrrelevant(p: Position, from: Origin, tf: int, tr: int, j: Kind, k: Kind, t: Table)
    requires InRange(from, tf, tr) && j != King && k != King
    ensures Accepted(p, from, tf, tr, j, t) <==> Accepted(p, from, tf, tr, k, t)
  {
    AcceptedIsSafe(p, from, tf, tr, j, t);
    AcceptedIsSafe(p, from, tf, tr, k, t);
    if Legal(p, from, tf, tr) {
      var a := BoardAfter(p.board, p.onMove, MoveRecord(p, from, tf, tr, j));
      var b := BoardAfter(p.board, p.onMove, MoveRecord(p, from, tf, tr, k));
      PromotedAlike(p, from, tf, tr, j, k);
      if KingHit(a, p.onMove) {
        AlikeKingHit(a, b, p.onMove);
      }
      if KingHit(b, p.onMove) {
        AlikeKingHit(b, a, p.onMove);
      }
    }
  }

  lemma {:induction false} PromotedAlike(p: Position, from: Origin, tf: int, tr: int, j: Kind, k: Kind)
    requires InRange(from, tf, tr) && j != King && k != King && Legal(p, from, tf, tr)
    ensures var a := BoardAfter(p.board, p.onMove, MoveRecord(p, from, tf, tr, j));
            var b := BoardAfter(p.board, p.onMove, MoveRecord(p, from, tf, tr, k));
            AlikeForKing(a, b, p.onMove) && AlikeForKing(b, a, p.onMove)
  {
    if from.Square? && IsPawn(At(p.board, from.file, from.rank)) && (tr == 0 || tr == 7) {
      PutsAlike(p.board, from.file, from.rank, tf, tr, p.onMove, j, k);
    }
  }

  /** Two boards that differ only in what a pawn has become. */
  lemma {:induction false} PutsAlike(b: Board, f: int, r: int, tf: int, tr: int, c: Color, j: Kind, k: Kind)
    requires On(f) && On(r) && On(tf) && On(tr) && j != King && k != King
    ensures var x := Put(Put(b, tf, tr, Man(c, j)), f, r, Empty); var y := Put(Put(b, tf, tr, Man(c, k)), f, r, Empty);
      && AlikeForKing(x, y, c) && AlikeForKing(y, x, c)
      && forall ef, er :: 0 <= ef < 8 && 0 <= er < 8 ==>
           AlikeForKing(Put(x, ef, er, Empty), Put(y, ef, er, Empty), c)
               && AlikeForKing(Put(y, ef, er, Empty), Put(x, ef, er, Empty), c)
  {
  }

  /** Some man can move, with whatever promotion. */
  ghost predicate CanMove(p: Position, t: Table) {
    exists ff, fr, tf, tr, k: Kind :: On(ff) && On(fr) && On(tf) && On(tr) && k != King
                                      && Accepted(p, Square(ff, fr), tf, tr, k, t)
  }

  /** Outside bughouse the status names mate and stalemate exactly: the side to reply
      has no move whatever it would promote to, and is or is not in check. */
  lemma {:induction false} StatusIsExact(p: Position, t: Table)
    requires !t.Bughouse()
    ensures Status(p, t) == Checkmate <==> KingHit(p.board, p.onMove) && !CanMove(p, t)
    ensures Status(p, t) == Stalemate <==> !KingHit(p.board, p.onMove) && !CanMove(p, t)
  {
    CanMoveIsBoardMove(p, t);
  }

  lemma {:induction false} CanMoveIsBoardMove(p: Position, t: Table)
    ensures CanMove(p, t) <==> HasBoardMove(p, t)
  {
    if CanMove(p, t) {
      QueenWouldDo(p, t);
    }
    if HasBoardMove(p, t) {
      var ff, fr, tf, tr :| On(ff) && On(fr) && On(tf) && On(tr) && LegalAndCheck(p, Square(ff, fr), tf, tr, t);
      assert Accepted(p, Square(ff, fr), tf, tr, Queen, t);
    }
  }

  lemma {:induction false} QueenWouldDo(p: Position, t: Table)
    requires CanMove(p, t)
    ensures HasBoardMove(p, t)
  {
    var ff, fr, tf, tr, k: Kind :| On(ff) && On(fr) && On(tf) && On(tr) && k != King
        && Accepted(p, Square(ff, fr), tf, tr, k, t);
    PromotionIrrelevant(p, Square(ff, fr), tf, tr, k, Queen, t);
    assert LegalAndCheck(p, Square(ff, fr), tf, tr, t);
  }
}
