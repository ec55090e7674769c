/** Taking moves back: what undoing the last record of the move list does, and that it
    leads back through the positions of the game. */
module Takeback {
  import opened Positions
  import opened Legality
  import opened Targets
  import opened Runs

  /** The colour bit of a square; an empty square reads as White. */
  function ColorOf(q: Piece): Color { if q.Man? then q.color else White }

  /** The board with the last move undone, read off the record alone. */
  function UndoBoard(b: Board, m: Move): Board
    requires m.from.Square? && InRange(m.from, m.toFile, m.toRank)
  {
    var f, r, tf, tr := m.from.file, m.from.rank, m.toFile, m.toRank;
    var back := Put(b, f, r, At(b, tf, tr));
    var b1 := if m.piecePromotionTo == Empty then back else Put(back, f, r, Man(ColorOf(At(back, f, r)), Pawn));
    var own := ColorOf(At(b1, f, r));
    if IsKing(At(b1, f, r)) && Abs(tf - f) == 2 then
      var b2 := Put(b1, tf, tr, m.pieceCaptured);
      if tf - f == 2 then Put(Put(b2, 7, r, Man(own, Rook)), 5, r, Empty)
      else Put(Put(b2, 0, r, Man(own, Rook)), 3, r, Empty)
    else if m.enPassant != 0 then
      Put(Put(b1, tf, r, Man(own.Toggle(), Pawn)), tf, tr, Empty)
    else Put(b1, tf, tr, m.pieceCaptured)
  }

  /** A record of the move list that can be undone. */
  predicate Undoable(m: Move) {
    m.from.Square? && On(m.from.file) && On(m.from.rank) && On(m.toFile) && On(m.toRank)
  }

  /** The scan of the move list by one side's records, from index i: it comes to rest on
      the record being undone only if none before it starts at (f, r). */
  predicate FirstFrom(ms: seq<Move>, n: nat, i: nat, f: int, r: int)
    requires 0 < n <= |ms|
    decreases n - i
  {
    if i < n - 1 then ms[i].from != Square(f, r) && FirstFrom(ms, n, i + 2, f, r) else i == n - 1
  }

  /** A rook is back on its square: if that is a corner it had not left before, its flag
      is cleared. For Black the scan looks for White's corner, as the server does. */
  function RookBack(v: MovedFlags, ms: seq<Move>, n: nat): MovedFlags
    requires 0 < n <= |ms| && Undoable(ms[n - 1])
  {
    var m := ms[n - 1];
    var f, r := m.from.file, m.from.rank;
    if m.color.White? && r == 0 && f == 0 && FirstFrom(ms, n, 2, 0, 0) then v.(wqrmoved := false)
    else if m.color.White? && r == 0 && f == 7 && FirstFrom(ms, n, 2, 7, 0) then v.(wkrmoved := false)
    else if m.color.Black? && r == 7 && f == 0 && FirstFrom(ms, n, 3, 0, 0) then v.(bqrmoved := false)
    else if m.color.Black? && r == 7 && f == 7 && FirstFrom(ms, n, 3, 7, 0) then v.(bkrmoved := false)
    else v
  }

  /** A king is back on its square: after castling both its flag and the rook's are
      cleared, and otherwise its own if it had not left home before. */
  function KingBack(v: MovedFlags, ms: seq<Move>, n: nat): MovedFlags
    requires 0 < n <= |ms| && Undoable(ms[n - 1])
  {
    var m := ms[n - 1];
    var f, r, white := m.from.file, m.from.rank, m.color.White?;
    if m.toFile - f == 2 then (if white then v.(wkmoved := false, wkrmoved := false)
        else v.(bkmoved := false, bkrmoved := false))
    else if f - m.toFile == 2 then (if white then v.(wkmoved := false, wqrmoved := false)
        else v.(bkmoved := false, bqrmoved := false))
    else if f == 4 && r == m.color.Home() && FirstFrom(ms, n, if white then 2 else 3, 4, r) then
      (if white then v.(wkmoved := false) else v.(bkmoved := false))
    else v
  }

  /** The castling flags after undoing the last record, whose man q is on its square again. */
  function UndoMoved(v: MovedFlags, ms: seq<Move>, n: nat, q: Piece): MovedFlags
    requires 0 < n <= |ms| && Undoable(ms[n - 1])
  {
    if IsRook(q) then RookBack(v, ms, n) else if IsKing(q) then KingBack(v, ms, n) else v
  }

  /** The position with the last of the first n records undone. */
  function Undo(p: Position, ms: seq<Move>, n: nat): Position
    requires 0 < n <= |ms| && Undoable(ms[n - 1])
  {
    var m := ms[n - 1];
    var board := UndoBoard(p.board, m);
    p.(
      board := board,
      moved := UndoMoved(p.moved, ms, n, At(board, m.from.file, m.from.rank)),
      onMove := p.onMove.Toggle(),
      moveNum := if p.onMove.Black? then p.moveNum else p.moveNum - 1,
      ep := if n > 1 then EpReset(p.ep, board, ms[n - 2]) else p.ep)
  }

  /** The flags for the move that is last again are added to those in force. */
  function EpReset(ep: EpFlags, b: Board, m: Move): EpFlags {
    if Undoable(m) && IsPawn(At(b, m.toFile, m.toRank)) then
      if m.toRank - m.from.rank == 2 then EpRaise(ep, b, m.toFile, Black, 3)
      else if m.toRank - m.from.rank == -2 then EpRaise(ep, b, m.toFile, White, 4)
      else ep
    else ep
  }

  function EpRaise(ep: EpFlags, b: Board, tf: int, c: Color, rank: int): EpFlags
    requires On(tf) && On(rank)
  {
    var row := 8 * c.Row();
    var right := if tf < 7 && At(b, tf + 1, rank) == Man(c, Pawn) then ep[row + tf + 1 := -1] else ep;
    if tf - 1 >= 0 && At(b, tf - 1, rank) == Man(c, Pawn) then right[row + tf - 1 := 1] else right
  }

  /** The record kept of a legal move undoes it on the board: promotions, captures, en
      passant and castling alike. */
  lemma {:induction false} UndoBoardReverses(p: Position, from: Origin, tf: int, tr: int, k: Kind)
    requires from.Square? && InRange(from, tf, tr) && Legal(p, from, tf, tr) && k != King
    ensures var m := MoveRecord(p, from, tf, tr, k);
            UndoBoard(BoardAfter(p.board, p.onMove, m), Recorded(p, m)) == p.board
  {
    LegalIsPlainOrCastling(p, from.file, from.rank, tf, tr);
    if Castling(p, from.file, from.rank, tf, tr) {
      UndoCastling(p, from, tf, tr, k);
    } else if TakesEnPassant(p.board, MoveRecord(p, from, tf, tr, k)) {
      UndoEnPassant(p, from, tf, tr, k);
    } else {
      UndoPlain(p, from, tf, tr, k);
    }
  }

  lemma {:induction false} UndoCastling(p: Position, from: Origin, tf: int, tr: int, k: Kind)
    requires from.Square? && InRange(from, tf, tr) && Castling(p, from.file, from.rank, tf, tr)
    ensures var m := MoveRecord(p, from, tf, tr, k);
            UndoBoard(BoardAfter(p.board, p.onMove, m), Recorded(p, m)) == p.board
  {
    var side := if tf == 6 then KingSide else QueenSide;
    assert Castles(p, side);
  }

  lemma {:induction false} UndoEnPassant(p: Position, from: Origin, tf: int, tr: int, k: Kind)
    requires from.Square? && InRange(from, tf, tr) && Plain(p, from.file, from.rank, tf, tr) && k != King
    requires TakesEnPassant(p.board, MoveRecord(p, from, tf, tr, k))
    ensures var m := MoveRecord(p, from, tf, tr, k);
            UndoBoard(BoardAfter(p.board, p.onMove, m), Recorded(p, m)) == p.board
  {
    assert At(p.board, tf, from.rank) == Man(p.onMove.Toggle(), Pawn);
  }

  lemma {:induction false} UndoPlain(p: Position, from: Origin, tf: int, tr: int, k: Kind)
    requires from.Square? && InRange(from, tf, tr) && Plain(p, from.file, from.rank, tf, tr) && k != King
    requires !TakesEnPassant(p.board, MoveRecord(p, from, tf, tr, k))
    ensures var m := MoveRecord(p, from, tf, tr, k);
            UndoBoard(BoardAfter(p.board, p.onMove, m), Recorded(p, m)) == p.board
  {
  }

  /** The record the move list keeps of one more move. */
  function Noted(q: Position, ch: Choice): Move
    requires Fits(ch)
  {
    Recorded(q, MoveRecord(q, ch.from, ch.toFile, ch.toRank, ch.promote)).(doublePawn := 0)
  }

  /** The i-th choice moves a man of the board, is accepted, and leads on to the next position. */
  ghost predicate Follows(q: Position, ch: Choice, i: nat, next: Position) {
    Allowed(q, ch, Seat(i, false)) && ch.from.Square? && next == Played(q, ch, Seat(i, false))
  }

  /** Both positions have the same men, turn and move number. */
  predicate SameMen(p: Position, q: Position) {
    p.board == q.board && p.onMove == q.onMove && p.moveNum == q.moveNum
  }

  predicate SameKings(p: Position, q: Position) {
    p.KingMoved(White) == q.KingMoved(White) && p.KingMoved(Black) == q.KingMoved(Black)
  }

  /** Undoing the record of a legal move gives the men before it. */
  lemma {:induction false} UndoStep(p: Position, q: Position, ms: seq<Move>, n: nat, ch: Choice, next: Position)
    requires Follows(q, ch, n, next) && n < |ms| && ms[n] == Noted(q, ch) && SameMen(p, next)
    ensures Undoable(ms[n]) && SameMen(Undo(p, ms, n + 1), q)
  {
    UndoBoardReverses(q, ch.from, ch.toFile, ch.toRank, ch.promote);
    UndoTurn(p, q, ms, n, ch, Seat(n, false));
  }

  lemma {:induction false} UndoTurn(p: Position, q: Position, ms: seq<Move>, n: nat, ch: Choice, t: Table)
    requires Fits(ch) && n < |ms| && Undoable(ms[n])
    requires p.onMove == Played(q, ch, t).onMove && p.moveNum == Played(q, ch, t).moveNum
    ensures Undo(p, ms, n + 1).onMove == q.onMove && Undo(p, ms, n + 1).moveNum == q.moveNum
  {
  }

  /** Undoing k moves, newest first, for as long as the records allow it. */
  function UndoMany(p: Position, ms: seq<Move>, n: nat, k: nat): Position
    requires k <= n <= |ms|
    decreases k
  {
    if k == 0 || !Undoable(ms[n - 1]) then p else UndoMany(Undo(p, ms, n), ms, n - 1, k - 1)
  }

  /** What is to come back besides men, turn and move number: nothing, what is known of the kings,
      of kings and rooks, or the flags for en passant. */
  datatype Aspect = OnlyMen | Kings | Rights | EnPassant

  /** The same men, turn and move number, and the same in what is asked besides. */
  predicate Same(p: Position, q: Position, which: Aspect) {
    && SameMen(p, q)
    && match which
       case OnlyMen => true
       case Kings => SameKings(p, q)
       case Rights => p.moved == q.moved
       case EnPassant => p.ep == q.ep
  }

  /** Undoing the i-th record leads from the like of one position to the like of another. */
  ghost predicate LeadsBack(ms: seq<Move>, i: nat, after: Position, before: Position, which: Aspect) {
    && i < |ms| && Undoable(ms[i])
    && forall q :: Same(q, after, which) ==> Same(Undo(q, ms, i + 1), before, which)
  }

  /** Undoing any of the first n records leads from each position to the one before. */
  ghost predicate AllLeadBack(ms: seq<Move>, ps: seq<Position>, n: nat, which: Aspect)
    requires n < |ps|
  {
    forall i :: 0 <= i < n ==> LeadsBack(ms, i, ps[i + 1], ps[i], which)
  }

  lemma {:induction false} LastLeadsBack(p: Position, ms: seq<Move>, ps: seq<Position>, n: nat, which: Aspect)
    requires 0 < n <= |ms| && n < |ps| && AllLeadBack(ms, ps, n, which) && Same(p, ps[n], which)
    ensures Undoable(ms[n - 1]) && Same(Undo(p, ms, n), ps[n - 1], which) && AllLeadBack(ms, ps, n - 1, which)
  {
    assert LeadsBack(ms, n - 1, ps[n], ps[n - 1], which);
  }

  /** The step from the i-th position back leads from the like of it to the like of the one before. */
  ghost predicate StepsBack(same: (Position, Position) -> bool, ms: seq<Move>, ps: seq<Position>, i: nat) {
    && 0 < i <= |ms| && i < |ps| && Undoable(ms[i - 1])
    && forall q :: same(q, ps[i]) ==> same(Undo(q, ms, i), ps[i - 1])
  }

  lemma {:induction false} ChainOf(same: (Position, Position) -> bool, p: Position, ms: seq<Move>, ps: seq<Position>,
      n: nat, k: nat)
    requires k <= n <= |ms| && n < |ps| && same(p, ps[n])
    requires forall i :: 0 < i <= n ==> StepsBack(same, ms, ps, i)
    ensures same(UndoMany(p, ms, n, k), ps[n - k])
    decreases k
  {
    if k > 0 {
      assert StepsBack(same, ms, ps, n);
      ChainOf(same, Undo(p, ms, n), ms, ps, n - 1, k - 1);
    }
  }

  lemma {:induction false} UndoChain(p: Position, ms: seq<Move>, ps: seq<Position>, n: nat, k: nat, which: Aspect)
    requires k <= n <= |ms| && n < |ps| && Same(p, ps[n], which)
    requires AllLeadBack(ms, ps, n, which)
    ensures Same(UndoMany(p, ms, n, k), ps[n - k], which)
  {
    var same := (x, y) => Same(x, y, which);
    forall i | 0 < i <= n
      ensures StepsBack(same, ms, ps, i)
    {
      assert LeadsBack(ms, i - 1, ps[i], ps[i - 1], which);
    }
    ChainOf(same, p, ms, ps, n, k);
  }

  /** Only the records up to the one undone matter. */
  lemma {:induction false} FirstFromLocal(ms: seq<Move>, us: seq<Move>, n: nat, i: nat, f: int, r: int)
    requires 0 < n <= |ms| && n <= |us| && ms[..n] == us[..n]
    ensures FirstFrom(ms, n, i, f, r) == FirstFrom(us, n, i, f, r)
    decreases n - i
  {
    if i < n - 1 {
      assert ms[i] == ms[..n][i] && us[i] == us[..n][i];
      FirstFromLocal(ms, us, n, i + 2, f, r);
    }
  }

  lemma {:induction false} UndoLocal(p: Position, ms: seq<Move>, us: seq<Move>, n: nat)
    requires 0 < n <= |ms| && n <= |us| && ms[..n] == us[..n] && Undoable(ms[n - 1])
    ensures ms[n - 1] == us[n - 1] && Undo(p, ms, n) == Undo(p, us, n)
  {
    assert ms[n - 1] == ms[..n][n - 1] && us[n - 1] == us[..n][n - 1];
    assert n > 1 ==> ms[n - 2] == ms[..n][n - 2] && us[n - 2] == us[..n][n - 2];
    var m := ms[n - 1];
    FirstFromLocal(ms, us, n, 2, m.from.file, m.from.rank);
    FirstFromLocal(ms, us, n, 3, m.from.file, m.from.rank);
    FirstFromLocal(ms, us, n, 2, 0, 0);
    FirstFromLocal(ms, us, n, 2, 7, 0);
    FirstFromLocal(ms, us, n, 3, 7, 0);
    FirstFromLocal(ms, us, n, 3, 0, 0);
  }

  /** Nor do later records matter to how a record leads back. */
  lemma {:induction false} LeadsBackLocal(ms: seq<Move>, us: seq<Move>, i: nat, after: Position, before: Position,
      which: Aspect)
    requires LeadsBack(ms, i, after, before, which) && i < |us| && ms[..i + 1] == us[..i + 1]
    ensures LeadsBack(us, i, after, before, which)
  {
    forall q | Same(q, after, which)
      ensures Same(Undo(q, us, i + 1), before, which)
    {
      UndoLocal(q, ms, us, i + 1);
    }
    UndoLocal(after, ms, us, i + 1);
  }
}
