/** When taking a move back also restores the flags for en passant: the flags of the move before
    are raised again, but those of the move taken back are not cleared. */
module EnPassantFlags {
  import opened Positions
  import opened Legality
  import opened Targets
  import opened Runs
  import opened Takeback

  function None(): EpFlags { seq(16, _ => 0) }

  /** The move takes a pawn two squares ahead, to beside an enemy pawn. */
  predicate Raises(q: Position, ch: Choice)
    requires Fits(ch) && ch.from.Square?
  {
    && IsPawn(At(q.board, ch.from.file, ch.from.rank)) && Abs(ch.from.rank - ch.toRank) == 2
    && Beside(q.board, q.onMove.Toggle(), ch.toFile, ch.toRank)
  }

  /** The record, if of a two-square advance, is of the side not to move. */
  predicate OfOther(b: Board, c: Color, m: Move) {
    Undoable(m) && IsPawn(At(b, m.toFile, m.toRank)) ==>
      && (m.toRank - m.from.rank == 2 ==> c.Black?)
      && (m.toRank - m.from.rank == -2 ==> c.White?)
  }

  /** The flags in force are those that the last of the records raised. */
  predicate Fresh(p: Position, recs: seq<Move>) {
    if recs == [] then p.ep == None()
    else
      var m := recs[|recs| - 1];
      p.ep == EpReset(None(), p.board, m) && OfOther(p.board, p.onMove, m)
  }

  /** A move keeps no flags but its own. */
  lemma {:induction false} MadeIsFresh(q: Position, ch: Choice, t: Table, recs: seq<Move>)
    requires Allowed(q, ch, t) && ch.from.Square?
    ensures Fresh(Played(q, ch, t), recs + [Noted(q, ch)])
  {
    var m := Noted(q, ch);
    assert (recs + [m])[|recs|] == m;
    MadeRaises(q, ch, t);
  }

  lemma {:induction false} MadeRaises(q: Position, ch: Choice, t: Table)
    requires Allowed(q, ch, t) && ch.from.Square?
    ensures var p := Played(q, ch, t);
      p.ep == EpReset(None(), p.board, Noted(q, ch)) && OfOther(p.board, p.onMove, Noted(q, ch))
  {
    LegalIsPlainOrCastling(q, ch.from.file, ch.from.rank, ch.toFile, ch.toRank);
    SquareAfter(q, ch.from, ch.toFile, ch.toRank, ch.promote, ch.toFile, ch.toRank);
  }

  /** A pawn of colour c stands beside (f, r). */
  predicate Beside(b: Board, c: Color, f: int, r: int)
    requires On(f) && On(r)
  {
    (f < 7 && At(b, f + 1, r) == Man(c, Pawn)) || (f > 0 && At(b, f - 1, r) == Man(c, Pawn))
  }

  /** One of the two flags beside file f is up. */
  predicate Up(ep: EpFlags, c: Color, f: int)
    requires On(f)
  {
    (f < 7 && EpAt(ep, c, f + 1) != 0) || (f > 0 && EpAt(ep, c, f - 1) != 0)
  }

  lemma {:induction false} MarksTell(b: Board, c: Color, f: int)
    requires On(f)
    ensures var ep := EpMarks(b, c, f); var r := if c.White? then 3 else 4;
      && (Beside(b, c.Toggle(), f, r) ==> Up(ep, c.Toggle(), f))
      && (!Beside(b, c.Toggle(), f, r) ==> ep == None())
  {
  }

  /** Beside the target nothing changes when a pawn goes ahead. */
  lemma {:induction false} AheadLeaves(b: Board, c: Color, m: Move)
    requires m.from.Square? && InRange(m.from, m.toFile, m.toRank) && m.from.file == m.toFile
    requires IsPawn(At(b, m.from.file, m.from.rank))
    ensures Beside(BoardAfter(b, c, m), c.Toggle(), m.toFile, m.toRank) <==> Beside(b, c.Toggle(), m.toFile, m.toRank)
  {
  }

  /** A move of two squares ahead that is legal leads to the middle of the board. */
  lemma {:induction false} AdvanceIsAhead(q: Position, f: int, r: int, tf: int, tr: int)
    requires On(f) && On(r) && On(tf) && On(tr) && LegalMove(q, f, r, tf, tr)
    requires IsPawn(At(q.board, f, r)) && Abs(r - tr) == 2
    ensures f == tf && tr == if q.onMove.White? then 3 else 4
  {
    LegalIsPlainOrCastling(q, f, r, tf, tr);
  }

  lemma {:induction false} RaisesFlags(q: Position, ch: Choice, t: Table)
    requires Allowed(q, ch, t) && ch.from.Square?
    ensures var ep := Played(q, ch, t).ep;
      if Raises(q, ch) then Up(ep, q.onMove.Toggle(), ch.toFile) else ep == None()
  {
    var m := MoveRecord(q, ch.from, ch.toFile, ch.toRank, ch.promote);
    if IsPawn(At(q.board, ch.from.file, ch.from.rank)) && Abs(ch.from.rank - ch.toRank) == 2 {
      AdvanceIsAhead(q, ch.from.file, ch.from.rank, ch.toFile, ch.toRank);
      AheadLeaves(q.board, q.onMove, m);
      MarksTell(BoardAfter(q.board, q.onMove, m), q.onMove, ch.toFile);
    }
  }

  /** Raising flags for the record of the other side leaves that side's own flags. */
  lemma {:induction false} ResetLeaves(ep: EpFlags, b: Board, m: Move, c: Color, f: int)
    requires OfOther(b, c, m) && On(f)
    ensures Up(EpReset(ep, b, m), c.Toggle(), f) <==> Up(ep, c.Toggle(), f)
  {
  }

  lemma {:induction false} ResetTells(ep: EpFlags, b: Board, m: Move, c: Color, f: int)
    requires OfOther(b, c, m) && On(f) && (ep == None() || Up(ep, c.Toggle(), f))
    ensures EpReset(ep, b, m) == EpReset(None(), b, m) <==> ep == None()
  {
    ResetLeaves(ep, b, m, c, f);
    ResetLeaves(None(), b, m, c, f);
  }

  /** Which flags are in force after a takeback. */
  lemma {:induction false} UndoneFlags(p: Position, q: Position, ms: seq<Move>, n: nat)
    requires n < |ms| && Undoable(ms[n]) && UndoBoard(p.board, ms[n]) == q.board
    ensures Undo(p, ms, n + 1).ep == if n > 0 then EpReset(p.ep, q.board, ms[n - 1]) else p.ep
  {
  }

  /** Taking the move back restores the flags for en passant exactly when it raised none. */
  lemma {:induction false} UndoEnPassantFlags(p: Position, q: Position, ms: seq<Move>, n: nat, ch: Choice,
      next: Position)
    requires Follows(q, ch, n, next) && n < |ms| && ms[n] == Noted(q, ch) && Same(p, next, EnPassant)
    requires Fresh(q, ms[..n])
    ensures Undoable(ms[n]) && (Undo(p, ms, n + 1).ep == q.ep <==> !Raises(q, ch))
  {
    UndoBoardReverses(q, ch.from, ch.toFile, ch.toRank, ch.promote);
    UndoneFlags(p, q, ms, n);
    RaisesFlags(q, ch, Seat(n, false));
    if n > 0 {
      assert ms[..n][n - 1] == ms[n - 1];
      ResetTells(p.ep, q.board, ms[n - 1], q.onMove, ch.toFile);
    }
  }
}
