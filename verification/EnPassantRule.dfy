/** En passant: when the server lets a pawn take so, and when the laws of chess do. */
module EnPassantRule {
  import opened Positions
  import opened Legality
  import opened Targets
  import opened Runs
  import opened EnPassantFlags
  import opened Rules

  /** The move took a pawn two squares ahead on file tf. */
  predicate Advanced(q: Position, ch: Choice, tf: int)
    requires Fits(ch) && ch.from.Square?
  {
    At(q.board, ch.from.file, ch.from.rank) == Man(q.onMove, Pawn) && ch.toFile == tf
    && (ch.toRank == ch.from.rank + 2 || ch.toRank == ch.from.rank - 2)
  }

  /** By the laws a pawn on (f, r) may take to file tf in passing just after such a move to beside it. */
  predicate MayTake(q: Position, ch: Choice, r: int, tf: int)
    requires Fits(ch) && ch.from.Square?
  {
    Advanced(q, ch, tf) && r == ch.toRank
  }

  lemma {:induction false} MarkMeans(b: Board, c: Color, to: int, f: int, tf: int)
    requires On(to) && On(f) && On(tf) && Abs(tf - f) == 1
    ensures EpAt(EpMarks(b, c, to), c.Toggle(), f) == tf - f
      <==> tf == to && At(b, f, if c == White then 3 else 4) == Man(c.Toggle(), Pawn)
  {
  }

  lemma {:induction false} EpPlayed(q: Position, ch: Choice, t: Table)
    requires Allowed(q, ch, t) && ch.from.Square?
    ensures var p := Played(q, ch, t);
      p.ep == if Advanced(q, ch, ch.toFile) then EpMarks(p.board, q.onMove, ch.toFile) else None()
  {
    OwnMoves(q, ch, t);
  }

  /** The flag of a file is up exactly when a pawn of that file stands beside one just advanced. */
  lemma {:induction false} FlagMeans(q: Position, ch: Choice, t: Table, f: int, tf: int)
    requires Allowed(q, ch, t) && ch.from.Square? && On(f) && On(tf) && Abs(tf - f) == 1
    ensures var p := Played(q, ch, t);
      EpAt(p.ep, p.onMove, f) == tf - f <==> Advanced(q, ch, tf) && At(p.board, f, ch.toRank) == Man(p.onMove, Pawn)
  {
    EpPlayed(q, ch, t);
    OwnMoves(q, ch, t);
    if Advanced(q, ch, ch.toFile) {
      AdvanceIsAhead(q, ch.from.file, ch.from.rank, ch.toFile, ch.toRank);
      MarkMeans(Played(q, ch, t).board, q.onMove, ch.toFile, f, tf);
    }
  }

  lemma {:induction false} OwnMoves(q: Position, ch: Choice, t: Table)
    requires Allowed(q, ch, t) && ch.from.Square?
    ensures Own(q.board, q.onMove, ch.from.file, ch.from.rank) && Played(q, ch, t).onMove == q.onMove.Toggle()
  {
  }

  /** What the server asks of the pawn that takes. */
  lemma {:induction false} PassingMeans(q: Position, ch: Choice, t: Table, f: int, r: int, tf: int)
    requires Allowed(q, ch, t) && ch.from.Square? && On(f) && On(r) && On(tf) && Abs(tf - f) == 1
    ensures var p := Played(q, ch, t);
      Passing(p, f, r, tf) <==>
        && Advanced(q, ch, tf) && At(p.board, f, ch.toRank) == Man(p.onMove, Pawn)
        && At(p.board, tf, r) == Man(q.onMove, Pawn)
  {
    FlagMeans(q, ch, t, f, tf);
    OwnMoves(q, ch, t);
  }

  /** The man that has gone is where it went. */
  lemma {:induction false} AdvancedStands(q: Position, ch: Choice, t: Table, tf: int)
    requires Allowed(q, ch, t) && ch.from.Square? && Advanced(q, ch, tf)
    ensures At(Played(q, ch, t).board, tf, ch.toRank) == Man(q.onMove, Pawn)
  {
    AdvanceIsAhead(q, ch.from.file, ch.from.rank, ch.toFile, ch.toRank);
    SquareAfter(q, ch.from, ch.toFile, ch.toRank, ch.promote, ch.toFile, ch.toRank);
  }

  /** After a move on the board the server lets a pawn take en passant exactly when the laws do, but
      for a pawn on another rank: that it lets take too, if a pawn of its side on the same file stands
      beside the one that advanced, and another enemy pawn beside itself. */
  lemma {:induction false} EnPassantIsExact(q: Position, ch: Choice, t: Table, f: int, r: int, tf: int)
    requires Allowed(q, ch, t) && ch.from.Square? && On(f) && On(r) && On(tf) && Abs(tf - f) == 1
    requires At(Played(q, ch, t).board, f, r) == Man(q.onMove.Toggle(), Pawn)
    ensures var p := Played(q, ch, t);
      (Passing(p, f, r, tf) <==> MayTake(q, ch, r, tf)) <==>
        !(r != ch.toRank && Advanced(q, ch, tf) && At(p.board, f, ch.toRank) == Man(p.onMove, Pawn)
          && At(p.board, tf, r) == Man(q.onMove, Pawn))
  {
    PassingMeans(q, ch, t, f, r, tf);
    OwnMoves(q, ch, t);
    if Advanced(q, ch, tf) {
      AdvancedStands(q, ch, t, tf);
    }
  }

  /** A drop leaves the flags as they were, so that a pawn may still be taken in passing after it. */
  lemma {:induction false} DropKeepsFlags(q: Position, ch: Choice, t: Table)
    requires Allowed(q, ch, t) && ch.from.Drop?
    ensures Played(q, ch, t).ep == q.ep
  {
  }
}
