/** Undoing the last move on the game state, in place. */
module Backup {
  import opened Positions
  import opened Legality
  import opened GameStates
  import opened Takeback

  /** Scans one side's records for an earlier departure from (f, r). */
  method ScanFirst(ms: seq<Move>, n: nat, start: nat, f: int, r: int) returns (first: bool)
    requires 0 < n <= |ms|
    ensures first == FirstFrom(ms, n, start, f, r)
  {
    var i := start;
    while i < n - 1
      invariant FirstFrom(ms, n, start, f, r) == FirstFrom(ms, n, i, f, r)
      decreases n - i
    {
      if ms[i].from == Square(f, r) {
        break;
      }
      i := i + 2;
    }
    return i == n - 1;
  }

  /** Puts the man back and restores what it met on its way. */
  method UndoMen(gs: GameState, m: Move)
    requires gs.Valid() && Undoable(m)
    modifies gs.board
    ensures gs.board[..] == UndoBoard(old(gs.board[..]), m)
  {
    var f, r, tf, tr := m.from.file, m.from.rank, m.toFile, m.toRank;
    gs.board[8 * f + r] := gs.board[8 * tf + tr];
    if m.piecePromotionTo != Empty {
      gs.board[8 * f + r] := Man(ColorOf(gs.board[8 * f + r]), Pawn);
    }
    var q := gs.board[8 * f + r];
    if IsKing(q) {
      gs.board[8 * tf + tr] := m.pieceCaptured;
      if tf - f == 2 {
        gs.board[8 * 7 + r] := Man(q.color, Rook);
        gs.board[8 * 5 + r] := Empty;
        return;
      }
      if f - tf == 2 {
        gs.board[8 * 0 + r] := Man(q.color, Rook);
        gs.board[8 * 3 + r] := Empty;
        return;
      }
    }
    if m.enPassant != 0 {
      gs.board[8 * tf + r] := Man(ColorOf(gs.board[8 * f + r]).Toggle(), Pawn);
      gs.board[8 * tf + tr] := Empty;
      return;
    }
    gs.board[8 * tf + tr] := m.pieceCaptured;
  }

  /** A rook back on a corner it leaves for the first time clears its flag. */
  method UndoRookFlag(gs: GameState, ms: seq<Move>, n: nat)
    requires gs.Valid() && 0 < n <= |ms| && Undoable(ms[n - 1])
    modifies gs
    ensures gs.Snapshot() == old(gs.Snapshot()).(moved := RookBack(old(gs.Snapshot()).moved, ms, n))
  {
    var f, r := ms[n - 1].from.file, ms[n - 1].from.rank;
    if ms[n - 1].color == White {
      if f == 0 && r == 0 {
        var first := ScanFirst(ms, n, 2, 0, 0);
        if first { gs.wqrmoved := false; }
      }
      if f == 7 && r == 0 {
        var first := ScanFirst(ms, n, 2, 7, 0);
        if first { gs.wkrmoved := false; }
      }
    } else {
      if f == 0 && r == 7 {
        var first := ScanFirst(ms, n, 3, 0, 0);
        if first { gs.bqrmoved := false; }
      }
      if f == 7 && r == 7 {
        var first := ScanFirst(ms, n, 3, 7, 0);
        if first { gs.bkrmoved := false; }
      }
    }
  }

  /** A king back on its square clears the flags of castling or of its first step. */
  method UndoKingFlag(gs: GameState, ms: seq<Move>, n: nat)
    requires gs.Valid() && 0 < n <= |ms| && Undoable(ms[n - 1])
    modifies gs
    ensures gs.Snapshot() == old(gs.Snapshot()).(moved := KingBack(old(gs.Snapshot()).moved, ms, n))
  {
    var m := ms[n - 1];
    var f, r := m.from.file, m.from.rank;
    if m.toFile - f == 2 {
      if m.color == White {
        gs.wkmoved, gs.wkrmoved := false, false;
      } else {
        gs.bkmoved, gs.bkrmoved := false, false;
      }
    } else if f - m.toFile == 2 {
      if m.color == White {
        gs.wkmoved, gs.wqrmoved := false, false;
      } else {
        gs.bkmoved, gs.bqrmoved := false, false;
      }
    } else if m.color == White {
      if f == 4 && r == 0 {
        var first := ScanFirst(ms, n, 2, 4, 0);
        if first { gs.wkmoved := false; }
      }
    } else {
      if f == 4 && r == 7 {
        var first := ScanFirst(ms, n, 3, 4, 7);
        if first { gs.bkmoved := false; }
      }
    }
  }

  /** Raises the flags of the move that is the last one again. */
  method RestoreEnPassant(gs: GameState, m: Move)
    requires gs.Valid()
    modifies gs.ep
    ensures gs.ep[..] == EpReset(old(gs.ep[..]), gs.board[..], m)
  {
    if Undoable(m) && IsPawn(gs.board[8 * m.toFile + m.toRank]) {
      var tf := m.toFile;
      if m.toRank - m.from.rank == 2 {
        if tf < 7 && gs.board[8 * (tf + 1) + 3] == Man(Black, Pawn) {
          gs.ep[8 + tf + 1] := -1;
        }
        if tf - 1 >= 0 && gs.board[8 * (tf - 1) + 3] == Man(Black, Pawn) {
          gs.ep[8 + tf - 1] := 1;
        }
      } else if m.toRank - m.from.rank == -2 {
        if tf < 7 && gs.board[8 * (tf + 1) + 4] == Man(White, Pawn) {
          gs.ep[tf + 1] := -1;
        }
        if tf - 1 >= 0 && gs.board[8 * (tf - 1) + 4] == Man(White, Pawn) {
          gs.ep[tf - 1] := 1;
        }
      }
    }
  }

  method UndoFlags(gs: GameState, ms: seq<Move>, n: nat)
    requires gs.Valid() && 0 < n <= |ms| && Undoable(ms[n - 1])
    modifies gs
    ensures var m := ms[n - 1];
      gs.Snapshot() == old(gs.Snapshot()).(
        moved := UndoMoved(old(gs.Snapshot()).moved, ms, n, At(gs.board[..], m.from.file, m.from.rank)))
  {
    var q := gs.board[8 * ms[n - 1].from.file + ms[n - 1].from.rank];
    if IsRook(q) {
      UndoRookFlag(gs, ms, n);
    }
    if IsKing(q) {
      UndoKingFlag(gs, ms, n);
    }
  }

  /** Undoes the last of the first n records. */
  method BackupMove(gs: GameState, ms: seq<Move>, n: nat)
    requires gs.Valid() && 0 < n <= |ms| && Undoable(ms[n - 1])
    modifies gs, gs.board, gs.ep
    ensures gs.Snapshot() == Undo(old(gs.Snapshot()), ms, n)
  {
    ghost var p := gs.Snapshot();
    UndoMen(gs, ms[n - 1]);
    assert gs.Snapshot() == p.(board := UndoBoard(p.board, ms[n - 1]));
    UndoFlags(gs, ms, n);
    if gs.onMove == Black {
      gs.onMove := White;
    } else {
      gs.onMove := Black;
      gs.moveNum := gs.moveNum - 1;
    }
    if n > 1 {
      RestoreEnPassant(gs, ms[n - 2]);
    }
  }
}
