/** Playing a move on the game state, in place. */
module Moves {
  import opened Positions
  import opened Legality
  import opened GameStates

  /** The board half of playing a move; also finds an en-passant capture. */
  method MoveMen(gs: GameState, m: Move) returns (recorded: Move)
    requires gs.Valid() && InRange(m.from, m.toFile, m.toRank) && m.from.Square?
    modifies gs.board
    ensures gs.board[..] == BoardAfter(old(gs.board[..]), gs.onMove, m)
    ensures recorded == Recorded(old(gs.Snapshot()), m)
  {
    recorded := m;
    ghost var b: Board := gs.board[..];
    var f, r := m.from.file, m.from.rank;
    var moved, took := gs.board[8 * f + r], gs.board[8 * m.toFile + m.toRank];
    if m.piecePromotionTo == Empty {
      gs.board[8 * m.toFile + m.toRank] := gs.board[8 * f + r];
    } else {
      gs.board[8 * m.toFile + m.toRank] := Man(gs.onMove, m.piecePromotionTo.kind);
    }
    gs.board[8 * f + r] := Empty;
    if IsPawn(moved) && f != m.toFile && took == Empty {
      recorded := m.(pieceCaptured := if gs.onMove.White? then Man(Black, Pawn) else Man(White, Pawn),
                     enPassant := if f > m.toFile then -1 else 1);
      gs.board[8 * m.toFile + r] := Empty;
    }
    if IsKing(moved) {
      MoveRook(gs, f, m.toFile, m.toRank);
    }
  }

  /** The rook's share of castling. */
  method MoveRook(gs: GameState, f: int, tf: int, tr: int)
    requires gs.Valid() && On(tr)
    modifies gs.board
    ensures gs.board[..] == CastleRook(old(gs.board[..]), f, tf, tr)
  {
    if f == 4 && tf == 6 {
      gs.board[8 * 5 + tr] := gs.board[8 * 7 + tr];
      gs.board[8 * 7 + tr] := Empty;
    }
    if f == 4 && tf == 2 {
      gs.board[8 * 3 + tr] := gs.board[8 * 0 + tr];
      gs.board[8 * 0 + tr] := Empty;
    }
  }

  /** Clears the en-passant flags and sets those a two-square advance allows. */
  method MarkEnPassant(gs: GameState, m: Move, pawnMoved: bool)
    requires gs.Valid() && InRange(m.from, m.toFile, m.toRank) && m.from.Square?
    modifies gs.ep
    ensures gs.ep[..] == if pawnMoved && Abs(m.from.rank - m.toRank) == 2
                         then EpMarks(gs.board[..], gs.onMove, m.toFile) else seq(16, _ => 0)
  {
    for i := 0 to 8
      invariant forall j :: 0 <= j < 16 && (j < i || 8 <= j < 8 + i) ==> gs.ep[j] == 0
    {
      gs.ep[i] := 0;
      gs.ep[8 + i] := 0;
    }
    assert gs.ep[..] == seq(16, _ => 0);
    if pawnMoved && (m.from.rank == m.toRank + 2 || m.from.rank + 2 == m.toRank) {
      var row, rank, victim := 8 * gs.onMove.Toggle().Row(), if gs.onMove.White? then 3
          else 4, Man(gs.onMove.Toggle(), Pawn);
      if m.toFile < 7 && gs.board[8 * (m.toFile + 1) + rank] == victim {
        gs.ep[row + m.toFile + 1] := -1;
      }
      if m.toFile - 1 >= 0 && gs.board[8 * (m.toFile - 1) + rank] == victim {
        gs.ep[row + m.toFile - 1] := 1;
      }
    }
  }

  /** Remembers that a rook has left its corner or that a king has moved. */
  method MarkMoved(gs: GameState, moved: Piece, f: int, r: int)
    requires gs.Valid()
    modifies gs
    ensures gs.Snapshot() == old(gs.Snapshot()).(moved := MovedAfter(old(gs.Snapshot()).moved, gs.onMove, moved, f, r))
  {
    if IsRook(moved) && f == 0 {
      if r == 0 && gs.onMove.White? {
        gs.wqrmoved := true;
      } else if r == 7 && gs.onMove.Black? {
        gs.bqrmoved := true;
      }
    }
    if IsRook(moved) && f == 7 {
      if r == 0 && gs.onMove.White? {
        gs.wkrmoved := true;
      } else if r == 7 && gs.onMove.Black? {
        gs.bkrmoved := true;
      }
    }
    if IsKing(moved) {
      if gs.onMove.White? {
        gs.wkmoved := true;
      } else {
        gs.bkmoved := true;
      }
    }
  }

  method MarkIrreversible(gs: GameState, irreversible: bool, t: Table)
    requires gs.Valid()
    modifies gs`lastIrreversible
    ensures gs.Snapshot() == old(gs.Snapshot()).(
      lastIrreversible := if irreversible && t.InGame? then t.numHalfMoves else old(gs.lastIrreversible))
  {
    if irreversible && t.InGame? {
      gs.lastIrreversible := t.numHalfMoves;
    }
  }

  method PlayDrop(gs: GameState, m: Move, t: Table)
    requires gs.Valid() && InRange(m.from, m.toFile, m.toRank) && m.from.Drop? && m.from.man != King
    modifies gs`lastIrreversible, gs.board, gs.holding
    ensures gs.Snapshot() == Dropped(old(gs.Snapshot()), m, t)
  {
    var slot := HoldSlot(gs.onMove, m.from.man);
    gs.holding[slot] := gs.holding[slot] - 1;
    gs.board[8 * m.toFile + m.toRank] := Man(gs.onMove, m.from.man);
    MarkIrreversible(gs, true, t);
  }

  /** Moves the men and notes an irreversible move. */
  method StepMen(gs: GameState, m: Move, t: Table) returns (recorded: Move)
    requires gs.Valid() && InRange(m.from, m.toFile, m.toRank) && m.from.Square?
    modifies gs`lastIrreversible, gs.board
    ensures gs.Snapshot() == old(gs.Snapshot()).(
      board := BoardAfter(old(gs.board[..]), gs.onMove, m), lastIrreversible := Irreversible(old(gs.Snapshot()), m, t))
    ensures recorded == Recorded(old(gs.Snapshot()), m)
  {
    var moved, took := gs.board[8 * m.from.file + m.from.rank], gs.board[8 * m.toFile + m.toRank];
    recorded := MoveMen(gs, m);
    MarkIrreversible(gs, IsPawn(moved) || took != Empty, t);
  }

  method PlayStep(gs: GameState, m: Move, t: Table) returns (recorded: Move)
    requires gs.Valid() && InRange(m.from, m.toFile, m.toRank) && m.from.Square?
    modifies gs, gs.board, gs.ep
    ensures gs.Snapshot() == Stepped(old(gs.Snapshot()), m, t)
    ensures recorded == Recorded(old(gs.Snapshot()), m)
  {
    var moved := gs.board[8 * m.from.file + m.from.rank];
    recorded := StepMen(gs, m, t);
    MarkEnPassant(gs, m, IsPawn(moved));
    MarkMoved(gs, moved, m.from.file, m.from.rank);
  }

  method PlaceMen(gs: GameState, m: Move, t: Table) returns (recorded: Move)
    requires gs.Valid() && InRange(m.from, m.toFile, m.toRank) && (m.from.Drop? ==> m.from.man != King)
    modifies gs, gs.board, gs.holding, gs.ep
    ensures gs.Snapshot() == if m.from.Drop? then Dropped(old(gs.Snapshot()), m, t)
            else Stepped(old(gs.Snapshot()), m, t)
    ensures recorded == Recorded(old(gs.Snapshot()), m)
  {
    recorded := m;
    if m.from.Drop? {
      PlayDrop(gs, m, t);
    } else {
      recorded := PlayStep(gs, m, t);
    }
  }

  /** Everything a move changes except whose turn it is. */
  method ApplyMove(gs: GameState, m: Move, t: Table) returns (recorded: Move)
    requires gs.Valid() && InRange(m.from, m.toFile, m.toRank) && (m.from.Drop? ==> m.from.man != King)
    modifies gs, gs.board, gs.holding, gs.ep
    ensures gs.Snapshot() == Applied(old(gs.Snapshot()), m, t)
    ensures recorded == Recorded(old(gs.Snapshot()), m)
  {
    recorded := PlaceMen(gs, m, t);
    if gs.onMove.Black? {
      gs.moveNum := gs.moveNum + 1;
    }
  }

  /** Plays a move and passes the turn, without looking at the game's status. */
  method PlayMove(gs: GameState, m: Move, t: Table) returns (recorded: Move)
    requires gs.Valid() && InRange(m.from, m.toFile, m.toRank) && (m.from.Drop? ==> m.from.man != King)
    modifies gs, gs.board, gs.holding, gs.ep
    ensures gs.Snapshot() == Execute(old(gs.Snapshot()), m, t)
    ensures recorded == Recorded(old(gs.Snapshot()), m)
  {
    recorded := ApplyMove(gs, m, t);
    gs.onMove := gs.onMove.Toggle();
  }

  /** Tries the move on a copy: is the mover's king safe afterwards? */
  method LeavesKingSafe(gs: GameState, m: Move, t: Table) returns (safe: bool)
    requires gs.Valid() && InRange(m.from, m.toFile, m.toRank) && (m.from.Drop? ==> m.from.man != King)
    ensures safe == !InCheck(Execute(gs.Snapshot(), m, t))
  {
    var fake := new GameState(gs.Snapshot());
    var recorded := PlayMove(fake, m, t);
    var check := IsInCheck(fake);
    safe := !check;
  }

  method IsLegal(gs: GameState, from: Origin, tf: int, tr: int) returns (ok: bool)
    requires gs.Valid() && InRange(from, tf, tr)
    ensures ok == Legal(gs.Snapshot(), from, tf, tr)
  {
    match from
    case Square(f, r) => ok := IsLegalMove(gs, f, r, tf, tr);
    case Drop(man) => ok := LegalDrop(gs.Snapshot(), man, tf, tr);
  }

  /** Geometry first, then the mover's king. */
  method IsAcceptedMove(gs: GameState, from: Origin, tf: int, tr: int, promote: Kind, t: Table) returns (ok: bool)
    requires gs.Valid() && InRange(from, tf, tr)
    ensures ok == Accepted(gs.Snapshot(), from, tf, tr, promote, t)
  {
    ok := IsLegal(gs, from, tf, tr);
    if ok {
      ok := LeavesKingSafe(gs, MoveRecord(gs.Snapshot(), from, tf, tr, promote), t);
    }
  }

  method IsLegalAndCheckMove(gs: GameState, from: Origin, tf: int, tr: int, t: Table) returns (ok: bool)
    requires gs.Valid() && InRange(from, tf, tr)
    ensures ok == LegalAndCheck(gs.Snapshot(), from, tf, tr, t)
  {
    ok := IsAcceptedMove(gs, from, tf, tr, Queen, t);
  }
}
