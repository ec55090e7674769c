/** Taking moves back from a game that began at the standard start also restores what
    is known of whether each king has moved. */
module KingFlags {
  import opened Positions
  import opened Legality
  import opened Attacks
  import opened Targets
  import opened Interposition
  import opened Runs
  import opened Takeback

  /** The first index the scan for an earlier move of colour c looks at. */
  function ScanStart(c: Color): nat { if c.White? then 2 else 3 }

  /** Some scanned record of colour c among the first n starts on (f, r). */
  ghost predicate Departed(ms: seq<Move>, n: nat, c: Color, f: int, r: int)
    requires n <= |ms|
  {
    exists i :: ScanStart(c) <= i < n && (i - ScanStart(c)) % 2 == 0 && ms[i].from == Square(f, r)
  }

  ghost predicate LeftHome(ms: seq<Move>, n: nat, c: Color)
    requires n <= |ms|
  {
    Departed(ms, n, c, 4, c.Home())
  }

  /** What ties the flag of a king to the move list. */
  ghost predicate KingHistory(p: Position, ms: seq<Move>, c: Color) {
    && (p.KingMoved(c) <==> LeftHome(ms, |ms|, c))
    && (!p.KingMoved(c) ==> At(p.board, 4, c.Home()) == Man(c, King))
  }

  /** No man of White reaches the last two ranks from the standard start. */
  lemma {:induction false} NothingReachesFar(f: int, r: int, tf: int, tr: int)
    requires On(f) && On(r) && On(tf) && (tr == 6 || tr == 7)
    ensures !Hits(StandardStart().board, White, f, r, tf, tr)
  {
    var b := StandardStart().board;
    InitialAt(f, r);
    if Own(b, White, f, r) && Slides(At(b, f, r).kind) {
      SliderHits(b, White, f, r, tf, tr);
      var x := Go(f, Toward(f, tf), 1);
      if On(x) {
        InitialAt(x, 1);
      }
      assert Aligned(At(b, f, r).kind, f, r, tf, tr)
          ==> On(x) && Go(r, Toward(r, tr), 1) == 1 && Distance(f, r, tf, tr) > 1;
    }
  }

  /** A king walled in by its own men cannot move. */
  lemma {:induction false} WalledKingStays(p: Position, tf: int, tr: int)
    requires On(tf) && On(tr) && At(p.board, 4, p.onMove.Home()) == Man(p.onMove, King)
    requires forall f, r ::
      On(f) && On(r) && 3 <= f <= 6 && Abs(r - p.onMove.Home()) <= 1 ==> Own(p.board, p.onMove, f, r)
    requires Own(p.board, p.onMove, 2, p.onMove.Home())
    ensures !LegalMove(p, 4, p.onMove.Home(), tf, tr)
  {
    LegalIsPlainOrCastling(p, 4, p.onMove.Home(), tf, tr);
  }

  /** The king of colour c is at home, among its own men. */
  ghost predicate WalledAtHome(b: Board, c: Color) {
    && At(b, 4, c.Home()) == Man(c, King) && Own(b, c, 2, c.Home())
    && forall f, r :: On(f) && On(r) && 3 <= f <= 6 && Abs(r - c.Home()) <= 1 ==> Own(b, c, f, r)
  }

  /** A walled-in king is not the man that moves. */
  lemma {:induction false} WalledKingWaits(p: Position, ch: Choice, t: Table)
    requires WalledAtHome(p.board, p.onMove) && Allowed(p, ch, t)
    ensures ch.from != Square(4, p.onMove.Home())
  {
    if ch.from == Square(4, p.onMove.Home()) {
      WalledKingStays(p, ch.toFile, ch.toRank);
    }
  }

  /** White's men stand as at the standard start, and White is to move; flags may be any. */
  ghost predicate StartsLike(p: Position) { p.board == StandardStart().board && p.onMove.White? }

  lemma {:induction false} StartIsWalled()
    ensures WalledAtHome(StandardStart().board, White)
  {
    forall f, r | On(f) && (r == 0 || r == 1)
      ensures Own(StandardStart().board, White, f, r)
    {
      InitialAt(f, r);
    }
    StartHasKings();
  }

  /** The first move is neither castling nor an en-passant capture. */
  lemma {:induction false} FirstMoveIsSimple(p: Position, ch: Choice, t: Table)
    requires StartsLike(p) && Allowed(p, ch, t) && ch.from.Square?
    ensures !IsKing(At(p.board, ch.from.file, ch.from.rank))
    ensures !TakesEnPassant(p.board, MoveRecord(p, ch.from, ch.toFile, ch.toRank, ch.promote))
  {
    InitialKings(ch.from.file, ch.from.rank);
    StartIsWalled();
    WalledKingWaits(p, ch, t);
    InitialAt(ch.from.file, ch.from.rank);
    LegalIsPlainOrCastling(p, ch.from.file, ch.from.rank, ch.toFile, ch.toRank);
    forall f, r | On(f) && On(r)
      ensures At(p.board, f, r) == InitialMan(f, r)
    {
      InitialAt(f, r);
    }
  }

  /** White's first move does not land among Black's men. */
  lemma {:induction false} FirstMoveStaysNear(p: Position, ch: Choice, t: Table)
    requires StartsLike(p) && Allowed(p, ch, t) && ch.from.Square?
    ensures ch.toRank < 6
  {
    if ch.toRank >= 6 {
      InitialAt(ch.toFile, ch.toRank);
      CaptureIsHit(p, ch.from.file, ch.from.rank, ch.toFile, ch.toRank);
      NothingReachesFar(ch.from.file, ch.from.rank, ch.toFile, ch.toRank);
    }
  }

  lemma {:induction false} SimpleMoveElsewhere(b: Board, c: Color, m: Move, x: int, y: int)
    requires m.from.Square? && InRange(m.from, m.toFile, m.toRank) && On(x) && On(y)
    requires !IsKing(At(b, m.from.file, m.from.rank)) && !TakesEnPassant(b, m)
    requires (x, y) != (m.toFile, m.toRank) && (x, y) != (m.from.file, m.from.rank)
    ensures At(BoardAfter(b, c, m), x, y) == At(b, x, y)
  {
  }

  /** White's first move leaves Black's men where they are. */
  lemma {:induction false} FarMenUntouched(p: Position, ch: Choice, t: Table, x: int, y: int)
    requires StartsLike(p) && Allowed(p, ch, t) && ch.from.Square? && On(x) && (y == 6 || y == 7)
    ensures At(Played(p, ch, t).board, x, y) == InitialMan(x, y)
  {
    InitialAt(x, y);
    InitialAt(ch.from.file, ch.from.rank);
    FirstMoveStaysNear(p, ch, t);
    FirstMoveIsSimple(p, ch, t);
    SimpleMoveElsewhere(p.board, White, MoveRecord(p, ch.from, ch.toFile, ch.toRank, ch.promote), x, y);
  }

  /** After the first move Black's king is still walled in. */
  lemma {:induction false} BlackIsWalled(p: Position, ch: Choice, t: Table)
    requires StartsLike(p) && Allowed(p, ch, t) && ch.from.Square?
    ensures WalledAtHome(Played(p, ch, t).board, Black)
  {
    forall f, r | On(f) && (r == 6 || r == 7)
      ensures At(Played(p, ch, t).board, f, r) == InitialMan(f, r)
    {
      FarMenUntouched(p, ch, t, f, r);
    }
    InitialArrayWalls(Played(p, ch, t).board);
  }

  lemma {:induction false} InitialArrayWalls(b: Board)
    requires forall f, r :: On(f) && (r == 6 || r == 7) ==> At(b, f, r) == InitialMan(f, r)
    ensures WalledAtHome(b, Black)
  {
  }

  lemma {:induction false} LeftHomeGrows(ms: seq<Move>, m: Move, c: Color)
    ensures LeftHome(ms + [m], |ms| + 1, c)
      <==> LeftHome(ms, |ms|, c)
           || (ScanStart(c) <= |ms| && (|ms| - ScanStart(c)) % 2 == 0 && m.from == Square(4, c.Home()))
  {
    var more := ms + [m];
    forall i | 0 <= i < |ms|
      ensures more[i] == ms[i]
    {
    }
    if LeftHome(ms, |ms|, c) {
      var i :| ScanStart(c) <= i < |ms| && (i - ScanStart(c)) % 2 == 0 && ms[i].from == Square(4, c.Home());
      assert more[i].from == Square(4, c.Home());
    }
    if ScanStart(c) <= |ms| && (|ms| - ScanStart(c)) % 2 == 0 && m.from == Square(4, c.Home()) {
      assert more[|ms|].from == Square(4, c.Home());
    }
  }

  /** Another side's move does not touch a king that has not moved. */
  lemma {:induction false} OthersKeepHistory(q: Position, ms: seq<Move>, ch: Choice, t: Table)
    requires Sound(q) && Allowed(q, ch, t) && ch.from.Square? && KingHistory(q, ms, q.onMove.Toggle())
    requires q.onMove.White? <==> |ms| % 2 == 0
    ensures KingHistory(Played(q, ch, t), ms + [Noted(q, ch)], q.onMove.Toggle())
  {
    var c := q.onMove.Toggle();
    LeftHomeGrows(ms, Noted(q, ch), c);
    KingIsNotTaken(q, ch.from, ch.toFile, ch.toRank);
    SquareAfter(q, ch.from, ch.toFile, ch.toRank, ch.promote, 4, c.Home());
  }

  /** The side's own move: the flag is set just when its king leaves home. */
  lemma {:induction false} OwnKeepsHistory(q: Position, ms: seq<Move>, ch: Choice, t: Table)
    requires Sound(q) && Allowed(q, ch, t) && ch.from.Square? && KingHistory(q, ms, q.onMove)
    requires q.onMove.White? <==> |ms| % 2 == 0
    requires ch.from == Square(4, q.onMove.Home()) ==> |ms| >= ScanStart(q.onMove)
    ensures KingHistory(Played(q, ch, t), ms + [Noted(q, ch)], q.onMove)
  {
    var c := q.onMove;
    var leaves, home := IsKing(At(q.board, ch.from.file, ch.from.rank)), Square(4, c.Home());
    assert Played(q, ch, t).KingMoved(c) <==> q.KingMoved(c) || leaves by { PlayedKingFlags(q, ch, t, c); }
    assert LeftHome(ms + [Noted(q, ch)], |ms| + 1, c) <==> LeftHome(ms, |ms|, c) || ch.from == home by {
      LeftHomeGrows(ms, Noted(q, ch), c);
    }
    assert !q.KingMoved(c) ==> (leaves <==> ch.from == home) by {
      if !q.KingMoved(c) {
        KingIsAtHome(q, ch);
      }
    }
    assert !q.KingMoved(c) && ch.from != home ==> At(Played(q, ch, t).board, 4, c.Home()) == Man(c, King) by {
      if !q.KingMoved(c) && ch.from != home {
        KingStaysHome(q, ch, t);
      }
    }
  }

  /** When the king is at home, it is the man that moves just when a man moves from there. */
  lemma {:induction false} KingIsAtHome(q: Position, ch: Choice)
    requires HasOneKing(q.board, q.onMove) && At(q.board, 4, q.onMove.Home()) == Man(q.onMove, King)
    requires Fits(ch) && ch.from.Square? && Own(q.board, q.onMove, ch.from.file, ch.from.rank)
    ensures IsKing(At(q.board, ch.from.file, ch.from.rank)) <==> ch.from == Square(4, q.onMove.Home())
  {
    var kf, kr :| OneKing(q.board, q.onMove, kf, kr);
  }

  lemma {:induction false} KingStaysHome(q: Position, ch: Choice, t: Table)
    requires Allowed(q, ch, t) && ch.from.Square? && ch.from != Square(4, q.onMove.Home())
    requires At(q.board, 4, q.onMove.Home()) == Man(q.onMove, King)
    ensures At(Played(q, ch, t).board, 4, q.onMove.Home()) == Man(q.onMove, King)
  {
    SquareAfter(q, ch.from, ch.toFile, ch.toRank, ch.promote, 4, q.onMove.Home());
  }

  /** A start from which neither king can be the first man of its side to move, whatever the
      other flags are when the game has come back to it. */
  ghost predicate Opening(p0: Position) {
    && Sound(p0) && p0.onMove.White? && !p0.KingMoved(White) && !p0.KingMoved(Black)
    && WalledAtHome(p0.board, White) && At(p0.board, 4, 7) == Man(Black, King)
    && forall p: Position, ch: Choice, t: Table ::
         p.board == p0.board && p.onMove.White? && ch.from.Square? && Allowed(p, ch, t)
         ==> WalledAtHome(Played(p, ch, t).board, Black)
  }

  /** The standard start is one. */
  lemma {:induction false} StandardOpening()
    ensures Opening(StandardStart())
  {
    var p0 := StandardStart();
    StartIsSound();
    StartHasKings();
    StartIsWalled();
    forall p: Position, ch: Choice, t: Table | p.board == p0.board && p.onMove.White? && ch.from.Square?
        && Allowed(p, ch, t)
      ensures WalledAtHome(Played(p, ch, t).board, Black)
    {
      BlackIsWalled(p, ch, t);
    }
  }

  lemma {:induction false} NoHistory(p0: Position, c: Color)
    requires Opening(p0)
    ensures KingHistory(p0, [], c)
  {
  }

  lemma {:induction false} HistoryStep(q: Position, ms: seq<Move>, ch: Choice, t: Table, c: Color)
    requires Sound(q) && Allowed(q, ch, t) && ch.from.Square? && KingHistory(q, ms, c)
    requires q.onMove.White? <==> |ms| % 2 == 0
    requires ch.from == Square(4, q.onMove.Home()) ==> |ms| >= 2
    ensures KingHistory(Played(q, ch, t), ms + [Noted(q, ch)], c)
  {
    if c == q.onMove {
      OwnKeepsHistory(q, ms, ch, t);
    } else {
      OthersKeepHistory(q, ms, ch, t);
    }
  }

  /** A king takes two files in one move only when it has not moved, and one that is not
      at home has moved. */
  lemma {:induction false} KingMoveFacts(q: Position, ms: seq<Move>, f: int, r: int, tf: int, tr: int)
    requires Sound(q) && KingHistory(q, ms, q.onMove) && On(f) && On(r) && On(tf) && On(tr)
    requires At(q.board, f, r) == Man(q.onMove, King) && LegalMove(q, f, r, tf, tr)
    ensures Abs(tf - f) == 2 ==> !q.KingMoved(q.onMove)
    ensures (f, r) != (4, q.onMove.Home()) ==> q.KingMoved(q.onMove)
  {
    LegalIsPlainOrCastling(q, f, r, tf, tr);
    assert HasOneKing(q.board, q.onMove);
    var kf, kr :| OneKing(q.board, q.onMove, kf, kr);
    if Castling(q, f, r, tf, tr) {
      var side := if tf == 6 then KingSide else QueenSide;
      assert Castles(q, side);
    }
  }

  /** What the undo of a record does to the flags of the two kings. */
  lemma {:induction false} UndoKingFlags(p: Position, ms: seq<Move>, n: nat, c: Color)
    requires 0 < n <= |ms| && ms[n - 1].from.Square? && InRange(ms[n - 1].from, ms[n - 1].toFile, ms[n - 1].toRank)
    ensures var m := ms[n - 1];
            var f, r := m.from.file, m.from.rank;
            Undo(p, ms, n).KingMoved(c) <==>
              p.KingMoved(c) && !(c == m.color && IsKing(At(UndoBoard(p.board, m), f, r))
                                  && (Abs(m.toFile - f) == 2
                                      || (f == 4 && r == c.Home() && FirstFrom(ms, n, ScanStart(c), 4, r))))
  {
  }

  /** What the scan comes to. */
  lemma {:induction false} FirstFromMeans(ms: seq<Move>, n: nat, i: nat, f: int, r: int)
    requires 0 < n <= |ms|
    ensures FirstFrom(ms, n, i, f, r)
      <==> i < n && (n - 1 - i) % 2 == 0
           && forall j :: i <= j < n - 1 && (j - i) % 2 == 0 ==> ms[j].from != Square(f, r)
    decreases n - i
  {
    if i < n - 1 {
      FirstFromMeans(ms, n, i + 2, f, r);
      var every := forall j :: i <= j < n - 1 && (j - i) % 2 == 0 ==> ms[j].from != Square(f, r);
      if every {
        assert forall j :: i + 2 <= j < n - 1 && (j - (i + 2)) % 2 == 0 ==> ms[j].from != Square(f, r);
      }
    }
  }

  /** Behind the records recs, the undo takes a move of c's man for its first one when the scan for
      (f, r) ends on the record itself, and no record it looks at starts there. */
  ghost predicate SeemsFirst(recs: seq<Move>, c: Color, f: int, r: int) {
    && ScanStart(c) <= |recs| && (|recs| - ScanStart(c)) % 2 == 0
    && !Departed(recs, |recs|, c, f, r)
  }

  /** A move behind the records recs leaves enough to give the mover's king its flag back: where
      the king itself moves, by two files or from home as if for the first time, exactly when it
      has not moved before. */
  ghost predicate Recoverable(q: Position, recs: seq<Move>, f: int, r: int, tf: int)
    requires On(f) && On(r)
  {
    var c := q.onMove;
    IsKing(At(q.board, f, r)) ==>
      (Abs(tf - f) == 2 || (f == 4 && r == c.Home() && SeemsFirst(recs, c, 4, r)) <==> !q.KingMoved(c))
  }

  function CornerSide(f: int): Side { if f == 0 then QueenSide else KingSide }

  /** The same for a rook that leaves its corner; the scan looks for White's corner in any case. */
  ghost predicate RookRecoverable(q: Position, recs: seq<Move>, f: int, r: int)
    requires On(f) && On(r)
  {
    var c := q.onMove;
    IsRook(At(q.board, f, r)) && r == c.Home() && (f == 0 || f == 7) ==>
      (SeemsFirst(recs, c, f, 0) <==> !RookMoved(q, c, CornerSide(f)))
  }

  lemma {:induction false} ScanMeans(ms: seq<Move>, n: nat, c: Color, f: int, r: int)
    requires n < |ms|
    ensures FirstFrom(ms, n + 1, ScanStart(c), f, r) <==> SeemsFirst(ms[..n], c, f, r)
  {
    var recs := ms[..n];
    forall i | 0 <= i < n
      ensures ms[i] == recs[i]
    {
    }
    FirstFromMeans(ms, n + 1, ScanStart(c), f, r);
  }

  /** Undoing a move restores both kings' flags exactly when the move is recoverable. */
  lemma {:induction false} UndoBothKings(p: Position, q: Position, ms: seq<Move>, n: nat)
    requires n < |ms| && Undoable(ms[n]) && ms[n].color == q.onMove && UndoBoard(p.board, ms[n]) == q.board
    requires p.KingMoved(q.onMove) <==> q.KingMoved(q.onMove) || IsKing(At(q.board, ms[n].from.file, ms[n].from.rank))
    requires p.KingMoved(q.onMove.Toggle()) <==> q.KingMoved(q.onMove.Toggle())
    ensures var m := ms[n];
      SameKings(Undo(p, ms, n + 1), q) <==> Recoverable(q, ms[..n], m.from.file, m.from.rank, m.toFile)
  {
    ScanMeans(ms, n, q.onMove, 4, q.onMove.Home());
    UndoKingFlags(p, ms, n + 1, q.onMove);
    UndoTheirKing(p, ms, n + 1, q.onMove.Toggle());
  }

  lemma {:induction false} UndoKingRights(v: MovedFlags, q: Position, ms: seq<Move>, n: nat)
    requires n < |ms| && Undoable(ms[n]) && ms[n].color == q.onMove
    requires var m := ms[n]; var man := At(q.board, m.from.file, m.from.rank);
      && IsKing(man) && v == MovedAfter(q.moved, q.onMove, man, m.from.file, m.from.rank)
      && (m.toFile - m.from.file == 2 ==> !RookMoved(q, q.onMove, KingSide))
      && (m.toFile - m.from.file == -2 ==> !RookMoved(q, q.onMove, QueenSide))
    ensures var m := ms[n];
      KingBack(v, ms, n + 1) == q.moved <==> Recoverable(q, ms[..n], m.from.file, m.from.rank, m.toFile)
  {
    ScanMeans(ms, n, q.onMove, 4, q.onMove.Home());
  }

  lemma {:induction false} UndoRookRights(v: MovedFlags, q: Position, ms: seq<Move>, n: nat)
    requires n < |ms| && Undoable(ms[n]) && ms[n].color == q.onMove
    requires var m := ms[n]; var man := At(q.board, m.from.file, m.from.rank);
      IsRook(man) && v == MovedAfter(q.moved, q.onMove, man, m.from.file, m.from.rank)
    ensures var m := ms[n];
      RookBack(v, ms, n + 1) == q.moved <==> RookRecoverable(q, ms[..n], m.from.file, m.from.rank)
  {
    ScanMeans(ms, n, q.onMove, 0, 0);
    ScanMeans(ms, n, q.onMove, 7, 0);
  }

  /** All six flags come back exactly when the move is recoverable for king and rook. */
  lemma {:induction false} UndoRights(p: Position, q: Position, ms: seq<Move>, n: nat)
    requires n < |ms| && Undoable(ms[n]) && ms[n].color == q.onMove && UndoBoard(p.board, ms[n]) == q.board
    requires var m := ms[n]; var man := At(q.board, m.from.file, m.from.rank);
      && p.moved == MovedAfter(q.moved, q.onMove, man, m.from.file, m.from.rank)
      && (IsKing(man) ==>
            && (m.toFile - m.from.file == 2 ==> !RookMoved(q, q.onMove, KingSide))
            && (m.toFile - m.from.file == -2 ==> !RookMoved(q, q.onMove, QueenSide)))
    ensures var m := ms[n];
      Undo(p, ms, n + 1).moved == q.moved
      <==> Recoverable(q, ms[..n], m.from.file, m.from.rank, m.toFile)
           && RookRecoverable(q, ms[..n], m.from.file, m.from.rank)
  {
    var man := At(q.board, ms[n].from.file, ms[n].from.rank);
    if IsKing(man) {
      UndoKingRights(p.moved, q, ms, n);
    } else if IsRook(man) {
      UndoRookRights(p.moved, q, ms, n);
    }
  }

  /** Where flag and list agree, every legal move is recoverable but a king's from home as the
      first of its side. */
  lemma {:induction false} HistoryRecovers(q: Position, recs: seq<Move>, f: int, r: int, tf: int, tr: int)
    requires Sound(q) && KingHistory(q, recs, q.onMove) && (q.onMove.White? <==> |recs| % 2 == 0)
    requires On(f) && On(r) && On(tf) && On(tr)
    requires Own(q.board, q.onMove, f, r) && LegalMove(q, f, r, tf, tr)
    requires (f, r) == (4, q.onMove.Home()) ==> |recs| >= 2
    ensures Recoverable(q, recs, f, r, tf)
  {
    if IsKing(At(q.board, f, r)) {
      KingMoveFacts(q, recs, f, r, tf, tr);
    }
  }

  lemma {:induction false} PlayedKingFlags(q: Position, ch: Choice, t: Table, c: Color)
    requires Fits(ch) && ch.from.Square?
    ensures Played(q, ch, t).KingMoved(c)
            <==> q.KingMoved(c) || (c == q.onMove && IsKing(At(q.board, ch.from.file, ch.from.rank)))
  {
  }

  /** Castling takes a rook that has not moved. */
  lemma {:induction false} CastlingIsFresh(q: Position, f: int, r: int, tf: int, tr: int)
    requires On(f) && On(r) && On(tf) && On(tr) && LegalMove(q, f, r, tf, tr)
    ensures IsKing(At(q.board, f, r)) && tf - f == 2 ==> !RookMoved(q, q.onMove, KingSide)
    ensures IsKing(At(q.board, f, r)) && tf - f == -2 ==> !RookMoved(q, q.onMove, QueenSide)
  {
    LegalIsPlainOrCastling(q, f, r, tf, tr);
    if Castling(q, f, r, tf, tr) {
      var side := if tf == 6 then KingSide else QueenSide;
      assert Castles(q, side);
    }
  }

  /** What undoing a move relies on. */
  lemma {:induction false} StepFacts(p: Position, q: Position, ms: seq<Move>, n: nat, ch: Choice, next: Position)
    requires Follows(q, ch, n, next) && n < |ms| && ms[n] == Noted(q, ch) && SameMen(p, next) && SameKings(p, next)
    ensures Undoable(ms[n]) && ms[n].color == q.onMove && ms[n].from == ch.from && UndoBoard(p.board, ms[n]) == q.board
    ensures var m := ms[n]; LegalMove(q, m.from.file, m.from.rank, m.toFile, m.toRank)
    ensures p.KingMoved(q.onMove) <==> q.KingMoved(q.onMove) || IsKing(At(q.board, ms[n].from.file, ms[n].from.rank))
    ensures p.KingMoved(q.onMove.Toggle()) <==> q.KingMoved(q.onMove.Toggle())
  {
    UndoBoardReverses(q, ch.from, ch.toFile, ch.toRank, ch.promote);
    PlayedKingFlags(q, ch, Seat(n, false), q.onMove);
    PlayedKingFlags(q, ch, Seat(n, false), q.onMove.Toggle());
  }

  lemma {:induction false} UndoTheirKing(p: Position, ms: seq<Move>, n: nat, c: Color)
    requires 0 < n <= |ms| && Undoable(ms[n - 1]) && ms[n - 1].color != c
    ensures Undo(p, ms, n).KingMoved(c) == p.KingMoved(c)
  {
    UndoKingFlags(p, ms, n, c);
  }
}
