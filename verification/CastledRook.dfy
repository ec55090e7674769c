/** A game from the standard start in which a rook that has castled is handed over as a pawn:
    1. e3 b6 2. Nf3 Nf6 3. P@b7 Ng4 4. bxc8=Q Nxh2 5. Qa6 Nxf1 6. Qxf1 h6 7. Qe2 h5 8. O-O N@g3
    9. a3 Nxf1. */
module CastledRook {
  import opened Positions
  import opened Legality
  import opened Attacks
  import opened Targets
  import opened Interposition
  import opened Shelter
  import opened Runs
  import opened Bughouse
  import opened Reversion

  /** What happens, the partner's captures included. */
  function Ply(i: int): Event {
    match i
    case 0 => Play(Choice(Square(4, 1), 4, 2, Queen))
    case 1 => Play(Choice(Square(1, 6), 1, 5, Queen))
    case 2 => Play(Choice(Square(6, 0), 5, 2, Queen))
    case 3 => Play(Choice(Square(6, 7), 5, 5, Queen))
    case 4 => Receive(White, Pawn)
    case 5 => Play(Choice(Drop(Pawn), 1, 6, Queen))
    case 6 => Play(Choice(Square(5, 5), 6, 3, Queen))
    case 7 => Play(Choice(Square(1, 6), 2, 7, Queen))
    case 8 => Play(Choice(Square(6, 3), 7, 1, Queen))
    case 9 => Play(Choice(Square(2, 7), 0, 5, Queen))
    case 10 => Play(Choice(Square(7, 1), 5, 0, Queen))
    case 11 => Play(Choice(Square(0, 5), 5, 0, Queen))
    case 12 => Play(Choice(Square(7, 6), 7, 5, Queen))
    case 13 => Play(Choice(Square(5, 0), 4, 1, Queen))
    case 14 => Play(Choice(Square(7, 5), 7, 4, Queen))
    case 15 => Play(Choice(Square(4, 0), 6, 0, Queen))
    case 16 => Receive(Black, Knight)
    case 17 => Play(Choice(Drop(Knight), 6, 2, Queen))
    case _ => Play(Choice(Square(0, 1), 0, 2, Queen))
  }

  const LENGTH := 19

  function Mover(i: int): Color {
    if i < 5 then (if i % 2 == 0 then White else Black)
    else if i < 16 then (if i % 2 == 1 then White else Black)
    else if i == 18 then White else Black
  }

  /** The men after i events. */
  function Men(i: int, f: int, r: int): Piece
    requires On(f) && On(r)
  {
    var w, b := (k: Kind) => Man(White, k), (k: Kind) => Man(Black, k);
    match (f, r)
    case (4, 1) => if i < 1 then w(Pawn) else if i < 14 then Empty else w(Queen)
    case (4, 2) => if i < 1 then Empty else w(Pawn)
    case (1, 6) => if i < 2 then b(Pawn) else if 6 <= i < 8 then w(Pawn) else Empty
    case (1, 5) => if i < 2 then Empty else b(Pawn)
    case (6, 0) => if i < 3 then w(Knight) else if i < 16 then Empty else w(King)
    case (5, 2) => if i < 3 then Empty else w(Knight)
    case (6, 7) => if i < 4 then b(Knight) else Empty
    case (5, 5) => if 4 <= i < 7 then b(Knight) else Empty
    case (6, 3) => if 7 <= i < 9 then b(Knight) else Empty
    case (2, 7) => if i < 8 then b(Bishop) else if i < 10 then w(Queen) else Empty
    case (7, 1) => if i < 9 then w(Pawn) else if i < 11 then b(Knight) else Empty
    case (0, 5) => if 10 <= i < 12 then w(Queen) else Empty
    case (5, 0) =>
      if i < 11 then w(Bishop) else if i < 12 then b(Knight) else if i < 14 then w(Queen)
      else if i < 16 then Empty else w(Rook)
    case (7, 6) => if i < 13 then b(Pawn) else Empty
    case (7, 5) => if 13 <= i < 15 then b(Pawn) else Empty
    case (7, 4) => if i < 15 then Empty else b(Pawn)
    case (4, 0) => if i < 16 then w(King) else Empty
    case (7, 0) => if i < 16 then w(Rook) else Empty
    case (6, 2) => if i < 18 then Empty else b(Knight)
    case (0, 1) => if i < 19 then w(Pawn) else Empty
    case (0, 2) => if i < 19 then Empty else w(Pawn)
    case _ => InitialMan(f, r)
  }

  ghost predicate Shows(b: Board, i: int) {
    forall f, r :: 0 <= f < 8 && 0 <= r < 8 ==> At(b, f, r) == Men(i, f, r)
  }

  /** What one event does to a square. */
  lemma {:induction false} MenChange(i: int, f: int, r: int)
    requires 0 <= i < LENGTH && On(f) && On(r)
    ensures match Ply(i)
      case Receive(_, _) => Men(i + 1, f, r) == Men(i, f, r)
      case Play(ch) =>
        Men(i + 1, f, r) ==
          if (f, r) == (ch.toFile, ch.toRank) then
            (match ch.from
             case Drop(man) => Man(Mover(i), man)
             case Square(x, y) => if i == 7 then Man(White, Queen) else Men(i, x, y))
          else if ch.from == Square(f, r) || (i == 15 && (f, r) == (7, 0)) then Empty
          else if i == 15 && (f, r) == (5, 0) then Man(White, Rook)
          else Men(i, f, r)
  {
  }

  lemma {:induction false} Kings(b: Board, i: int)
    requires Shows(b, i)
    ensures OneKing(b, White, if i < 16 then 4 else 6, 0) && OneKing(b, Black, 4, 7)
  {
  }

  lemma {:induction false} BlackIsSheltered(b: Board, i: int)
    requires Shows(b, i) && 0 <= i <= LENGTH
    ensures Sheltered(b, Black, 4, 7)
  {
    Kings(b, i);
    forall dx, dy | Direction(dx, dy)
      ensures Guarded(b, Black, 4, 7, dx, dy)
    {
      assert GuardedAt(b, Black, 4, 7, dx, dy, 1);
    }
  }

  lemma {:induction false} WhiteIsSheltered(b: Board, i: int)
    requires Shows(b, i) && 0 <= i <= LENGTH
    ensures Sheltered(b, White, if i < 16 then 4 else 6, 0)
  {
    Kings(b, i);
    var kf := if i < 16 then 4 else 6;
    forall dx, dy | Direction(dx, dy)
      ensures Guarded(b, White, kf, 0, dx, dy)
    {
      WhiteIsGuarded(b, i, dx, dy);
    }
  }

  lemma {:induction false} WhiteIsGuarded(b: Board, i: int, dx: int, dy: int)
    requires Shows(b, i) && 0 <= i <= LENGTH && Direction(dx, dy)
    ensures Guarded(b, White, if i < 16 then 4 else 6, 0, dx, dy)
  {
    var kf := if i < 16 then 4 else 6;
    var n :=
      if (dx, dy) == (0, 1) && 1 <= i < 14 then 2
      else if (dx, dy) == (1, 0) && 14 <= i < 16 then 3
      else if i >= 16 && dx == 1 && dy >= 0 then 2
      else 1;
    assert GuardedAt(b, White, kf, 0, dx, dy, n);
  }

  /** The position has come to where i events lead, with White's right to castle as long as it
      is there and something in hand. */
  ghost predicate Reached(p: Position, i: int) {
    && Shows(p.board, i) && p.onMove == Mover(i)
    && (i < 16 ==> !p.moved.wkmoved && !p.moved.wkrmoved)
    && p.holding[HoldSlot(White, Pawn)] >= (if i == 5 then 1 else 0)
    && p.holding[HoldSlot(Black, Knight)] >= (if i == 17 then 1 else 0)
  }

  lemma {:induction false} PliesFit(i: int)
    requires 0 <= i < LENGTH
    ensures EventFits(Ply(i))
  {
  }

  /** The move that is played as the i-th event. */
  function Choosing(i: int): (ch: Choice)
    requires 0 <= i < LENGTH && Ply(i).Play?
    ensures Fits(ch)
  {
    PliesFit(i);
    Ply(i).choice
  }

  /** That move as a step. */
  function StepNo(i: int): Step
    requires 0 <= i < LENGTH && Ply(i).Play?
  {
    var ch := Choosing(i);
    Motion(Mover(i), ch.from, ch.toFile, ch.toRank, i == 7, i == 15)
  }

  lemma {:induction false} StepIsNo(p: Position, i: int)
    requires 0 <= i < LENGTH && Ply(i).Play? && Reached(p, i)
    ensures StepOf(p, Choosing(i)) == StepNo(i)
  {
    var ch := Choosing(i);
    if ch.from.Square? {
      assert At(p.board, ch.from.file, ch.from.rank) == Men(i, ch.from.file, ch.from.rank);
    }
  }

  /** Knights and pawns. */
  lemma {:induction false} ShortMoves(p: Position, i: int)
    requires i in {0, 1, 2, 3, 6, 7, 8, 10, 12, 14, 18} && Reached(p, i)
    ensures var ch := Choosing(i); LegalMove(p, ch.from.file, ch.from.rank, ch.toFile, ch.toRank)
  {
    var ch := Choosing(i);
    assert At(p.board, ch.from.file, ch.from.rank) == Men(i, ch.from.file, ch.from.rank);
    assert At(p.board, ch.toFile, ch.toRank) == Men(i, ch.toFile, ch.toRank);
  }

  /** The queen goes from c8 to a6, to f1, to e2. */
  lemma {:induction false} QueenMoves(p: Position, i: int)
    requires i in {9, 11, 13} && Reached(p, i)
    ensures var ch := Choosing(i); LegalMove(p, ch.from.file, ch.from.rank, ch.toFile, ch.toRank)
  {
    var ch := Choosing(i);
    var f, r, tf, tr := ch.from.file, ch.from.rank, ch.toFile, ch.toRank;
    assert At(p.board, f, r) == Men(i, f, r) && At(p.board, tf, tr) == Men(i, tf, tr);
    forall k | 0 < k < Abs(f - tf)
      ensures At(p.board, Go(f, Toward(f, tf), k), Go(r, Toward(r, tr), k)) == Empty
    {
      assert On(Go(f, Toward(f, tf), k)) && On(Go(r, Toward(r, tr), k));
    }
  }

  lemma {:induction false} Drops(p: Position, i: int)
    requires i in {5, 17} && Reached(p, i)
    ensures var ch := Choosing(i); LegalDrop(p, ch.from.man, ch.toFile, ch.toRank)
  {
    var ch := Choosing(i);
    assert At(p.board, ch.toFile, ch.toRank) == Men(i, ch.toFile, ch.toRank);
  }

  /** Neither on its way nor at home is the king attacked. */
  lemma {:induction false} NoAttackOn(p: Position, x: int)
    requires Reached(p, 15) && 4 <= x <= 5
    ensures !SquareAttacked(p, x, 0)
  {
    var q := KingLifted(p, x, 0);
    forall f, r | 0 <= f < 8 && 0 <= r < 8
      ensures At(q.board, f, r)
           == if (f, r) == (x, 0) then Man(White, King) else if (f, r) == (4, 0) then Empty else Men(15, f, r)
    {
      assert At(p.board, f, r) == Men(15, f, r);
    }
    LiftedIsSheltered(q.board, x);
    ShelterHolds(q.board, White, x, 0);
    CheckIsHit(q);
  }

  lemma {:induction false} LiftedIsGuarded(b: Board, x: int, dx: int, dy: int)
    requires 4 <= x <= 5 && Direction(dx, dy)
    requires forall f, r :: 0 <= f < 8 && 0 <= r < 8 ==>
      At(b, f, r) == if (f, r) == (x, 0) then Man(White, King) else if (f, r) == (4, 0) then Empty else Men(15, f, r)
    ensures Guarded(b, White, x, 0, dx, dy)
  {
    var n := if dy != 0 then 1 else if dx == -1 then x - 3 else 7 - x;
    assert GuardedAt(b, White, x, 0, dx, dy, n);
  }

  lemma {:induction false} LiftedIsSheltered(b: Board, x: int)
    requires 4 <= x <= 5
    requires forall f, r :: 0 <= f < 8 && 0 <= r < 8 ==>
      At(b, f, r) == if (f, r) == (x, 0) then Man(White, King) else if (f, r) == (4, 0) then Empty else Men(15, f, r)
    ensures Sheltered(b, White, x, 0)
  {
    forall dx, dy | Direction(dx, dy)
      ensures Guarded(b, White, x, 0, dx, dy)
    {
      LiftedIsGuarded(b, x, dx, dy);
    }
    assert OneKing(b, White, x, 0);
  }

  lemma {:induction false} MayCastle(p: Position)
    requires Reached(p, 15)
    ensures LegalMove(p, 4, 0, 6, 0)
  {
    NoAttackOn(p, 4);
    NoAttackOn(p, 5);
    assert At(p.board, 4, 0) == Men(15, 4, 0) && At(p.board, 5, 0) == Men(15, 5, 0);
    assert At(p.board, 6, 0) == Men(15, 6, 0) && At(p.board, 7, 0) == Men(15, 7, 0);
    assert Castles(p, KingSide);
    LegalIsPlainOrCastling(p, 4, 0, 6, 0);
  }

  lemma {:induction false} PlyIsLegal(p: Position, i: int)
    requires 0 <= i < LENGTH && Ply(i).Play? && Reached(p, i)
    ensures var ch := Choosing(i); Legal(p, ch.from, ch.toFile, ch.toRank)
  {
    if i == 15 {
      MayCastle(p);
    } else if i in {9, 11, 13} {
      QueenMoves(p, i);
    } else if i in {5, 17} {
      Drops(p, i);
    } else {
      ShortMoves(p, i);
    }
  }

  lemma {:induction false} PlainPly(i: int)
    requires 0 <= i < LENGTH && Ply(i).Play? && i !in {5, 15, 17}
    ensures var ch := Choosing(i); var from := ch.from;
      && from.Square? && from != Square(ch.toFile, ch.toRank)
      && var q := Men(i, from.file, from.rank);
         && q.Man? && q.color == Mover(i) && q.kind != King
         && (q.kind == Pawn && from.file != ch.toFile ==> Men(i, ch.toFile, ch.toRank) != Empty)
         && (q.kind == Pawn && (ch.toRank == 0 || ch.toRank == 7) <==> i == 7)
  {
  }

  lemma {:induction false} PlainArrives(p: Position, i: int, f: int, r: int)
    requires 0 <= i < LENGTH && Ply(i).Play? && i !in {5, 15, 17} && Reached(p, i) && On(f) && On(r)
    ensures var ch := Choosing(i);
      At(BoardAfter(p.board, p.onMove, MoveRecord(p, ch.from, ch.toFile, ch.toRank, Queen)), f, r) == Men(i + 1, f, r)
  {
    var ch := Choosing(i);
    var m := MoveRecord(p, ch.from, ch.toFile, ch.toRank, Queen);
    MenChange(i, f, r);
    PlainPly(i);
    assert At(p.board, f, r) == Men(i, f, r) && At(p.board, ch.toFile, ch.toRank) == Men(i, ch.toFile, ch.toRank);
    assert At(p.board, ch.from.file, ch.from.rank) == Men(i, ch.from.file, ch.from.rank);
    PlainAt(p.board, p.onMove, m, f, r);
  }

  lemma {:induction false} CastlingArrives(p: Position, f: int, r: int)
    requires Reached(p, 15) && On(f) && On(r)
    ensures At(BoardAfter(p.board, p.onMove, MoveRecord(p, Square(4, 0), 6, 0, Queen)), f, r) == Men(16, f, r)
  {
    MenChange(15, f, r);
    assert At(p.board, f, r) == Men(15, f, r) && At(p.board, 7, 0) == Men(15, 7, 0)
        && At(p.board, 4, 0) == Men(15, 4, 0);
  }

  lemma {:induction false} DropPly(i: int)
    requires i in {5, 17}
    ensures var ch := Choosing(i); ch.from.Drop? && ch.from == if i == 5 then Drop(Pawn) else Drop(Knight)
  {
  }

  lemma {:induction false} DropArrives(p: Position, i: int, f: int, r: int)
    requires i in {5, 17} && Reached(p, i) && On(f) && On(r)
    ensures var ch := Choosing(i);
      At(BoardAfter(p.board, p.onMove, MoveRecord(p, ch.from, ch.toFile, ch.toRank, Queen)), f, r) == Men(i + 1, f, r)
  {
    DropPly(i);
    MenChange(i, f, r);
    assert At(p.board, f, r) == Men(i, f, r);
  }

  /** The board after the i-th event, if it is a move. */
  lemma {:induction false} PlyShows(p: Position, i: int)
    requires 0 <= i < LENGTH && Ply(i).Play? && Reached(p, i)
    ensures var ch := Choosing(i);
      Shows(BoardAfter(p.board, p.onMove, MoveRecord(p, ch.from, ch.toFile, ch.toRank, Queen)), i + 1)
  {
    var ch := Choosing(i);
    var after := BoardAfter(p.board, p.onMove, MoveRecord(p, ch.from, ch.toFile, ch.toRank, Queen));
    forall f, r | 0 <= f < 8 && 0 <= r < 8
      ensures At(after, f, r) == Men(i + 1, f, r)
    {
      if i == 15 {
        CastlingArrives(p, f, r);
      } else if i in {5, 17} {
        DropArrives(p, i, f, r);
      } else {
        PlainArrives(p, i, f, r);
      }
    }
  }

  /** Neither king is ever in check. */
  lemma {:induction false} NoChecks(b: Board, i: int, c: Color)
    requires Shows(b, i) && 0 <= i <= LENGTH
    ensures !KingHit(b, c)
  {
    if c.White? {
      WhiteIsSheltered(b, i);
      ShelterHolds(b, White, if i < 16 then 4 else 6, 0);
    } else {
      BlackIsSheltered(b, i);
      ShelterHolds(b, Black, 4, 7);
    }
  }

  lemma {:induction false} PlyIsAllowed(p: Position, i: int, t: Table)
    requires 0 <= i < LENGTH && Ply(i).Play? && Reached(p, i)
    ensures Allowed(p, Choosing(i), t) && Shows(Played(p, Choosing(i), t).board, i + 1)
  {
    PlyIsLegal(p, i);
    PlyIsSafe(p, i);
    SafeIsAllowed(p, Choosing(i), t);
  }

  lemma {:induction false} PlyIsSafe(p: Position, i: int)
    requires 0 <= i < LENGTH && Ply(i).Play? && Reached(p, i)
    ensures var ch := Choosing(i);
      var after := BoardAfter(p.board, p.onMove, MoveRecord(p, ch.from, ch.toFile, ch.toRank, ch.promote));
      Shows(after, i + 1) && !KingHit(after, p.onMove)
  {
    var ch := Choosing(i);
    assert ch.promote == Queen;
    PlyShows(p, i);
    NoChecks(BoardAfter(p.board, p.onMove, MoveRecord(p, ch.from, ch.toFile, ch.toRank, Queen)), i + 1, p.onMove);
  }

  lemma {:induction false} SafeIsAllowed(p: Position, ch: Choice, t: Table)
    requires Fits(ch) && Legal(p, ch.from, ch.toFile, ch.toRank)
    requires !KingHit(BoardAfter(p.board, p.onMove, MoveRecord(p, ch.from, ch.toFile, ch.toRank, ch.promote)), p.onMove)
    ensures Allowed(p, ch, t)
    ensures Played(p, ch, t).board
         == BoardAfter(p.board, p.onMove, MoveRecord(p, ch.from, ch.toFile, ch.toRank, ch.promote))
  {
    AcceptedIsSafe(p, ch.from, ch.toFile, ch.toRank, ch.promote, t);
  }

  /** What a move changes besides the board. */
  lemma {:induction false} PlayedRest(p: Position, ch: Choice, t: Table)
    requires Fits(ch)
    ensures var q := Played(p, ch, t);
      && q.onMove == p.onMove.Toggle()
      && match ch.from
         case Drop(man) => q.moved == p.moved
           && q.holding == p.holding[HoldSlot(p.onMove, man) := p.holding[HoldSlot(p.onMove, man)] - 1]
         case Square(f, r) =>
           q.holding == p.holding && q.moved == MovedAfter(p.moved, p.onMove, At(p.board, f, r), f, r)
  {
  }

  lemma {:induction false} TurnsGoOn(i: int)
    requires 0 <= i < LENGTH && Ply(i).Play?
    ensures Mover(i + 1) == Mover(i).Toggle()
  {
  }

  /** White's king and rook stay until the king castles. */
  lemma {:induction false} PlyKeepsFlags(p: Position, i: int, t: Table)
    requires 0 <= i < LENGTH && Ply(i).Play? && Reached(p, i)
    ensures var q := Played(p, Choosing(i), t); i + 1 < 16 ==> !q.moved.wkmoved && !q.moved.wkrmoved
  {
    var ch := Choosing(i);
    PlayedRest(p, ch, t);
    if ch.from.Square? && i < 15 {
      assert At(p.board, ch.from.file, ch.from.rank) == Men(i, ch.from.file, ch.from.rank);
      NobodyLeavesHome(i);
    }
  }

  lemma {:induction false} NobodyLeavesHome(i: int)
    requires 0 <= i < 15 && Ply(i).Play? && Choosing(i).from.Square?
    ensures var from := Choosing(i).from; Men(i, from.file, from.rank).kind in {Pawn, Knight, Queen}
  {
  }

  /** Only what was handed over is dropped. */
  lemma {:induction false} PlyKeepsHands(p: Position, i: int, t: Table)
    requires 0 <= i < LENGTH && Ply(i).Play? && Reached(p, i)
    ensures var q := Played(p, Choosing(i), t);
      && q.onMove == Mover(i + 1)
      && q.holding[HoldSlot(White, Pawn)] >= 0 && q.holding[HoldSlot(Black, Knight)] >= 0
  {
    PlayedRest(p, Choosing(i), t);
    TurnsGoOn(i);
    assert Choosing(i).from.Drop? ==> Choosing(i).from == (if i == 5 then Drop(Pawn) else Drop(Knight));
  }

  lemma {:induction false} HandsFill(h: Half, i: int)
    requires (i == 4 || i == 16) && Reached(h.p, i)
    ensures EventFits(Ply(i)) && Reached(Continued(h, Ply(i)).p, i + 1)
  {
    forall f, r | 0 <= f < 8 && 0 <= r < 8
      ensures At(h.p.board, f, r) == Men(i + 1, f, r)
    {
      MenChange(i, f, r);
    }
  }

  lemma {:induction false} PlyHappens(h: Half, i: int)
    requires 0 <= i < LENGTH && Reached(h.p, i)
    ensures CanHappen(h, Ply(i)) && Reached(Continued(h, Ply(i)).p, i + 1)
  {
    if Ply(i).Play? {
      PlyIsAllowed(h.p, i, Seat(|h.moves|, true));
      PlyKeepsFlags(h.p, i, Seat(|h.moves|, true));
      PlyKeepsHands(h.p, i, Seat(|h.moves|, true));
    } else {
      HandsFill(h, i);
    }
  }

  /** The first i events. */
  function Line(i: nat): seq<Event> { if i == 0 then [] else Line(i - 1) + [Ply(i - 1)] }

  /** Which event the k-th move is, and how many of the first i events are moves. */
  function EventOf(k: int): int { if k < 4 then k else if k < 15 then k + 1 else k + 2 }

  function Moves(i: int): int { if i < 5 then i else if i < 17 then i - 1 else i - 2 }

  /** The k-th move as a step. */
  function MoveNo(k: int): Step
    requires 0 <= k < 17
  {
    StepNo(EventOf(k))
  }

  /** The steps among the first i events. */
  function Steps(i: nat): seq<Step>
    requires i <= LENGTH
  {
    seq(Moves(i), k requires 0 <= k < Moves(i) => MoveNo(k))
  }

  lemma {:induction false} StepsGrow(i: nat)
    requires i < LENGTH
    ensures Steps(i + 1) == Steps(i) + if Ply(i).Play? then [StepNo(i)] else []
  {
    if Ply(i).Play? {
      assert Moves(i + 1) == Moves(i) + 1 && EventOf(Moves(i)) == i;
    }
  }

  predicate Lasts(good: int -> bool, j: int) { good(j) ==> good(j + 1) }

  /** What holds at the beginning and lasts with every event holds at the end. */
  lemma {:induction false} LastsToEnd(good: int -> bool, i: nat)
    requires i <= LENGTH && good(0) && forall j :: 0 <= j < LENGTH ==> Lasts(good, j)
    ensures good(i)
  {
    if i > 0 {
      LastsToEnd(good, i - 1);
      assert Lasts(good, i - 1);
    }
  }

  /** The events can happen, are of these steps, and lead to the i-th position. */
  ghost predicate Comes(start: Position, es: seq<Event>, steps: seq<Step>, i: int) {
    Plays(start, es) && StepsOf(start, es) == steps && Reached(PlayOut(start, es).p, i)
  }

  lemma {:induction false} PlyComes(start: Position, i: nat)
    requires i < LENGTH && Comes(start, Line(i), Steps(i), i)
    ensures Comes(start, Line(i + 1), Steps(i + 1), i + 1)
  {
    var h := PlayOut(start, Line(i));
    PlyHappens(h, i);
    OneMore(start, Line(i), Ply(i));
    StepsGrow(i);
    if Ply(i).Play? {
      StepIsNo(h.p, i);
    }
  }

  lemma {:induction false} LineIsPlayed(start: Position, n: nat)
    requires Reached(start, 0) && n <= LENGTH
    ensures Comes(start, Line(n), Steps(n), n)
  {
    var good := i => 0 <= i <= LENGTH && Comes(start, Line(i), Steps(i), i);
    NothingYet(start);
    forall j | 0 <= j < LENGTH
      ensures Lasts(good, j)
    {
      if good(j) {
        PlyComes(start, j);
      }
    }
    LastsToEnd(good, n);
  }

  lemma {:induction false} NothingYet(start: Position)
    requires Reached(start, 0)
    ensures Comes(start, Line(0), Steps(0), 0)
  {
    assert Line(0) == [] && Steps(0) == [];
  }

  lemma {:induction false} StartIsReached()
    ensures Reached(StandardStart(), 0) && Sound(StandardStart())
  {
    StartIsSound();
    forall f, r | 0 <= f < 8 && 0 <= r < 8
      ensures At(StandardStart().board, f, r) == Men(0, f, r)
    {
      InitialAt(f, r);
    }
  }

  /** The steps of White's that matter, and that White's first rook's square is left to it. */
  ghost predicate Tale(steps: seq<Step>) {
    && |steps| == 17
    && steps[6] == Motion(White, Square(1, 6), 2, 7, true, false)
    && steps[8] == Motion(White, Square(2, 7), 0, 5, false, false)
    && steps[10] == Motion(White, Square(0, 5), 5, 0, false, false)
    && steps[12] == Motion(White, Square(5, 0), 4, 1, false, false)
    && steps[14] == Motion(White, Square(4, 0), 6, 0, false, true)
    && steps[15].mover == Black
    && steps[16] == Motion(White, Square(0, 1), 0, 2, false, false)
    && forall k :: 0 <= k < 14 ==> (steps[k].toFile, steps[k].toRank) != (7, 0) && !steps[k].takesRook
  }

  lemma {:induction false} StepsTellTale()
    ensures Tale(Steps(LENGTH))
  {
    forall k | 0 <= k < 14
      ensures var s := Steps(LENGTH)[k]; (s.toFile, s.toRank) != (7, 0) && !s.takesRook
    {
      assert Steps(LENGTH)[k] == MoveNo(k);
      NotToCorner(EventOf(k));
    }
  }

  lemma {:induction false} NotToCorner(i: int)
    requires 0 <= i < 15 && Ply(i).Play?
    ensures var s := StepNo(i); (s.toFile, s.toRank) != (7, 0) && !s.takesRook
  {
  }

  /** The rook came to f1 by castling, and no mark ever came to its corner. */
  lemma {:induction false} RookIsUnmarked(steps: seq<Step>, boards: seq<Board>)
    requires Tale(steps) && IsTrack(steps, boards) && At(boards[17], 5, 0) == Man(White, Rook)
    ensures !Marked(MarksAt(steps, 17), 5, 0)
  {
    PassOver(steps, 16, White, 5, 0);
    assert Trail(steps, 15, White, 5, 0) == Castled(14);
    assert Trail(steps, 17, White, 5, 0) == Trail(steps, 16, White, 5, 0);
    TrailTells(steps, boards, 17, White, 5, 0);
    UntouchedIsUnmarked(steps, 14, 7, 0);
  }

  /** The walk finds the queen's visit to f1, and then the promotion. */
  lemma {:induction false} VisitIsFound(ms: seq<Move>, steps: seq<Step>)
    requires Tale(steps) && Records(ms, steps) && |ms| == 17
    ensures PromotedFrom(ms, 16, 5, 0)
  {
    assert Tells(ms[6], steps[6]) && Tells(ms[8], steps[8]) && Tells(ms[10], steps[10]);
    assert Tells(ms[12], steps[12]) && Tells(ms[14], steps[14]) && Tells(ms[16], steps[16]);
    assert PromotedFrom(ms, 6, 2, 7);
    assert PromotedFrom(ms, 8, 0, 5);
    assert PromotedFrom(ms, 10, 5, 0);
    assert PromotedFrom(ms, 12, 5, 0);
    assert PromotedFrom(ms, 14, 5, 0);
  }

  /** Black's knight takes the rook. */
  const CAPTURE := Choice(Square(6, 2), 5, 0, Queen)

  lemma {:induction false} CaptureIsAllowed(p: Position, t: Table)
    requires Reached(p, LENGTH)
    ensures Allowed(p, CAPTURE, t)
    ensures Recorded(p, MoveRecord(p, CAPTURE.from, 5, 0, Queen)).pieceCaptured == Man(White, Rook)
    ensures Recorded(p, MoveRecord(p, CAPTURE.from, 5, 0, Queen)).enPassant == 0
  {
    var m := MoveRecord(p, CAPTURE.from, 5, 0, Queen);
    var after := BoardAfter(p.board, Black, m);
    assert At(p.board, 6, 2) == Men(LENGTH, 6, 2) && At(p.board, 5, 0) == Men(LENGTH, 5, 0);
    forall f, r | 0 <= f < 8 && 0 <= r < 8
      ensures At(after, f, r)
           == if (f, r) == (5, 0) then Man(Black, Knight) else if (f, r) == (6, 2) then Empty else Men(LENGTH, f, r)
    {
      PlainAt(p.board, Black, m, f, r);
      assert At(p.board, f, r) == Men(LENGTH, f, r);
    }
    AfterCapture(after);
    SafeIsAllowed(p, CAPTURE, t);
  }

  lemma {:induction false} AfterCapture(b: Board)
    requires forall f, r :: 0 <= f < 8 && 0 <= r < 8 ==>
      At(b, f, r) == if (f, r) == (5, 0) then Man(Black, Knight) else if (f, r) == (6, 2) then Empty
          else Men(LENGTH, f, r)
    ensures !KingHit(b, Black)
  {
    forall dx, dy | Direction(dx, dy)
      ensures Guarded(b, Black, 4, 7, dx, dy)
    {
      assert GuardedAt(b, Black, 4, 7, dx, dy, 1);
    }
    assert OneKing(b, Black, 4, 7);
    ShelterHolds(b, Black, 4, 7);
  }

  /** From the standard start Black comes to take, with an accepted move, a rook that White has had
      from the beginning; it is handed over as a pawn and ought to be handed over as a rook. */
  lemma {:induction false} CastledRookIsMistaken(t: Table) returns (es: seq<Event>, steps: seq<Step>)
    ensures Plays(StandardStart(), es) && steps == StepsOf(StandardStart(), es)
    ensures var h := PlayOut(StandardStart(), es);
      && Allowed(h.p, CAPTURE, t)
      && var m := Recorded(h.p, MoveRecord(h.p, CAPTURE.from, 5, 0, Queen));
         && Reverted(m, h.moves) == Man(White, Pawn)
         && Deserved(m, MarksAt(steps, |steps|)) == Man(White, Rook)
  {
    StartIsReached();
    es, steps := Line(LENGTH), Steps(LENGTH);
    LineIsPlayed(StandardStart(), LENGTH);
    PlayIsRemembered(StandardStart(), es);
    StepsTellTale();
    var h := PlayOut(StandardStart(), es);
    CaptureIsAllowed(h.p, t);
    RookIsMistaken(h, steps);
  }

  lemma {:induction false} RookIsMistaken(h: Half, steps: seq<Step>)
    requires Tale(steps) && Reached(h.p, LENGTH) && exists boards :: Remembers(h, steps, boards)
    requires Recorded(h.p, MoveRecord(h.p, CAPTURE.from, 5, 0, Queen)).pieceCaptured == Man(White, Rook)
    ensures var m := Recorded(h.p, MoveRecord(h.p, CAPTURE.from, 5, 0, Queen));
      Reverted(m, h.moves) == Man(White, Pawn) && Deserved(m, MarksAt(steps, 17)) == Man(White, Rook)
  {
    var boards :| Remembers(h, steps, boards);
    assert At(h.p.board, 5, 0) == Men(LENGTH, 5, 0);
    RookIsUnmarked(steps, boards);
    VisitIsFound(h.moves, steps);
  }
}
