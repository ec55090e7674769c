/** A game from the standard start, 1. Nc3 b5 2. a4 b4 3. b3 bxc3 4. h3 Ba6 5. h4 Bb5 6. axb5 c5, in which
    the server lets the pawn on b3 take the pawn on c3 as if that had just gone two squares ahead. */
module GhostCapture {
  import opened Positions
  import opened Legality
  import opened Attacks
  import opened Targets
  import opened Interposition
  import opened Shelter
  import opened Runs
  import opened Rules
  import opened EnPassantRule

  const LENGTH := 12

  function Ply(i: int): Choice {
    match i
    case 0 => Choice(Square(1, 0), 2, 2, Queen)
    case 1 => Choice(Square(1, 6), 1, 4, Queen)
    case 2 => Choice(Square(0, 1), 0, 3, Queen)
    case 3 => Choice(Square(1, 4), 1, 3, Queen)
    case 4 => Choice(Square(1, 1), 1, 2, Queen)
    case 5 => Choice(Square(1, 3), 2, 2, Queen)
    case 6 => Choice(Square(7, 1), 7, 2, Queen)
    case 7 => Choice(Square(2, 7), 0, 5, Queen)
    case 8 => Choice(Square(7, 2), 7, 3, Queen)
    case 9 => Choice(Square(0, 5), 1, 4, Queen)
    case 10 => Choice(Square(0, 3), 1, 4, Queen)
    case _ => Choice(Square(2, 6), 2, 4, Queen)
  }

  /** b3xc4, onto an empty square. */
  const CAPTURE := Choice(Square(1, 2), 2, 3, Queen)

  function Mover(i: int): Color { if i % 2 == 0 then White else Black }

  /** The men after i moves. */
  function Men(i: int, f: int, r: int): Piece
    requires On(f) && On(r)
  {
    match (f, r)
    case (1, 0) => if i < 1 then Man(White, Knight) else Empty
    case (2, 2) => if i < 1 then Empty else if i < 6 then Man(White, Knight) else Man(Black, Pawn)
    case (1, 6) => if i < 2 then Man(Black, Pawn) else Empty
    case (1, 4) =>
      if 2 <= i < 4 then Man(Black, Pawn) else if i == 10 then Man(Black, Bishop)
      else if i >= 11 then Man(White, Pawn) else Empty
    case (0, 1) => if i < 3 then Man(White, Pawn) else Empty
    case (0, 3) => if 3 <= i < 11 then Man(White, Pawn) else Empty
    case (1, 3) => if 4 <= i < 6 then Man(Black, Pawn) else Empty
    case (1, 1) => if i < 5 then Man(White, Pawn) else Empty
    case (1, 2) => if i < 5 then Empty else Man(White, Pawn)
    case (7, 1) => if i < 7 then Man(White, Pawn) else Empty
    case (7, 2) => if 7 <= i < 9 then Man(White, Pawn) else Empty
    case (7, 3) => if i < 9 then Empty else Man(White, Pawn)
    case (2, 7) => if i < 8 then Man(Black, Bishop) else Empty
    case (0, 5) => if 8 <= i < 10 then Man(Black, Bishop) else Empty
    case (2, 6) => if i < 12 then Man(Black, Pawn) else Empty
    case (2, 4) => if i < 12 then Empty else Man(Black, Pawn)
    case _ => InitialMan(f, r)
  }

  ghost predicate Shows(b: Board, i: int) {
    forall f, r :: 0 <= f < 8 && 0 <= r < 8 ==> At(b, f, r) == Men(i, f, r)
  }

  lemma {:induction false} MenChange(i: int, f: int, r: int)
    requires 0 <= i < LENGTH && On(f) && On(r)
    ensures var ch := Ply(i);
      Men(i + 1, f, r) ==
        if (f, r) == (ch.toFile, ch.toRank) then Men(i, ch.from.file, ch.from.rank)
        else if ch.from == Square(f, r) then Empty else Men(i, f, r)
  {
  }

  /** What is moved is a pawn, a knight or a bishop of the mover; pawns take what is there. */
  lemma {:induction false} PlyIsSimple(i: int)
    requires 0 <= i < LENGTH
    ensures var ch := Ply(i); var from := ch.from;
      && Fits(ch) && from.Square? && from != Square(ch.toFile, ch.toRank)
      && var q := Men(i, from.file, from.rank); var victim := Men(i, ch.toFile, ch.toRank);
         && q == Man(Mover(i), if i == 0 then Knight else if i == 7 || i == 9 then Bishop else Pawn)
         && (if i in {5, 10} then victim.Man? && victim.color != Mover(i) else victim == Empty)
         && (IsPawn(q) ==> 0 < ch.toRank < 7 && (from.file != ch.toFile <==> i in {5, 10}))
  {
  }

  lemma {:induction false} PlyIsLegal(p: Position, i: int)
    requires 0 <= i < LENGTH && Shows(p.board, i) && p.onMove == Mover(i)
    ensures var ch := Ply(i); Fits(ch) && Legal(p, ch.from, ch.toFile, ch.toRank)
  {
    var ch := Ply(i);
    PlyIsSimple(i);
    var f, r := ch.from.file, ch.from.rank;
    assert At(p.board, f, r) == Men(i, f, r) && At(p.board, ch.toFile, ch.toRank) == Men(i, ch.toFile, ch.toRank);
    assert At(p.board, 1, 5) == Men(i, 1, 5) && At(p.board, 0, 2) == Men(i, 0, 2) && At(p.board, 2, 5) == Men(i, 2, 5);
    assert At(p.board, 1, 6) == Men(i, 1, 6);
    LegalIsPlainOrCastling(p, f, r, ch.toFile, ch.toRank);
  }

  lemma {:induction false} PlyLeads(p: Position, i: int)
    requires 0 <= i < LENGTH && Shows(p.board, i) && p.onMove == Mover(i)
    ensures var ch := Ply(i);
      Fits(ch) && Shows(BoardAfter(p.board, p.onMove, MoveRecord(p, ch.from, ch.toFile, ch.toRank, Queen)), i + 1)
  {
    var ch := Ply(i);
    PlyIsSimple(i);
    var m := MoveRecord(p, ch.from, ch.toFile, ch.toRank, Queen);
    assert At(p.board, ch.from.file, ch.from.rank) == Men(i, ch.from.file, ch.from.rank);
    assert At(p.board, ch.toFile, ch.toRank) == Men(i, ch.toFile, ch.toRank);
    forall f, r | 0 <= f < 8 && 0 <= r < 8
      ensures At(BoardAfter(p.board, p.onMove, m), f, r) == Men(i + 1, f, r)
    {
      MenChange(i, f, r);
      assert At(p.board, f, r) == Men(i, f, r);
      PlainAt(p.board, p.onMove, m, f, r);
    }
  }

  /** Both kings are walled in all the time. */
  lemma {:induction false} KingIsSheltered(b: Board, i: int, c: Color)
    requires Shows(b, i) && 0 <= i <= LENGTH
    ensures Sheltered(b, c, 4, c.Home())
  {
    assert OneKing(b, c, 4, c.Home());
    forall dx, dy | Direction(dx, dy)
      ensures Guarded(b, c, 4, c.Home(), dx, dy)
    {
      assert GuardedAt(b, c, 4, c.Home(), dx, dy, 1);
    }
  }

  lemma {:induction false} PlyIsAllowed(p: Position, i: int, t: Table)
    requires 0 <= i < LENGTH && Shows(p.board, i) && p.onMove == Mover(i)
    ensures Allowed(p, Ply(i), t)
  {
    var ch := Ply(i);
    PlyIsLegal(p, i);
    PlyLeads(p, i);
    var after := BoardAfter(p.board, p.onMove, MoveRecord(p, ch.from, ch.toFile, ch.toRank, Queen));
    KingIsSheltered(after, i + 1, p.onMove);
    ShelterHolds(after, p.onMove, 4, p.onMove.Home());
    AcceptedIsSafe(p, ch.from, ch.toFile, ch.toRank, Queen, t);
  }

  ghost predicate Reached(p: Position, i: int) { Shows(p.board, i) && p.onMove == Mover(i) }

  lemma {:induction false} NextIsReached(p: Position, i: int, t: Table)
    requires 0 <= i < LENGTH && Reached(p, i)
    ensures Allowed(p, Ply(i), t) && Reached(Played(p, Ply(i), t), i + 1)
  {
    PlyIsAllowed(p, i, t);
    PlyIsSimple(i);
    PlyLeads(p, i);
  }

  function Line(i: int, n: int): seq<Event>
    decreases n - i
  {
    if i >= n then [] else [Play(Ply(i))] + Line(i + 1, n)
  }

  lemma {:induction false} GameGoesOn(p: Position, i: nat, n: int)
    requires i <= n <= LENGTH && Reached(p, i)
    ensures IsRun(p, i, false, Line(i, n)) && Reached(RunEnd(p, i, false, Line(i, n)), n)
    decreases n - i
  {
    if i < n {
      NextIsReached(p, i, Seat(i, false));
      GameGoesOn(Played(p, Ply(i), Seat(i, false)), i + 1, n);
      assert Line(i, n)[1..] == Line(i + 1, n);
    }
  }

  lemma {:induction false} BeginningIsReached()
    ensures Reached(StandardStart(), 0)
  {
    forall f, r | 0 <= f < 8 && 0 <= r < 8
      ensures At(StandardStart().board, f, r) == Men(0, f, r)
    {
      InitialAt(f, r);
    }
  }

  /** With the flag up, the pawn on b3 may go to the empty c4, and the pawn on c3 is gone. */
  lemma {:induction false} CaptureIsAllowed(p: Position, t: Table)
    requires Reached(p, 12) && Passing(p, 1, 2, 2)
    ensures Allowed(p, CAPTURE, t) && At(p.board, 2, 3) == Empty && At(p.board, 2, 2) == Man(Black, Pawn)
    ensures At(Played(p, CAPTURE, t).board, 2, 2) == Empty
  {
    assert At(p.board, 1, 2) == Men(12, 1, 2) && At(p.board, 2, 2) == Men(12, 2, 2)
        && At(p.board, 2, 3) == Men(12, 2, 3);
    LegalIsPlainOrCastling(p, 1, 2, 2, 3);
    var after := BoardAfter(p.board, White, MoveRecord(p, Square(1, 2), 2, 3, Queen));
    AfterCapture(p, after);
    ShelterHolds(after, White, 4, 0);
    AcceptedIsSafe(p, Square(1, 2), 2, 3, Queen, t);
  }

  lemma {:induction false} AfterCapture(p: Position, after: Board)
    requires Reached(p, 12) && after == BoardAfter(p.board, White, MoveRecord(p, Square(1, 2), 2, 3, Queen))
    ensures Sheltered(after, White, 4, 0) && At(after, 2, 2) == Empty
  {
    forall f, r | 0 <= f < 8 && 0 <= r < 8
      ensures At(after, f, r) == if (f, r) == (2, 3) then Man(White, Pawn)
              else if (f, r) == (1, 2) || (f, r) == (2, 2) then Empty else Men(12, f, r)
    {
      assert At(p.board, f, r) == Men(12, f, r) && At(p.board, 1, 2) == Men(12, 1, 2)
          && At(p.board, 2, 3) == Men(12, 2, 3);
    }
    assert OneKing(after, White, 4, 0);
    forall dx, dy | Direction(dx, dy)
      ensures Guarded(after, White, 4, 0, dx, dy)
    {
      assert GuardedAt(after, White, 4, 0, dx, dy, 1);
    }
  }

  lemma {:induction false} FlagIsUp(q: Position, t: Table)
    requires Reached(q, 11) && Allowed(q, Ply(11), t) && Reached(Played(q, Ply(11), t), 12)
    ensures Passing(Played(q, Ply(11), t), 1, 2, 2)
  {
    var p := Played(q, Ply(11), t);
    assert At(q.board, 2, 6) == Men(11, 2, 6) && At(p.board, 1, 4) == Men(12, 1, 4)
        && At(p.board, 2, 2) == Men(12, 2, 2);
    PassingMeans(q, Ply(11), t, 1, 2, 2);
  }

  /** Before Black's pawn goes to c5: White may then take on c4, and the pawn on c3 is gone. */
  ghost predicate TakesGhost(q: Position, t: Table, u: Table) {
    && Allowed(q, Ply(LENGTH - 1), t) && !MayTake(q, Ply(LENGTH - 1), 2, 2) && At(q.board, 2, 2) == Man(Black, Pawn)
    && var p := Played(q, Ply(LENGTH - 1), t);
       && Allowed(p, CAPTURE, u) && At(p.board, 2, 3) == Empty && At(p.board, 2, 2) == Man(Black, Pawn)
       && At(Played(p, CAPTURE, u).board, 2, 2) == Empty
  }

  lemma {:induction false} GhostIsTaken(q: Position, t: Table, u: Table)
    requires Reached(q, 11)
    ensures TakesGhost(q, t, u)
  {
    NextIsReached(q, 11, t);
    FlagIsUp(q, t);
    CaptureIsAllowed(Played(q, Ply(11), t), u);
    assert At(q.board, 2, 2) == Men(11, 2, 2);
  }

  lemma {:induction false} GameReaches(n: int) returns (q: Position)
    requires 0 <= n <= LENGTH
    ensures IsRun(StandardStart(), 0, false, Line(0, n)) && q == RunEnd(StandardStart(), 0, false, Line(0, n))
    ensures Reached(q, n)
  {
    BeginningIsReached();
    GameGoesOn(StandardStart(), 0, n);
    q := RunEnd(StandardStart(), 0, false, Line(0, n));
  }

  /** In the game the pawn on c3 is taken, which has stood there since move 3 and is not the one that
      went two squares ahead. */
  lemma {:induction false} PawnTakesGhost(n: int) returns (q: Position)
    requires n == LENGTH - 1
    ensures IsRun(StandardStart(), 0, false, Line(0, n)) && q == RunEnd(StandardStart(), 0, false, Line(0, n))
    ensures TakesGhost(q, Seat(11, false), Seat(12, false))
  {
    q := GameReaches(n);
    GhostIsTaken(q, Seat(11, false), Seat(12, false));
  }
}
