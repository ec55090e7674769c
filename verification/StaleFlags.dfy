/** A game from the standard start, 1. b4 h6 2. b5 a5 3. Nf3 Ra7 4. Ng1 Ra8 5. Nf3 Ra7, in which taking
    back 2... a5 leaves a flag for en passant, and taking back 5... Ra7 has the rook count as unmoved. */
module StaleFlags {
  import opened Positions
  import opened Legality
  import opened Attacks
  import opened Targets
  import opened Interposition
  import opened Shelter
  import opened Runs
  import opened Takeback
  import opened KingFlags
  import opened Sessions

  const LENGTH := 10

  function Ply(i: int): Choice {
    match i
    case 0 => Choice(Square(1, 1), 1, 3, Queen)
    case 1 => Choice(Square(7, 6), 7, 5, Queen)
    case 2 => Choice(Square(1, 3), 1, 4, Queen)
    case 3 => Choice(Square(0, 6), 0, 4, Queen)
    case 4 => Choice(Square(6, 0), 5, 2, Queen)
    case 5 => Choice(Square(0, 7), 0, 6, Queen)
    case 6 => Choice(Square(5, 2), 6, 0, Queen)
    case 7 => Choice(Square(0, 6), 0, 7, Queen)
    case 8 => Choice(Square(6, 0), 5, 2, Queen)
    case _ => Choice(Square(0, 7), 0, 6, Queen)
  }

  function Mover(i: int): Color { if i % 2 == 0 then White else Black }

  /** The men after i moves. */
  function Men(i: int, f: int, r: int): Piece
    requires On(f) && On(r)
  {
    match (f, r)
    case (1, 1) => if i < 1 then Man(White, Pawn) else Empty
    case (1, 3) => if 1 <= i < 3 then Man(White, Pawn) else Empty
    case (1, 4) => if i < 3 then Empty else Man(White, Pawn)
    case (7, 6) => if i < 2 then Man(Black, Pawn) else Empty
    case (7, 5) => if i < 2 then Empty else Man(Black, Pawn)
    case (0, 6) => if i < 4 then Man(Black, Pawn) else if 6 <= i < 8 || i == 10 then Man(Black, Rook) else Empty
    case (0, 4) => if i < 4 then Empty else Man(Black, Pawn)
    case (0, 7) => if i < 6 || 8 <= i < 10 then Man(Black, Rook) else Empty
    case (6, 0) => if i < 5 || 7 <= i < 9 then Man(White, Knight) else Empty
    case (5, 2) => if 5 <= i < 7 || i >= 9 then Man(White, Knight) else Empty
    case _ => InitialMan(f, r)
  }

  ghost predicate Shows(b: Board, i: int) {
    forall f, r :: 0 <= f < 8 && 0 <= r < 8 ==> At(b, f, r) == Men(i, f, r)
  }

  lemma {:induction false} MenChange(i: int, f: int, r: int)
    requires 0 <= i < LENGTH && On(f) && On(r)
    ensures var ch := Ply(i);
      Men(i + 1, f, r) ==
        if (f, r) == (ch.toFile, ch.toRank) then Men(i, ch.from.file, ch.from.rank)
        else if ch.from == Square(f, r) then Empty else Men(i, f, r)
  {
  }

  /** What is moved is a pawn, a knight or a rook of the mover, to an empty square. */
  lemma {:induction false} PlyIsSimple(i: int)
    requires 0 <= i < LENGTH
    ensures var ch := Ply(i); var from := ch.from;
      && Fits(ch) && from.Square? && from != Square(ch.toFile, ch.toRank) && Men(i, ch.toFile, ch.toRank) == Empty
      && var q := Men(i, from.file, from.rank);
         && q == Man(Mover(i), if i < 4 then Pawn else if i % 2 == 0 then Knight else Rook)
         && (IsPawn(q) ==> from.file == ch.toFile && 0 < ch.toRank < 7)
  {
  }

  lemma {:induction false} PlyIsLegal(p: Position, i: int)
    requires 0 <= i < LENGTH && Shows(p.board, i) && p.onMove == Mover(i)
    ensures var ch := Ply(i); Fits(ch) && Legal(p, ch.from, ch.toFile, ch.toRank)
  {
    var ch := Ply(i);
    PlyIsSimple(i);
    var f, r := ch.from.file, ch.from.rank;
    assert At(p.board, f, r) == Men(i, f, r) && At(p.board, ch.toFile, ch.toRank) == Empty;
    assert At(p.board, 1, 2) == Men(i, 1, 2) && At(p.board, 0, 5) == Men(i, 0, 5);
    LegalIsPlainOrCastling(p, f, r, ch.toFile, ch.toRank);
  }

  lemma {:induction false} PlyLeads(p: Position, i: int)
    requires 0 <= i < LENGTH && Shows(p.board, i) && p.onMove == Mover(i)
    ensures var ch := Ply(i);
      Fits(ch) && Shows(BoardAfter(p.board, p.onMove, MoveRecord(p, ch.from, ch.toFile, ch.toRank, Queen)), i + 1)
  {
    var ch := Ply(i);
    PlyIsSimple(i);
    var m := MoveRecord(p, ch.from, ch.toFile, ch.toRank, Queen);
    assert At(p.board, ch.from.file, ch.from.rank) == Men(i, ch.from.file, ch.from.rank);
    forall f, r | 0 <= f < 8 && 0 <= r < 8
      ensures At(BoardAfter(p.board, p.onMove, m), f, r) == Men(i + 1, f, r)
    {
      MenChange(i, f, r);
      assert At(p.board, f, r) == Men(i, f, r);
      PlainAt(p.board, p.onMove, m, f, r);
    }
  }

  /** Both kings are walled in all the time. */
  lemma {:induction false} KingIsSheltered(b: Board, i: int, c: Color)
    requires Shows(b, i) && 0 <= i <= LENGTH
    ensures Sheltered(b, c, 4, c.Home())
  {
    assert OneKing(b, c, 4, c.Home());
    forall dx, dy | Direction(dx, dy)
      ensures Guarded(b, c, 4, c.Home(), dx, dy)
    {
      assert GuardedAt(b, c, 4, c.Home(), dx, dy, 1);
    }
  }

  lemma {:induction false} PlyIsAllowed(p: Position, i: int, t: Table)
    requires 0 <= i < LENGTH && Shows(p.board, i) && p.onMove == Mover(i)
    ensures Allowed(p, Ply(i), t)
  {
    var ch := Ply(i);
    PlyIsLegal(p, i);
    PlyLeads(p, i);
    var after := BoardAfter(p.board, p.onMove, MoveRecord(p, ch.from, ch.toFile, ch.toRank, Queen));
    KingIsSheltered(after, i + 1, p.onMove);
    ShelterHolds(after, p.onMove, 4, p.onMove.Home());
    AcceptedIsSafe(p, ch.from, ch.toFile, ch.toRank, Queen, t);
  }

  /** The game has come to where i moves lead. */
  ghost predicate Reached(s: Session, i: int) {
    && Shows(s.p.board, i) && s.p.onMove == Mover(i) && |s.past| == |s.ms| == i
    && (forall j :: 0 <= j < i ==> s.ms[j].from == Ply(j).from)
    && (i >= 6 ==> s.p.moved.bqrmoved) && Suited(s, EnPassant)
  }

  lemma {:induction false} RookIsMarked(p: Position, i: int, t: Table)
    requires 0 <= i < LENGTH && Shows(p.board, i) && p.onMove == Mover(i) && (i >= 6 ==> p.moved.bqrmoved)
    requires Fits(Ply(i))
    ensures Played(p, Ply(i), t).onMove == Mover(i + 1) && (i >= 5 ==> Played(p, Ply(i), t).moved.bqrmoved)
  {
    PlyIsSimple(i);
    assert At(p.board, Ply(i).from.file, Ply(i).from.rank) == Men(i, Ply(i).from.file, Ply(i).from.rank);
  }

  lemma {:induction false} NextIsReached(s: Session, i: int)
    requires 0 <= i < LENGTH && Reached(s, i)
    ensures CanDo(s, Make(Ply(i))) && Reached(Do(s, Make(Ply(i))), i + 1)
  {
    PlyIsAllowed(s.p, i, Seat(i, false));
    PlyIsSimple(i);
    PlyLeads(s.p, i);
    PlayIsSuited(s, Ply(i), EnPassant);
    RookIsMarked(s.p, i, Seat(i, false));
  }

  function Moves(i: int, n: int): seq<Act>
    decreases n - i
  {
    if i >= n then [] else [Make(Ply(i))] + Moves(i + 1, n)
  }

  lemma {:induction false} GameGoesOn(s: Session, i: int, n: int)
    requires 0 <= i <= n <= LENGTH && Reached(s, i)
    ensures IsSession(s, Moves(i, n)) && Reached(SessionEnd(s, Moves(i, n)), n)
    decreases n - i
  {
    if i < n {
      NextIsReached(s, i);
      GameGoesOn(Do(s, Make(Ply(i))), i + 1, n);
      assert Moves(i, n)[1..] == Moves(i + 1, n);
    }
  }

  /** The beginning of a game. */
  function Beginning(): Session { Session(StandardStart(), [], []) }

  lemma {:induction false} BeginningIsReached()
    ensures Reached(Beginning(), 0)
  {
    forall f, r | 0 <= f < 8 && 0 <= r < 8
      ensures At(StandardStart().board, f, r) == Men(0, f, r)
    {
      InitialAt(f, r);
    }
  }

  lemma {:induction false} FlagIsRaised(s: Session)
    requires Reached(s, 3)
    ensures !Keeps(s, Ply(3), EnPassant)
  {
    assert At(s.p.board, 0, 6) == Men(3, 0, 6) && At(s.p.board, 1, 4) == Men(3, 1, 4);
  }

  lemma {:induction false} NoneFromA1(s: Session)
    requires Reached(s, 9)
    ensures SeemsFirst(s.ms[..9], Black, 0, 0)
  {
    forall j | 3 <= j < 9
      ensures s.ms[..9][j].from != Square(0, 0)
    {
      assert s.ms[j].from == Ply(j).from;
    }
  }

  lemma {:induction false} RookIsForgotten(s: Session)
    requires Reached(s, 9)
    ensures Keeps(s, Ply(9), Kings) && !Keeps(s, Ply(9), Rights)
  {
    assert At(s.p.board, 0, 7) == Men(9, 0, 7);
    NoneFromA1(s);
  }

  lemma {:induction false} BackIsWrong(s: Session)
    ensures Reached(s, 3) ==>
      CanDo(s, Make(Ply(3))) && !TakesBack(Do(s, Make(Ply(3))), 1, EnPassant)
    ensures Reached(s, 9) ==>
      && CanDo(s, Make(Ply(9)))
      && TakesBack(Do(s, Make(Ply(9))), 1, Kings) && !TakesBack(Do(s, Make(Ply(9))), 1, Rights)
  {
    if Reached(s, 3) {
      NextIsReached(s, 3);
      FlagIsRaised(s);
      OneBackIsExact(s, Ply(3), EnPassant);
    }
    if Reached(s, 9) {
      NextIsReached(s, 9);
      RookIsForgotten(s);
      OneBackIsExact(s, Ply(9), Kings);
      OneBackIsExact(s, Ply(9), Rights);
    }
  }

  /** Taking back 2... a5 does not restore the flags for en passant. */
  lemma {:induction false} EnPassantFlagStays() returns (s: Session)
    ensures IsSession(Beginning(), Moves(0, 3)) && s == SessionEnd(Beginning(), Moves(0, 3))
    ensures CanDo(s, Make(Ply(3))) && !TakesBack(Do(s, Make(Ply(3))), 1, EnPassant)
  {
    BeginningIsReached();
    GameGoesOn(Beginning(), 0, 3);
    s := SessionEnd(Beginning(), Moves(0, 3));
    BackIsWrong(s);
  }

  /** Taking back 5... Ra7 restores the men and the kings' flags, but the rook, which had gone to a7
      and back before, counts as unmoved again. */
  lemma {:induction false} RookCountsAsUnmoved() returns (s: Session)
    ensures IsSession(Beginning(), Moves(0, 9)) && s == SessionEnd(Beginning(), Moves(0, 9))
    ensures s.p.moved.bqrmoved && CanDo(s, Make(Ply(9)))
    ensures TakesBack(Do(s, Make(Ply(9))), 1, Kings) && !TakesBack(Do(s, Make(Ply(9))), 1, Rights)
  {
    BeginningIsReached();
    GameGoesOn(Beginning(), 0, 9);
    s := SessionEnd(Beginning(), Moves(0, 9));
    BackIsWrong(s);
  }
}
