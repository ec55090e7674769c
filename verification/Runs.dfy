/** What every accepted move keeps, and so every run of a game. */
module Runs {
  import opened Positions
  import opened Legality
  import opened Attacks
  import opened Targets
  import opened GameStates
  import opened Interposition

  ghost predicate HasOneKing(b: Board, c: Color) {
    exists kf, kr :: OneKing(b, c, kf, kr)
  }

  predicate NoEdgePawns(b: Board) {
    forall f, r :: 0 <= f < 8 && 0 <= r < 8 && IsPawn(At(b, f, r)) ==> r != 0 && r != 7
  }

  /** The men of a position are in order: one king a side, no pawn on an edge rank, and
      only the side to move may be in check. */
  ghost predicate WellPlaced(p: Position) {
    HasOneKing(p.board, White) && HasOneKing(p.board, Black) && NoEdgePawns(p.board) && !InCheck(p)
  }

  /** The invariant of a game. */
  ghost predicate Sound(p: Position) {
    && WellPlaced(p)
    && EpSane(p.ep)
    && forall i :: 0 <= i < 10 ==> p.holding[i] >= 0
  }

  /** What a pawn may be promoted to. */
  predicate Promotable(k: Kind) { k != Pawn && k != King }

  /** One accepted choice of a player. */
  datatype Choice = Choice(from: Origin, toFile: int, toRank: int, promote: Kind)

  /** The choice names squares of the board, a man that can be dropped, and a man a pawn
      can become. */
  predicate Fits(ch: Choice) {
    && On(ch.toFile) && On(ch.toRank) && ch.promote != Pawn && ch.promote != King
    && match ch.from
       case Square(f, r) => On(f) && On(r)
       case Drop(man) => man != King
  }

  function Played(p: Position, ch: Choice, t: Table): Position
    requires Fits(ch)
  {
    Execute(p, MoveRecord(p, ch.from, ch.toFile, ch.toRank, ch.promote), t)
  }

  ghost predicate Allowed(p: Position, ch: Choice, t: Table) {
    Fits(ch) && Accepted(p, ch.from, ch.toFile, ch.toRank, ch.promote, t)
  }

  lemma {:induction false} ReachingKingIsCheck(p: Position, f: int, r: int, kf: int, kr: int)
    requires OneKing(p.board, p.onMove.Toggle(), kf, kr) && On(f) && On(r) && LegalMove(p, f, r, kf, kr)
    ensures InCheck(p)
  {
    assert IsFirstKing(p.board, p.onMove.Toggle(), kf, kr);
  }

  /** No accepted move lands on the enemy king. */
  lemma {:induction false} KingIsNotTaken(p: Position, from: Origin, tf: int, tr: int)
    requires WellPlaced(p) && InRange(from, tf, tr) && Legal(p, from, tf, tr)
    ensures At(p.board, tf, tr) != Man(p.onMove.Toggle(), King)
  {
    assert HasOneKing(p.board, p.onMove.Toggle());
    var kf, kr :| OneKing(p.board, p.onMove.Toggle(), kf, kr);
    if (tf, tr) == (kf, kr) {
      ReachingKingIsCheck(p, from.file, from.rank, kf, kr);
    }
  }

  /** The square an own man lands on, and the man that lands there. */
  function Arrival(p: Position, from: Origin, tr: int, k: Kind): Piece
    requires from.Square? ==> On(from.file) && On(from.rank)
  {
    match from
    case Drop(man) => Man(p.onMove, man)
    case Square(f, r) =>
      if IsPawn(At(p.board, f, r)) && (tr == 0 || tr == 7) then Man(p.onMove, k) else At(p.board, f, r)
  }

  /** How a square may change under a move of side c, when no man leaves it or lands on it. */
  predicate SquareKept(before: Piece, after: Piece, c: Color) {
    || after == before
    || (after == Empty && before.Man? && before.kind in {Pawn, Rook})
    || (after == Man(c, Rook) && before == Empty)
  }

  /** What a legal move does to a square: it puts a man on the target, and of the others
      it may only empty one or, when castling, bring a rook to an empty one. */
  lemma {:induction false} SquareAfter(p: Position, from: Origin, tf: int, tr: int, k: Kind, x: int, y: int)
    requires InRange(from, tf, tr) && Legal(p, from, tf, tr) && On(x) && On(y)
    ensures var after := BoardAfter(p.board, p.onMove, MoveRecord(p, from, tf, tr, k));
      && At(after, tf, tr) == Arrival(p, from, tr, k)
      && (from.Square? ==> At(after, from.file, from.rank) == Empty)
      && ((x, y) != (tf, tr) && (from.Square? ==> (x, y) != (from.file, from.rank)) ==>
            SquareKept(At(p.board, x, y), At(after, x, y), p.onMove))
  {
    if from.Square? {
      LegalIsPlainOrCastling(p, from.file, from.rank, tf, tr);
      if Castling(p, from.file, from.rank, tf, tr) {
        SquareAfterCastling(p, from, tf, tr, k, x, y);
      } else {
        SquareAfterPlain(p, from, tf, tr, k, x, y);
      }
    }
  }

  lemma {:induction false} SquareAfterPlain(p: Position, from: Origin, tf: int, tr: int, k: Kind, x: int, y: int)
    requires from.Square? && InRange(from, tf, tr) && Plain(p, from.file, from.rank, tf, tr) && On(x) && On(y)
    ensures var after := BoardAfter(p.board, p.onMove, MoveRecord(p, from, tf, tr, k));
      && At(after, tf, tr) == Arrival(p, from, tr, k)
      && At(after, from.file, from.rank) == Empty
      && ((x, y) != (tf, tr) && (x, y) != (from.file, from.rank) ==>
            SquareKept(At(p.board, x, y), At(after, x, y), p.onMove))
  {
    if (x, y) != (tf, tr) && (x, y) != (from.file, from.rank) {
      PlainElsewhere(p, from, tf, tr, k, x, y);
    }
  }

  lemma {:induction false} PlainElsewhere(p: Position, from: Origin, tf: int, tr: int, k: Kind, x: int, y: int)
    requires from.Square? && InRange(from, tf, tr) && Plain(p, from.file, from.rank, tf, tr) && On(x) && On(y)
    requires (x, y) != (tf, tr) && (x, y) != (from.file, from.rank)
    ensures var after := BoardAfter(p.board, p.onMove, MoveRecord(p, from, tf, tr, k));
      SquareKept(At(p.board, x, y), At(after, x, y), p.onMove)
  {
  }

  lemma {:induction false} SquareAfterCastling(p: Position, from: Origin, tf: int, tr: int, k: Kind, x: int, y: int)
    requires from.Square? && InRange(from, tf, tr) && Castling(p, from.file, from.rank, tf, tr) && On(x) && On(y)
    ensures var after := BoardAfter(p.board, p.onMove, MoveRecord(p, from, tf, tr, k));
      && At(after, tf, tr) == Arrival(p, from, tr, k)
      && At(after, from.file, from.rank) == Empty
      && ((x, y) != (tf, tr) && (x, y) != (from.file, from.rank) ==>
            SquareKept(At(p.board, x, y), At(after, x, y), p.onMove))
  {
    var side := if tf == 6 then KingSide else QueenSide;
    assert Castles(p, side);
  }

  /** The enemy's king stays where it is. */
  lemma {:induction false} EnemyKingStays(p: Position, from: Origin, tf: int, tr: int, k: Kind, kf: int, kr: int)
    requires InRange(from, tf, tr) && Legal(p, from, tf, tr) && Promotable(k)
    requires OneKing(p.board, p.onMove.Toggle(), kf, kr) && (tf, tr) != (kf, kr)
    ensures OneKing(BoardAfter(p.board, p.onMove, MoveRecord(p, from, tf, tr, k)), p.onMove.Toggle(), kf, kr)
  {
    var after := BoardAfter(p.board, p.onMove, MoveRecord(p, from, tf, tr, k));
    forall x, y | On(x) && On(y)
      ensures At(after, x, y) == Man(p.onMove.Toggle(), King) <==> x == kf && y == kr
    {
      SquareAfter(p, from, tf, tr, k, x, y);
    }
  }

  /** The board after a move that is neither castling nor en passant. */
  lemma {:induction false} PlainAt(b: Board, c: Color, m: Move, f: int, r: int)
    requires m.from.Square? && InRange(m.from, m.toFile, m.toRank) && On(f) && On(r)
    requires !IsKing(At(b, m.from.file, m.from.rank)) && !TakesEnPassant(b, m)
    requires m.from != Square(m.toFile, m.toRank)
    ensures At(BoardAfter(b, c, m), f, r) ==
      if (f, r) == (m.toFile, m.toRank) then
        if m.piecePromotionTo == Empty then At(b, m.from.file, m.from.rank) else Man(c, m.piecePromotionTo.kind)
      else if m.from == Square(f, r) then Empty
      else At(b, f, r)
  {
  }

  /** The mover's king stays, or goes to the target of its own move. */
  lemma {:induction false} OwnKingFollows(p: Position, from: Origin, tf: int, tr: int, k: Kind, kf: int, kr: int)
    requires InRange(from, tf, tr) && Legal(p, from, tf, tr) && Promotable(k)
    requires OneKing(p.board, p.onMove, kf, kr)
    ensures var after := BoardAfter(p.board, p.onMove, MoveRecord(p, from, tf, tr, k));
            if from == Square(kf, kr) then OneKing(after, p.onMove, tf, tr) else OneKing(after, p.onMove, kf, kr)
  {
    var after := BoardAfter(p.board, p.onMove, MoveRecord(p, from, tf, tr, k));
    forall x, y | On(x) && On(y)
      ensures At(after, x, y) == Man(p.onMove, King)
              <==> if from == Square(kf, kr) then x == tf && y == tr else x == kf && y == kr
    {
      SquareAfter(p, from, tf, tr, k, x, y);
    }
  }

  /** A pawn that reaches the last rank is replaced. */
  lemma {:induction false} PawnsStayInside(p: Position, from: Origin, tf: int, tr: int, k: Kind)
    requires InRange(from, tf, tr) && Legal(p, from, tf, tr) && Promotable(k) && NoEdgePawns(p.board)
    ensures NoEdgePawns(BoardAfter(p.board, p.onMove, MoveRecord(p, from, tf, tr, k)))
  {
    var after := BoardAfter(p.board, p.onMove, MoveRecord(p, from, tf, tr, k));
    forall x, y | 0 <= x < 8 && 0 <= y < 8 && IsPawn(At(after, x, y))
      ensures y != 0 && y != 7
    {
      SquareAfter(p, from, tf, tr, k, x, y);
    }
  }

  lemma {:induction false} MarksAreSane(b: Board, c: Color, tf: int)
    requires On(tf)
    ensures EpSane(EpMarks(b, c, tf))
  {
  }

  /** Flags and counters stay in order. */
  lemma {:induction false} TablesStaySound(p: Position, ch: Choice, t: Table)
    requires EpSane(p.ep) && (forall i :: 0 <= i < 10 ==> p.holding[i] >= 0)
    requires InRange(ch.from, ch.toFile, ch.toRank) && Legal(p, ch.from, ch.toFile, ch.toRank)
    ensures var q := Execute(p, MoveRecord(p, ch.from, ch.toFile, ch.toRank, ch.promote), t);
            EpSane(q.ep) && forall i :: 0 <= i < 10 ==> q.holding[i] >= 0
  {
    if ch.from.Square? {
      MarksAreSane(BoardAfter(p.board, p.onMove, MoveRecord(p, ch.from, ch.toFile, ch.toRank, ch.promote)), p.onMove,
          ch.toFile);
    }
  }

  lemma {:induction false} KingsRemain(p: Position, from: Origin, tf: int, tr: int, k: Kind)
    requires WellPlaced(p) && InRange(from, tf, tr) && Legal(p, from, tf, tr) && Promotable(k)
    ensures var after := BoardAfter(p.board, p.onMove, MoveRecord(p, from, tf, tr, k));
            HasOneKing(after, p.onMove) && HasOneKing(after, p.onMove.Toggle())
  {
    var c, e := p.onMove, p.onMove.Toggle();
    KingIsNotTaken(p, from, tf, tr);
    assert HasOneKing(p.board, c) && HasOneKing(p.board, e);
    var kf, kr :| OneKing(p.board, c, kf, kr);
    var ef, er :| OneKing(p.board, e, ef, er);
    OwnKingFollows(p, from, tf, tr, k, kf, kr);
    EnemyKingStays(p, from, tf, tr, k, ef, er);
  }

  lemma {:induction false} MenStayPlaced(p: Position, ch: Choice, t: Table)
    requires WellPlaced(p) && Allowed(p, ch, t)
    ensures WellPlaced(Played(p, ch, t))
  {
    KingsRemain(p, ch.from, ch.toFile, ch.toRank, ch.promote);
    PawnsStayInside(p, ch.from, ch.toFile, ch.toRank, ch.promote);
  }

  /** Every accepted move keeps the invariant, and takes no king. */
  lemma {:induction false} MoveKeepsSound(p: Position, ch: Choice, t: Table)
    requires Sound(p) && Allowed(p, ch, t)
    ensures Sound(Played(p, ch, t))
    ensures At(p.board, ch.toFile, ch.toRank) != Man(p.onMove.Toggle(), King)
  {
    KingIsNotTaken(p, ch.from, ch.toFile, ch.toRank);
    MenStayPlaced(p, ch, t);
    TablesStaySound(p, ch, t);
  }

  /** What happens to a game: a move is played, or the partner's capture is handed over. */
  datatype Event = Play(choice: Choice) | Receive(color: Color, man: Kind)

  ghost predicate Happens(p: Position, e: Event, t: Table) {
    match e
    case Play(ch) => Allowed(p, ch, t)
    case Receive(_, man) => man != King
  }

  ghost function Next(p: Position, e: Event, t: Table): Position
    requires Happens(p, e, t)
  {
    match e
    case Play(ch) => Played(p, ch, t)
    case Receive(c, man) => p.(holding := p.holding[HoldSlot(c, man) := p.holding[HoldSlot(c, man)] + 1])
  }

  /** The game's table when its next move is played: the move list has grown by one. */
  function Seat(n: nat, linked: bool): Table { InGame(n + 1, linked) }

  ghost predicate IsRun(p: Position, n: nat, linked: bool, es: seq<Event>)
    decreases |es|
  {
    es == [] || (
      && Happens(p, es[0], Seat(n, linked))
      && IsRun(Next(p, es[0], Seat(n, linked)), n + (if es[0].Play? then 1 else 0), linked, es[1..]))
  }

  ghost function RunEnd(p: Position, n: nat, linked: bool, es: seq<Event>): Position
    requires IsRun(p, n, linked, es)
    decreases |es|
  {
    if es == [] then p
    else RunEnd(Next(p, es[0], Seat(n, linked)), n + (if es[0].Play? then 1 else 0), linked, es[1..])
  }

  /** In every run from a sound position the invariant holds. */
  lemma {:induction false} RunKeepsSound(p: Position, n: nat, linked: bool, es: seq<Event>)
    requires Sound(p) && IsRun(p, n, linked, es)
    ensures Sound(RunEnd(p, n, linked, es))
    decreases |es|
  {
    if es != [] {
      var t := Seat(n, linked);
      match es[0] {
        case Play(ch) => MoveKeepsSound(p, ch, t);
        case Receive(c, man) => ReceivingKeepsSound(p, c, man);
      }
      RunKeepsSound(Next(p, es[0], t), n + (if es[0].Play? then 1 else 0), linked, es[1..]);
    }
  }

  /** So the methods that look for moves can be called on every position of a run, and on what
      every accepted move makes of it. */
  lemma {:induction false} RunIsPlayable(p: Position, n: nat, linked: bool, es: seq<Event>)
    requires Sound(p) && IsRun(p, n, linked, es)
    ensures var q := RunEnd(p, n, linked, es);
      Playable(q) && forall ch, t :: Allowed(q, ch, t) ==> Playable(Played(q, ch, t))
  {
    var q := RunEnd(p, n, linked, es);
    RunKeepsSound(p, n, linked, es);
    forall ch, t | Allowed(q, ch, t)
      ensures Playable(Played(q, ch, t))
    {
      MoveKeepsSound(q, ch, t);
    }
  }

  /** Holding more men changes nothing on the board. */
  lemma {:induction false} ReceivingKeepsSound(p: Position, c: Color, man: Kind)
    requires Sound(p) && man != King
    ensures Sound(p.(holding := p.holding[HoldSlot(c, man) := p.holding[HoldSlot(c, man)] + 1]))
  {
    var q := p.(holding := p.holding[HoldSlot(c, man) := p.holding[HoldSlot(c, man)] + 1]);
    CheckIsHit(p);
    CheckIsHit(q);
  }

  /** Hence no move of any run takes a king, and the mover is never left in check. */
  lemma {:induction false} NoKingIsEverTaken(p: Position, n: nat, linked: bool, es: seq<Event>, ch: Choice, t: Table)
    requires Sound(p) && IsRun(p, n, linked, es) && Allowed(RunEnd(p, n, linked, es), ch, t)
    ensures var q := RunEnd(p, n, linked, es);
      && At(q.board, ch.toFile, ch.toRank) != Man(q.onMove.Toggle(), King)
      && !KingHit(Played(q, ch, t).board, q.onMove)
  {
    var q := RunEnd(p, n, linked, es);
    RunKeepsSound(p, n, linked, es);
    MoveKeepsSound(q, ch, t);
    CheckIsHit(Played(q, ch, t));
  }

  lemma {:induction false} InitialAt(f: int, r: int)
    requires On(f) && On(r)
    ensures At(StandardStart().board, f, r) == InitialMan(f, r)
  {
  }

  lemma {:induction false} InitialKings(f: int, r: int)
    requires On(f) && On(r)
    ensures At(StandardStart().board, f, r) == Man(White, King) <==> f == 4 && r == 0
    ensures At(StandardStart().board, f, r) == Man(Black, King) <==> f == 4 && r == 7
    ensures IsPawn(At(StandardStart().board, f, r)) ==> r == 1 || r == 6
  {
    InitialAt(f, r);
  }

  lemma {:induction false} StartHasKings()
    ensures OneKing(StandardStart().board, White, 4, 0) && OneKing(StandardStart().board, Black, 4, 7)
    ensures NoEdgePawns(StandardStart().board)
  {
    var b := StandardStart().board;
    forall f, r | 0 <= f < 8 && 0 <= r < 8
      ensures At(b, f, r) == Man(White, King) <==> f == 4 && r == 0
      ensures At(b, f, r) == Man(Black, King) <==> f == 4 && r == 7
      ensures IsPawn(At(b, f, r)) ==> r == 1 || r == 6
    {
      InitialKings(f, r);
    }
  }

  /** The standard start is sound. */
  lemma {:induction false} StartIsSound()
    ensures Sound(StandardStart())
  {
    var p := StandardStart();
    StartHasKings();
    OneKingHit(p.board, Black, 4, 7);
    forall f, r | On(f) && On(r)
      ensures !Hits(p.board, White, f, r, 4, 7)
    {
      NothingHitsAtStart(f, r);
    }
    CheckIsHit(p);
  }

  lemma {:induction false} NothingHitsAtStart(f: int, r: int)
    requires On(f) && On(r)
    ensures !Hits(StandardStart().board, White, f, r, 4, 7)
  {
    var b := StandardStart().board;
    InitialAt(f, r);
    if Own(b, White, f, r) && Slides(At(b, f, r).kind) {
      SliderHits(b, White, f, r, 4, 7);
      var x := Go(f, Toward(f, 4), 1);
      InitialAt(x, 1);
      assert Aligned(At(b, f, r).kind, f, r, 4, 7) ==> Go(r, Toward(r, 7), 1) == 1 && Distance(f, r, 4, 7) > 1;
    }
  }
}
