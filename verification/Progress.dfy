/** What the server keeps count of, over whole games: what it notes as irreversible is so, moves are numbered
    as players number them, and the flags for castling tell who has moved. */
module Progress {
  import opened Positions
  import opened Legality
  import opened Targets
  import opened Runs
  import opened Bughouse

  /** What a man on a rank still has before it: a pawn its steps, and every man its life. */
  function Left(q: Piece, r: int): int
    requires On(r)
  {
    if q.Empty? then 0 else if q.kind != Pawn then 1 else if q.color == White then 8 - r else 1 + r
  }

  /** The sum over the first n squares of the scan. */
  function LeftOn(b: Board, n: nat): int
    requires n <= 64
  {
    if n == 0 then 0 else LeftOn(b, n - 1) + Left(b[n - 1], (n - 1) % 8)
  }

  lemma {:induction false} LeftReplaced(b: Board, i: nat, q: Piece, n: nat)
    requires i < 64 && n <= 64
    ensures LeftOn(b[i := q], n) == LeftOn(b, n) + if i < n then Left(q, i % 8) - Left(b[i], i % 8) else 0
    decreases n
  {
    if n > 0 {
      LeftReplaced(b, i, q, n - 1);
    }
  }

  lemma {:induction false} LeftPut(b: Board, f: int, r: int, q: Piece)
    requires On(f) && On(r)
    ensures LeftOn(Put(b, f, r, q), 64) == LeftOn(b, 64) + Left(q, r) - Left(At(b, f, r), r)
  {
    LeftReplaced(b, 8 * f + r, q, 64);
    assert (8 * f + r) % 8 == r;
  }

  lemma {:induction false} LeftStep(b: Board, f: int, r: int, tf: int, tr: int, q: Piece)
    requires On(f) && On(r) && On(tf) && On(tr) && (f, r) != (tf, tr)
    ensures LeftOn(Put(Put(b, tf, tr, q), f, r, Empty), 64)
         == LeftOn(b, 64) + Left(q, tr) - Left(At(b, tf, tr), tr) - Left(At(b, f, r), r)
  {
    LeftPut(b, tf, tr, q);
    LeftPut(Put(b, tf, tr, q), f, r, Empty);
  }

  /** The move takes something, or moves a pawn. */
  predicate Decides(p: Position, f: int, r: int, tf: int, tr: int)
    requires On(f) && On(r) && On(tf) && On(tr)
  {
    At(p.board, tf, tr) != Empty || At(p.board, f, r) == Man(p.onMove, Pawn)
  }

  lemma {:induction false} PlainDecides(p: Position, f: int, r: int, tf: int, tr: int, k: Kind)
    requires On(f) && On(r) && On(tf) && On(tr) && Plain(p, f, r, tf, tr) && k != Pawn
    ensures var m := MoveRecord(p, Square(f, r), tf, tr, k);
      var a, b := LeftOn(BoardAfter(p.board, p.onMove, m), 64), LeftOn(p.board, 64);
      if Decides(p, f, r, tf, tr) then a < b else a == b
  {
    var m := MoveRecord(p, Square(f, r), tf, tr, k);
    var arrives := Arriving(p, f, r, m);
    PlainBoard(p, f, r, tf, tr, k);
    LeftStep(p.board, f, r, tf, tr, arrives);
    if TakesEnPassant(p.board, m) {
      EnPassantVictim(p, f, r, tf, tr);
      LeftPut(Put(Put(p.board, tf, tr, arrives), f, r, Empty), tf, r, Empty);
    }
    if At(p.board, f, r) == Man(p.onMove, Pawn) {
      PawnComesNearer(p, f, r, tf, tr, arrives, k);
    }
  }

  lemma {:induction false} PawnComesNearer(p: Position, f: int, r: int, tf: int, tr: int, arrives: Piece, k: Kind)
    requires On(f) && On(r) && On(tf) && On(tr) && PawnMove(p, f, r, tf, tr) && k != Pawn
    requires arrives == if tr == 0 || tr == 7 then Man(p.onMove, k) else Man(p.onMove, Pawn)
    ensures Left(arrives, tr) < Left(Man(p.onMove, Pawn), r)
  {
  }

  lemma {:induction false} CastlingKeepsLeft(p: Position, f: int, r: int, tf: int, tr: int, k: Kind)
    requires On(f) && On(r) && On(tf) && On(tr) && Castling(p, f, r, tf, tr)
    ensures LeftOn(BoardAfter(p.board, p.onMove, MoveRecord(p, Square(f, r), tf, tr, k)), 64) == LeftOn(p.board, 64)
    ensures !Decides(p, f, r, tf, tr)
  {
    var side := if tf == 6 then KingSide else QueenSide;
    assert Castles(p, side);
    var b1 := Put(Put(p.board, tf, tr, Man(p.onMove, King)), f, r, Empty);
    LeftStep(p.board, f, r, tf, tr, Man(p.onMove, King));
    LeftStep(b1, side.RookFrom(), r, side.Transit(), r, Man(p.onMove, Rook));
  }

  /** A move on the board in a game is noted as irreversible exactly when less is left after it; otherwise as
      much is left as before. */
  lemma {:induction false} NotedIsIrreversible(p: Position, ch: Choice, n: nat, linked: bool)
    requires Allowed(p, ch, Seat(n, linked)) && ch.from.Square?
    ensures var q := Played(p, ch, Seat(n, linked));
      if LeftOn(q.board, 64) == LeftOn(p.board, 64) then q.lastIrreversible == p.lastIrreversible
      else LeftOn(q.board, 64) < LeftOn(p.board, 64) && q.lastIrreversible == n + 1
  {
    var f, r := ch.from.file, ch.from.rank;
    LegalIsPlainOrCastling(p, f, r, ch.toFile, ch.toRank);
    if Castling(p, f, r, ch.toFile, ch.toRank) {
      CastlingKeepsLeft(p, f, r, ch.toFile, ch.toRank, ch.promote);
    } else {
      PlainDecides(p, f, r, ch.toFile, ch.toRank, ch.promote);
    }
    NotedWhen(p, ch, n, linked);
  }

  lemma {:induction false} NotedWhen(p: Position, ch: Choice, n: nat, linked: bool)
    requires Allowed(p, ch, Seat(n, linked)) && ch.from.Square?
    ensures Played(p, ch, Seat(n, linked)).lastIrreversible
         == if Decides(p, ch.from.file, ch.from.rank, ch.toFile, ch.toRank) then n + 1 else p.lastIrreversible
  {
  }

  /** A drop is always noted. */
  lemma {:induction false} DropIsNoted(p: Position, ch: Choice, n: nat, linked: bool)
    requires Allowed(p, ch, Seat(n, linked)) && ch.from.Drop?
    ensures Played(p, ch, Seat(n, linked)).lastIrreversible == n + 1
  {
  }

  /** Only moves on the board happen. */
  predicate OnBoard(es: seq<Event>) { forall i :: 0 <= i < |es| ==> es[i].Play? && es[i].choice.from.Square? }

  /** Along a game without drops less and less is left; what is noted stays as it was exactly while nothing is lost,
      and else is the number of one of the moves. */
  lemma {:induction false} RunWearsDown(p: Position, n: nat, linked: bool, es: seq<Event>)
    requires IsRun(p, n, linked, es) && OnBoard(es)
    ensures var q := RunEnd(p, n, linked, es);
      if LeftOn(q.board, 64) == LeftOn(p.board, 64) then q.lastIrreversible == p.lastIrreversible
      else LeftOn(q.board, 64) < LeftOn(p.board, 64) && n < q.lastIrreversible <= n + |es|
    decreases |es|
  {
    if es != [] {
      NotedIsIrreversible(p, es[0].choice, n, linked);
      RunWearsDown(Played(p, es[0].choice, Seat(n, linked)), n + 1, linked, es[1..]);
    }
  }

  /** Hence a board that comes back was only left by moves that are not noted. */
  lemma {:induction false} NothingNotedComesBack(p: Position, n: nat, linked: bool, es: seq<Event>)
    requires IsRun(p, n, linked, es) && OnBoard(es) && RunEnd(p, n, linked, es).board == p.board
    ensures RunEnd(p, n, linked, es).lastIrreversible == p.lastIrreversible
  {
    RunWearsDown(p, n, linked, es);
  }

  function MovesIn(es: seq<Event>): nat { if es == [] then 0 else (if es[0].Play? then 1 else 0) + MovesIn(es[1..]) }

  /** Two moves to a number, White's first. */
  function HalfMoves(p: Position): int { 2 * p.moveNum + if p.onMove == Black then 1 else 0 }

  /** Moves follow one another in number and turn; what the partner hands over does not count. */
  lemma {:induction false} RunIsNumbered(p: Position, n: nat, linked: bool, es: seq<Event>)
    requires IsRun(p, n, linked, es)
    ensures HalfMoves(RunEnd(p, n, linked, es)) == HalfMoves(p) + MovesIn(es)
    decreases |es|
  {
    if es != [] {
      var t := Seat(n, linked);
      match es[0] {
        case Play(ch) => PlayIsNumbered(p, ch, t);
        case Receive(_, _) =>
      }
      RunIsNumbered(Next(p, es[0], t), n + (if es[0].Play? then 1 else 0), linked, es[1..]);
    }
  }

  lemma {:induction false} PlayIsNumbered(p: Position, ch: Choice, t: Table)
    requires Fits(ch)
    ensures HalfMoves(Played(p, ch, t)) == HalfMoves(p) + 1
  {
  }

  /** After k moves from the standard start the number is k / 2 + 1, and White is to move just if k is even. */
  lemma {:induction false} GameIsNumbered(n: nat, linked: bool, es: seq<Event>)
    requires IsRun(StandardStart(), n, linked, es)
    ensures var end, k := RunEnd(StandardStart(), n, linked, es), MovesIn(es);
      end.moveNum == k / 2 + 1 && (end.onMove == White <==> k % 2 == 0)
  {
    RunIsNumbered(StandardStart(), n, linked, es);
  }

  /** The event takes this man away from the square. */
  predicate Leaves(p: Position, e: Event, man: Piece, f: int, r: int)
    requires On(f) && On(r)
  {
    e.Play? && e.choice.from == Square(f, r) && At(p.board, f, r) == man && man.Man? && man.color == p.onMove
  }

  /** At some time in the run such a man leaves the square. */
  ghost predicate EverLeaves(p: Position, n: nat, linked: bool, es: seq<Event>, man: Piece, f: int, r: int)
    requires IsRun(p, n, linked, es) && On(f) && On(r)
    decreases |es|
  {
    es != [] && (
      || Leaves(p, es[0], man, f, r)
      || EverLeaves(Next(p, es[0], Seat(n, linked)), n + (if es[0].Play? then 1 else 0), linked, es[1..], man, f, r))
  }

  /** The flag of the rook of colour c in the corner of a file. */
  function RookFlag(p: Position, c: Color, f: int): bool {
    if c == White then (if f == 0 then p.moved.wqrmoved else p.moved.wkrmoved)
    else if f == 0 then p.moved.bqrmoved else p.moved.bkrmoved
  }

  lemma {:induction false} LeavingIsFlagged(p: Position, e: Event, t: Table, c: Color, f: int)
    requires Happens(p, e, t) && (f == 0 || f == 7)
    ensures var r := if c == White then 0 else 7;
      RookFlag(Next(p, e, t), c, f) <==> RookFlag(p, c, f) || Leaves(p, e, Man(c, Rook), f, r)
  {
  }

  /** A corner's flag tells exactly whether a rook of its side has left it. */
  lemma {:induction false} FlagsTell(p: Position, n: nat, linked: bool, es: seq<Event>, c: Color, f: int)
    requires IsRun(p, n, linked, es) && (f == 0 || f == 7)
    ensures var r := if c == White then 0 else 7;
      RookFlag(RunEnd(p, n, linked, es), c, f) <==>
        RookFlag(p, c, f) || EverLeaves(p, n, linked, es, Man(c, Rook), f, r)
    decreases |es|
  {
    if es != [] {
      var t := Seat(n, linked);
      LeavingIsFlagged(p, es[0], t, c, f);
      FlagsTell(Next(p, es[0], t), n + (if es[0].Play? then 1 else 0), linked, es[1..], c, f);
    }
  }

  /** The event moves the king of colour c. */
  predicate KingLeaves(p: Position, e: Event, c: Color) {
    && e.Play? && e.choice.from.Square? && On(e.choice.from.file) && On(e.choice.from.rank)
    && c == p.onMove && At(p.board, e.choice.from.file, e.choice.from.rank) == Man(c, King)
  }

  ghost predicate KingEverLeaves(p: Position, n: nat, linked: bool, es: seq<Event>, c: Color)
    requires IsRun(p, n, linked, es)
    decreases |es|
  {
    es != [] && (
      || KingLeaves(p, es[0], c)
      || KingEverLeaves(Next(p, es[0], Seat(n, linked)), n + (if es[0].Play? then 1 else 0), linked, es[1..], c))
  }

  lemma {:induction false} KingIsFlagged(p: Position, e: Event, t: Table, c: Color)
    requires Happens(p, e, t)
    ensures Next(p, e, t).KingMoved(c) <==> p.KingMoved(c) || KingLeaves(p, e, c)
  {
  }

  /** A king's flag tells exactly whether it has moved at all. */
  lemma {:induction false} KingFlagTells(p: Position, n: nat, linked: bool, es: seq<Event>, c: Color)
    requires IsRun(p, n, linked, es)
    ensures RunEnd(p, n, linked, es).KingMoved(c) <==> p.KingMoved(c) || KingEverLeaves(p, n, linked, es, c)
    decreases |es|
  {
    if es != [] {
      var t := Seat(n, linked);
      KingIsFlagged(p, es[0], t, c);
      KingFlagTells(Next(p, es[0], t), n + (if es[0].Play? then 1 else 0), linked, es[1..], c);
    }
  }
}
