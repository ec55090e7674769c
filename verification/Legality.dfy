/** When a man may go from one square to another, who stands in check, and what
    playing a move does to a position. */
module Legality {
  import opened Positions

  function Abs(x: int): int { if x < 0 then -x else x }

  /** -1, 0 or 1: the direction from a coordinate to another. */
  function Toward(a: int, b: int): int { if a < b then 1 else if a > b then -1 else 0 }

  /** The coordinate k steps from x in direction d. */
  function Go(x: int, d: int, k: int): int { if d > 0 then x + k else if d < 0 then x - k else x }

  /** Nothing stands on the first n - 1 squares from (f, r) in direction (dx, dy). */
  ghost predicate Clear(b: Board, f: int, r: int, dx: int, dy: int, n: int) {
    forall k :: 0 < k < n && On(Go(f, dx, k)) && On(Go(r, dy, k)) ==> At(b, Go(f, dx, k), Go(r, dy, k)) == Empty
  }

  predicate PawnMove(p: Position, ff: int, fr: int, tf: int, tr: int)
    requires On(ff) && On(fr) && On(tf) && On(tr)
  {
    if ff == tf then
      && At(p.board, tf, tr) == Empty
      && (if p.onMove.White? then
            tr - fr == 1 || (fr == 1 && tr - fr == 2 && At(p.board, ff, 2) == Empty)
          else
            fr - tr == 1 || (fr == 6 && fr - tr == 2 && At(p.board, ff, 5) == Empty))
    else if Abs(ff - tf) != 1 || Abs(fr - tr) != 1 then false
    else if p.onMove.White? then
      && fr <= tr
      && (|| Own(p.board, Black, tf, tr)
          || (EpAt(p.ep, White, ff) == 1 && tf == ff + 1 && At(p.board, ff + 1, fr) == Man(Black, Pawn))
          || (EpAt(p.ep, White, ff) == -1 && tf == ff - 1 && At(p.board, ff - 1, fr) == Man(Black, Pawn)))
    else
      && tr <= fr
      && (|| Own(p.board, White, tf, tr)
          || (EpAt(p.ep, Black, ff) == 1 && tf == ff + 1 && At(p.board, ff + 1, fr) == Man(White, Pawn))
          || (EpAt(p.ep, Black, ff) == -1 && tf == ff - 1 && At(p.board, ff - 1, fr) == Man(White, Pawn)))
  }

  predicate KnightMove(ff: int, fr: int, tf: int, tr: int) {
    var dx, dy := ff - tf, fr - tr;
    (Abs(dx) == 2 && Abs(dy) == 1) || (Abs(dy) == 2 && Abs(dx) == 1)
  }

  ghost predicate BishopMove(b: Board, ff: int, fr: int, tf: int, tr: int) {
    Abs(ff - tf) == Abs(fr - tr) && Clear(b, ff, fr, Toward(ff, tf), Toward(fr, tr), Abs(ff - tf))
  }

  ghost predicate RookMove(b: Board, ff: int, fr: int, tf: int, tr: int) {
    || (ff == tf && Clear(b, ff, fr, 0, Toward(fr, tr), Abs(fr - tr)))
    || (fr == tr && Clear(b, ff, fr, Toward(ff, tf), 0, Abs(ff - tf)))
  }

  ghost predicate QueenMove(b: Board, ff: int, fr: int, tf: int, tr: int) {
    RookMove(b, ff, fr, tf, tr) || BishopMove(b, ff, fr, tf, tr)
  }

  predicate KingStep(ff: int, fr: int, tf: int, tr: int) {
    Abs(ff - tf) <= 1 && Abs(fr - tr) <= 1
  }

  datatype Side = KingSide | QueenSide {
    function KingTo(): int { if KingSide? then 6 else 2 }
    function Transit(): int { if KingSide? then 5 else 3 }
    function RookFrom(): int { if KingSide? then 7 else 0 }
  }

  predicate RookMoved(p: Position, c: Color, side: Side) {
    match (c, side)
    case (White, KingSide) => p.moved.wkrmoved
    case (White, QueenSide) => p.moved.wqrmoved
    case (Black, KingSide) => p.moved.bkrmoved
    case (Black, QueenSide) => p.moved.bqrmoved
  }

  /** The side to move may castle on the given side. */
  ghost predicate Castles(p: Position, side: Side)
    decreases 1, 0
  {
    var c := p.onMove;
    var h := c.Home();
    && !p.KingMoved(c)
    && !RookMoved(p, c, side)
    && At(p.board, side.Transit(), h) == Empty
    && At(p.board, side.KingTo(), h) == Empty
    && (side.QueenSide? ==> At(p.board, 1, h) == Empty)
    && At(p.board, side.RookFrom(), h) == Man(c, Rook)
    && !SquareAttacked(p, 4, h)
    && !SquareAttacked(p, side.Transit(), h)
  }

  /** The position with the king of the side to move lifted from the e-file to
      (kf, kr), and the enemy to move. */
  function KingLifted(p: Position, kf: int, kr: int): Position
    requires On(kf) && On(kr)
  {
    p.(board := Put(Put(p.board, 4, kr, Empty), kf, kr, Man(p.onMove, King)), onMove := p.onMove.Toggle())
  }

  ghost predicate SquareAttacked(p: Position, kf: int, kr: int)
    requires On(kf) && On(kr)
    decreases 0, 4
  {
    InCheck(KingLifted(p, kf, kr))
  }

  /** A move onto an occupied square is never castling, so it needs no look at
      attacks; this is what ends the recursion. */
  ghost predicate KingMove(p: Position, ff: int, fr: int, tf: int, tr: int)
    requires On(ff) && On(fr) && On(tf) && On(tr)
    decreases if At(p.board, tf, tr) == Empty then 1 else 0, 1
  {
    || (ff == 4 && fr == tr == p.onMove.Home() && At(p.board, tf, tr) == Empty
        && ((tf == 6 && Castles(p, KingSide)) || (tf == 2 && Castles(p, QueenSide))))
    || KingStep(ff, fr, tf, tr)
  }

  ghost predicate LegalMove(p: Position, ff: int, fr: int, tf: int, tr: int)
    requires On(ff) && On(fr) && On(tf) && On(tr)
    decreases if At(p.board, tf, tr) == Empty then 1 else 0, 2
  {
    && Own(p.board, p.onMove, ff, fr)
    && !Own(p.board, p.onMove, tf, tr)
    && !(ff == tf && fr == tr)
    && match At(p.board, ff, fr).kind
       case Pawn => PawnMove(p, ff, fr, tf, tr)
       case Knight => KnightMove(ff, fr, tf, tr)
       case Bishop => BishopMove(p.board, ff, fr, tf, tr)
       case Rook => RookMove(p.board, ff, fr, tf, tr)
       case Queen => QueenMove(p.board, ff, fr, tf, tr)
       case King => KingMove(p, ff, fr, tf, tr)
  }

  predicate LegalDrop(p: Position, man: Kind, tf: int, tr: int)
    requires On(tf) && On(tr)
  {
    && man != King
    && p.holding[HoldSlot(p.onMove, man)] != 0
    && At(p.board, tf, tr) == Empty
    && !(man == Pawn && (tr == 0 || tr == 7))
  }

  /** The order of a scan that goes file by file. */
  predicate Earlier(f: int, r: int, x: int, y: int) { f < x || (f == x && r < y) }

  /** (kf, kr) holds the king of colour c that a file-by-file scan meets first. */
  ghost predicate IsFirstKing(b: Board, c: Color, kf: int, kr: int) {
    && On(kf) && On(kr)
    && At(b, kf, kr) == Man(c, King)
    && forall f, r :: On(f) && On(r) && Earlier(f, r, kf, kr) ==> At(b, f, r) != Man(c, King)
  }

  /** The side that is not about to move stands in check. */
  ghost predicate InCheck(p: Position)
    decreases 0, 3
  {
    exists kf, kr ::
      && IsFirstKing(p.board, p.onMove.Toggle(), kf, kr)
      && exists f, r :: On(f) && On(r) && LegalMove(p, f, r, kf, kr)
  }

  /** The origin is a square of the board or a drop, and the target is on the board. */
  predicate InRange(from: Origin, tf: int, tr: int) {
    (from.Square? ==> On(from.file) && On(from.rank)) && On(tf) && On(tr)
  }

  ghost predicate Legal(p: Position, from: Origin, tf: int, tr: int)
    requires InRange(from, tf, tr)
  {
    match from
    case Square(f, r) => LegalMove(p, f, r, tf, tr)
    case Drop(man) => LegalDrop(p, man, tf, tr)
  }

  predicate IsPawn(q: Piece) { q.Man? && q.kind == Pawn }

  predicate IsKing(q: Piece) { q.Man? && q.kind == King }

  predicate IsRook(q: Piece) { q.Man? && q.kind == Rook }

  /** The move record as it stands before the move is executed. */
  function MoveRecord(p: Position, from: Origin, tf: int, tr: int, promote: Kind): Move
    requires InRange(from, tf, tr)
  {
    var captured := At(p.board, tf, tr);
    match from
    case Drop(_) => Move(p.onMove, from, tf, tr, captured, Empty, 0, -1)
    case Square(f, r) =>
      var q := At(p.board, f, r);
      Move(p.onMove, from, tf, tr, captured,
           if IsPawn(q) && (tr == 0 || tr == 7) then Man(q.color, promote) else Empty,
           0,
           if IsPawn(q) && Abs(r - tr) == 2 then f else -1)
  }

  /** A pawn that changes file onto an empty square takes en passant. */
  predicate TakesEnPassant(b: Board, m: Move)
    requires m.from.Square? && InRange(m.from, m.toFile, m.toRank)
  {
    IsPawn(At(b, m.from.file, m.from.rank)) && m.from.file != m.toFile && At(b, m.toFile, m.toRank) == Empty
  }

  /** The rook's share of castling, for a king going from the e-file to (tf, tr). */
  function CastleRook(b: Board, ff: int, tf: int, tr: int): Board
    requires On(tr)
  {
    if ff == 4 && tf == 6 then Put(Put(b, 5, tr, At(b, 7, tr)), 7, tr, Empty)
    else if ff == 4 && tf == 2 then Put(Put(b, 3, tr, At(b, 0, tr)), 0, tr, Empty)
    else b
  }

  /** The board after the move of side c. */
  function BoardAfter(b: Board, c: Color, m: Move): Board
    requires InRange(m.from, m.toFile, m.toRank)
  {
    match m.from
    case Drop(man) => Put(b, m.toFile, m.toRank, Man(c, man))
    case Square(ff, fr) =>
      var moved := At(b, ff, fr);
      var arrives := if m.piecePromotionTo == Empty then moved else Man(c, m.piecePromotionTo.kind);
      var b1 := Put(Put(b, m.toFile, m.toRank, arrives), ff, fr, Empty);
      var b2 := if TakesEnPassant(b, m) then Put(b1, m.toFile, fr, Empty) else b1;
      if IsKing(moved) then CastleRook(b2, ff, m.toFile, m.toRank) else b2
  }

  /** The flags after a two-square advance of c's pawn to (tf, _): each enemy pawn
      beside it may take it on the next move. */
  function EpMarks(b: Board, c: Color, tf: int): (ep: EpFlags)
    requires On(tf)
  {
    var none := seq(16, _ => 0);
    var row := 8 * c.Toggle().Row();
    var rank := if c.White? then 3 else 4;
    var right := if tf < 7 && At(b, tf + 1, rank) == Man(c.Toggle(), Pawn) then none[row + tf + 1 := -1] else none;
    if tf - 1 >= 0 && At(b, tf - 1, rank) == Man(c.Toggle(), Pawn) then right[row + tf - 1 := 1] else right
  }

  function EpAfter(b: Board, after: Board, c: Color, m: Move): EpFlags
    requires m.from.Square? && InRange(m.from, m.toFile, m.toRank)
  {
    if IsPawn(At(b, m.from.file, m.from.rank)) && Abs(m.from.rank - m.toRank) == 2 then
      EpMarks(after, c, m.toFile)
    else seq(16, _ => 0)
  }

  /** The half-move count kept at captures, pawn moves and drops. */
  function Irreversible(p: Position, m: Move, t: Table): int
    requires InRange(m.from, m.toFile, m.toRank)
  {
    if t.InGame? && (m.from.Drop? || IsPawn(At(p.board, m.from.file, m.from.rank))
        || At(p.board, m.toFile, m.toRank) != Empty)
    then t.numHalfMoves else p.lastIrreversible
  }

  /** A man of colour c has left (ff, fr): a rook from its corner and a king from
      anywhere lose the right to castle. */
  function MovedAfter(f: MovedFlags, c: Color, man: Piece, ff: int, fr: int): MovedFlags {
    MovedFlags(
      f.wkmoved || (IsKing(man) && c.White?),
      f.wqrmoved || (IsRook(man) && ff == 0 && fr == 0 && c.White?),
      f.wkrmoved || (IsRook(man) && ff == 7 && fr == 0 && c.White?),
      f.bkmoved || (IsKing(man) && c.Black?),
      f.bqrmoved || (IsRook(man) && ff == 0 && fr == 7 && c.Black?),
      f.bkrmoved || (IsRook(man) && ff == 7 && fr == 7 && c.Black?))
  }

  /** After Black's move the move number goes up. */
  function Numbered(p: Position): Position { p.(moveNum := if p.onMove.Black? then p.moveNum + 1 else p.moveNum) }

  function PassTurn(p: Position): Position { p.(onMove := p.onMove.Toggle()) }

  function Dropped(p: Position, m: Move, t: Table): Position
    requires InRange(m.from, m.toFile, m.toRank) && m.from.Drop? && m.from.man != King
  {
    var slot := HoldSlot(p.onMove, m.from.man);
    p.(board := BoardAfter(p.board, p.onMove, m), holding := p.holding[slot := p.holding[slot] - 1],
       lastIrreversible := Irreversible(p, m, t))
  }

  function Stepped(p: Position, m: Move, t: Table): Position
    requires InRange(m.from, m.toFile, m.toRank) && m.from.Square?
  {
    var after := BoardAfter(p.board, p.onMove, m);
    p.(
      board := after, moved := MovedAfter(p.moved, p.onMove, At(p.board, m.from.file, m.from.rank), m.from.file,
          m.from.rank),
      ep := EpAfter(p.board, after, p.onMove, m), lastIrreversible := Irreversible(p, m, t))
  }

  /** All that a move changes except whose turn it is. */
  function Applied(p: Position, m: Move, t: Table): Position
    requires InRange(m.from, m.toFile, m.toRank)
    requires m.from.Drop? ==> m.from.man != King
  {
    Numbered(if m.from.Drop? then Dropped(p, m, t) else Stepped(p, m, t))
  }

  /** The position after the move, with the other side to move. */
  function Execute(p: Position, m: Move, t: Table): Position
    requires InRange(m.from, m.toFile, m.toRank)
    requires m.from.Drop? ==> m.from.man != King
  {
    PassTurn(Applied(p, m, t))
  }

  /** The move record with what executing the move finds out about it. */
  function Recorded(p: Position, m: Move): Move
    requires InRange(m.from, m.toFile, m.toRank)
  {
    if m.from.Square? && TakesEnPassant(p.board, m) then
      m.(pieceCaptured := Man(p.onMove.Toggle(), Pawn), enPassant := if m.from.file > m.toFile then -1 else 1)
    else m
  }

  /** A move that passes the geometry and does not leave its own king in check. */
  ghost predicate Accepted(p: Position, from: Origin, tf: int, tr: int, promote: Kind, t: Table)
    requires InRange(from, tf, tr)
  {
    Legal(p, from, tf, tr) && !InCheck(Execute(p, MoveRecord(p, from, tf, tr, promote), t))
  }

  /** The test used when looking for moves: promotion is taken to be to a queen. */
  ghost predicate LegalAndCheck(p: Position, from: Origin, tf: int, tr: int, t: Table)
    requires InRange(from, tf, tr)
  {
    Accepted(p, from, tf, tr, Queen, t)
  }

  /** Some man on the board can make a move. */
  ghost predicate HasBoardMove(p: Position, t: Table) {
    exists ff, fr, tf, tr :: On(ff) && On(fr) && On(tf) && On(tr) && LegalAndCheck(p, Square(ff, fr), tf, tr, t)
  }
}
