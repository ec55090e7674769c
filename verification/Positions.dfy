/** The men, the board and the per-game state that the move code works on.

    A board is 64 squares in file-major order, as the server's board[file][rank];
    the colour bit and the piece number of a square are kept apart in `Piece`. */
module Positions {
  datatype Color = White | Black {
    function Toggle(): Color { if White? then Black else White }

    /** The row of this colour in the two-row tables. */
    function Row(): nat { if White? then 0 else 1 }

    /** The rank the colour's king and rooks start on. */
    function Home(): int { if White? then 0 else 7 }

    /** The rank step of the colour's pawns. */
    function Forward(): int { if White? then 1 else -1 }
  }

  datatype Kind = Pawn | Knight | Bishop | Rook | Queen | King

  datatype Piece = Empty | Man(color: Color, kind: Kind)

  predicate On(x: int) { 0 <= x < 8 }

  type Board = b: seq<Piece> | |b| == 64 witness seq(64, _ => Empty)

  function At(b: Board, f: int, r: int): Piece
    requires On(f) && On(r)
  {
    b[8 * f + r]
  }

  function Put(b: Board, f: int, r: int, p: Piece): Board
    requires On(f) && On(r)
  {
    b[8 * f + r := p]
  }

  predicate Own(b: Board, c: Color, f: int, r: int)
    requires On(f) && On(r)
  {
    At(b, f, r).Man? && At(b, f, r).color == c
  }

  /** One row of eight en-passant flags a colour: 1 or -1 names the neighbouring
      file whose pawn has just advanced two squares. */
  type EpFlags = s: seq<int> | |s| == 16 witness seq(16, _ => 0)

  function EpAt(ep: EpFlags, c: Color, f: int): int
    requires On(f)
  {
    ep[8 * c.Row() + f]
  }

  /** Five counters a colour: the men, pawn to queen, that may be dropped. */
  type Holding = s: seq<int> | |s| == 10 witness seq(10, _ => 0)

  function HoldSlot(c: Color, k: Kind): (i: int)
    requires k != King
    ensures 0 <= i < 10
  {
    5 * c.Row() + match k case Pawn => 0 case Knight => 1 case Bishop => 2 case Rook => 3 case _ => 4
  }

  /** Which kings and rooks have moved. */
  datatype MovedFlags = MovedFlags(
    wkmoved: bool, wqrmoved: bool, wkrmoved: bool,
    bkmoved: bool, bqrmoved: bool, bkrmoved: bool)
  {
    predicate King(c: Color) { if c.White? then wkmoved else bkmoved }
  }

  datatype Position = Position(
    board: Board,
    holding: Holding,
    moved: MovedFlags,
    ep: EpFlags,
    lastIrreversible: int,
    onMove: Color,
    moveNum: int)
  {
    predicate KingMoved(c: Color) { moved.King(c) }
  }

  /** What a position knows of the game it belongs to: the length of the game's
      move list and whether it is linked to a partner's bughouse board. */
  datatype Table = NoGame | InGame(numHalfMoves: nat, linked: bool) {
    predicate Bughouse() { InGame? && linked }
  }

  datatype Origin = Square(file: int, rank: int) | Drop(man: Kind)

  datatype Move = Move(
    color: Color,
    from: Origin,
    toFile: int, toRank: int,
    pieceCaptured: Piece,
    piecePromotionTo: Piece,
    enPassant: int,
    doublePawn: int)

  datatype Outcome = Ok | Illegal | Stalemate | Checkmate | Ambiguous | NoMaterial

  /** Boards that agree on every square are equal. */
  lemma {:induction false} BoardsEqual(a: Board, b: Board)
    requires forall f, r :: On(f) && On(r) ==> At(a, f, r) == At(b, f, r)
    ensures a == b
  {
    forall i | 0 <= i < 64
      ensures a[i] == b[i]
    {
      assert At(a, i / 8, i % 8) == At(b, i / 8, i % 8);
    }
  }

  const EMPTY_BOARD: Board := seq(64, _ => Empty)

  /** The man of the initial array on a square. */
  function InitialMan(f: int, r: int): Piece
    requires On(f) && On(r)
  {
    if r == 1 then Man(White, Pawn)
    else if r == 6 then Man(Black, Pawn)
    else if r == 0 || r == 7 then
      Man(if r == 0 then White else Black,
          match f
          case 0 => Rook case 1 => Knight case 2 => Bishop case 3 => Queen
          case 4 => King case 5 => Bishop case 6 => Knight case _ => Rook)
    else Empty
  }

  function StandardStart(): Position {
    Position(seq(64, i requires 0 <= i < 64 => InitialMan(i / 8, i % 8)), seq(10, _ => 0),
             MovedFlags(false, false, false, false, false, false), seq(16, _ => 0), -1, White, 1)
  }
}
