/** Two linked games: what is captured on one board is handed over to the other. */
module Bughouse {
  import opened Positions
  import opened Legality
  import opened Targets
  import opened GameStates
  import opened Judgement
  import opened Runs

  predicate Is(q: Piece, c: Color) { q.Man? && q.color == c }

  function One(q: Piece, c: Color): nat { if Is(q, c) then 1 else 0 }

  /** How many men of a colour there are. */
  function CountMen(s: seq<Piece>, c: Color): nat {
    if s == [] then 0 else One(s[0], c) + CountMen(s[1..], c)
  }

  function Held(h: Holding, c: Color): int {
    var row := 5 * c.Row();
    h[row] + h[row + 1] + h[row + 2] + h[row + 3] + h[row + 4]
  }

  lemma {:induction false} CountReplaced(s: seq<Piece>, i: nat, q: Piece, c: Color)
    requires i < |s|
    ensures CountMen(s[i := q], c) == CountMen(s, c) - One(s[i], c) + One(q, c)
    decreases |s|
  {
    if i > 0 {
      CountReplaced(s[1..], i - 1, q, c);
      assert s[i := q][1..] == s[1..][i - 1 := q];
    }
  }

  lemma {:induction false} CountPut(b: Board, f: int, r: int, q: Piece, c: Color)
    requires On(f) && On(r)
    ensures CountMen(Put(b, f, r, q), c) == CountMen(b, c) - One(At(b, f, r), c) + One(q, c)
  {
    CountReplaced(b, 8 * f + r, q, c);
  }

  /** A man lands on (tf, tr) from (f, r): what stood there before is gone. */
  lemma {:induction false} CountStep(b: Board, f: int, r: int, tf: int, tr: int, q: Piece, c: Color)
    requires On(f) && On(r) && On(tf) && On(tr) && (f, r) != (tf, tr)
    ensures CountMen(Put(Put(b, tf, tr, q), f, r, Empty), c)
         == CountMen(b, c) - One(At(b, tf, tr), c) - One(At(b, f, r), c) + One(q, c)
  {
    CountPut(b, tf, tr, q, c);
    CountPut(Put(b, tf, tr, q), f, r, Empty, c);
  }

  function Arriving(p: Position, f: int, r: int, m: Move): Piece
    requires On(f) && On(r)
  {
    if m.piecePromotionTo == Empty then At(p.board, f, r) else Man(p.onMove, m.piecePromotionTo.kind)
  }

  /** A plain move puts one man from square to square; en passant empties a third. */
  lemma {:induction false} PlainBoard(p: Position, f: int, r: int, tf: int, tr: int, k: Kind)
    requires On(f) && On(r) && On(tf) && On(tr) && Plain(p, f, r, tf, tr)
    ensures var m := MoveRecord(p, Square(f, r), tf, tr, k);
      var b1 := Put(Put(p.board, tf, tr, Arriving(p, f, r, m)), f, r, Empty);
      && BoardAfter(p.board, p.onMove, m) == (if TakesEnPassant(p.board, m) then Put(b1, tf, r, Empty) else b1)
      && Is(Arriving(p, f, r, m), p.onMove)
      && Recorded(p, m).pieceCaptured == if TakesEnPassant(p.board, m) then Man(p.onMove.Toggle(), Pawn)
          else At(p.board, tf, tr)
  {
  }

  /** A move takes nothing off the board but what it records as captured. */
  lemma {:induction false} CountPlain(p: Position, f: int, r: int, tf: int, tr: int, k: Kind, c: Color)
    requires On(f) && On(r) && On(tf) && On(tr) && Plain(p, f, r, tf, tr)
    ensures var m := MoveRecord(p, Square(f, r), tf, tr, k);
      && CountMen(BoardAfter(p.board, p.onMove, m), c) == CountMen(p.board, c) - One(Recorded(p, m).pieceCaptured, c)
      && !Is(Recorded(p, m).pieceCaptured, p.onMove)
  {
    var m := MoveRecord(p, Square(f, r), tf, tr, k);
    var arrives := Arriving(p, f, r, m);
    PlainBoard(p, f, r, tf, tr, k);
    CountStep(p.board, f, r, tf, tr, arrives, c);
    var b1 := Put(Put(p.board, tf, tr, arrives), f, r, Empty);
    if TakesEnPassant(p.board, m) {
      EnPassantVictim(p, f, r, tf, tr);
      CountPut(b1, tf, r, Empty, c);
    }
  }

  lemma {:induction false} EnPassantVictim(p: Position, f: int, r: int, tf: int, tr: int)
    requires On(f) && On(r) && On(tf) && On(tr) && Plain(p, f, r, tf, tr)
    requires IsPawn(At(p.board, f, r)) && f != tf && At(p.board, tf, tr) == Empty
    ensures At(p.board, tf, r) == Man(p.onMove.Toggle(), Pawn) && r != tr
  {
  }

  lemma {:induction false} CountCastling(p: Position, f: int, r: int, tf: int, tr: int, k: Kind, c: Color)
    requires On(f) && On(r) && On(tf) && On(tr) && Castling(p, f, r, tf, tr)
    ensures var m := MoveRecord(p, Square(f, r), tf, tr, k);
      CountMen(BoardAfter(p.board, p.onMove, m), c) == CountMen(p.board, c) && Recorded(p, m).pieceCaptured == Empty
  {
    var side := if tf == 6 then KingSide else QueenSide;
    assert Castles(p, side);
    var b1 := Put(Put(p.board, tf, tr, Man(p.onMove, King)), f, r, Empty);
    CountStep(p.board, f, r, tf, tr, Man(p.onMove, King), c);
    CountStep(b1, side.RookFrom(), r, side.Transit(), r, Man(p.onMove, Rook), c);
  }

  /** The men of each colour on the board and in hand, before and after a move. */
  lemma {:induction false} MoveCounts(p: Position, ch: Choice, t: Table, c: Color)
    requires Allowed(p, ch, t)
    ensures var m := MoveRecord(p, ch.from, ch.toFile, ch.toRank, ch.promote); var q := Played(p, ch, t);
      && CountMen(q.board, c) + Held(q.holding, c)
          == CountMen(p.board, c) + Held(p.holding, c) - One(Recorded(p, m).pieceCaptured, c)
      && !Is(Recorded(p, m).pieceCaptured, p.onMove)
  {
    match ch.from
    case Drop(man) => CountPut(p.board, ch.toFile, ch.toRank, Man(p.onMove, man), c);
    case Square(f, r) =>
      LegalIsPlainOrCastling(p, f, r, ch.toFile, ch.toRank);
      if Castling(p, f, r, ch.toFile, ch.toRank) {
        CountCastling(p, f, r, ch.toFile, ch.toRank, ch.promote, c);
      } else {
        CountPlain(p, f, r, ch.toFile, ch.toRank, ch.promote, c);
      }
  }

  /** Going back over the opponent's moves from the i-th: did the man that is now on (f, r)
      come from a promotion? */
  function PromotedFrom(moves: seq<Move>, i: int, f: int, r: int): bool
    requires i < |moves|
    decreases i
  {
    if i <= 0 then false
    else if moves[i].toFile == f && moves[i].toRank == r then
      if moves[i].piecePromotionTo.Man? then true
      else match moves[i].from
           case Drop(_) => false
           case Square(ff, fr) => PromotedFrom(moves, i - 2, ff, fr)
    else PromotedFrom(moves, i - 2, f, r)
  }

  method WasPromoted(moves: seq<Move>, toFile: int, toRank: int) returns (promoted: bool)
    ensures promoted == PromotedFrom(moves, |moves| - 1, toFile, toRank)
  {
    var i, f, r := |moves| - 1, toFile, toRank;
    while i > 0
      invariant i < |moves| && PromotedFrom(moves, |moves| - 1, toFile, toRank) == PromotedFrom(moves, i, f, r)
    {
      if moves[i].toFile == f && moves[i].toRank == r {
        if moves[i].piecePromotionTo.Man? {
          return true;
        }
        if moves[i].from.Drop? {
          return false;
        }
        f, r := moves[i].from.file, moves[i].from.rank;
      }
      i := i - 2;
    }
    return false;
  }

  /** The man as it is handed over: a promoted one goes back to being a pawn. */
  function Reverted(m: Move, moves: seq<Move>): Piece {
    if m.pieceCaptured.Man? && PromotedFrom(moves, |moves| - 1, m.toFile, m.toRank)
    then Man(m.pieceCaptured.color, Pawn) else m.pieceCaptured
  }

  function Receives(p: Position, man: Piece): Position
    requires !IsKing(man)
  {
    if man.Empty? then p
    else var slot := HoldSlot(man.color, man.kind); p.(holding := p.holding[slot := p.holding[slot] + 1])
  }

  method UpdateHolding(gs: GameState, man: Piece)
    requires gs.Valid() && man.Man? && man.kind != King
    modifies gs.holding
    ensures gs.Snapshot() == Receives(old(gs.Snapshot()), man)
  {
    var slot := HoldSlot(man.color, man.kind);
    gs.holding[slot] := gs.holding[slot] + 1;
    assert gs.holding[..] == old(gs.holding[..])[slot := old(gs.holding[slot]) + 1];
  }

  /** Hands a captured man over to the linked game, if the move did not end the game. */
  method TransferCapture(link: GameState, moves: seq<Move>, recorded: Move, outcome: Outcome)
    requires link.Valid() && !IsKing(recorded.pieceCaptured)
    modifies link.holding
    ensures link.Snapshot() == if outcome == Ok then Receives(old(link.Snapshot()), Reverted(recorded, moves))
            else old(link.Snapshot())
  {
    if outcome == Ok && recorded.pieceCaptured != Empty {
      var promoted := WasPromoted(moves, recorded.toFile, recorded.toRank);
      UpdateHolding(link, if promoted then Man(recorded.pieceCaptured.color, Pawn) else recorded.pieceCaptured);
    }
  }

  /** One of the two games: its position and the moves so far. */
  datatype Half = Half(p: Position, moves: seq<Move>)

  datatype Match = Match(first: Half, second: Half, over: bool)

  /** A player's choice on one of the boards. */
  datatype Turn = Turn(onFirst: bool, choice: Choice)

  function Mover(g: Match, turn: Turn): Half { if turn.onFirst then g.first else g.second }

  function Partner(g: Match, turn: Turn): Half { if turn.onFirst then g.second else g.first }

  function TurnRecord(g: Match, turn: Turn): Move
    requires Fits(turn.choice)
  {
    var p, ch := Mover(g, turn).p, turn.choice;
    Recorded(p, MoveRecord(p, ch.from, ch.toFile, ch.toRank, ch.promote))
  }

  ghost predicate CanTurn(g: Match, turn: Turn) {
    var h := Mover(g, turn);
    !g.over && Allowed(h.p, turn.choice, Seat(|h.moves|, true))
  }

  ghost function AfterTurn(g: Match, turn: Turn): Position
    requires CanTurn(g, turn)
  {
    Played(Mover(g, turn).p, turn.choice, Seat(|Mover(g, turn).moves|, true))
  }

  /** The game that was moved in goes on. */
  ghost predicate GoesOn(g: Match, turn: Turn)
    requires CanTurn(g, turn)
  {
    Status(AfterTurn(g, turn), Seat(|Mover(g, turn).moves|, true)) == Ok
  }

  function HandedOver(g: Match, turn: Turn): Piece
    requires Fits(turn.choice)
  {
    Reverted(TurnRecord(g, turn), Mover(g, turn).moves)
  }

  /** A turn on one board; a capture is handed over unless the move ends the game. */
  ghost function TakeTurn(g: Match, turn: Turn): Match
    requires CanTurn(g, turn) && Sound(Mover(g, turn).p)
  {
    NoKingHandedOver(g, turn);
    var h := Half(AfterTurn(g, turn), Mover(g, turn).moves + [TurnRecord(g, turn)]);
    var on := GoesOn(g, turn);
    var other := if on then Partner(g, turn).(p := Receives(Partner(g, turn).p, HandedOver(g, turn)))
        else Partner(g, turn);
    if turn.onFirst then Match(h, other, !on) else Match(other, h, !on)
  }

  lemma {:induction false} NoKingHandedOver(g: Match, turn: Turn)
    requires CanTurn(g, turn) && Sound(Mover(g, turn).p)
    ensures !IsKing(HandedOver(g, turn))
  {
    var p, ch := Mover(g, turn).p, turn.choice;
    MoveKeepsSound(p, ch, Seat(|Mover(g, turn).moves|, true));
    MoveCounts(p, ch, Seat(|Mover(g, turn).moves|, true), p.onMove);
  }

  /** The men of a colour on both boards and in both hands. */
  function Total(g: Match, c: Color): int {
    CountMen(g.first.p.board, c) + Held(g.first.p.holding, c) + CountMen(g.second.p.board, c)
        + Held(g.second.p.holding, c)
  }

  ghost predicate BothSound(g: Match) { Sound(g.first.p) && Sound(g.second.p) }

  lemma {:induction false} ReceivingCounts(p: Position, man: Piece, c: Color)
    requires !IsKing(man)
    ensures Receives(p, man).board == p.board && Held(Receives(p, man).holding, c) == Held(p.holding, c) + One(man, c)
  {
  }

  /** The men of a colour in one of the games. */
  function Share(p: Position, c: Color): int { CountMen(p.board, c) + Held(p.holding, c) }

  lemma {:induction false} ReceivesKeepsSound(p: Position, man: Piece, c: Color)
    requires Sound(p) && !IsKing(man)
    ensures Sound(Receives(p, man)) && Share(Receives(p, man), c) == Share(p, c) + One(man, c)
  {
    ReceivingCounts(p, man, c);
    if man.Man? {
      ReceivingKeepsSound(p, man.color, man.kind);
    }
  }

  lemma {:induction false} MoverConserves(g: Match, turn: Turn, c: Color)
    requires CanTurn(g, turn) && Sound(Mover(g, turn).p)
    ensures Sound(AfterTurn(g, turn)) && !IsKing(HandedOver(g, turn))
    ensures Share(AfterTurn(g, turn), c) == Share(Mover(g, turn).p, c) - One(HandedOver(g, turn), c)
  {
    var p, ch, t := Mover(g, turn).p, turn.choice, Seat(|Mover(g, turn).moves|, true);
    NoKingHandedOver(g, turn);
    MoveKeepsSound(p, ch, t);
    MoveCounts(p, ch, t, c);
  }

  /** A turn that ends nothing leaves the number of men of each colour alone; one that ends
      the game loses the man it captures, and only that. */
  lemma {:induction false} TurnConserves(g: Match, turn: Turn, c: Color)
    requires CanTurn(g, turn) && BothSound(g)
    ensures var next := TakeTurn(g, turn);
      && BothSound(next)
      && Total(next, c) == Total(g, c) - (if next.over then One(HandedOver(g, turn), c) else 0)
  {
    MoverConserves(g, turn, c);
    ReceivesKeepsSound(Partner(g, turn).p, HandedOver(g, turn), c);
    TurnEffect(g, turn);
    assert Total(g, c) == Share(Mover(g, turn).p, c) + Share(Partner(g, turn).p, c);
  }

  lemma {:induction false} TurnEffect(g: Match, turn: Turn)
    requires CanTurn(g, turn) && Sound(Mover(g, turn).p)
    ensures var next := TakeTurn(g, turn);
      && !IsKing(HandedOver(g, turn))
      && Mover(next, turn).p == AfterTurn(g, turn)
      && Partner(next, turn).p
         == if next.over then Partner(g, turn).p else Receives(Partner(g, turn).p, HandedOver(g, turn))
  {
    NoKingHandedOver(g, turn);
  }

  /** Each turn can be taken. That positions stay sound is not asked for, but follows. */
  ghost predicate IsMatch(g: Match, turns: seq<Turn>)
    requires BothSound(g)
    decreases |turns|
  {
    turns == [] || (
      && CanTurn(g, turns[0])
      && (TurnConserves(g, turns[0], White); IsMatch(TakeTurn(g, turns[0]), turns[1..])))
  }

  ghost function MatchEnd(g: Match, turns: seq<Turn>): (end: Match)
    requires BothSound(g) && IsMatch(g, turns)
    ensures BothSound(end)
    decreases |turns|
  {
    if turns == [] then g
    else
      TurnConserves(g, turns[0], White);
      MatchEnd(TakeTurn(g, turns[0]), turns[1..])
  }

  lemma {:induction false} OverIsOver(g: Match, turns: seq<Turn>)
    requires BothSound(g) && IsMatch(g, turns)
    ensures g.over ==> turns == []
  {
  }

  /** As long as neither game has ended, no man was lost or gained, and no hand holds less
      than nothing. */
  lemma {:induction false} MatchConserves(g: Match, turns: seq<Turn>, c: Color)
    requires BothSound(g) && IsMatch(g, turns)
    ensures var end := MatchEnd(g, turns);
      BothSound(end) && (!end.over ==> Total(end, c) == Total(g, c)) && Total(g, c) - 1 <= Total(end, c) <= Total(g, c)
    decreases |turns|
  {
    if turns != [] {
      TurnConserves(g, turns[0], c);
      MatchConserves(TakeTurn(g, turns[0]), turns[1..], c);
      OverIsOver(TakeTurn(g, turns[0]), turns[1..]);
    }
  }
}
