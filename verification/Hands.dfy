/** What lies in hand, man by man: what is taken on one board of bughouse arrives as itself on the other. */
module Hands {
  import opened Positions
  import opened Legality
  import opened Targets
  import opened Judgement
  import opened Runs
  import opened Bughouse

  /** How many men of a colour and kind lie in hand: White's pawns, knights, bishops, rooks and queens come
      first, then Black's. */
  function InHand(h: Holding, c: Color, k: Kind): int
    requires k != King
  {
    match (c, k)
    case (White, Pawn) => h[0]
    case (White, Knight) => h[1]
    case (White, Bishop) => h[2]
    case (White, Rook) => h[3]
    case (White, Queen) => h[4]
    case (Black, Pawn) => h[5]
    case (Black, Knight) => h[6]
    case (Black, Bishop) => h[7]
    case (Black, Rook) => h[8]
    case (Black, Queen) => h[9]
  }

  function Same(a: Piece, b: Piece): nat { if a == b then 1 else 0 }

  /** A man handed over is one more of its colour and kind, and nothing else changes. */
  lemma {:induction false} ReceivedIsCounted(p: Position, man: Piece, c: Color, k: Kind)
    requires man.Man? && man.kind != King && k != King
    ensures InHand(Receives(p, man).holding, c, k) == InHand(p.holding, c, k) + Same(man, Man(c, k))
    ensures Receives(p, man).(holding := p.holding) == p
  {
  }

  /** It can be dropped on every empty square, a pawn on none of the edge ranks. */
  lemma {:induction false} ReceivedCanBeDropped(p: Position, man: Piece, f: int, r: int)
    requires man.Man? && man.kind != King && On(f) && On(r) && (forall i :: 0 <= i < 10 ==> p.holding[i] >= 0)
    ensures LegalDrop(Receives(p, man).(onMove := man.color), man.kind, f, r)
      <==> At(p.board, f, r) == Empty && (man.kind == Pawn ==> 0 < r < 7)
  {
  }

  /** What may be dropped where, by the rules: any man in hand but no king, on an empty square, a pawn on
      none of the edge ranks. */
  lemma {:induction false} DropByTheRules(p: Position, man: Kind, f: int, r: int)
    requires On(f) && On(r)
    ensures LegalDrop(p, man, f, r)
      <==> man != King && InHand(p.holding, p.onMove, man) != 0 && At(p.board, f, r) == Empty
           && (man == Pawn ==> 0 < r < 7)
  {
  }

  /** A man can be dropped only if there is one in hand, and then there is one less of it and of no other. */
  lemma {:induction false} DroppedIsCounted(p: Position, ch: Choice, t: Table, c: Color, k: Kind)
    requires Allowed(p, ch, t) && ch.from.Drop? && k != King
    ensures InHand(p.holding, p.onMove, ch.from.man) != 0
    ensures InHand(Played(p, ch, t).holding, c, k)
         == InHand(p.holding, c, k) - Same(Man(p.onMove, ch.from.man), Man(c, k))
  {
  }

  /** How many men like x there are. */
  function CountOf(s: seq<Piece>, x: Piece): nat { if s == [] then 0 else Same(s[0], x) + CountOf(s[1..], x) }

  lemma {:induction false} OfReplaced(s: seq<Piece>, i: nat, q: Piece, x: Piece)
    requires i < |s|
    ensures CountOf(s[i := q], x) == CountOf(s, x) - Same(s[i], x) + Same(q, x)
    decreases |s|
  {
    if i > 0 {
      OfReplaced(s[1..], i - 1, q, x);
      assert s[i := q][1..] == s[1..][i - 1 := q];
    }
  }

  lemma {:induction false} OfPut(b: Board, f: int, r: int, q: Piece, x: Piece)
    requires On(f) && On(r)
    ensures CountOf(Put(b, f, r, q), x) == CountOf(b, x) - Same(At(b, f, r), x) + Same(q, x)
  {
    OfReplaced(b, 8 * f + r, q, x);
  }

  lemma {:induction false} OfStep(b: Board, f: int, r: int, tf: int, tr: int, q: Piece, x: Piece)
    requires On(f) && On(r) && On(tf) && On(tr) && (f, r) != (tf, tr) && x.Man?
    ensures CountOf(Put(Put(b, tf, tr, q), f, r, Empty), x)
         == CountOf(b, x) - Same(At(b, tf, tr), x) - Same(At(b, f, r), x) + Same(q, x)
  {
    OfPut(b, tf, tr, q, x);
    OfPut(Put(b, tf, tr, q), f, r, Empty, x);
  }

  lemma {:induction false} OfPlain(p: Position, f: int, r: int, tf: int, tr: int, k: Kind, x: Piece)
    requires On(f) && On(r) && On(tf) && On(tr) && Plain(p, f, r, tf, tr) && x.Man?
    ensures var m := MoveRecord(p, Square(f, r), tf, tr, k);
      CountOf(BoardAfter(p.board, p.onMove, m), x)
        == CountOf(p.board, x) - Same(Recorded(p, m).pieceCaptured, x) - Same(At(p.board, f, r), x)
           + Same(Arriving(p, f, r, m), x)
  {
    var m := MoveRecord(p, Square(f, r), tf, tr, k);
    var arrives := Arriving(p, f, r, m);
    PlainBoard(p, f, r, tf, tr, k);
    OfStep(p.board, f, r, tf, tr, arrives, x);
    var b1 := Put(Put(p.board, tf, tr, arrives), f, r, Empty);
    if TakesEnPassant(p.board, m) {
      EnPassantVictim(p, f, r, tf, tr);
      OfPut(b1, tf, r, Empty, x);
    }
  }

  lemma {:induction false} OfCastling(p: Position, f: int, r: int, tf: int, tr: int, k: Kind, x: Piece)
    requires On(f) && On(r) && On(tf) && On(tr) && Castling(p, f, r, tf, tr) && x.Man?
    ensures var m := MoveRecord(p, Square(f, r), tf, tr, k);
      && CountOf(BoardAfter(p.board, p.onMove, m), x) == CountOf(p.board, x)
      && Recorded(p, m).pieceCaptured == Empty && Arriving(p, f, r, m) == At(p.board, f, r)
  {
    var side := if tf == 6 then KingSide else QueenSide;
    assert Castles(p, side);
    var b1 := Put(Put(p.board, tf, tr, Man(p.onMove, King)), f, r, Empty);
    OfStep(p.board, f, r, tf, tr, Man(p.onMove, King), x);
    OfStep(b1, side.RookFrom(), r, side.Transit(), r, Man(p.onMove, Rook), x);
  }

  /** The men like x on the board and in hand. */
  function Owned(p: Position, x: Piece): int
    requires x.Man?
  {
    CountOf(p.board, x) + if x.kind == King then 0 else InHand(p.holding, x.color, x.kind)
  }

  /** What a promotion turns into a man like x, less what it uses up. */
  function Promoted(p: Position, ch: Choice, x: Piece): int
    requires Fits(ch)
  {
    match ch.from
    case Drop(_) => 0
    case Square(f, r) =>
      if At(p.board, f, r) == Man(p.onMove, Pawn) && (ch.toRank == 0 || ch.toRank == 7)
      then Same(Man(p.onMove, ch.promote), x) - Same(Man(p.onMove, Pawn), x) else 0
  }

  /** What a move does to the men like x, on the board and in hand. */
  lemma {:induction false} MoveKeepsKinds(p: Position, ch: Choice, t: Table, x: Piece)
    requires Allowed(p, ch, t) && x.Man?
    ensures var m := Recorded(p, MoveRecord(p, ch.from, ch.toFile, ch.toRank, ch.promote));
      Owned(Played(p, ch, t), x) == Owned(p, x) - Same(m.pieceCaptured, x) + Promoted(p, ch, x)
  {
    match ch.from
    case Drop(man) =>
      OfPut(p.board, ch.toFile, ch.toRank, Man(p.onMove, man), x);
      if x.kind != King {
        DroppedIsCounted(p, ch, t, x.color, x.kind);
      }
    case Square(f, r) =>
      LegalIsPlainOrCastling(p, f, r, ch.toFile, ch.toRank);
      if Castling(p, f, r, ch.toFile, ch.toRank) {
        OfCastling(p, f, r, ch.toFile, ch.toRank, ch.promote, x);
      } else {
        OfPlain(p, f, r, ch.toFile, ch.toRank, ch.promote, x);
      }
  }

  /** The men like x on both boards and in both hands. */
  function All(g: Match, x: Piece): int
    requires x.Man?
  {
    Owned(g.first.p, x) + Owned(g.second.p, x)
  }

  lemma {:induction false} ReceivingKeepsKinds(p: Position, man: Piece, x: Piece)
    requires !IsKing(man) && x.Man?
    ensures Owned(Receives(p, man), x) == Owned(p, x) + Same(man, x)
  {
    if man.Man? && x.kind != King {
      ReceivedIsCounted(p, man, x.color, x.kind);
    }
  }

  /** A turn changes the men of no colour and kind, but that a pawn may be promoted, that a man may be handed
      over as what it is not, and that a move that ends the game hands nothing over. */
  lemma {:induction false} TurnKeepsKinds(g: Match, turn: Turn, x: Piece)
    requires CanTurn(g, turn) && BothSound(g) && x.Man?
    ensures var next := TakeTurn(g, turn);
      All(next, x) == All(g, x) + Promoted(Mover(g, turn).p, turn.choice, x)
                      - Same(TurnRecord(g, turn).pieceCaptured, x)
                      + (if next.over then 0 else Same(HandedOver(g, turn), x))
  {
    MoveKeepsKinds(Mover(g, turn).p, turn.choice, Seat(|Mover(g, turn).moves|, true), x);
    TurnEffect(g, turn);
    ReceivingKeepsKinds(Partner(g, turn).p, HandedOver(g, turn), x);
  }

  /** The turn promotes nothing, and what it takes is handed over as what it is. */
  predicate Straightforward(g: Match, turn: Turn)
    requires Fits(turn.choice)
  {
    TurnRecord(g, turn).piecePromotionTo == Empty && HandedOver(g, turn) == TurnRecord(g, turn).pieceCaptured
  }

  ghost predicate AllStraightforward(g: Match, turns: seq<Turn>)
    requires BothSound(g) && IsMatch(g, turns)
    decreases |turns|
  {
    turns == [] || (
      && Straightforward(g, turns[0])
      && (TurnConserves(g, turns[0], White); AllStraightforward(TakeTurn(g, turns[0]), turns[1..])))
  }

  /** In a match of such turns, as long as neither game has ended, there are as many men of each colour and
      kind as in the beginning. */
  lemma {:induction false} MatchKeepsKinds(g: Match, turns: seq<Turn>, x: Piece)
    requires BothSound(g) && IsMatch(g, turns) && AllStraightforward(g, turns) && x.Man?
    ensures var end := MatchEnd(g, turns); !end.over ==> All(end, x) == All(g, x)
    decreases |turns|
  {
    if turns != [] {
      var next := TakeTurn(g, turns[0]);
      TurnConserves(g, turns[0], White);
      TurnKeepsKinds(g, turns[0], x);
      MatchKeepsKinds(next, turns[1..], x);
      OverIsOver(next, turns[1..]);
    }
  }
}
