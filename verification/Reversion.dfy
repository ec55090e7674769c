/** What the server finds out about a captured man in bughouse: whether it came from a promotion. */
module Reversion {
  import opened Positions
  import opened Legality
  import opened Targets
  import opened Runs
  import opened Bughouse

  /** What a move does to the men of its side: one goes from `from` to the target and is
      perhaps promoted, and a king perhaps takes a rook along. */
  datatype Motion = Motion(mover: Color, from: Origin, toFile: int, toRank: int, promotes: bool, takesRook: bool)

  predicate IsStep(s: Motion) {
    && InRange(s.from, s.toFile, s.toRank)
    && (s.promotes ==> s.from.Square?)
    && (s.takesRook ==> s.from.Square? && s.from.file == 4 && (s.toFile == 6 || s.toFile == 2))
  }

  type Step = s: Motion | IsStep(s) witness Motion(White, Drop(Pawn), 0, 0, false, false)

  function Corner(s: Step): int { if s.toFile == 6 then 7 else 0 }

  function Landing(s: Step): int { if s.toFile == 6 then 5 else 3 }

  function StepOf(p: Position, ch: Choice): Step
    requires Fits(ch)
  {
    var king := ch.from.Square? && IsKing(At(p.board, ch.from.file, ch.from.rank));
    var pawn := ch.from.Square? && IsPawn(At(p.board, ch.from.file, ch.from.rank));
    Motion(p.onMove, ch.from, ch.toFile, ch.toRank, pawn && (ch.toRank == 0 || ch.toRank == 7),
           king && ch.from.file == 4 && (ch.toFile == 6 || ch.toFile == 2))
  }

  /** For every square, whether the man there has come from a promotion. */
  type Marks = s: seq<bool> | |s| == 64 witness seq(64, _ => false)

  function Marked(marks: Marks, f: int, r: int): bool
    requires On(f) && On(r)
  {
    marks[8 * f + r]
  }

  /** The mark goes with the man, and with the rook that the king takes along. */
  function MarksAfter(marks: Marks, s: Step): Marks {
    var to := 8 * s.toFile + s.toRank;
    match s.from
    case Drop(_) => marks[to := false]
    case Square(f, r) =>
      var moved := marks[to := s.promotes || Marked(marks, f, r)][8 * f + r := false];
      if s.takesRook then
        moved[8 * Landing(s) + s.toRank := Marked(moved, Corner(s), s.toRank)][8 * Corner(s) + s.toRank := false]
      else moved
  }

  /** The marks after the first n moves of a game that began without any. */
  function MarksAt(steps: seq<Step>, n: nat): Marks
    requires n <= |steps|
  {
    if n == 0 then seq(64, _ => false) else MarksAfter(MarksAt(steps, n - 1), steps[n - 1])
  }

  /** Where a man was before a move: on a square, in hand, a pawn, or in the corner. */
  datatype Hop = From(file: int, rank: int) | InHand | WasPawn | InCorner

  /** Where the man of colour c that is on (f, r) after the move was before it. */
  function HopBack(s: Step, c: Color, f: int, r: int): Hop {
    if s.mover != c then From(f, r)
    else if (s.toFile, s.toRank) == (f, r) then
      match s.from
      case Drop(_) => InHand
      case Square(x, y) => if s.promotes then WasPawn else From(x, y)
    else if s.takesRook && (Landing(s), s.toRank) == (f, r) then InCorner
    else From(f, r)
  }

  /** A move leaves no other man on a square that it touches. */
  predicate Undisturbed(s: Step, c: Color, f: int, r: int) {
    var own := s.mover == c;
    && (!own ==> (s.toFile, s.toRank) != (f, r))
    && s.from != Square(f, r)
    && (s.takesRook ==> (Corner(s), s.toRank) != (f, r) && (!own ==> (Landing(s), s.toRank) != (f, r)))
  }

  /** A man that is on (f, r) after the step was not there by chance: the step left it alone, or
      it came from where the step says, and was a man of its colour there. */
  ghost predicate Accounts(s: Step, before: Board, after: Board, c: Color, f: int, r: int)
    requires On(f) && On(r)
  {
    Own(after, c, f, r) ==>
      && Undisturbed(s, c, f, r)
      && var h := HopBack(s, c, f, r);
         && (h.From? ==> On(h.file) && On(h.rank) && Own(before, c, h.file, h.rank))
         && (h.InCorner? ==> Own(before, c, Corner(s), s.toRank))
  }

  /** The step leads from one board to the other. */
  ghost predicate Leads(s: Step, before: Board, after: Board) {
    forall c: Color, f, r :: 0 <= f < 8 && 0 <= r < 8 ==> Accounts(s, before, after, c, f, r)
  }

  /** Every accepted choice, and only its own step, leads to the board after it. */
  lemma {:induction false} ChoiceLeads(p: Position, ch: Choice, t: Table)
    requires Allowed(p, ch, t)
    ensures Leads(StepOf(p, ch), p.board, Played(p, ch, t).board)
  {
    forall c: Color, f, r | 0 <= f < 8 && 0 <= r < 8
      ensures Accounts(StepOf(p, ch), p.board, Played(p, ch, t).board, c, f, r)
    {
      if ch.from.Square? {
        LegalIsPlainOrCastling(p, ch.from.file, ch.from.rank, ch.toFile, ch.toRank);
        if Castling(p, ch.from.file, ch.from.rank, ch.toFile, ch.toRank) {
          CastlingLeads(p, ch, c, f, r);
        } else {
          PlainLeads(p, ch, c, f, r);
        }
      }
    }
  }

  lemma {:induction false} PlainLeads(p: Position, ch: Choice, c: Color, f: int, r: int)
    requires Fits(ch) && ch.from.Square? && Plain(p, ch.from.file, ch.from.rank, ch.toFile, ch.toRank) && On(f) && On(r)
    ensures var m := MoveRecord(p, ch.from, ch.toFile, ch.toRank, ch.promote);
      Accounts(StepOf(p, ch), p.board, BoardAfter(p.board, p.onMove, m), c, f, r)
  {
    SquareAfterPlain(p, ch.from, ch.toFile, ch.toRank, ch.promote, f, r);
  }

  lemma {:induction false} CastlingLeads(p: Position, ch: Choice, c: Color, f: int, r: int)
    requires Fits(ch) && ch.from.Square? && Castling(p, ch.from.file, ch.from.rank, ch.toFile, ch.toRank) && On(f)
    requires On(r)
    ensures var m := MoveRecord(p, ch.from, ch.toFile, ch.toRank, ch.promote);
      Accounts(StepOf(p, ch), p.board, BoardAfter(p.board, p.onMove, m), c, f, r)
  {
    assert Castles(p, if ch.toFile == 6 then KingSide else QueenSide);
  }

  /** The steps of a game and the boards they lead through. */
  ghost predicate IsTrack(steps: seq<Step>, boards: seq<Board>) {
    |boards| == |steps| + 1 && forall i :: 0 <= i < |steps| ==> Leads(steps[i], boards[i], boards[i + 1])
  }

  /** Where the mark of a man comes from. */
  lemma {:induction false} MarkBefore(marks: Marks, s: Step, c: Color, f: int, r: int)
    requires On(f) && On(r) && Undisturbed(s, c, f, r)
    ensures match HopBack(s, c, f, r)
      case InHand => !Marked(MarksAfter(marks, s), f, r)
      case WasPawn => Marked(MarksAfter(marks, s), f, r)
      case InCorner => Marked(MarksAfter(marks, s), f, r) == Marked(marks, Corner(s), s.toRank)
      case From(x, y) => On(x) && On(y) && Marked(MarksAfter(marks, s), f, r) == Marked(marks, x, y)
  {
  }

  /** Where the trail of a man ends, as far as it can be followed back over its own moves. */
  datatype Source = Begun | Dropped | Became(at: nat) | Castled(at: nat)

  /** Follows the man of colour c on (f, r) back from the position after n moves. */
  function Trail(steps: seq<Step>, n: nat, c: Color, f: int, r: int): (s: Source)
    requires n <= |steps|
    ensures s.Became? || s.Castled? ==> s.at < n && steps[s.at].mover == c
    ensures s.Became? ==> steps[s.at].promotes
    ensures s.Castled? ==> steps[s.at].takesRook
    decreases n
  {
    if n == 0 then Begun
    else match HopBack(steps[n - 1], c, f, r)
      case InHand => Dropped
      case WasPawn => Became(n - 1)
      case InCorner => Castled(n - 1)
      case From(x, y) => Trail(steps, n - 1, c, x, y)
  }

  /** The mark a trail tells of: a rook that castled had its mark in the corner. */
  function Told(steps: seq<Step>, s: Source): bool
    requires s.Castled? ==> s.at < |steps|
  {
    match s
    case Begun => false
    case Dropped => false
    case Became(_) => true
    case Castled(j) => Marked(MarksAt(steps, j), Corner(steps[j]), steps[j].toRank)
  }

  /** The mark of a man is what its trail tells. */
  lemma {:induction false} TrailTells(steps: seq<Step>, boards: seq<Board>, n: nat, c: Color, f: int, r: int)
    requires IsTrack(steps, boards) && n <= |steps| && On(f) && On(r) && Own(boards[n], c, f, r)
    ensures var s := Trail(steps, n, c, f, r);
      && Marked(MarksAt(steps, n), f, r) == Told(steps, s)
      && (s.Castled? ==> Own(boards[s.at], c, Corner(steps[s.at]), steps[s.at].toRank))
    decreases n
  {
    if n > 0 {
      assert Leads(steps[n - 1], boards[n - 1], boards[n]) && Accounts(steps[n - 1], boards[n - 1], boards[n], c, f, r);
      MarkBefore(MarksAt(steps, n - 1), steps[n - 1], c, f, r);
      var h := HopBack(steps[n - 1], c, f, r);
      if h.From? {
        TrailTells(steps, boards, n - 1, c, h.file, h.rank);
      }
    }
  }

  /** The list holds the records of the steps. */
  ghost predicate Records(ms: seq<Move>, steps: seq<Step>) {
    |steps| <= |ms| && forall i :: 0 <= i < |steps| ==> Tells(ms[i], steps[i])
  }

  predicate Tells(m: Move, s: Step) {
    m.from == s.from && m.toFile == s.toFile && m.toRank == s.toRank && (m.piecePromotionTo.Man? <==> s.promotes)
  }

  ghost predicate Alternate(steps: seq<Step>) {
    forall i :: 0 < i < |steps| ==> steps[i].mover != steps[i - 1].mover
  }

  /** What the walk over the records answers, by the trail it ought to follow: at a castling it
      goes on to look for a man that went to the rook's square earlier, and it never looks at
      the first record. */
  function WalkAnswers(ms: seq<Move>, steps: seq<Step>, s: Source): bool
    requires |steps| <= |ms| && (s.Castled? ==> s.at < |steps|)
  {
    match s
    case Begun => false
    case Dropped => false
    case Became(j) => j > 0
    case Castled(j) => PromotedFrom(ms, j - 2, Landing(steps[j]), steps[j].toRank)
  }

  lemma {:induction false} WalkFollowsTrail(ms: seq<Move>, steps: seq<Step>, n: nat, c: Color, f: int, r: int)
    requires Records(ms, steps) && Alternate(steps) && n <= |steps| && (n > 0 ==> steps[n - 1].mover == c)
    ensures PromotedFrom(ms, n - 1, f, r) == WalkAnswers(ms, steps, Trail(steps, n, c, f, r))
    decreases n
  {
    if n > 0 {
      assert Tells(ms[n - 1], steps[n - 1]);
      var h := HopBack(steps[n - 1], c, f, r);
      if h.From? && n > 1 {
        PassOver(steps, n - 1, c, h.file, h.rank);
        WalkFollowsTrail(ms, steps, n - 2, c, h.file, h.rank);
      }
    }
  }

  /** The other side's move does not move the man. */
  lemma {:induction false} PassOver(steps: seq<Step>, n: nat, c: Color, f: int, r: int)
    requires 0 < n <= |steps| && steps[n - 1].mover != c
    ensures Trail(steps, n, c, f, r) == Trail(steps, n - 1, c, f, r)
  {
  }

  /** The last step before the n-th, but for the first of all, with which a man of colour c went
      to (f, r); 0 if there is none. */
  function LastVisit(steps: seq<Step>, n: nat, c: Color, f: int, r: int): (k: nat)
    requires n <= |steps|
    ensures k > 0 ==> k < n && steps[k].mover == c && (steps[k].toFile, steps[k].toRank) == (f, r)
    decreases n
  {
    if n <= 1 then 0
    else if steps[n - 1].mover == c && (steps[n - 1].toFile, steps[n - 1].toRank) == (f, r) then n - 1
    else LastVisit(steps, n - 1, c, f, r)
  }

  lemma {:induction false} NoLaterVisit(steps: seq<Step>, n: nat, c: Color, f: int, r: int, i: nat)
    requires n <= |steps| && LastVisit(steps, n, c, f, r) < i < n && steps[i].mover == c
    ensures (steps[i].toFile, steps[i].toRank) != (f, r)
    decreases n
  {
    if i < n - 1 {
      NoLaterVisit(steps, n - 1, c, f, r, i);
    }
  }

  /** The walk goes back to the last visit, and on from there. */
  lemma {:induction false} WalkFindsVisit(ms: seq<Move>, steps: seq<Step>, n: nat, c: Color, f: int, r: int)
    requires Records(ms, steps) && Alternate(steps) && n <= |steps| && (n > 0 ==> steps[n - 1].mover == c)
    ensures var k := LastVisit(steps, n, c, f, r);
      PromotedFrom(ms, n - 1, f, r) == (k > 0 && PromotedFrom(ms, k, f, r))
    decreases n
  {
    if n > 1 {
      assert Tells(ms[n - 1], steps[n - 1]);
      if (steps[n - 1].toFile, steps[n - 1].toRank) != (f, r) {
        assert steps[n - 2].mover != c && (n > 2 ==> steps[n - 3].mover != steps[n - 2].mover);
        WalkFindsVisit(ms, steps, n - 2, c, f, r);
      }
    }
  }

  /** A side castles at most once. */
  ghost predicate CastlesOnce(steps: seq<Step>) {
    forall i, j :: 0 <= i < j < |steps| && steps[i].takesRook && steps[j].takesRook ==> steps[i].mover != steps[j].mover
  }

  /** A pawn of the colour stands a step from its last rank. */
  ghost predicate NearPromotion(b: Board, c: Color) {
    exists f :: On(f) && At(b, f, if c.White? then 6 else 1) == Man(c, Pawn)
  }

  /** One of the linked games and what has happened in it: its list holds the records of the
      steps, which led through the boards, and a side that has castled is known to have moved
      its king. */
  ghost predicate Remembers(h: Half, steps: seq<Step>, boards: seq<Board>) {
    && |h.moves| == |steps| && Records(h.moves, steps) && Alternate(steps)
    && IsTrack(steps, boards) && boards[|steps|] == h.p.board
    && (steps != [] ==> steps[|steps| - 1].mover == h.p.onMove.Toggle())
    && CastlesOnce(steps) && (forall i :: 0 <= i < |steps| && steps[i].takesRook ==> h.p.KingMoved(steps[i].mover))
    && (steps != [] && steps[0].promotes ==> NearPromotion(boards[0], steps[0].mover))
  }

  lemma {:induction false} BeginningRemembers(p: Position)
    ensures Remembers(Half(p, []), [], [p.board])
  {
  }

  /** Only a king that has not moved takes a rook along, and then it has moved. */
  lemma {:induction false} CastlingMovesKing(p: Position, ch: Choice, t: Table, c: Color)
    requires Allowed(p, ch, t)
    ensures StepOf(p, ch).takesRook ==> !p.KingMoved(p.onMove) && Played(p, ch, t).KingMoved(p.onMove)
    ensures p.KingMoved(c) ==> Played(p, ch, t).KingMoved(c)
  {
    if StepOf(p, ch).takesRook {
      LegalIsPlainOrCastling(p, ch.from.file, ch.from.rank, ch.toFile, ch.toRank);
      assert Castles(p, if ch.toFile == 6 then KingSide else QueenSide);
    }
  }

  /** A pawn is promoted only if it stands a step from its last rank. */
  lemma {:induction false} PromotionIsNear(p: Position, ch: Choice, t: Table)
    requires Allowed(p, ch, t) && StepOf(p, ch).promotes && NoEdgePawns(p.board)
    ensures NearPromotion(p.board, p.onMove)
  {
    assert At(p.board, ch.from.file, if p.onMove.White? then 6 else 1) == Man(p.onMove, Pawn);
  }

  /** One more move; and what the partner hands over changes nothing here. */
  lemma {:induction false} MoveRemembers(h: Half, steps: seq<Step>, boards: seq<Board>, ch: Choice, t: Table,
      next: Half)
    requires Remembers(h, steps, boards) && Allowed(h.p, ch, t) && NoEdgePawns(h.p.board)
    requires next.moves == h.moves + [Recorded(h.p, MoveRecord(h.p, ch.from, ch.toFile, ch.toRank, ch.promote))]
    requires next.p.board == Played(h.p, ch, t).board && next.p.onMove == Played(h.p, ch, t).onMove
    requires next.p.moved == Played(h.p, ch, t).moved
    ensures Remembers(next, steps + [StepOf(h.p, ch)], boards + [next.p.board])
  {
    var s, n := StepOf(h.p, ch), |steps|;
    ChoiceLeads(h.p, ch, t);
    assert Tells(next.moves[n], s);
    forall i | 0 <= i < n
      ensures Tells(next.moves[i], (steps + [s])[i])
    {
      assert Tells(h.moves[i], steps[i]);
    }
    forall i | 0 <= i < n + 1
      ensures Leads((steps + [s])[i], (boards + [next.p.board])[i], (boards + [next.p.board])[i + 1])
    {
      if i < n {
        assert Leads(steps[i], boards[i], boards[i + 1]);
      }
    }
    if s.promotes {
      PromotionIsNear(h.p, ch, t);
    }
    MoveCastlesOnce(h, steps, ch, t, next);
  }

  lemma {:induction false} MoveCastlesOnce(h: Half, steps: seq<Step>, ch: Choice, t: Table, next: Half)
    requires Allowed(h.p, ch, t) && next.p.moved == Played(h.p, ch, t).moved
    requires CastlesOnce(steps) && forall i :: 0 <= i < |steps| && steps[i].takesRook ==> h.p.KingMoved(steps[i].mover)
    ensures var more := steps + [StepOf(h.p, ch)];
      CastlesOnce(more) && forall i :: 0 <= i < |more| && more[i].takesRook ==> next.p.KingMoved(more[i].mover)
  {
    CastlingMovesKing(h.p, ch, t, White);
    CastlingMovesKing(h.p, ch, t, Black);
  }

  /** The man that last went to the square on which the rook then came to stand, by its own
      trail, came from a promotion that the walk can see. */
  function VisitorWasPawn(steps: seq<Step>, j: nat): bool
    requires j < |steps|
  {
    var c, f, r := steps[j].mover, Landing(steps[j]), steps[j].toRank;
    var k := LastVisit(steps, j, c, f, r);
    k > 0 && var visitor := Trail(steps, k + 1, c, f, r); visitor.Became? && visitor.at > 0
  }

  /** The rook that castled, by its trail to the corner, came from a promotion. */
  function RookWasPawn(steps: seq<Step>, j: nat): bool
    requires j < |steps|
  {
    Trail(steps, j, steps[j].mover, Corner(steps[j]), steps[j].toRank).Became?
  }

  /** When the walk finds out the truth about a man: a man that was promoted, unless by the very
      first move; a rook that castled, if it was promoted just when the last visitor of its square
      was; and any other man. */
  predicate SeenThrough(steps: seq<Step>, s: Source)
    requires s.Castled? ==> s.at < |steps|
  {
    match s
    case Became(j) => j > 0
    case Castled(j) => VisitorWasPawn(steps, j) == RookWasPawn(steps, j)
    case _ => true
  }

  /** Before a side castles, none of its men has castled. */
  lemma {:induction false} NotCastledBefore(steps: seq<Step>, j: nat, n: nat, f: int, r: int)
    requires CastlesOnce(steps) && j < |steps| && steps[j].takesRook && n <= j
    ensures !Trail(steps, n, steps[j].mover, f, r).Castled?
  {
  }

  /** What the walk tells about a rook that castled is the truth about the visitor. */
  lemma {:induction false} WalkTakesVisitor(ms: seq<Move>, steps: seq<Step>, j: nat)
    requires Records(ms, steps) && Alternate(steps) && CastlesOnce(steps) && j < |steps| && steps[j].takesRook
    ensures PromotedFrom(ms, j - 2, Landing(steps[j]), steps[j].toRank) == VisitorWasPawn(steps, j)
  {
    var c, f, r := steps[j].mover, Landing(steps[j]), steps[j].toRank;
    if j >= 2 {
      assert steps[j - 1].mover != c;
      WalkFindsVisit(ms, steps, j - 1, c, f, r);
      var k := LastVisit(steps, j - 1, c, f, r);
      if k > 0 {
        WalkFollowsTrail(ms, steps, k + 1, c, f, r);
        NotCastledBefore(steps, j, k + 1, f, r);
      }
    }
  }

  /** What is true of a rook that castled is what its trail to the corner tells. */
  lemma {:induction false} CornerTells(steps: seq<Step>, boards: seq<Board>, j: nat)
    requires IsTrack(steps, boards) && CastlesOnce(steps) && j < |steps| && steps[j].takesRook
    requires Own(boards[j], steps[j].mover, Corner(steps[j]), steps[j].toRank)
    ensures Marked(MarksAt(steps, j), Corner(steps[j]), steps[j].toRank) == RookWasPawn(steps, j)
  {
    TrailTells(steps, boards, j, steps[j].mover, Corner(steps[j]), steps[j].toRank);
    NotCastledBefore(steps, j, j, Corner(steps[j]), steps[j].toRank);
  }

  /** The answer about a man of the side that moved last is right exactly when its trail is seen
      through. */
  lemma {:induction false} WalkIsExact(h: Half, steps: seq<Step>, boards: seq<Board>, f: int, r: int)
    requires Remembers(h, steps, boards) && On(f) && On(r) && Own(h.p.board, h.p.onMove.Toggle(), f, r)
    ensures var n := |steps|;
      PromotedFrom(h.moves, n - 1, f, r) == Marked(MarksAt(steps, n), f, r)
      <==> SeenThrough(steps, Trail(steps, n, h.p.onMove.Toggle(), f, r))
  {
    var n, c := |steps|, h.p.onMove.Toggle();
    WalkFollowsTrail(h.moves, steps, n, c, f, r);
    TrailTells(steps, boards, n, c, f, r);
    var s := Trail(steps, n, c, f, r);
    if s.Castled? {
      WalkTakesVisitor(h.moves, steps, s.at);
      CornerTells(steps, boards, s.at);
    }
  }

  /** In a game that began with no pawn a step from its last rank, the walk can only be wrong about
      rooks that have castled. */
  lemma {:induction false} OnlyCastledRooksMislead(h: Half, steps: seq<Step>, boards: seq<Board>, f: int, r: int)
    requires Remembers(h, steps, boards) && On(f) && On(r) && Own(h.p.board, h.p.onMove.Toggle(), f, r)
    requires !NearPromotion(boards[0], White) && !NearPromotion(boards[0], Black)
    requires !Trail(steps, |steps|, h.p.onMove.Toggle(), f, r).Castled?
    ensures PromotedFrom(h.moves, |steps| - 1, f, r) == Marked(MarksAt(steps, |steps|), f, r)
  {
    WalkIsExact(h, steps, boards, f, r);
  }

  /** The man as it ought to be handed over. */
  function Deserved(m: Move, marks: Marks): Piece
    requires On(m.toFile) && On(m.toRank)
  {
    if m.pieceCaptured.Man? && m.enPassant == 0 && Marked(marks, m.toFile, m.toRank)
        then Man(m.pieceCaptured.color, Pawn)
    else m.pieceCaptured
  }

  /** A captured man is handed over as what it was before promotion exactly when it is a pawn
      or its trail is seen through. */
  lemma {:induction false} ReversionIsExact(h: Half, steps: seq<Step>, boards: seq<Board>, ch: Choice, t: Table)
    requires Remembers(h, steps, boards) && Allowed(h.p, ch, t)
    ensures var m := Recorded(h.p, MoveRecord(h.p, ch.from, ch.toFile, ch.toRank, ch.promote));
      Reverted(m, h.moves) == Deserved(m, MarksAt(steps, |steps|))
      <==> (!m.pieceCaptured.Man? || m.pieceCaptured.kind == Pawn
            || SeenThrough(steps, Trail(steps, |steps|, h.p.onMove.Toggle(), ch.toFile, ch.toRank)))
  {
    var m := Recorded(h.p, MoveRecord(h.p, ch.from, ch.toFile, ch.toRank, ch.promote));
    MoveCounts(h.p, ch, t, h.p.onMove);
    if m.pieceCaptured.Man? && m.pieceCaptured.kind != Pawn {
      assert m.enPassant == 0 && m.pieceCaptured == At(h.p.board, ch.toFile, ch.toRank);
      WalkIsExact(h, steps, boards, ch.toFile, ch.toRank);
    }
  }

  /** If no man of its side ever went to the rook's square, a castled rook is not taken for promoted. */
  lemma {:induction false} UnvisitedIsUnpromoted(ms: seq<Move>, i: int, f: int, r: int)
    requires i < |ms| && forall k :: 0 <= k <= i ==> (ms[k].toFile, ms[k].toRank) != (f, r)
    ensures !PromotedFrom(ms, i, f, r)
    decreases i
  {
    if i > 0 {
      UnvisitedIsUnpromoted(ms, i - 2, f, r);
    }
  }

  /** The records of the game tell of steps that led to where it stands. */
  ghost predicate Remembered(h: Half) { exists steps, boards :: Remembers(h, steps, boards) }

  /** What a turn does to the lists, the boards and the sides to move. */
  lemma {:induction false} TurnNotes(g: Match, turn: Turn)
    requires CanTurn(g, turn) && Sound(Mover(g, turn).p)
    ensures var next := TakeTurn(g, turn);
      && Mover(next, turn).p == AfterTurn(g, turn)
      && Mover(next, turn).moves == Mover(g, turn).moves + [TurnRecord(g, turn)]
      && Partner(next, turn).moves == Partner(g, turn).moves
      && Partner(next, turn).p.board == Partner(g, turn).p.board
      && Partner(next, turn).p.onMove == Partner(g, turn).p.onMove
      && Partner(next, turn).p.moved == Partner(g, turn).p.moved
  {
    TurnEffect(g, turn);
  }

  lemma {:induction false} MoverRemembered(g: Match, turn: Turn)
    requires CanTurn(g, turn) && Sound(Mover(g, turn).p) && Remembered(Mover(g, turn))
    ensures Remembered(Mover(TakeTurn(g, turn), turn))
  {
    var steps, boards :| Remembers(Mover(g, turn), steps, boards);
    var t := Seat(|Mover(g, turn).moves|, true);
    TurnNotes(g, turn);
    MoveRemembers(Mover(g, turn), steps, boards, turn.choice, t, Mover(TakeTurn(g, turn), turn));
  }

  lemma {:induction false} PartnerRemembered(g: Match, turn: Turn)
    requires CanTurn(g, turn) && Sound(Mover(g, turn).p) && Remembered(Partner(g, turn))
    ensures Remembered(Partner(TakeTurn(g, turn), turn))
  {
    var steps, boards :| Remembers(Partner(g, turn), steps, boards);
    TurnNotes(g, turn);
    assert Remembers(Partner(TakeTurn(g, turn), turn), steps, boards);
  }

  /** Throughout a match that began with empty lists, captures are as `ReversionIsExact` says. */
  lemma {:induction false} MatchRemembered(g: Match, turns: seq<Turn>)
    requires BothSound(g) && IsMatch(g, turns) && Remembered(g.first) && Remembered(g.second)
    ensures var end := MatchEnd(g, turns); Remembered(end.first) && Remembered(end.second)
    decreases |turns|
  {
    if turns != [] {
      MoverRemembered(g, turns[0]);
      PartnerRemembered(g, turns[0]);
      TurnConserves(g, turns[0], White);
      MatchRemembered(TakeTurn(g, turns[0]), turns[1..]);
    }
  }

  predicate EventFits(e: Event) {
    match e
    case Play(ch) => Fits(ch)
    case Receive(_, man) => man != King
  }

  predicate AllFit(es: seq<Event>) { forall i :: 0 <= i < |es| ==> EventFits(es[i]) }

  /** A move is played and recorded, or the partner hands a man over. */
  function Continued(h: Half, e: Event): Half
    requires EventFits(e)
  {
    match e
    case Play(ch) =>
      Half(Played(h.p, ch, Seat(|h.moves|, true)),
           h.moves + [Recorded(h.p, MoveRecord(h.p, ch.from, ch.toFile, ch.toRank, ch.promote))])
    case Receive(c, man) => h.(p := Receives(h.p, Man(c, man)))
  }

  /** A game played on from a position. */
  function PlayOut(start: Position, es: seq<Event>): Half
    requires AllFit(es)
  {
    if es == [] then Half(start, []) else Continued(PlayOut(start, es[..|es| - 1]), es[|es| - 1])
  }

  function StepsOf(start: Position, es: seq<Event>): seq<Step>
    requires AllFit(es)
  {
    if es == [] then []
    else
      var n := |es| - 1;
      StepsOf(start, es[..n]) + if es[n].Play? then [StepOf(PlayOut(start, es[..n]).p, es[n].choice)] else []
  }

  /** The event can happen: a move is accepted, and what is handed over is no king. */
  ghost predicate CanHappen(h: Half, e: Event) {
    EventFits(e) && (e.Play? ==> Allowed(h.p, e.choice, Seat(|h.moves|, true)))
  }

  /** All the events can happen. */
  ghost predicate Plays(start: Position, es: seq<Event>) {
    && AllFit(es)
    && (es != [] ==> var n := |es| - 1; Plays(start, es[..n]) && CanHappen(PlayOut(start, es[..n]), es[n]))
  }

  lemma {:induction false} OneMore(start: Position, es: seq<Event>, e: Event)
    requires Plays(start, es) && CanHappen(PlayOut(start, es), e)
    ensures Plays(start, es + [e]) && PlayOut(start, es + [e]) == Continued(PlayOut(start, es), e)
    ensures StepsOf(start, es + [e])
         == StepsOf(start, es) + if e.Play? then [StepOf(PlayOut(start, es).p, e.choice)] else []
  {
    var all := es + [e];
    assert all[..|all| - 1] == es && all[|all| - 1] == e;
    assert AllFit(all);
  }

  /** The steps led from the start to where the game stands, and the position is sound. */
  ghost predicate LedTo(start: Position, h: Half, steps: seq<Step>) {
    Sound(h.p) && exists boards :: boards != [] && boards[0] == start.board && Remembers(h, steps, boards)
  }

  lemma {:induction false} ReceivingRemembers(h: Half, steps: seq<Step>, boards: seq<Board>, c: Color, man: Kind)
    requires Remembers(h, steps, boards) && Sound(h.p) && man != King
    ensures var next := Continued(h, Receive(c, man)); Remembers(next, steps, boards) && Sound(next.p)
  {
    ReceivingKeepsSound(h.p, c, man);
  }

  lemma {:induction false} EventRemembers(h: Half, steps: seq<Step>, boards: seq<Board>, e: Event)
    requires Remembers(h, steps, boards) && Sound(h.p) && CanHappen(h, e)
    ensures var next := Continued(h, e);
      && Sound(next.p)
      && match e
         case Play(ch) => Remembers(next, steps + [StepOf(h.p, ch)], boards + [next.p.board])
         case Receive(_, _) => Remembers(next, steps, boards)
  {
    match e
    case Play(ch) =>
      MoveKeepsSound(h.p, ch, Seat(|h.moves|, true));
      MoveRemembers(h, steps, boards, ch, Seat(|h.moves|, true), Continued(h, e));
    case Receive(c, man) => ReceivingRemembers(h, steps, boards, c, man);
  }

  lemma {:induction false} EventLeadsOn(start: Position, h: Half, steps: seq<Step>, e: Event)
    requires LedTo(start, h, steps) && CanHappen(h, e)
    ensures LedTo(start, Continued(h, e), steps + if e.Play? then [StepOf(h.p, e.choice)] else [])
  {
    var boards :| boards != [] && boards[0] == start.board && Remembers(h, steps, boards);
    EventRemembers(h, steps, boards, e);
    if e.Play? {
      assert (boards + [Continued(h, e).p.board])[0] == start.board;
    } else {
      assert steps + [] == steps;
    }
  }

  /** Whatever can happen in a game from a sound start, its steps led to where it stands. */
  lemma {:induction false} PlayIsRemembered(start: Position, es: seq<Event>)
    requires Plays(start, es) && Sound(start)
    ensures LedTo(start, PlayOut(start, es), StepsOf(start, es))
  {
    if es == [] {
      BeginningRemembers(start);
      assert Remembers(PlayOut(start, es), StepsOf(start, es), [start.board]);
    } else {
      var n := |es| - 1;
      PlayIsRemembered(start, es[..n]);
      EventLeadsOn(start, PlayOut(start, es[..n]), StepsOf(start, es[..n]), es[n]);
    }
  }

  /** No mark comes to a square where no man ever goes. */
  lemma {:induction false} UntouchedIsUnmarked(steps: seq<Step>, n: nat, f: int, r: int)
    requires n <= |steps| && On(f) && On(r)
    requires forall i :: 0 <= i < n ==> (steps[i].toFile, steps[i].toRank) != (f, r)
                                        && (steps[i].takesRook ==> (Landing(steps[i]), steps[i].toRank) != (f, r))
    ensures !Marked(MarksAt(steps, n), f, r)
  {
    if n > 0 {
      UntouchedIsUnmarked(steps, n - 1, f, r);
      MarkStaysAway(MarksAt(steps, n - 1), steps[n - 1], f, r);
    }
  }

  lemma {:induction false} MarkStaysAway(marks: Marks, s: Step, f: int, r: int)
    requires On(f) && On(r) && !Marked(marks, f, r) && (s.toFile, s.toRank) != (f, r)
    requires s.takesRook ==> (Landing(s), s.toRank) != (f, r)
    ensures !Marked(MarksAfter(marks, s), f, r)
  {
  }
}
