/** Playing and taking back in any order: taking back leads to where the game was before. */
module Sessions {
  import opened Positions
  import opened Legality
  import opened Attacks
  import opened Targets
  import opened Runs
  import opened Takeback
  import opened KingFlags
  import opened EnPassantFlags

  /** A game: its position, the move list, and the positions in which the records in force were
      played. What lies behind those records is stale. */
  datatype Session = Session(p: Position, ms: seq<Move>, past: seq<Position>)

  datatype Act = Make(choice: Choice) | Back

  ghost predicate CanDo(s: Session, a: Act) {
    match a
    case Make(ch) => ch.from.Square? && Allowed(s.p, ch, Seat(|s.past|, false))
    case Back => |s.past| <= |s.ms|
  }

  /** A record put behind the n in force, over a stale one if there is one. */
  function Recording(ms: seq<Move>, n: nat, m: Move): seq<Move> {
    if n < |ms| then ms[n := m] else ms + [m]
  }

  /** What a move or a takeback does; with nothing to take back, nothing. */
  ghost function Do(s: Session, a: Act): Session
    requires CanDo(s, a)
  {
    var n := |s.past|;
    match a
    case Make(ch) => Session(Played(s.p, ch, Seat(n, false)), Recording(s.ms, n, Noted(s.p, ch)), s.past + [s.p])
    case Back =>
      if n > 0 && Undoable(s.ms[n - 1]) then Session(Undo(s.p, s.ms, n), s.ms, s.past[..n - 1]) else s
  }

  ghost predicate IsSession(s: Session, acts: seq<Act>)
    decreases |acts|
  {
    acts == [] || (CanDo(s, acts[0]) && IsSession(Do(s, acts[0]), acts[1..]))
  }

  ghost function SessionEnd(s: Session, acts: seq<Act>): Session
    requires IsSession(s, acts)
    decreases |acts|
  {
    if acts == [] then s else SessionEnd(Do(s, acts[0]), acts[1..])
  }

  /** Every record in force leads back to the like of the position it was played in. */
  ghost predicate Retraces(s: Session, which: Aspect) {
    |s.past| <= |s.ms| && AllLeadBack(s.ms, s.past + [s.p], |s.past|, which)
  }

  lemma {:induction false} SamePut(ms: seq<Move>, n: nat, m: Move, i: nat)
    requires i <= n <= |ms|
    ensures Recording(ms, n, m)[..i] == ms[..i] && Recording(ms, n, m)[n] == m
  {
  }

  /** One more move, if its own record leads back. */
  lemma {:induction false} PlayRetraces(s: Session, ch: Choice, which: Aspect)
    requires Retraces(s, which) && CanDo(s, Make(ch))
    requires LeadsBack(Do(s, Make(ch)).ms, |s.past|, Do(s, Make(ch)).p, s.p, which)
    ensures Retraces(Do(s, Make(ch)), which)
  {
    var n, next := |s.past|, Do(s, Make(ch));
    var ps, qs := s.past + [s.p], next.past + [next.p];
    forall i | 0 <= i < n + 1
      ensures LeadsBack(next.ms, i, qs[i + 1], qs[i], which)
    {
      if i < n {
        assert LeadsBack(s.ms, i, ps[i + 1], ps[i], which);
        SamePut(s.ms, n, Noted(s.p, ch), i + 1);
        LeadsBackLocal(s.ms, next.ms, i, ps[i + 1], ps[i], which);
      }
    }
  }

  /** A takeback leads to the like of the position before, and the records left still lead back. */
  lemma {:induction false} BackRetraces(s: Session, which: Aspect)
    requires Retraces(s, which) && s.past != []
    ensures var next := Do(s, Back); var n := |s.past| - 1;
      && Undoable(s.ms[n]) && next.past == s.past[..n] && next.ms == s.ms
      && Same(next.p, s.past[n], which) && Retraces(next, which)
  {
    var n, ps := |s.past| - 1, s.past + [s.p];
    LastLeadsBack(s.p, s.ms, ps, n + 1, which);
    var next := Do(s, Back);
    assert ps[n] == s.past[n] && next.p == Undo(s.p, s.ms, n + 1);
    var qs := next.past + [next.p];
    forall i | 0 <= i < n
      ensures LeadsBack(s.ms, i, qs[i + 1], qs[i], which)
    {
      assert LeadsBack(s.ms, i, ps[i + 1], ps[i], which);
      assert qs[i] == ps[i] && (if i + 1 < n then qs[i + 1] == ps[i + 1] else qs[i + 1] == next.p);
      LikeLeadsBack(s.ms, i, ps[i + 1], qs[i + 1], ps[i], which);
    }
  }

  lemma {:induction false} LikeLeadsBack(ms: seq<Move>, i: nat, after: Position, like: Position, before: Position,
      which: Aspect)
    requires LeadsBack(ms, i, after, before, which) && Same(like, after, which)
    ensures LeadsBack(ms, i, like, before, which)
  {
    forall q | Same(q, like, which)
      ensures Same(Undo(q, ms, i + 1), before, which)
    {
      assert Same(q, after, which);
    }
  }

  /** Taking back k moves leads to the like of the position k moves ago. */
  ghost predicate TakesBack(s: Session, k: nat, which: Aspect) {
    var n := |s.past|;
    n <= |s.ms| && (k <= n ==> Same(UndoMany(s.p, s.ms, n, k), (s.past + [s.p])[n - k], which))
  }

  lemma {:induction false} RetracingTakesBack(s: Session, k: nat, which: Aspect)
    requires Retraces(s, which)
    ensures TakesBack(s, k, which)
  {
    if k <= |s.past| {
      UndoChain(s.p, s.ms, s.past + [s.p], |s.past|, k, which);
    }
  }

  /** A game begins with nothing to take back. */
  lemma {:induction false} BeginningRetraces(p: Position, ms: seq<Move>, which: Aspect)
    ensures Retraces(Session(p, ms, []), which)
  {
  }

  /** Taking the move ch back at once will restore what is asked. */
  ghost predicate Keeps(s: Session, ch: Choice, which: Aspect) {
    && |s.past| <= |s.ms| && Fits(ch) && ch.from.Square?
    && var recs, f, r := s.ms[..|s.past|], ch.from.file, ch.from.rank;
       match which
       case OnlyMen => true
       case Kings => Recoverable(s.p, recs, f, r, ch.toFile)
       case Rights => Recoverable(s.p, recs, f, r, ch.toFile) && RookRecoverable(s.p, recs, f, r)
       case EnPassant => !Raises(s.p, ch)
  }

  /** Where the flags for en passant are asked for, those of the game's positions are of the moves before. */
  ghost predicate Suited(s: Session, which: Aspect) {
    which.EnPassant? ==>
      |s.past| <= |s.ms| && forall i :: 0 <= i <= |s.past| ==> Fresh((s.past + [s.p])[i], s.ms[..i])
  }

  lemma {:induction false} KingsComeBack(q: Position, p: Position, ms: seq<Move>, n: nat, ch: Choice, next: Position)
    requires Follows(p, ch, n, next) && n < |ms| && ms[n] == Noted(p, ch) && Same(q, next, Kings)
    ensures Undoable(ms[n])
    ensures SameKings(Undo(q, ms, n + 1), p) <==> Recoverable(p, ms[..n], ch.from.file, ch.from.rank, ch.toFile)
  {
    StepFacts(q, p, ms, n, ch, next);
    UndoBothKings(q, p, ms, n);
  }

  lemma {:induction false} RightsComeBack(q: Position, p: Position, ms: seq<Move>, n: nat, ch: Choice, next: Position)
    requires Follows(p, ch, n, next) && n < |ms| && ms[n] == Noted(p, ch) && Same(q, next, Rights)
    ensures Undoable(ms[n])
    ensures Undo(q, ms, n + 1).moved == p.moved
      <==> Recoverable(p, ms[..n], ch.from.file, ch.from.rank, ch.toFile)
           && RookRecoverable(p, ms[..n], ch.from.file, ch.from.rank)
  {
    StepFacts(q, p, ms, n, ch, next);
    CastlingIsFresh(p, ch.from.file, ch.from.rank, ch.toFile, ch.toRank);
    UndoRights(q, p, ms, n);
  }

  /** What the undo of a move right after it comes to. */
  lemma {:induction false} UndoIsExact(s: Session, ch: Choice, q: Position, which: Aspect)
    requires |s.past| <= |s.ms| && CanDo(s, Make(ch)) && Same(q, Do(s, Make(ch)).p, which)
    requires which.EnPassant? ==> Fresh(s.p, s.ms[..|s.past|])
    ensures var n, next := |s.past|, Do(s, Make(ch));
      Undoable(next.ms[n]) && (Same(Undo(q, next.ms, n + 1), s.p, which) <==> Keeps(s, ch, which))
  {
    var n, next := |s.past|, Do(s, Make(ch));
    SamePut(s.ms, n, Noted(s.p, ch), n);
    UndoStep(q, s.p, next.ms, n, ch, next.p);
    match which
    case OnlyMen =>
    case Kings => KingsComeBack(q, s.p, next.ms, n, ch, next.p);
    case Rights => RightsComeBack(q, s.p, next.ms, n, ch, next.p);
    case EnPassant => UndoEnPassantFlags(q, s.p, next.ms, n, ch, next.p);
  }

  lemma {:induction false} KeptLeadsBack(s: Session, ch: Choice, which: Aspect)
    requires CanDo(s, Make(ch)) && Keeps(s, ch, which)
    requires which.EnPassant? ==> Fresh(s.p, s.ms[..|s.past|])
    ensures LeadsBack(Do(s, Make(ch)).ms, |s.past|, Do(s, Make(ch)).p, s.p, which)
  {
    var n, next := |s.past|, Do(s, Make(ch));
    forall q | Same(q, next.p, which)
      ensures Same(Undo(q, next.ms, n + 1), s.p, which)
    {
      UndoIsExact(s, ch, q, which);
    }
    UndoIsExact(s, ch, next.p, which);
  }

  lemma {:induction false} LastIsFresh(s: Session, which: Aspect)
    requires |s.past| <= |s.ms| && Suited(s, which)
    ensures which.EnPassant? ==> Fresh(s.p, s.ms[..|s.past|])
  {
    assert (s.past + [s.p])[|s.past|] == s.p;
  }

  /** A move that keeps what is asked, and every takeback, keeps the records leading back. */
  lemma {:induction false} ActRetraces(s: Session, a: Act, which: Aspect)
    requires Retraces(s, which) && Suited(s, which) && CanDo(s, a) && (a.Make? ==> Keeps(s, a.choice, which))
    ensures Retraces(Do(s, a), which)
  {
    match a
    case Make(ch) =>
      LastIsFresh(s, which);
      KeptLeadsBack(s, ch, which);
      PlayRetraces(s, ch, which);
    case Back =>
      if s.past != [] {
        BackRetraces(s, which);
      }
  }

  lemma {:induction false} PlayIsSuited(s: Session, ch: Choice, which: Aspect)
    requires |s.past| <= |s.ms| && Suited(s, which) && CanDo(s, Make(ch))
    ensures Suited(Do(s, Make(ch)), which)
  {
    if which.EnPassant? {
      var n, next := |s.past|, Do(s, Make(ch));
      var current := (p, recs) => Fresh(p, recs);
      MadeIsFresh(s.p, ch, Seat(n, false), s.ms[..n]);
      OneMoreStage(current, s.past + [s.p], s.ms, next.p, Noted(s.p, ch));
      assert forall i :: 0 <= i <= n + 1 ==> current((next.past + [next.p])[i], next.ms[..i]);
    }
  }

  lemma {:induction false} BackIsSuited(s: Session, which: Aspect)
    requires Retraces(s, which) && Suited(s, which) && s.past != []
    ensures Suited(Do(s, Back), which)
  {
    if which.EnPassant? {
      BackRetraces(s, which);
      var n, next := |s.past| - 1, Do(s, Back);
      var ps, qs := s.past + [s.p], next.past + [next.p];
      assert Fresh(ps[n], s.ms[..n]);
      forall i | 0 <= i <= n
        ensures Fresh(qs[i], s.ms[..i])
      {
        assert Fresh(ps[i], s.ms[..i]) && (i < n ==> qs[i] == ps[i]);
      }
    }
  }

  /** Taking one move back at once restores what is asked exactly when the move keeps it. */
  lemma {:induction false} OneBackIsExact(s: Session, ch: Choice, which: Aspect)
    requires |s.past| <= |s.ms| && Suited(s, which) && CanDo(s, Make(ch))
    ensures TakesBack(Do(s, Make(ch)), 1, which) <==> Keeps(s, ch, which)
  {
    var n, next := |s.past|, Do(s, Make(ch));
    LastIsFresh(s, which);
    UndoIsExact(s, ch, next.p, which);
    assert UndoMany(next.p, next.ms, n + 1, 1) == Undo(next.p, next.ms, n + 1);
    assert (next.past + [next.p])[n] == s.p;
  }

  /** Every move made in the game keeps what is asked. */
  ghost predicate AllKept(s: Session, acts: seq<Act>, which: Aspect)
    requires IsSession(s, acts)
    decreases |acts|
  {
    acts == []
    || ((acts[0].Make? ==> Keeps(s, acts[0].choice, which)) && AllKept(Do(s, acts[0]), acts[1..], which))
  }

  /** At any time of the game, taking back any number of moves restores what is asked. */
  ghost predicate AlwaysTakesBack(s: Session, acts: seq<Act>, which: Aspect)
    requires IsSession(s, acts)
    decreases |acts|
  {
    && (forall k: nat :: TakesBack(s, k, which))
    && (acts == [] || AlwaysTakesBack(Do(s, acts[0]), acts[1..], which))
  }

  /** However a game went on, and from whatever start, taking back restores what is asked besides
      the men, at any time of the game and for any number of moves, exactly when every move made
      in it keeps that. */
  lemma {:induction false} TakebackIsExact(s: Session, acts: seq<Act>, which: Aspect)
    requires Retraces(s, which) && Suited(s, which) && IsSession(s, acts)
    ensures AlwaysTakesBack(s, acts, which) <==> AllKept(s, acts, which)
    decreases |acts|
  {
    forall k: nat
      ensures TakesBack(s, k, which)
    {
      RetracingTakesBack(s, k, which);
    }
    if acts != [] {
      var next := Do(s, acts[0]);
      if acts[0].Make? && !Keeps(s, acts[0].choice, which) {
        OneBackIsExact(s, acts[0].choice, which);
        assert !TakesBack(next, 1, which);
        assert !AlwaysTakesBack(next, acts[1..], which);
      } else {
        ActRetraces(s, acts[0], which);
        ActIsSuited(s, acts[0], which);
        TakebackIsExact(next, acts[1..], which);
      }
    }
  }

  lemma {:induction false} ActIsSuited(s: Session, a: Act, which: Aspect)
    requires Retraces(s, which) && Suited(s, which) && CanDo(s, a)
    ensures Suited(Do(s, a), which)
  {
    match a
    case Make(ch) => PlayIsSuited(s, ch, which);
    case Back =>
      if s.past != [] {
        BackIsSuited(s, which);
      }
  }

  lemma {:induction false} AlwaysAtTheEnd(s: Session, acts: seq<Act>, k: nat, which: Aspect)
    requires IsSession(s, acts) && AlwaysTakesBack(s, acts, which)
    ensures TakesBack(SessionEnd(s, acts), k, which)
    decreases |acts|
  {
    if acts != [] {
      AlwaysAtTheEnd(Do(s, acts[0]), acts[1..], k, which);
    }
  }

  /** However a game went on, with takebacks and new moves in any order, taking back k moves
      restores the men, the turn and the move number of the position k moves ago. */
  lemma {:induction false} TakebackRestores(s: Session, acts: seq<Act>, k: nat)
    requires Retraces(s, OnlyMen) && IsSession(s, acts)
    ensures TakesBack(SessionEnd(s, acts), k, OnlyMen)
    decreases |acts|
  {
    if acts == [] {
      RetracingTakesBack(s, k, OnlyMen);
    } else {
      ActRetraces(s, acts[0], OnlyMen);
      TakebackRestores(Do(s, acts[0]), acts[1..], k);
    }
  }

  /** A king that leaves home as the first man of its side, not castling, is not recoverable. */
  lemma {:induction false} FirstKingMoveIsLost(s: Session, ch: Choice)
    requires |s.past| <= |s.ms| && CanDo(s, Make(ch)) && |s.past| < ScanStart(s.p.onMove) && !s.p.KingMoved(s.p.onMove)
    requires IsKing(At(s.p.board, ch.from.file, ch.from.rank)) && Abs(ch.toFile - ch.from.file) != 2
    ensures !TakesBack(Do(s, Make(ch)), 1, Kings)
  {
    OneBackIsExact(s, ch, Kings);
  }

  /** What holds of a position after i records of a game from an opening, and of whatever has
      the same men and the same kings' flags. */
  ghost predicate Stage(p0: Position, p: Position, recs: seq<Move>) {
    && WellPlaced(p) && (p.onMove.White? <==> |recs| % 2 == 0)
    && KingHistory(p, recs, White) && KingHistory(p, recs, Black)
    && (|recs| == 0 ==> p.board == p0.board)
    && (|recs| == 1 ==> WalledAtHome(p.board, Black))
  }

  lemma {:induction false} SameStage(p0: Position, p: Position, q: Position, recs: seq<Move>)
    requires Stage(p0, p, recs) && Same(q, p, Kings)
    ensures Stage(p0, q, recs)
  {
    CheckIsHit(p);
    CheckIsHit(q);
  }

  lemma {:induction false} OpeningStage(p0: Position)
    requires Opening(p0)
    ensures Stage(p0, p0, [])
  {
    NoHistory(p0, White);
    NoHistory(p0, Black);
  }

  /** Flags for en passant and hands are in order. */
  predicate Tidy(p: Position) { EpSane(p.ep) && forall i :: 0 <= i < 10 ==> p.holding[i] >= 0 }

  /** A king's first move is not the first of its side. */
  lemma {:induction false} KingsWait(p0: Position, p: Position, recs: seq<Move>, ch: Choice, t: Table)
    requires Opening(p0) && Stage(p0, p, recs) && Allowed(p, ch, t)
    ensures ch.from == Square(4, p.onMove.Home()) ==> |recs| >= 2
  {
    if |recs| < 2 {
      WalledKingWaits(p, ch, t);
    }
  }

  lemma {:induction false} FirstMoveWalls(p0: Position, p: Position, ch: Choice, t: Table)
    requires Opening(p0) && p.board == p0.board && p.onMove.White? && ch.from.Square? && Allowed(p, ch, t)
    ensures WalledAtHome(Played(p, ch, t).board, Black)
  {
  }

  /** What an opening rules out: a king's move as the first of its side. */
  ghost predicate InTime(p: Position, recs: seq<Move>, ch: Choice, t: Table) {
    && ch.from.Square? && Allowed(p, ch, t)
    && (ch.from == Square(4, p.onMove.Home()) ==> |recs| >= 2)
    && (|recs| == 0 ==> WalledAtHome(Played(p, ch, t).board, Black))
  }

  lemma {:induction false} MovesAreInTime(p0: Position, p: Position, recs: seq<Move>, ch: Choice, t: Table)
    requires Opening(p0) && Stage(p0, p, recs) && ch.from.Square? && Allowed(p, ch, t)
    ensures InTime(p, recs, ch, t)
  {
    KingsWait(p0, p, recs, ch, t);
    if |recs| == 0 {
      FirstMoveWalls(p0, p, ch, t);
    }
  }

  lemma {:induction false} NextHistory(p: Position, recs: seq<Move>, ch: Choice, t: Table)
    requires Sound(p) && KingHistory(p, recs, White) && KingHistory(p, recs, Black)
    requires (p.onMove.White? <==> |recs| % 2 == 0) && InTime(p, recs, ch, t)
    ensures var next, more := Played(p, ch, t), recs + [Noted(p, ch)];
      KingHistory(next, more, White) && KingHistory(next, more, Black)
  {
    HistoryStep(p, recs, ch, t, White);
    HistoryStep(p, recs, ch, t, Black);
  }

  lemma {:induction false} NextStage(p0: Position, p: Position, recs: seq<Move>, ch: Choice, t: Table)
    requires Stage(p0, p, recs) && Tidy(p) && InTime(p, recs, ch, t)
    ensures Stage(p0, Played(p, ch, t), recs + [Noted(p, ch)]) && Tidy(Played(p, ch, t))
  {
    var next, more := Played(p, ch, t), recs + [Noted(p, ch)];
    assert Sound(p);
    MoveKeepsSound(p, ch, t);
    NextHistory(p, recs, ch, t);
    TurnGoesOver(p, ch, t);
    IsAtStage(p0, p, recs, next, more);
  }

  lemma {:induction false} IsAtStage(p0: Position, p: Position, recs: seq<Move>, next: Position, more: seq<Move>)
    requires (p.onMove.White? <==> |recs| % 2 == 0) && |more| == |recs| + 1 && next.onMove == p.onMove.Toggle()
    requires Sound(next) && KingHistory(next, more, White) && KingHistory(next, more, Black)
    requires |recs| == 0 ==> WalledAtHome(next.board, Black)
    ensures Stage(p0, next, more) && Tidy(next)
  {
  }

  lemma {:induction false} TurnGoesOver(p: Position, ch: Choice, t: Table)
    requires Fits(ch)
    ensures Played(p, ch, t).onMove == p.onMove.Toggle()
  {
  }

  lemma {:induction false} UndoIsTidy(p: Position, ms: seq<Move>, n: nat)
    requires 0 < n <= |ms| && Undoable(ms[n - 1]) && Tidy(p)
    ensures Tidy(Undo(p, ms, n))
  {
    if n > 1 && Undoable(ms[n - 2]) {
      var b := UndoBoard(p.board, ms[n - 1]);
      RaisedIsSane(p.ep, b, ms[n - 2].toFile, Black, 3);
      RaisedIsSane(p.ep, b, ms[n - 2].toFile, White, 4);
    }
  }

  lemma {:induction false} RaisedIsSane(ep: EpFlags, b: Board, tf: int, c: Color, rank: int)
    requires On(tf) && On(rank) && EpSane(ep)
    ensures EpSane(EpRaise(ep, b, tf, c, rank))
  {
    var raised := EpRaise(ep, b, tf, c, rank);
    forall d: Color, f | 0 <= f < 8
      ensures EpAt(raised, d, f) == 0 || (EpAt(raised, d, f) == 1 && f < 7) || (EpAt(raised, d, f) == -1 && f > 0)
    {
      var was := EpAt(ep, d, f);
      assert was == 0 || (was == 1 && f < 7) || (was == -1 && f > 0);
    }
  }

  /** The game, and every position it can be taken back to, is at its stage. */
  ghost predicate Tracked(s: Session, p0: Position) {
    && Retraces(s, Kings) && Tidy(s.p)
    && forall i :: 0 <= i <= |s.past| ==> Stage(p0, (s.past + [s.p])[i], s.ms[..i])
  }

  /** What holds at every stage and at one more. */
  lemma {:induction false} OneMoreStage(stage: (Position, seq<Move>) -> bool, ps: seq<Position>, ms: seq<Move>,
      p: Position, m: Move)
    requires ps != [] && |ps| - 1 <= |ms| && forall i :: 0 <= i < |ps| ==> stage(ps[i], ms[..i])
    requires stage(p, ms[..|ps| - 1] + [m])
    ensures forall i :: 0 <= i <= |ps| ==> stage((ps + [p])[i], Recording(ms, |ps| - 1, m)[..i])
  {
    var n, us := |ps| - 1, Recording(ms, |ps| - 1, m);
    forall i | 0 <= i <= |ps|
      ensures stage((ps + [p])[i], us[..i])
    {
      if i <= n {
        SamePut(ms, n, m, i);
        assert stage(ps[i], ms[..i]);
      } else {
        SamePut(ms, n, m, n);
        assert us[..n + 1] == ms[..n] + [m];
      }
    }
  }

  lemma {:induction false} PlayIsTracked(s: Session, ch: Choice, p0: Position)
    requires Tracked(s, p0) && CanDo(s, Make(ch)) && InTime(s.p, s.ms[..|s.past|], ch, Seat(|s.past|, false))
    ensures Tracked(Do(s, Make(ch)), p0)
  {
    var n, next := |s.past|, Do(s, Make(ch));
    var ps := s.past + [s.p];
    var stage := (p, recs) => Stage(p0, p, recs);
    assert stage(ps[n], s.ms[..n]);
    NextStage(p0, s.p, s.ms[..n], ch, Seat(n, false));
    OneMoreStage(stage, ps, s.ms, next.p, Noted(s.p, ch));
    assert forall i :: 0 <= i <= n + 1 ==> stage((ps + [next.p])[i], next.ms[..i]);
    InTimeKeeps(s, ch, p0);
    ActRetraces(s, Make(ch), Kings);
  }

  lemma {:induction false} InTimeKeeps(s: Session, ch: Choice, p0: Position)
    requires |s.past| <= |s.ms| && CanDo(s, Make(ch)) && Tidy(s.p)
    requires Stage(p0, s.p, s.ms[..|s.past|]) && InTime(s.p, s.ms[..|s.past|], ch, Seat(|s.past|, false))
    ensures Keeps(s, ch, Kings)
  {
    assert Sound(s.p);
    HistoryRecovers(s.p, s.ms[..|s.past|], ch.from.file, ch.from.rank, ch.toFile, ch.toRank);
  }

  lemma {:induction false} BackIsTracked(s: Session, p0: Position)
    requires Tracked(s, p0) && s.past != []
    ensures Tracked(Do(s, Back), p0)
  {
    var n := |s.past| - 1;
    BackRetraces(s, Kings);
    var next := Do(s, Back);
    var ps, qs := s.past + [s.p], next.past + [next.p];
    UndoIsTidy(s.p, s.ms, n + 1);
    assert Stage(p0, ps[n], s.ms[..n]);
    SameStage(p0, ps[n], next.p, s.ms[..n]);
    forall i | 0 <= i <= n
      ensures Stage(p0, qs[i], s.ms[..i])
    {
      assert Stage(p0, ps[i], s.ms[..i]) && (i < n ==> qs[i] == ps[i]);
    }
  }

  lemma {:induction false} ActIsTracked(s: Session, a: Act, p0: Position)
    requires Opening(p0) && Tracked(s, p0) && CanDo(s, a)
    ensures Tracked(Do(s, a), p0)
  {
    match a
    case Make(ch) =>
      ActKeeps(s, ch, p0);
      PlayIsTracked(s, ch, p0);
    case Back =>
      if s.past != [] {
        BackIsTracked(s, p0);
      }
  }

  /** In a game from an opening every move is recoverable. */
  lemma {:induction false} OpeningKeeps(s: Session, acts: seq<Act>, p0: Position)
    requires Opening(p0) && Tracked(s, p0) && IsSession(s, acts)
    ensures AllKept(s, acts, Kings)
    decreases |acts|
  {
    if acts != [] {
      if acts[0].Make? {
        ActKeeps(s, acts[0].choice, p0);
      }
      ActIsTracked(s, acts[0], p0);
      OpeningKeeps(Do(s, acts[0]), acts[1..], p0);
    }
  }

  lemma {:induction false} ActKeeps(s: Session, ch: Choice, p0: Position)
    requires Opening(p0) && Tracked(s, p0) && CanDo(s, Make(ch))
    ensures InTime(s.p, s.ms[..|s.past|], ch, Seat(|s.past|, false)) && Keeps(s, ch, Kings)
  {
    var n := |s.past|;
    assert Stage(p0, (s.past + [s.p])[n], s.ms[..n]);
    MovesAreInTime(p0, s.p, s.ms[..n], ch, Seat(n, false));
    InTimeKeeps(s, ch, p0);
  }

  /** In a game from the standard start taking back restores men, turn, move number and the
      kings' flags, at any time and for any number of moves. */
  lemma {:induction false} StandardTakeback(ms: seq<Move>, acts: seq<Act>, k: nat)
    requires IsSession(Session(StandardStart(), ms, []), acts)
    ensures var s := Session(StandardStart(), ms, []);
      AlwaysTakesBack(s, acts, Kings) && TakesBack(SessionEnd(s, acts), k, Kings)
  {
    var p0 := StandardStart();
    var s := Session(p0, ms, []);
    StandardOpening();
    OpeningStage(p0);
    BeginningRetraces(p0, ms, Kings);
    assert ms[..0] == [];
    OpeningKeeps(s, acts, p0);
    TakebackIsExact(s, acts, Kings);
    AlwaysAtTheEnd(s, acts, k, Kings);
  }

  /** From there the other flags too come back exactly when every move made keeps them. */
  lemma {:induction false} StandardIsExact(ms: seq<Move>, acts: seq<Act>, which: Aspect)
    requires IsSession(Session(StandardStart(), ms, []), acts)
    ensures var s := Session(StandardStart(), ms, []);
      AlwaysTakesBack(s, acts, which) <==> AllKept(s, acts, which)
  {
    var s := Session(StandardStart(), ms, []);
    BeginningRetraces(StandardStart(), ms, which);
    assert Fresh(StandardStart(), ms[..0]);
    TakebackIsExact(s, acts, which);
  }
}
