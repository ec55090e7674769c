/** Deciding whether the side to move has a legal move, and with it mate and stalemate. */
module Mate {
  import opened Positions
  import opened Legality
  import opened Attacks
  import opened Targets
  import opened ListRoom
  import opened GameStates
  import opened Generators
  import opened Moves

  /** The man on (f, r) has a listed target that passes the full test. */
  ghost predicate TargetPasses(p: Position, t: Table, f: int, r: int)
    requires Playable(p) && On(f) && On(r) && Own(p.board, p.onMove, f, r)
  {
    exists tf, tr :: On(tf) && On(tr) && (tf, tr) in ManTargets(p, f, r) && LegalAndCheck(p, Square(f, r), tf, tr, t)
  }

  /** Looking at listed targets only, which never include castling, decides exactly
      whether any move exists. */
  lemma {:induction false} ListedTargetsDecide(p: Position, t: Table)
    requires Playable(p)
    ensures HasBoardMove(p, t)
      <==> exists f, r :: On(f) && On(r) && Own(p.board, p.onMove, f, r) && TargetPasses(p, t, f, r)
  {
    if HasBoardMove(p, t) {
      var ff, fr, tf, tr :| On(ff) && On(fr) && On(tf) && On(tr) && LegalAndCheck(p, Square(ff, fr), tf, tr, t);
      MoveHasTarget(p, t, ff, fr, tf, tr);
    }
  }

  lemma {:induction false} MoveHasTarget(p: Position, t: Table, ff: int, fr: int, tf: int, tr: int)
    requires Playable(p) && On(ff) && On(fr) && On(tf) && On(tr)
    requires LegalAndCheck(p, Square(ff, fr), tf, tr, t)
    ensures Own(p.board, p.onMove, ff, fr) && TargetPasses(p, t, ff, fr)
  {
    assert LegalMove(p, ff, fr, tf, tr);
    LegalIsPlainOrCastling(p, ff, fr, tf, tr);
    if Plain(p, ff, fr, tf, tr) {
      TargetsExact(p, ff, fr, tf, tr);
    } else {
      var side := if tf == 6 then KingSide else QueenSide;
      assert Castling(p, ff, fr, tf, tr) && Castles(p, side);
      CastlingStepListed(p, t, side);
    }
  }

  lemma {:induction false} CastlingStepListed(p: Position, t: Table, side: Side)
    requires Playable(p)
    requires At(p.board, 4, p.onMove.Home()) == Man(p.onMove, King) && Castles(p, side)
    ensures TargetPasses(p, t, 4, p.onMove.Home())
  {
    var h := p.onMove.Home();
    CastlingImpliesStep(p, side, t);
    assert At(p.board, side.Transit(), h) == Empty;
    assert Plain(p, 4, h, side.Transit(), h);
    TargetsExact(p, 4, h, side.Transit(), h);
  }

  lemma {:induction false} AccumulatedGrows(p: Position, m: nat, n: nat)
    requires Playable(p) && m <= n <= 64
    ensures |Accumulated(p, m)| <= |Accumulated(p, n)|
  {
    if m < n {
      AccumulatedGrows(p, m, n - 1);
    }
  }

  /** Squares without own men add nothing to the list. */
  lemma {:induction false} AccumulatedSkips(p: Position, m: nat, n: nat)
    requires Playable(p) && m <= n <= 64 && NoneBetween(p.board, p.onMove, m, n)
    ensures Accumulated(p, n) == Accumulated(p, m)
  {
    if m < n {
      AccumulatedSkips(p, m, n - 1);
      assert !Own(p.board, p.onMove, (n - 1) / 8, (n - 1) % 8);
    }
  }

  lemma {:induction false} AccumulatedOnBoard(p: Position, n: nat)
    requires Playable(p) && n <= 64
    ensures forall x: Target :: x in Accumulated(p, n) ==> On(x.0) && On(x.1)
  {
    if n > 0 {
      AccumulatedOnBoard(p, n - 1);
      var f, r := (n - 1) / 8, (n - 1) % 8;
      forall x: Target | x in Accumulated(p, n)
        ensures On(x.0) && On(x.1)
      {
        if Own(p.board, p.onMove, f, r) && x in ManTargets(p, f, r) {
          OffOrigin(p, f, r, x.0, x.1);
        }
      }
    }
  }

  /** (kf, kr) is the last king of colour c among the first n squares, or (0, 0) if none is there. */
  ghost predicate KingAmong(b: Board, c: Color, n: int, kf: int, kr: int) {
    if On(kf) && On(kr) && 8 * kf + kr < n && At(b, kf, kr) == Man(c, King) then
      forall f, r :: On(f) && On(r) && Earlier(kf, kr, f, r) && 8 * f + r < n ==> At(b, f, r) != Man(c, King)
    else
      && kf == 0 && kr == 0
      && forall f, r :: On(f) && On(r) && 8 * f + r < n ==> At(b, f, r) != Man(c, King)
  }

  /** The position with one more queen to drop. */
  function QueenInHand(p: Position): Position {
    var slot := HoldSlot(p.onMove, Queen);
    p.(holding := p.holding[slot := p.holding[slot] + 1])
  }

  /** Dropping a queen on some empty square touching (kf, kr) would be legal. */
  ghost predicate DropBeside(p: Position, t: Table, kf: int, kr: int) {
    exists f, r :: KingStep(kf, kr, f, r) && DropWorks(QueenInHand(p), t, f, r)
  }

  /** What the server takes as having a move: a move on the board or, in bughouse, a
      place beside the king where a queen might yet be dropped. */
  ghost predicate HasMove(p: Position, t: Table) {
    || HasBoardMove(p, t)
    || (t.Bughouse() && exists kf, kr :: KingAmong(p.board, p.onMove, 64, kf, kr) && DropBeside(p, t, kf, kr))
  }

  /** Tries every listed target for the man on (f, r). */
  method TryTargets(gs: GameState, f: int, r: int, list: TargetList, t: Table) returns (found: bool)
    requires gs.Valid() && list.Valid() && On(f) && On(r)
    requires Playable(gs.Snapshot()) && Own(gs.board[..], gs.onMove, f, r)
    requires list.contents == Accumulated(gs.Snapshot(), 8 * f + r + 1)
    ensures if found then HasBoardMove(gs.Snapshot(), t) else !TargetPasses(gs.Snapshot(), t, f, r)
  {
    AccumulatedOnBoard(gs.Snapshot(), 8 * f + r + 1);
    found := TryEach(gs, f, r, list, t);
    if !found {
      NonePassed(gs.Snapshot(), f, r, t, list.contents);
    }
  }

  method TryEach(gs: GameState, f: int, r: int, list: TargetList, t: Table) returns (found: bool)
    requires gs.Valid() && list.Valid() && On(f) && On(r)
    requires forall x: Target :: x in list.contents ==> On(x.0) && On(x.1)
    ensures if found then HasBoardMove(gs.Snapshot(), t) else NonePasses(gs.Snapshot(), f, r, t, list.contents)
  {
    for i := 0 to list.num
      invariant NonePasses(gs.Snapshot(), f, r, t, list.contents[..i])
    {
      assert list.contents[i] in list.contents;
      found := IsLegalAndCheckMove(gs, Square(f, r), list.posf[i], list.posr[i], t);
      if found {
        return;
      }
      assert list.contents[..i + 1] == list.contents[..i] + [list.contents[i]];
    }
    assert list.contents[..list.num] == list.contents;
    return false;
  }

  /** The man on (f, r) cannot go to any of the targets. */
  ghost predicate NonePasses(p: Position, f: int, r: int, t: Table, targets: seq<Target>)
    requires On(f) && On(r)
  {
    forall x: Target :: x in targets ==> On(x.0) && On(x.1) && !LegalAndCheck(p, Square(f, r), x.0, x.1, t)
  }

  lemma {:induction false} NonePassed(p: Position, f: int, r: int, t: Table, targets: seq<Target>)
    requires Playable(p) && On(f) && On(r) && Own(p.board, p.onMove, f, r)
    requires targets == Accumulated(p, 8 * f + r + 1) && NonePasses(p, f, r, t, targets)
    ensures !TargetPasses(p, t, f, r)
  {
    AccumulatedNext(p, f, r);
  }

  /** Lists the targets of the man on (f, r) behind those of the men before it. */
  method ListTargets(p: Position, f: int, r: int, list: TargetList, ghost n: nat)
    requires Playable(p) && On(f) && On(r) && Own(p.board, p.onMove, f, r)
    requires n <= 8 * f + r && NoneBetween(p.board, p.onMove, n, 8 * f + r)
    requires list.Valid() && list.contents == Accumulated(p, n)
    modifies list, list.posf, list.posr
    ensures list.Valid() && list.contents == Accumulated(p, 8 * f + r + 1)
  {
    ListAlwaysFits(p);
    AccumulatedSkips(p, n, 8 * f + r);
    AccumulatedGrows(p, 8 * f + r + 1, 64);
    AccumulatedNext(p, f, r);
    PossibleMoves(p, f, r, list);
  }

  lemma {:induction false} SquareOf(f: int, r: int)
    requires On(f) && On(r)
    ensures (8 * f + r) / 8 == f && (8 * f + r) % 8 == r
  {
  }

  lemma {:induction false} AccumulatedNext(p: Position, f: int, r: int)
    requires Playable(p) && On(f) && On(r) && Own(p.board, p.onMove, f, r)
    ensures Accumulated(p, 8 * f + r + 1) == Accumulated(p, 8 * f + r) + ManTargets(p, f, r)
  {
    SquareOf(f, r);
    var n := 8 * f + r + 1;
    assert (n - 1) / 8 == f && (n - 1) % 8 == r;
  }

  /** None of the men on the first n squares has a listed target that passes. */
  ghost predicate NoManPasses(p: Position, t: Table, n: int)
    requires Playable(p)
  {
    forall x, y :: On(x) && On(y) && 8 * x + y < n && Own(p.board, p.onMove, x, y) ==> !TargetPasses(p, t, x, y)
  }

  /** The squares up to the man on (f, r): those before the n-th, empty ones or
      enemies', and (f, r) itself. */
  lemma {:induction false} ScanSplit(b: Board, c: Color, n: nat, f: int, r: int)
    requires On(f) && On(r) && n <= 8 * f + r && NoneBetween(b, c, n, 8 * f + r)
    ensures forall x, y :: On(x) && On(y) && 8 * x + y < 8 * f + r + 1 && Own(b, c, x, y)
                           ==> (x == f && y == r) || 8 * x + y < n
  {
    forall x, y | On(x) && On(y) && 8 * x + y < 8 * f + r + 1 && Own(b, c, x, y)
      ensures (x == f && y == r) || 8 * x + y < n
    {
      if 8 * x + y == 8 * f + r {
        SquareOf(f, r);
        SquareOf(x, y);
      }
    }
  }

  lemma {:induction false} ScanPasses(p: Position, t: Table, n: nat, f: int, r: int)
    requires Playable(p) && On(f) && On(r) && Own(p.board, p.onMove, f, r)
    requires n <= 8 * f + r && NoneBetween(p.board, p.onMove, n, 8 * f + r)
    requires NoManPasses(p, t, n) && !TargetPasses(p, t, f, r)
    ensures NoManPasses(p, t, 8 * f + r + 1)
  {
    ScanSplit(p.board, p.onMove, n, f, r);
  }

  lemma {:induction false} ScanKing(b: Board, c: Color, n: nat, f: int, r: int, kf: int, kr: int)
    requires On(f) && On(r) && Own(b, c, f, r) && n <= 8 * f + r && NoneBetween(b, c, n, 8 * f + r)
    requires KingAmong(b, c, n, kf, kr)
    ensures if At(b, f, r).kind == King then KingAmong(b, c, 8 * f + r + 1, f, r)
            else KingAmong(b, c, 8 * f + r + 1, kf, kr)
  {
    forall x, y | On(x) && On(y) && n <= 8 * x + y < 8 * f + r
      ensures At(b, x, y) != Man(c, King)
    {
      assert !Own(b, c, x, y);
    }
  }

  /** One man of the scan: list its targets, then try everything listed so far. */
  method ScanMan(gs: GameState, f: int, r: int, list: TargetList, t: Table, ghost n: nat) returns (found: bool)
    requires gs.Valid() && Playable(gs.Snapshot())
    requires On(f) && On(r) && Own(gs.board[..], gs.onMove, f, r)
    requires n <= 8 * f + r && NoneBetween(gs.board[..], gs.onMove, n, 8 * f + r)
    requires list.Valid() && list.contents == Accumulated(gs.Snapshot(), n)
    requires list.posf != gs.holding && list.posf != gs.ep && list.posr != gs.holding && list.posr != gs.ep
    modifies list, list.posf, list.posr
    ensures list.Valid() && list.contents == Accumulated(gs.Snapshot(), 8 * f + r + 1)
    ensures gs.Snapshot() == old(gs.Snapshot())
    ensures if found then HasBoardMove(gs.Snapshot(), t) else !TargetPasses(gs.Snapshot(), t, f, r)
  {
    ListTargets(gs.Snapshot(), f, r, list, n);
    assert gs.Snapshot() == old(gs.Snapshot());
    found := TryTargets(gs, f, r, list, t);
  }

  /** What the scan has established when it stands before the n-th square. */
  ghost predicate Scanned(p: Position, t: Table, n: int, next: int, kf: int, kr: int)
    requires Playable(p)
  {
    && 0 <= n <= next <= 64
    && NoneBetween(p.board, p.onMove, n, next)
    && NoManPasses(p, t, n)
    && KingAmong(p.board, p.onMove, n, kf, kr)
  }

  lemma {:induction false} ScanStep(p: Position, t: Table, n: int, f: int, r: int, next: int, kf: int, kr: int)
    requires Playable(p) && On(f) && On(r) && Own(p.board, p.onMove, f, r) && Scanned(p, t, n, 8 * f + r, kf, kr)
    requires !TargetPasses(p, t, f, r)
    requires 8 * f + r + 1 <= next <= 64 && NoneBetween(p.board, p.onMove, 8 * f + r + 1, next)
    ensures var king := At(p.board, f, r).kind == King;
            Scanned(p, t, 8 * f + r + 1, next, if king then f else kf, if king then r else kr)
  {
    ScanPasses(p, t, n, f, r);
    ScanKing(p.board, p.onMove, n, f, r, kf, kr);
  }

  /** No move was found, and (kf, kr) is where the king was seen. */
  ghost predicate ScanFailed(p: Position, t: Table, kf: int, kr: int) {
    !HasBoardMove(p, t) && KingAmong(p.board, p.onMove, 64, kf, kr)
  }

  /** One turn of the scan: deal with the man on (f, r) and find the next one. */
  method ScanNext(gs: GameState, list: TargetList, t: Table, ghost n: nat, f: int, r: int, kf: int, kr: int)
    returns (found: bool, more: bool, f': int, r': int, kf': int, kr': int)
    requires gs.Valid() && Playable(gs.Snapshot())
    requires On(f) && On(r) && Own(gs.board[..], gs.onMove, f, r) && Scanned(gs.Snapshot(), t, n, 8 * f + r, kf, kr)
    requires list.Valid() && list.contents == Accumulated(gs.Snapshot(), n)
    requires list.posf != gs.holding && list.posf != gs.ep && list.posr != gs.holding && list.posr != gs.ep
    modifies list, list.posf, list.posr
    ensures gs.Snapshot() == old(gs.Snapshot())
    ensures list.Valid() && list.contents == Accumulated(gs.Snapshot(), 8 * f + r + 1)
    ensures found ==> HasBoardMove(gs.Snapshot(), t)
    ensures more ==> On(f') && On(r') && Own(gs.board[..], gs.onMove, f', r')
    ensures !found ==> Scanned(gs.Snapshot(), t, 8 * f + r + 1, if more then 8 * f' + r' else 64, kf', kr')
  {
    var p := gs.Snapshot();
    found := ScanMan(gs, f, r, list, t, n);
    kf', kr' := kf, kr;
    if At(p.board, f, r).kind == King {
      kf', kr' := f, r;
    }
    more, f', r' := NextPiece(p.board, f, r, p.onMove);
    if !found {
      ScanStep(p, t, n, f, r, if more then 8 * f' + r' else 64, kf, kr);
    }
  }

  lemma {:induction false} ScanBegins(p: Position, t: Table, next: int)
    requires Playable(p) && 0 <= next <= 64 && NoneBetween(p.board, p.onMove, 0, next)
    ensures Scanned(p, t, 0, next, 0, 0) && Accumulated(p, 0) == []
  {
  }

  /** The scan from the man on (f, r) on, if there is one; before it everything is done. */
  method ScanLoop(gs: GameState, list: TargetList, t: Table, more: bool, f: int, r: int)
    returns (found: bool, kf: int, kr: int)
    requires gs.Valid() && Playable(gs.Snapshot())
    requires more ==> On(f) && On(r) && Own(gs.board[..], gs.onMove, f, r)
    requires Scanned(gs.Snapshot(), t, 0, if more then 8 * f + r else 64, 0, 0)
    requires list.Valid() && list.contents == []
    requires list.posf != gs.holding && list.posf != gs.ep && list.posr != gs.holding && list.posr != gs.ep
    modifies list, list.posf, list.posr
    ensures gs.Snapshot() == old(gs.Snapshot())
    ensures if found then HasBoardMove(gs.Snapshot(), t) else ScanFailed(gs.Snapshot(), t, kf, kr)
  {
    ghost var p := gs.Snapshot();
    var going, x, y := more, f, r;
    kf, kr := 0, 0;
    ghost var n := 0;
    while going
      invariant gs.Snapshot() == p
      invariant going ==> On(x) && On(y) && Own(p.board, p.onMove, x, y)
      invariant Scanned(p, t, n, if going then 8 * x + y else 64, kf, kr)
      invariant list.Valid() && list.contents == Accumulated(p, n)
      decreases going, 64 - n
    {
      ghost var done := 8 * x + y + 1;
      found, going, x, y, kf, kr := ScanNext(gs, list, t, n, x, y, kf, kr);
      if found {
        return;
      }
      n := done;
    }
    ScanEnd(p, t, n, kf, kr);
    return false, kf, kr;
  }

  /** The scan over the men of the side to move. */
  method ScanForMove(gs: GameState, t: Table) returns (found: bool, kf: int, kr: int)
    requires gs.Valid() && Playable(gs.Snapshot())
    ensures if found then HasBoardMove(gs.Snapshot(), t) else ScanFailed(gs.Snapshot(), t, kf, kr)
  {
    var list := new TargetList();
    var more, f, r := NextPiece(gs.board[..], 0, -1, gs.onMove);
    ScanBegins(gs.Snapshot(), t, if more then 8 * f + r else 64);
    found, kf, kr := ScanLoop(gs, list, t, more, f, r);
  }

  lemma {:induction false} ScanEnd(p: Position, t: Table, n: nat, kf: int, kr: int)
    requires Playable(p) && Scanned(p, t, n, 64, kf, kr)
    ensures ScanFailed(p, t, kf, kr)
  {
    NoMenBehind(p.board, p.onMove, n, kf, kr);
    assert NoManPasses(p, t, 64);
    ListedTargetsDecide(p, t);
  }

  lemma {:induction false} NoMenBehind(b: Board, c: Color, n: nat, kf: int, kr: int)
    requires NoneBetween(b, c, n, 64) && KingAmong(b, c, n, kf, kr)
    ensures forall x, y :: On(x) && On(y) && n <= 8 * x + y ==> !Own(b, c, x, y)
    ensures n <= 64 ==> KingAmong(b, c, 64, kf, kr)
  {
    forall x, y | On(x) && On(y) && n <= 8 * x + y
      ensures !Own(b, c, x, y)
    {
    }
  }

  lemma {:induction false} KingAmongUnique(b: Board, c: Color, kf: int, kr: int)
    requires KingAmong(b, c, 64, kf, kr)
    ensures forall f, r :: KingAmong(b, c, 64, f, r) ==> f == kf && r == kr
  {
    forall f, r | KingAmong(b, c, 64, f, r)
      ensures f == kf && r == kr
    {
      assert On(kf) && On(kr) && On(f) && On(r);
      assert At(b, f, r) == Man(c, King) <==> At(b, kf, kr) == Man(c, King);
    }
  }

  /** Dropping a queen on the square would be legal. */
  ghost predicate DropWorks(p: Position, t: Table, f: int, r: int) {
    On(f) && On(r) && At(p.board, f, r) == Empty && LegalAndCheck(p, Drop(Queen), f, r, t)
  }

  /** Tries dropping a queen on one square. */
  method TryDrop(gs: GameState, f: int, r: int, t: Table) returns (ok: bool)
    requires gs.Valid()
    ensures ok == DropWorks(gs.Snapshot(), t, f, r)
  {
    ok := false;
    if f >= 0 && f < 8 && r >= 0 && r < 8 && gs.board[8 * f + r] == Empty {
      assert At(gs.Snapshot().board, f, r) == Empty;
      ok := IsLegalAndCheckMove(gs, Drop(Queen), f, r, t);
    }
  }

  /** Tries dropping a queen on each empty square around (kf, kr). */
  method TryDropsBeside(gs: GameState, kf: int, kr: int, t: Table) returns (found: bool)
    requires gs.Valid()
    ensures found == exists f, r :: KingStep(kf, kr, f, r) && DropWorks(gs.Snapshot(), t, f, r)
  {
    ghost var p := gs.Snapshot();
    for f := kf - 1 to kf + 2
      invariant forall x, y :: KingStep(kf, kr, x, y) && x < f ==> !DropWorks(p, t, x, y)
    {
      for r := kr - 1 to kr + 2
        invariant forall x, y :: KingStep(kf, kr, x, y) && Earlier(x, y, f, r) ==> !DropWorks(p, t, x, y)
      {
        var ok := TryDrop(gs, f, r, t);
        if ok {
          assert KingStep(kf, kr, f, r) && DropWorks(p, t, f, r);
          return true;
        }
      }
    }
    return false;
  }

  method HasLegalMove(gs: GameState, t: Table) returns (found: bool)
    requires gs.Valid() && Playable(gs.Snapshot())
    modifies gs.holding
    ensures gs.Snapshot() == old(gs.Snapshot())
    ensures found == HasMove(gs.Snapshot(), t)
  {
    ghost var p := gs.Snapshot();
    var kf, kr;
    found, kf, kr := ScanForMove(gs, t);
    if found {
      return true;
    }
    if t.InGame? && t.linked {
      KingAmongUnique(p.board, p.onMove, kf, kr);
      var slot := HoldSlot(gs.onMove, Queen);
      gs.holding[slot] := gs.holding[slot] + 1;
      assert gs.Snapshot() == QueenInHand(p);
      found := TryDropsBeside(gs, kf, kr, t);
      gs.holding[slot] := gs.holding[slot] - 1;
      assert gs.Snapshot() == p;
      assert found == DropBeside(p, t, kf, kr);
    }
  }
}
