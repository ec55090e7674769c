/** The move generators: each appends a man's targets to one shared list. */
module Generators {
  import opened Positions
  import opened Targets

  const CAPACITY := 500

  /** The two parallel arrays of files and ranks, and how much of them is in use. */
  class TargetList {
    const posf: array<int>
    const posr: array<int>
    var num: nat
    ghost var contents: seq<Target>

    ghost predicate Valid()
      reads this, posf, posr
    {
      && posf.Length == posr.Length == CAPACITY && posf != posr && num <= CAPACITY
      && |contents| == num
      && forall i :: 0 <= i < num ==> contents[i] == (posf[i], posr[i])
    }

    constructor ()
      ensures Valid() && fresh(posf) && fresh(posr) && contents == []
    {
      posf := new int[CAPACITY];
      posr := new int[CAPACITY];
      num := 0;
      contents := [];
    }

    method AddPos(f: int, r: int)
      requires Valid() && num < CAPACITY
      modifies this, posf, posr
      ensures Valid() && contents == old(contents) + [(f, r)]
    {
      posf[num] := f;
      posr[num] := r;
      num := num + 1;
      contents := contents + [(f, r)];
    }
  }

  lemma {:induction false} Shift(a: seq<Target>, b: seq<Target>, c: seq<Target>)
    ensures a + (b + c) == a + b + c
  {
  }

  lemma {:induction false} FourRays(s: seq<Target>, a: seq<Target>, b: seq<Target>, c: seq<Target>, d: seq<Target>)
    ensures s + a + b + c + d == s + (a + b + c + d)
  {
  }

  /** One sliding direction: walk until the edge, an own man, or a capture. */
  method AddRay(p: Position, onf: int, onr: int, dx: int, dy: int, list: TargetList)
    requires list.Valid() && On(onf) && On(onr) && Direction(dx, dy)
    requires |list.contents| + |RayTargets(p.board, p.onMove, onf, onr, dx, dy)| <= CAPACITY
    modifies list, list.posf, list.posr
    ensures list.Valid()
    ensures list.contents == old(list.contents) + RayTargets(p.board, p.onMove, onf, onr, dx, dy)
  {
    ghost var start := list.contents;
    ghost var ray := RayTargets(p.board, p.onMove, onf, onr, dx, dy);
    ghost var done := [];
    var f, r := onf, onr;
    while true
      invariant list.Valid() && On(f) && On(r)
      invariant list.contents == start + done
      invariant ray == done + RayTargets(p.board, p.onMove, f, r, dx, dy)
      decreases (if dx == 0 then 0 else Room(f, dx)) + (if dy == 0 then 0 else Room(r, dy))
    {
      f, r := f + dx, r + dy;
      if f < 0 || f > 7 || r < 0 || r > 7 {
        break;
      }
      if p.board[8 * f + r] != Empty && p.board[8 * f + r].color == p.onMove {
        break;
      }
      list.AddPos(f, r);
      Shift(start, done, [(f, r)]);
      Shift(done, [(f, r)], if p.board[8 * f + r] == Empty then RayTargets(p.board, p.onMove, f, r, dx, dy) else []);
      done := done + [(f, r)];
      if p.board[8 * f + r] != Empty {
        break;
      }
    }
  }

  method AddPawnPushes(p: Position, onf: int, onr: int, list: TargetList)
    requires list.Valid() && On(onf) && On(onr) && On(onr + p.onMove.Forward())
    requires |list.contents| + |PawnPushes(p.board, p.onMove, onf, onr)| <= CAPACITY
    modifies list, list.posf, list.posr
    ensures list.Valid() && list.contents == old(list.contents) + PawnPushes(p.board, p.onMove, onf, onr)
  {
    var b, step, second := p.board, p.onMove.Forward(), if p.onMove.White? then 1 else 6;
    if b[8 * onf + onr + step] == Empty {
      list.AddPos(onf, onr + step);
      if onr == second && b[8 * onf + onr + 2 * step] == Empty {
        list.AddPos(onf, onr + 2 * step);
      }
    }
  }

  method AddPawnTakes(p: Position, onf: int, onr: int, list: TargetList)
    requires list.Valid() && On(onf) && On(onr) && On(onr + p.onMove.Forward())
    requires |list.contents| + |PawnTakes(p.board, p.onMove, onf, onr)| <= CAPACITY
    modifies list, list.posf, list.posr
    ensures list.Valid() && list.contents == old(list.contents) + PawnTakes(p.board, p.onMove, onf, onr)
  {
    var b, to, enemy := p.board, onr + p.onMove.Forward(), p.onMove.Toggle();
    if onf > 0 && b[8 * (onf - 1) + to] != Empty && b[8 * (onf - 1) + to].color == enemy {
      list.AddPos(onf - 1, to);
    }
    if onf < 7 && b[8 * (onf + 1) + to] != Empty && b[8 * (onf + 1) + to].color == enemy {
      list.AddPos(onf + 1, to);
    }
  }

  method AddPawnFlagged(p: Position, onf: int, onr: int, list: TargetList)
    requires list.Valid() && On(onf)
    requires |list.contents| + |PawnFlagged(p.ep, p.onMove, onf, onr)| <= CAPACITY
    modifies list, list.posf, list.posr
    ensures list.Valid() && list.contents == old(list.contents) + PawnFlagged(p.ep, p.onMove, onf, onr)
  {
    if p.ep[8 * p.onMove.Row() + onf] == -1 {
      list.AddPos(onf - 1, onr + p.onMove.Forward());
    }
    if p.ep[8 * p.onMove.Row() + onf] == 1 {
      list.AddPos(onf + 1, onr + p.onMove.Forward());
    }
  }

  method PossiblePawnMoves(p: Position, onf: int, onr: int, list: TargetList)
    requires list.Valid() && On(onf) && On(onr) && On(onr + p.onMove.Forward())
    requires |list.contents| + |PawnTargets(p, onf, onr)| <= CAPACITY
    modifies list, list.posf, list.posr
    ensures list.Valid() && list.contents == old(list.contents) + PawnTargets(p, onf, onr)
  {
    AddPawnPushes(p, onf, onr, list);
    AddPawnTakes(p, onf, onr, list);
    AddPawnFlagged(p, onf, onr, list);
  }

  lemma {:induction false} JumpNext(b: Board, c: Color, f: int, r: int, jumps: seq<Target>, j: nat)
    requires j < |jumps|
    ensures JumpTargets(b, c, f, r, jumps[..j + 1])
         == JumpTargets(b, c, f, r, jumps[..j]) + if Lands(b, c, f, r, jumps[j])
             then [(f + jumps[j].0, r + jumps[j].1)] else []
  {
    assert jumps[..j + 1][..j] == jumps[..j];
  }

  /** Knights and kings: try each jump of a table. */
  method AddJumps(p: Position, onf: int, onr: int, jumps: seq<Target>, list: TargetList)
    requires list.Valid()
    requires |list.contents| + |JumpTargets(p.board, p.onMove, onf, onr, jumps)| <= CAPACITY
    modifies list, list.posf, list.posr
    ensures list.Valid()
    ensures list.contents == old(list.contents) + JumpTargets(p.board, p.onMove, onf, onr, jumps)
  {
    ghost var start := list.contents;
    ghost var done: seq<Target> := [];
    for j := 0 to |jumps|
      invariant list.Valid() && list.contents == start + done
      invariant done == JumpTargets(p.board, p.onMove, onf, onr, jumps[..j])
    {
      JumpNext(p.board, p.onMove, onf, onr, jumps, j);
      JumpsGrow(p.board, p.onMove, onf, onr, jumps, j + 1);
      done := JumpTargets(p.board, p.onMove, onf, onr, jumps[..j + 1]);
      var f, r := jumps[j].0 + onf, jumps[j].1 + onr;
      if f < 0 || f > 7 || r < 0 || r > 7 {
        continue;
      }
      if p.board[8 * f + r] == Empty || p.board[8 * f + r].color == p.onMove.Toggle() {
        list.AddPos(f, r);
      }
    }
    assert jumps[..|jumps|] == jumps;
  }

  /** Each further jump can only lengthen the targets. */
  lemma {:induction false} JumpsGrow(b: Board, c: Color, f: int, r: int, jumps: seq<Target>, j: nat)
    requires j <= |jumps|
    ensures |JumpTargets(b, c, f, r, jumps[..j])| <= |JumpTargets(b, c, f, r, jumps)|
    decreases |jumps| - j
  {
    if j < |jumps| {
      JumpNext(b, c, f, r, jumps, j);
      JumpsGrow(b, c, f, r, jumps, j + 1);
    } else {
      assert jumps[..j] == jumps;
    }
  }

  method PossibleKnightMoves(p: Position, onf: int, onr: int, list: TargetList)
    requires list.Valid()
    requires |list.contents| + |JumpTargets(p.board, p.onMove, onf, onr, KNIGHT_JUMPS)| <= CAPACITY
    modifies list, list.posf, list.posr
    ensures list.Valid() && list.contents == old(list.contents) + JumpTargets(p.board, p.onMove, onf, onr, KNIGHT_JUMPS)
  {
    AddJumps(p, onf, onr, KNIGHT_JUMPS, list);
  }

  method PossibleKingMoves(p: Position, onf: int, onr: int, list: TargetList)
    requires list.Valid()
    requires |list.contents| + |JumpTargets(p.board, p.onMove, onf, onr, KING_JUMPS)| <= CAPACITY
    modifies list, list.posf, list.posr
    ensures list.Valid() && list.contents == old(list.contents) + JumpTargets(p.board, p.onMove, onf, onr, KING_JUMPS)
  {
    AddJumps(p, onf, onr, KING_JUMPS, list);
  }

  method PossibleBishopMoves(p: Position, onf: int, onr: int, list: TargetList)
    requires list.Valid() && On(onf) && On(onr)
    requires |list.contents| + |BishopTargets(p.board, p.onMove, onf, onr)| <= CAPACITY
    modifies list, list.posf, list.posr
    ensures list.Valid() && list.contents == old(list.contents) + BishopTargets(p.board, p.onMove, onf, onr)
  {
    ghost var start := list.contents;
    AddRay(p, onf, onr, -1, 1, list);
    AddRay(p, onf, onr, 1, 1, list);
    AddRay(p, onf, onr, -1, -1, list);
    AddRay(p, onf, onr, 1, -1, list);
    FourRays(start, RayTargets(p.board, p.onMove, onf, onr, -1, 1), RayTargets(p.board, p.onMove, onf, onr, 1, 1),
             RayTargets(p.board, p.onMove, onf, onr, -1, -1), RayTargets(p.board, p.onMove, onf, onr, 1, -1));
  }

  method PossibleRookMoves(p: Position, onf: int, onr: int, list: TargetList)
    requires list.Valid() && On(onf) && On(onr)
    requires |list.contents| + |RookTargets(p.board, p.onMove, onf, onr)| <= CAPACITY
    modifies list, list.posf, list.posr
    ensures list.Valid() && list.contents == old(list.contents) + RookTargets(p.board, p.onMove, onf, onr)
  {
    ghost var start := list.contents;
    AddRay(p, onf, onr, -1, 0, list);
    AddRay(p, onf, onr, 1, 0, list);
    AddRay(p, onf, onr, 0, 1, list);
    AddRay(p, onf, onr, 0, -1, list);
    FourRays(start, RayTargets(p.board, p.onMove, onf, onr, -1, 0), RayTargets(p.board, p.onMove, onf, onr, 1, 0),
             RayTargets(p.board, p.onMove, onf, onr, 0, 1), RayTargets(p.board, p.onMove, onf, onr, 0, -1));
  }

  method PossibleQueenMoves(p: Position, onf: int, onr: int, list: TargetList)
    requires list.Valid() && On(onf) && On(onr)
    requires |list.contents| + |RookTargets(p.board, p.onMove, onf, onr)
            + BishopTargets(p.board, p.onMove, onf, onr)| <= CAPACITY
    modifies list, list.posf, list.posr
    ensures list.Valid()
    ensures list.contents == old(list.contents)
            + (RookTargets(p.board, p.onMove, onf, onr) + BishopTargets(p.board, p.onMove, onf, onr))
  {
    PossibleRookMoves(p, onf, onr, list);
    PossibleBishopMoves(p, onf, onr, list);
  }

  /** The generator for whatever man stands on the square. */
  method PossibleMoves(p: Position, onf: int, onr: int, list: TargetList)
    requires list.Valid() && Playable(p)
    requires On(onf) && On(onr) && Own(p.board, p.onMove, onf, onr)
    requires |list.contents| + |ManTargets(p, onf, onr)| <= CAPACITY
    modifies list, list.posf, list.posr
    ensures list.Valid() && list.contents == old(list.contents) + ManTargets(p, onf, onr)
  {
    match p.board[8 * onf + onr].kind
    case Pawn => PossiblePawnMoves(p, onf, onr, list);
    case Knight => PossibleKnightMoves(p, onf, onr, list);
    case Bishop => PossibleBishopMoves(p, onf, onr, list);
    case Rook => PossibleRookMoves(p, onf, onr, list);
    case Queen => PossibleQueenMoves(p, onf, onr, list);
    case King => PossibleKingMoves(p, onf, onr, list);
  }
}
