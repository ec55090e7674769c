/** How much room the list of targets needs: it fits its arrays on every board. */
module ListRoom {
  import opened Positions
  import opened Legality
  import opened Targets

  /** The shared list after the first n squares of the scan. */
  function Accumulated(p: Position, n: nat): seq<Target>
    requires Playable(p) && n <= 64
  {
    if n == 0 then [] else
      var f, r := (n - 1) / 8, (n - 1) % 8;
      Accumulated(p, n - 1) + if Own(p.board, p.onMove, f, r) then ManTargets(p, f, r) else []
  }

  /** Men of a colour on the first n squares. */
  function Men(b: Board, c: Color, n: nat): nat
    requires n <= 64
  {
    if n == 0 then 0 else Men(b, c, n - 1) + if b[n - 1].Man? && b[n - 1].color == c then 1 else 0
  }

  /** The list never outgrows 27 entries a man: with 16 men it stays within 432. */
  lemma {:induction false} ListBound(p: Position, n: nat)
    requires Playable(p) && n <= 64
    ensures |Accumulated(p, n)| <= 27 * Men(p.board, p.onMove, n)
    ensures Men(p.board, p.onMove, n) <= 16 ==> |Accumulated(p, n)| <= 432
  {
    if n > 0 {
      ListBound(p, n - 1);
      var f, r := (n - 1) / 8, (n - 1) % 8;
      assert At(p.board, f, r) == p.board[n - 1];
      if Own(p.board, p.onMove, f, r) {
        AtMost27(p, f, r);
      }
    }
  }

  /** For each man, by the place of its square in the scan, and each direction: what it sees. */
  type View = (int, int) -> set<Target>

  /** What the first n men see in a direction, counted man by man. */
  function Column(v: View, n: nat, d: int): nat { if n == 0 then 0 else Column(v, n - 1, d) + |v(n - 1, d)| }

  /** What a man sees in the first m directions. */
  function Row(v: View, i: int, m: nat): nat { if m == 0 then 0 else Row(v, i, m - 1) + |v(i, m - 1)| }

  function Columns(v: View, n: nat, m: nat): nat { if m == 0 then 0 else Columns(v, n, m - 1) + Column(v, n, m - 1) }

  function Rows(v: View, n: nat, m: nat): nat { if n == 0 then 0 else Rows(v, n - 1, m) + Row(v, n - 1, m) }

  /** Counting by rows or by columns is the same. */
  lemma {:induction false} RowsAreColumns(v: View, n: nat, m: nat)
    ensures Rows(v, n, m) == Columns(v, n, m)
    decreases n + m
  {
    if n == 0 {
      if m > 0 {
        RowsAreColumns(v, 0, m - 1);
      }
    } else if m == 0 {
      RowsAreColumns(v, n - 1, 0);
    } else {
      RowsAreColumns(v, n - 1, m);
      RowsAreColumns(v, n - 1, m - 1);
      RowsAreColumns(v, n, m - 1);
    }
  }

  /** No two of the first n men see the same square in the direction, and what they see is open. */
  ghost predicate Apart(v: View, n: nat, d: int, open: set<Target>) {
    && (forall i :: 0 <= i < n ==> v(i, d) <= open)
    && (forall i, j :: 0 <= i < j < n ==> v(i, d) !! v(j, d))
  }

  lemma {:induction false} ColumnFits(v: View, n: nat, d: int, open: set<Target>)
    requires Apart(v, n, d, open)
    ensures Column(v, n, d) <= |open|
    decreases n
  {
    if n > 0 {
      var rest := open - v(n - 1, d);
      forall i | 0 <= i < n - 1
        ensures v(i, d) <= rest
      {
        assert v(i, d) !! v(n - 1, d);
      }
      ColumnFits(v, n - 1, d, rest);
      assert open == rest + v(n - 1, d);
    }
  }

  lemma {:induction false} ColumnsFit(v: View, n: nat, m: nat, open: set<Target>)
    requires forall d :: 0 <= d < m ==> Apart(v, n, d, open)
    ensures Columns(v, n, m) <= m * |open|
  {
    if m > 0 {
      ColumnsFit(v, n, m - 1, open);
      ColumnFits(v, n, m - 1, open);
    }
  }

  /** The squares among the first n of the scan that a man of colour c may go to at all. */
  function Open(b: Board, c: Color, n: nat): set<Target> {
    set x, y | 0 <= x < 8 && 0 <= y < 8 && 8 * x + y < n && !Own(b, c, x, y) :: (x, y)
  }

  lemma {:induction false} OpenCount(b: Board, c: Color, n: nat)
    requires n <= 64
    ensures |Open(b, c, n)| == n - Men(b, c, n)
  {
    if n > 0 {
      OpenCount(b, c, n - 1);
      var f, r := (n - 1) / 8, (n - 1) % 8;
      assert At(b, f, r) == b[n - 1];
      OpenMore(b, c, f, r);
    }
  }

  lemma {:induction false} OpenMore(b: Board, c: Color, f: int, r: int)
    requires On(f) && On(r)
    ensures |Open(b, c, 8 * f + r + 1)| == |Open(b, c, 8 * f + r)| + if Own(b, c, f, r) then 0 else 1
  {
    OpenNext(b, c, f, r);
    if !Own(b, c, f, r) {
      assert Open(b, c, 8 * f + r + 1) == Open(b, c, 8 * f + r) + {(f, r)};
    }
  }

  lemma {:induction false} OpenNext(b: Board, c: Color, f: int, r: int)
    requires On(f) && On(r)
    ensures var n := 8 * f + r;
      Open(b, c, n + 1) == Open(b, c, n) + if Own(b, c, f, r) then {} else {(f, r)}
    ensures (f, r) !in Open(b, c, 8 * f + r)
  {
    forall x, y | 0 <= x < 8 && 0 <= y < 8
      ensures 8 * x + y == 8 * f + r <==> (x, y) == (f, r)
    {
    }
  }

  /** The squares of a ray. */
  function RaySquares(b: Board, c: Color, f: int, r: int, dx: int, dy: int): set<Target>
    requires On(f) && On(r) && Direction(dx, dy)
  {
    set t | t in RayTargets(b, c, f, r, dx, dy)
  }

  /** A ray lists no square twice. */
  lemma {:induction false} RayCount(b: Board, c: Color, f: int, r: int, dx: int, dy: int)
    requires On(f) && On(r) && Direction(dx, dy)
    ensures |RaySquares(b, c, f, r, dx, dy)| == |RayTargets(b, c, f, r, dx, dy)|
    decreases (if dx == 0 then 0 else Room(f, dx)) + (if dy == 0 then 0 else Room(r, dy))
  {
    var x, y := f + dx, r + dy;
    if On(x) && On(y) && At(b, x, y) == Empty {
      RayCount(b, c, x, y, dx, dy);
      NotOnOwnRay(b, c, x, y, dx, dy);
      FirstAndRest((x, y), RayTargets(b, c, x, y, dx, dy));
    } else if On(x) && On(y) && !Own(b, c, x, y) {
      FirstAndRest((x, y), []);
      assert RayTargets(b, c, f, r, dx, dy) == [(x, y)] + [];
    }
  }

  /** A square is not on its own ray. */
  lemma {:induction false} NotOnOwnRay(b: Board, c: Color, x: int, y: int, dx: int, dy: int)
    requires On(x) && On(y) && Direction(dx, dy)
    ensures (x, y) !in RayTargets(b, c, x, y, dx, dy)
  {
    if (x, y) in RayTargets(b, c, x, y, dx, dy) {
      var n := RaySound(b, c, x, y, dx, dy, x, y);
    }
  }

  lemma {:induction false} FirstAndRest(x: Target, rest: seq<Target>)
    requires x !in rest && |set t | t in rest| == |rest|
    ensures |set t | t in [x] + rest| == |[x] + rest|
  {
    assert (set t | t in [x] + rest) == {x} + set t | t in rest;
  }

  lemma {:induction false} RayIsOpen(b: Board, c: Color, f: int, r: int, dx: int, dy: int)
    requires On(f) && On(r) && Direction(dx, dy)
    ensures RaySquares(b, c, f, r, dx, dy) <= Open(b, c, 64)
  {
    forall t | t in RaySquares(b, c, f, r, dx, dy)
      ensures t in Open(b, c, 64)
    {
      var n := RaySound(b, c, f, r, dx, dy, t.0, t.1);
    }
  }

  lemma {:induction false} StandsInTheWay(b: Board, f: int, r: int, x: int, y: int, dx: int, dy: int, n: int, m: int)
    requires On(x) && On(y) && Direction(dx, dy) && 0 < m <= n
    requires Go(f, dx, n) == Go(x, dx, m) && Go(r, dy, n) == Go(y, dy, m) && Clear(b, f, r, dx, dy, n)
    ensures n == m ==> (f, r) == (x, y)
    ensures n > m ==> At(b, x, y) == Empty
  {
    assert Go(f, dx, n - m) == x && Go(r, dy, n - m) == y;
  }

  /** Two men do not see the same square in the same direction: one of them would stand
      in the other's way. */
  lemma {:induction false} RaysApart(b: Board, c: Color, f: int, r: int, x: int, y: int, dx: int, dy: int)
    requires On(f) && On(r) && On(x) && On(y) && (f, r) != (x, y) && Direction(dx, dy)
    requires Own(b, c, f, r) && Own(b, c, x, y)
    ensures RaySquares(b, c, f, r, dx, dy) !! RaySquares(b, c, x, y, dx, dy)
  {
    forall t | t in RaySquares(b, c, f, r, dx, dy) && t in RaySquares(b, c, x, y, dx, dy)
      ensures false
    {
      var n := RaySound(b, c, f, r, dx, dy, t.0, t.1);
      var m := RaySound(b, c, x, y, dx, dy, t.0, t.1);
      if m <= n {
        StandsInTheWay(b, f, r, x, y, dx, dy, n, m);
      } else {
        StandsInTheWay(b, x, y, f, r, dx, dy, m, n);
      }
    }
  }

  /** The own man on the i-th square of the scan, if it is a knight or if it is none, as asked. */
  predicate Counts(b: Board, c: Color, i: int, knights: bool) {
    0 <= i < 64 && Own(b, c, i / 8, i % 8) && (At(b, i / 8, i % 8).kind == Knight) == knights
  }

  /** The king's jumps are the eight directions. */
  function Heading(d: int): (h: Target)
    requires 0 <= d < 8
    ensures Direction(h.0, h.1)
  {
    KING_JUMPS[d]
  }

  /** Men other than knights see along lines. */
  function Lines(b: Board, c: Color): View {
    (i, d) =>
      if Counts(b, c, i, false) && 0 <= d < 8 then RaySquares(b, c, i / 8, i % 8, Heading(d).0, Heading(d).1) else {}
  }

  /** Knights see where they jump. */
  function Jumps(b: Board, c: Color): View {
    (i, d) =>
      if Counts(b, c, i, true) && 0 <= d < 8 && Lands(b, c, i / 8, i % 8, KNIGHT_JUMPS[d])
      then {(i / 8 + KNIGHT_JUMPS[d].0, i % 8 + KNIGHT_JUMPS[d].1)} else {}
  }

  lemma {:induction false} LinesApart(b: Board, c: Color, d: int)
    requires 0 <= d < 8
    ensures Apart(Lines(b, c), 64, d, Open(b, c, 64))
  {
    var dx, dy := Heading(d).0, Heading(d).1;
    forall i | 0 <= i < 64
      ensures Lines(b, c)(i, d) <= Open(b, c, 64)
    {
      if Counts(b, c, i, false) {
        RayIsOpen(b, c, i / 8, i % 8, dx, dy);
      }
    }
    forall i, j | 0 <= i < j < 64
      ensures Lines(b, c)(i, d) !! Lines(b, c)(j, d)
    {
      if Counts(b, c, i, false) && Counts(b, c, j, false) {
        RaysApart(b, c, i / 8, i % 8, j / 8, j % 8, dx, dy);
      }
    }
  }

  lemma {:induction false} JumpsApart(b: Board, c: Color, d: int)
    requires 0 <= d < 8
    ensures Apart(Jumps(b, c), 64, d, Open(b, c, 64))
  {
  }

  /** What a man lists by jumping, jump by jump. */
  lemma {:induction false} JumpsListed(b: Board, c: Color, i: int, v: View, jumps: seq<Target>, m: nat)
    requires 0 <= i < 64 && m <= |jumps|
    requires forall d :: 0 <= d < |jumps| && Lands(b, c, i / 8, i % 8, jumps[d]) ==> |v(i, d)| >= 1
    ensures |JumpTargets(b, c, i / 8, i % 8, jumps[..m])| <= Row(v, i, m)
    decreases m
  {
    if m > 0 {
      assert jumps[..m][..m - 1] == jumps[..m - 1];
      JumpsListed(b, c, i, v, jumps, m - 1);
    }
  }

  lemma {:induction false} KnightListed(b: Board, c: Color, i: int)
    requires Counts(b, c, i, true)
    ensures |JumpTargets(b, c, i / 8, i % 8, KNIGHT_JUMPS)| <= Row(Jumps(b, c), i, 8)
  {
    assert KNIGHT_JUMPS[..8] == KNIGHT_JUMPS;
    JumpsListed(b, c, i, Jumps(b, c), KNIGHT_JUMPS, 8);
  }

  lemma {:induction false} KingListed(b: Board, c: Color, i: int)
    requires Counts(b, c, i, false)
    ensures |JumpTargets(b, c, i / 8, i % 8, KING_JUMPS)| <= Row(Lines(b, c), i, 8)
  {
    assert KING_JUMPS[..8] == KING_JUMPS;
    forall d | 0 <= d < 8 && Lands(b, c, i / 8, i % 8, KING_JUMPS[d])
      ensures |Lines(b, c)(i, d)| >= 1
    {
      RayCount(b, c, i / 8, i % 8, Heading(d).0, Heading(d).1);
      RayBegins(b, c, i / 8, i % 8, Heading(d).0, Heading(d).1);
    }
    JumpsListed(b, c, i, Lines(b, c), KING_JUMPS, 8);
  }

  /** A ray has its first square, and its second if nothing stands on the first. */
  lemma {:induction false} RayBegins(b: Board, c: Color, f: int, r: int, dx: int, dy: int)
    requires On(f) && On(r) && Direction(dx, dy)
    requires On(f + dx) && On(r + dy) && !Own(b, c, f + dx, r + dy)
    ensures |RayTargets(b, c, f, r, dx, dy)| >= 1
    ensures At(b, f + dx, r + dy) == Empty && On(f + 2 * dx) && On(r + 2 * dy) && !Own(b, c, f + 2 * dx, r + 2 * dy)
            ==> |RayTargets(b, c, f, r, dx, dy)| >= 2
  {
    if At(b, f + dx, r + dy) == Empty {
      assert RayTargets(b, c, f, r, dx, dy) == [(f + dx, r + dy)] + RayTargets(b, c, f + dx, r + dy, dx, dy);
      if On(f + 2 * dx) && On(r + 2 * dy) && !Own(b, c, f + 2 * dx, r + 2 * dy) {
        assert (f + 2 * dx, r + 2 * dy) == (f + dx + dx, r + dy + dy);
      }
    }
  }

  /** The length of the ray in the d-th direction. */
  function Reach(b: Board, c: Color, i: int, d: int): nat
    requires 0 <= i < 64 && 0 <= d < 8
  {
    |RayTargets(b, c, i / 8, i % 8, Heading(d).0, Heading(d).1)|
  }

  /** All eight directions of a man that is no knight. */
  lemma {:induction false} EightLines(b: Board, c: Color, i: int)
    requires Counts(b, c, i, false)
    ensures Row(Lines(b, c), i, 8)
         == Reach(b, c, i, 0) + Reach(b, c, i, 1) + Reach(b, c, i, 2) + Reach(b, c, i, 3)
          + Reach(b, c, i, 4) + Reach(b, c, i, 5) + Reach(b, c, i, 6) + Reach(b, c, i, 7)
  {
    var v := Lines(b, c);
    forall d | 0 <= d < 8
      ensures |v(i, d)| == Reach(b, c, i, d)
    {
      RayCount(b, c, i / 8, i % 8, Heading(d).0, Heading(d).1);
    }
    RowOfEight(v, i);
  }

  lemma {:induction false} RowOfEight(v: View, i: int)
    ensures Row(v, i, 8) == |v(i, 0)| + |v(i, 1)| + |v(i, 2)| + |v(i, 3)| + |v(i, 4)| + |v(i, 5)| + |v(i, 6)|
            + |v(i, 7)|
  {
    assert Row(v, i, 1) == Row(v, i, 0) + |v(i, 0)|;
    assert Row(v, i, 2) == Row(v, i, 1) + |v(i, 1)|;
    assert Row(v, i, 3) == Row(v, i, 2) + |v(i, 2)|;
    assert Row(v, i, 4) == Row(v, i, 3) + |v(i, 3)|;
    assert Row(v, i, 5) == Row(v, i, 4) + |v(i, 4)|;
    assert Row(v, i, 6) == Row(v, i, 5) + |v(i, 5)|;
    assert Row(v, i, 7) == Row(v, i, 6) + |v(i, 6)|;
  }

  lemma {:induction false} SlidersListed(b: Board, c: Color, i: int)
    requires Counts(b, c, i, false)
    ensures |RookTargets(b, c, i / 8, i % 8)| + |BishopTargets(b, c, i / 8, i % 8)| <= Row(Lines(b, c), i, 8)
  {
    EightLines(b, c, i);
    assert Heading(0) == (-1, -1) && Heading(1) == (0, -1) && Heading(2) == (1, -1) && Heading(3) == (-1, 1);
    assert Heading(4) == (0, 1) && Heading(5) == (1, 1) && Heading(6) == (-1, 0) && Heading(7) == (1, 0);
  }

  /** A pawn lists one square beyond its lines at most: the flagged one. */
  lemma {:induction false} PawnListed(p: Position, i: int)
    requires Counts(p.board, p.onMove, i, false) && On(i % 8 + p.onMove.Forward())
    ensures |PawnTargets(p, i / 8, i % 8)| <= Row(Lines(p.board, p.onMove), i, 8) + 1
  {
    var b, c, f, r := p.board, p.onMove, i / 8, i % 8;
    EightLines(b, c, i);
    assert Heading(0) == (-1, -1) && Heading(1) == (0, -1) && Heading(2) == (1, -1);
    assert Heading(3) == (-1, 1) && Heading(4) == (0, 1) && Heading(5) == (1, 1);
    PushesListed(b, c, f, r);
    TakesListed(b, c, f, r);
  }

  lemma {:induction false} TakesListed(b: Board, c: Color, f: int, r: int)
    requires On(f) && On(r) && On(r + c.Forward())
    ensures |PawnTakes(b, c, f, r)|
         <= |RayTargets(b, c, f, r, -1, c.Forward())| + |RayTargets(b, c, f, r, 1, c.Forward())|
  {
    if EnemyOn(b, c, f - 1, r + c.Forward()) {
      RayBegins(b, c, f, r, -1, c.Forward());
    }
    if EnemyOn(b, c, f + 1, r + c.Forward()) {
      RayBegins(b, c, f, r, 1, c.Forward());
    }
  }

  lemma {:induction false} PushesListed(b: Board, c: Color, f: int, r: int)
    requires On(f) && On(r) && On(r + c.Forward())
    ensures |PawnPushes(b, c, f, r)| <= |RayTargets(b, c, f, r, 0, c.Forward())|
  {
    if At(b, f, r + c.Forward()) == Empty {
      RayBegins(b, c, f, r, 0, c.Forward());
    }
  }

  /** How many squares the man on the i-th square of the scan lists. */
  function Listed(p: Position, i: int, knights: bool): nat
    requires Playable(p)
  {
    if Counts(p.board, p.onMove, i, knights) then |ManTargets(p, i / 8, i % 8)| else 0
  }

  function IsPawnAt(b: Board, c: Color, i: int): nat {
    if 0 <= i < 64 && At(b, i / 8, i % 8) == Man(c, Pawn) then 1 else 0
  }

  /** What the men other than knights list, and what bounds it. */
  lemma {:induction false} OtherListed(p: Position, i: int)
    requires Playable(p) && Counts(p.board, p.onMove, i, false)
    ensures Listed(p, i, false) <= Row(Lines(p.board, p.onMove), i, 8) + IsPawnAt(p.board, p.onMove, i)
    ensures Listed(p, i, false) <= 27 - 22 * IsPawnAt(p.board, p.onMove, i)
  {
    var b, c, f, r := p.board, p.onMove, i / 8, i % 8;
    AtMost27(p, f, r);
    match At(b, f, r).kind
    case Pawn => PawnListed(p, i);
    case King => KingListed(b, c, i);
    case _ => SlidersListed(b, c, i);
  }

  /** What the men of the first n squares list, knights or the others. */
  function ListedBy(p: Position, n: nat, knights: bool): nat
    requires Playable(p)
  {
    if n == 0 then 0 else ListedBy(p, n - 1, knights) + Listed(p, n - 1, knights)
  }

  /** How many they are. */
  function Number(b: Board, c: Color, n: nat, knights: bool): nat {
    if n == 0 then 0 else Number(b, c, n - 1, knights) + if Counts(b, c, n - 1, knights) then 1 else 0
  }

  function Pawns(b: Board, c: Color, n: nat): nat {
    if n == 0 then 0 else Pawns(b, c, n - 1) + IsPawnAt(b, c, n - 1)
  }

  /** The list is what knights and others list. */
  lemma {:induction false} ListParts(p: Position, n: nat)
    requires Playable(p) && n <= 64
    ensures |Accumulated(p, n)| == ListedBy(p, n, false) + ListedBy(p, n, true)
    ensures Men(p.board, p.onMove, n) == Number(p.board, p.onMove, n, false) + Number(p.board, p.onMove, n, true)
  {
    if n > 0 {
      ListParts(p, n - 1);
      assert At(p.board, (n - 1) / 8, (n - 1) % 8) == p.board[n - 1];
    }
  }

  /** What the i-th square adds to what is listed, and to what bounds it. */
  lemma {:induction false} OtherShare(p: Position, i: int)
    requires Playable(p)
    ensures Listed(p, i, false) <= Row(Lines(p.board, p.onMove), i, 8) + IsPawnAt(p.board, p.onMove, i)
    ensures Listed(p, i, false) <= 27 * (if Counts(p.board, p.onMove, i, false) then 1
            else 0) - 22 * IsPawnAt(p.board, p.onMove, i)
  {
    if Counts(p.board, p.onMove, i, false) {
      OtherListed(p, i);
    }
  }

  lemma {:induction false} KnightShare(p: Position, i: int)
    requires Playable(p)
    ensures Listed(p, i, true) <= Row(Jumps(p.board, p.onMove), i, 8)
    ensures Listed(p, i, true) <= 8 * if Counts(p.board, p.onMove, i, true) then 1 else 0
  {
    if Counts(p.board, p.onMove, i, true) {
      KnightListed(p.board, p.onMove, i);
    }
  }

  lemma {:induction false} OthersBound(p: Position, n: nat)
    requires Playable(p) && n <= 64
    ensures ListedBy(p, n, false) <= Rows(Lines(p.board, p.onMove), n, 8) + Pawns(p.board, p.onMove, n)
    ensures ListedBy(p, n, false) <= 27 * Number(p.board, p.onMove, n, false) - 22 * Pawns(p.board, p.onMove, n)
  {
    if n > 0 {
      OthersBound(p, n - 1);
      OtherShare(p, n - 1);
    }
  }

  lemma {:induction false} KnightsBound(p: Position, n: nat)
    requires Playable(p) && n <= 64
    ensures ListedBy(p, n, true) <= Rows(Jumps(p.board, p.onMove), n, 8)
    ensures ListedBy(p, n, true) <= 8 * Number(p.board, p.onMove, n, true)
  {
    if n > 0 {
      KnightsBound(p, n - 1);
      KnightShare(p, n - 1);
    }
  }

  /** In all eight directions together the men see no more than eight times the open squares. */
  lemma {:induction false} LinesFit(b: Board, c: Color)
    ensures Rows(Lines(b, c), 64, 8) <= 8 * |Open(b, c, 64)|
  {
    forall d | 0 <= d < 8
      ensures Apart(Lines(b, c), 64, d, Open(b, c, 64))
    {
      LinesApart(b, c, d);
    }
    RowsAreColumns(Lines(b, c), 64, 8);
    ColumnsFit(Lines(b, c), 64, 8, Open(b, c, 64));
  }

  lemma {:induction false} JumpsFit(b: Board, c: Color)
    ensures Rows(Jumps(b, c), 64, 8) <= 8 * |Open(b, c, 64)|
  {
    forall d | 0 <= d < 8
      ensures Apart(Jumps(b, c), 64, d, Open(b, c, 64))
    {
      JumpsApart(b, c, d);
    }
    RowsAreColumns(Jumps(b, c), 64, 8);
    ColumnsFit(Jumps(b, c), 64, 8, Open(b, c, 64));
  }

  /** On every board the list fits its 500 slots with room to spare: many men leave each
      other few squares, and few men list little. */
  lemma {:induction false} ListAlwaysFits(p: Position)
    requires Playable(p)
    ensures |Accumulated(p, 64)| <= 448
  {
    var b, c := p.board, p.onMove;
    var open := Open(b, c, 64);
    ListParts(p, 64);
    OpenCount(b, c, 64);
    OthersBound(p, 64);
    KnightsBound(p, 64);
    LinesFit(b, c);
    JumpsFit(b, c);
    Weigh(ListedBy(p, 64, false), ListedBy(p, 64, true), Number(b, c, 64, false), Number(b, c, 64, true),
        Pawns(b, c, 64), |open|);
  }

  lemma {:induction false} Weigh(others: nat, knights: nat, q: nat, k: nat, pawns: nat, open: nat)
    requires others <= 8 * open + pawns && others <= 27 * q - 22 * pawns
    requires knights <= 8 * open && knights <= 8 * k
    requires open + q + k == 64
    ensures others + knights <= 448
  {
  }
}
