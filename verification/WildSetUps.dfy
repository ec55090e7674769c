/** Random set-ups: whatever the dice say, every man finds a square of the colour it needs. */
module WildSetUps {
  import opened Positions
  import opened WildFiles

  /** Whether a square is white, as 1 or 0. */
  function SquareColor(f: int, r: int): int { (f + r) % 2 }

  const ANY := -1

  lemma {:induction false} PutFrame(b: Board, x: int, y: int, q: Piece)
    requires On(x) && On(y)
    ensures forall f, r :: 0 <= f < 8 && 0 <= r < 8 ==>
      At(Put(b, x, y, q), f, r) == if f == x && r == y then q else At(b, f, r)
  {
    forall f, r | 0 <= f < 8 && 0 <= r < 8
      ensures At(Put(b, x, y, q), f, r) == if f == x && r == y then q else At(b, f, r)
    {
      assert 8 * f + r == 8 * x + y ==> f == x && r == y;
    }
  }

  /** The squares of a home rank that a man of the colour wanted may take. */
  predicate Free(b: Board, f: int, r: int, wanted: int)
    requires On(r)
  {
    On(f) && At(b, f, r) == Empty && (wanted == ANY || SquareColor(f, r) == wanted)
  }

  /** How many squares of a rank from file f on are taken, of those of a colour. */
  function Taken(b: Board, r: int, wanted: int, f: nat): nat
    requires On(r) && f <= 8
    decreases 8 - f, |b|
  {
    if f == 8 then 0
    else Taken(b, r, wanted, f + 1)
         + if (wanted == ANY || SquareColor(f, r) == wanted) && At(b, f, r) != Empty then 1 else 0
  }

  /** A rank has eight squares, four of each colour. */
  function Squares(wanted: int, r: int, f: nat): nat
    requires f <= 8
    decreases 8 - f, wanted
  {
    if f == 8 then 0 else Squares(wanted, r, f + 1) + if wanted == ANY || SquareColor(f, r) == wanted then 1 else 0
  }

  lemma {:induction false} SquaresOfRank(wanted: int, r: int)
    requires (wanted == 0 || wanted == 1 || wanted == ANY) && On(r)
    ensures Squares(wanted, r, 0) == if wanted == ANY then 8 else 4
  {
    assert forall f: int :: 0 <= f < 8 ==> SquareColor(f, r) == (f + r) % 2;
    SquaresStep(wanted, r, 6);
    SquaresStep(wanted, r, 4);
    SquaresStep(wanted, r, 2);
    SquaresStep(wanted, r, 0);
  }

  lemma {:induction false} SquaresStep(wanted: int, r: int, f: nat)
    requires f <= 6 && (wanted == 0 || wanted == 1 || wanted == ANY)
    ensures Squares(wanted, r, f) == Squares(wanted, r, f + 2) + if wanted == ANY then 2 else 1
  {
    assert SquareColor(f + 1, r) == 1 - SquareColor(f, r);
  }

  /** Where not all squares of a colour are taken, one is free. */
  lemma {:induction false} SomeFree(b: Board, r: int, wanted: int, f: nat)
    requires On(r) && f <= 8 && Taken(b, r, wanted, f) < Squares(wanted, r, f)
    ensures exists x :: f <= x < 8 && Free(b, x, r, wanted)
    decreases 8 - f
  {
    if !Free(b, f, r, wanted) {
      SomeFree(b, r, wanted, f + 1);
    }
  }

  /** Putting a man on a free square of a rank. */
  lemma {:induction false} TakenPut(b: Board, r: int, wanted: int, f: nat, x: int, q: Piece)
    requires On(r) && On(x) && f <= 8 && At(b, x, r) == Empty && q.Man?
    ensures Taken(Put(b, x, r, q), r, wanted, f)
         == Taken(b, r, wanted, f) + if x >= f && (wanted == ANY || SquareColor(x, r) == wanted) then 1 else 0
    decreases 8 - f
  {
    if f < 8 {
      TakenPut(b, r, wanted, f + 1, x, q);
    }
  }

  /** Puts a man on some free square of its home rank, of the colour wanted. */
  method PlacePiece(b: Board, q: Piece, wanted: int) returns (after: Board, f: int)
    requires q.Man? && (wanted == 0 || wanted == 1 || wanted == ANY)
    requires Taken(b, q.color.Home(), wanted, 0) < if wanted == ANY then 8 else 4
    ensures Free(b, f, q.color.Home(), wanted) && after == Put(b, f, q.color.Home(), q)
  {
    var r := q.color.Home();
    SquaresOfRank(wanted, r);
    SomeFree(b, r, wanted, 0);
    f :| 0 <= f < 8 && Free(b, f, r, wanted);
    after := Put(b, f, r, q);
  }

  /** How often a man stands on a rank from file f on, on squares of a colour. */
  function Count(b: Board, r: int, q: Piece, wanted: int, f: nat): nat
    requires On(r) && f <= 8
    decreases 8 - f, |b|
  {
    if f == 8 then 0
    else Count(b, r, q, wanted, f + 1)
         + if (wanted == ANY || SquareColor(f, r) == wanted) && At(b, f, r) == q then 1 else 0
  }

  lemma {:induction false} CountPut(b: Board, r: int, q: Piece, wanted: int, f: nat, x: int, p: Piece)
    requires On(r) && On(x) && f <= 8 && At(b, x, r) == Empty && q.Man?
    ensures Count(Put(b, x, r, p), r, q, wanted, f)
         == Count(b, r, q, wanted, f) + if x >= f && (wanted == ANY || SquareColor(x, r) == wanted) && p == q then 1
             else 0
    decreases 8 - f
  {
    if f < 8 {
      CountPut(b, r, q, wanted, f + 1, x, p);
    }
  }

  /** Changing one rank leaves the counts on the others alone. */
  lemma {:induction false} CountElsewhere(b: Board, r: int, q: Piece, wanted: int, f: nat, x: int, y: int, p: Piece)
    requires On(r) && On(x) && On(y) && f <= 8 && y != r
    ensures Count(Put(b, x, y, p), r, q, wanted, f) == Count(b, r, q, wanted, f)
    decreases 8 - f
  {
    if f < 8 {
      CountElsewhere(b, r, q, wanted, f + 1, x, y, p);
    }
  }

  /** No man stands on more squares than there are. */
  lemma {:induction false} CountWithin(b: Board, r: int, q: Piece, wanted: int, f: nat)
    requires On(r) && f <= 8
    ensures Count(b, r, q, wanted, f) <= Squares(wanted, r, f) <= 8 - f
    ensures Count(b, r, q, wanted, 0) - Count(b, r, q, wanted, f) <= Squares(wanted, r, 0) - Squares(wanted, r, f)
    decreases f
  {
    CountBelow(b, r, q, wanted, f);
    if f > 0 {
      CountWithin(b, r, q, wanted, f - 1);
    }
  }

  lemma {:induction false} CountBelow(b: Board, r: int, q: Piece, wanted: int, f: nat)
    requires On(r) && f <= 8
    ensures Count(b, r, q, wanted, f) <= Squares(wanted, r, f) <= 8 - f
    decreases 8 - f
  {
    if f < 8 {
      CountBelow(b, r, q, wanted, f + 1);
    }
  }

  /** A rank of which eight squares are taken is full. */
  lemma {:induction false} FullRank(b: Board, r: int, f: nat)
    requires On(r) && f <= 8
    ensures Taken(b, r, ANY, f) <= 8 - f
    ensures Taken(b, r, ANY, f) == 8 - f ==> forall x :: f <= x < 8 ==> At(b, x, r) != Empty
    decreases 8 - f
  {
    if f < 8 {
      FullRank(b, r, f + 1);
    }
  }

  lemma {:induction false} TakenElsewhere(b: Board, r: int, wanted: int, f: nat, x: int, y: int, p: Piece)
    requires On(r) && On(x) && On(y) && f <= 8 && y != r
    ensures Taken(Put(b, x, y, p), r, wanted, f) == Taken(b, r, wanted, f)
    decreases 8 - f
  {
    if f < 8 {
      TakenElsewhere(b, r, wanted, f + 1, x, y, p);
    }
  }

  /** The pawns stand, the middle is empty, and on the home ranks are only men of their side. */
  ghost predicate Begun(b: Board) {
    forall f :: 0 <= f < 8 ==>
      && At(b, f, 1) == Man(White, Pawn) && At(b, f, 6) == Man(Black, Pawn)
      && At(b, f, 2) == Empty && At(b, f, 3) == Empty && At(b, f, 4) == Empty && At(b, f, 5) == Empty
      && (At(b, f, 0) == Empty || Own(b, White, f, 0)) && (At(b, f, 7) == Empty || Own(b, Black, f, 7))
  }

  method Pawns() returns (b: Board)
    ensures Begun(b) && forall f :: 0 <= f < 8 ==> At(b, f, 0) == Empty && At(b, f, 7) == Empty
  {
    b := seq(64, i requires 0 <= i < 64 =>
      if i % 8 == 1 then Man(White, Pawn) else if i % 8 == 6 then Man(Black, Pawn) else Empty);
    forall f, r | 0 <= f < 8 && 0 <= r < 8
      ensures At(b, f, r) == if r == 1 then Man(White, Pawn) else if r == 6 then Man(Black, Pawn) else Empty
    {
      assert (8 * f + r) % 8 == r;
    }
  }

  /** Nothing on a rank: nothing is taken, and no man counts. */
  lemma {:induction false} EmptyRank(b: Board, r: int, q: Piece, wanted: int, f: nat)
    requires On(r) && f <= 8 && q.Man? && forall x :: 0 <= x < 8 ==> At(b, x, r) == Empty
    ensures Taken(b, r, wanted, f) == 0 && Count(b, r, q, wanted, f) == 0
    decreases 8 - f
  {
    if f < 8 {
      EmptyRank(b, r, q, wanted, f + 1);
    }
  }

  lemma {:induction false} BegunPut(b: Board, x: int, q: Piece)
    requires Begun(b) && On(x) && q.Man?
    ensures Begun(Put(b, x, q.color.Home(), q))
  {
    PutFrame(b, x, q.color.Home(), q);
  }

  /** The whole of a random White rank: a king, and any of the other men. */
  method WhiteRank() returns (b: Board, king: int)
    ensures Begun(b) && On(king) && At(b, king, 0) == Man(White, King)
    ensures forall f :: 0 <= f < 8 ==> At(b, f, 7) == Empty
    ensures forall f :: 0 <= f < 8 && f != king ==> Own(b, White, f, 0) && Drawn(At(b, f, 0))
  {
    b := Pawns();
    EmptyRank(b, 0, Man(White, King), ANY, 0);
    ghost var b0 := b;
    b, king := PlacePiece(b, Man(White, King), ANY);
    BegunPut(b0, king, Man(White, King));
    PutFrame(b0, king, 0, Man(White, King));
    for i := 0 to 8
      invariant Begun(b) && At(b, king, 0) == Man(White, King)
      invariant forall f :: 0 <= f < 8 ==> At(b, f, 7) == Empty
      invariant forall f :: 0 <= f < i && f != king ==> Own(b, White, f, 0) && Drawn(At(b, f, 0))
      invariant forall f :: i <= f < 8 && f != king ==> At(b, f, 0) == Empty
    {
      if At(b, i, 0) != Man(White, King) {
        var kind :| kind in {Knight, Bishop, Rook, Queen};
        BegunPut(b, i, Man(White, kind));
        PutFrame(b, i, 0, Man(White, kind));
        b := Put(b, i, 0, Man(White, kind));
      }
    }
  }

  /** One of the men that are drawn at random. */
  predicate Drawn(q: Piece) { q.Man? && q.kind in {Knight, Bishop, Rook, Queen} }

  /** Black has what White has on the squares from f on. */
  ghost predicate Mirrored(b: Board) {
    forall f :: 0 <= f < 8 ==> At(b, f, 0).Man? && At(b, f, 7) == Man(Black, At(b, f, 0).kind)
  }

  /** Black mirrors White. */
  method Mirror(a: Board) returns (b: Board)
    requires Begun(a) && forall f :: 0 <= f < 8 ==> At(a, f, 0).Man?
    ensures IsSetUp(b) && Mirrored(b) && forall f :: 0 <= f < 8 ==> At(b, f, 0) == At(a, f, 0)
  {
    b := a;
    for i := 0 to 8
      invariant Begun(b) && (forall f :: 0 <= f < 8 ==> At(b, f, 0) == At(a, f, 0) && At(a, f, 0).Man?)
      invariant forall f :: 0 <= f < i ==> At(b, f, 7) == Man(Black, At(a, f, 0).kind)
    {
      BegunPut(b, i, Man(Black, At(b, i, 0).kind));
      PutFrame(b, i, 7, Man(Black, At(b, i, 0).kind));
      b := Put(b, i, 7, Man(Black, At(b, i, 0).kind));
    }
  }

  /** Style 3: one king a side among men drawn at random, Black as White. */
  method Style3() returns (b: Board, king: int)
    ensures IsSetUp(b) && Mirrored(b) && On(king)
    ensures forall f :: 0 <= f < 8 ==> if f == king then At(b, f, 0).kind == King else Drawn(At(b, f, 0))
  {
    b, king := WhiteRank();
    assert forall f :: 0 <= f < 8 ==> f == king || Own(b, White, f, 0);
    b := Mirror(b);
  }

  /** What stands on a home rank: the men, and how many squares of each colour are taken, how
      many of them by bishops. */
  datatype Tally = Tally(men: multiset<Kind>, black: nat, white: nat, blackBishops: nat, whiteBishops: nat)

  const NOTHING := Tally(multiset{}, 0, 0, 0, 0)

  function Added(t: Tally, k: Kind, color: int): Tally {
    Tally(t.men + multiset{k}, if color == 0 then t.black + 1 else t.black, if color == 1 then t.white + 1 else t.white,
          if color == 0 && k == Bishop then t.blackBishops + 1 else t.blackBishops,
          if color == 1 && k == Bishop then t.whiteBishops + 1 else t.whiteBishops)
  }

  ghost predicate Tallies(b: Board, c: Color, t: Tally) {
    var r := c.Home();
    && Taken(b, r, ANY, 0) == |t.men| && Taken(b, r, 0, 0) == t.black && Taken(b, r, 1, 0) == t.white
    && Count(b, r, Man(c, Bishop), 0, 0) == t.blackBishops && Count(b, r, Man(c, Bishop), 1, 0) == t.whiteBishops
    && forall k: Kind :: Count(b, r, Man(c, k), ANY, 0) == t.men[k]
  }

  lemma {:induction false} TalliesPut(a: Board, q: Piece, f: int, t: Tally)
    requires q.Man? && On(f) && At(a, f, q.color.Home()) == Empty && Tallies(a, q.color, t)
    ensures var r := q.color.Home(); Tallies(Put(a, f, r, q), q.color, Added(t, q.kind, SquareColor(f, r)))
  {
    var r, c := q.color.Home(), q.color;
    TakenPut(a, r, ANY, 0, f, q);
    TakenPut(a, r, 0, 0, f, q);
    TakenPut(a, r, 1, 0, f, q);
    CountPut(a, r, Man(c, Bishop), 0, 0, f, q);
    CountPut(a, r, Man(c, Bishop), 1, 0, f, q);
    forall k: Kind
      ensures Count(Put(a, f, r, q), r, Man(c, k), ANY, 0) == Added(t, q.kind, SquareColor(f, r)).men[k]
    {
      CountPut(a, r, Man(c, k), ANY, 0, f, q);
    }
  }

  lemma {:induction false} TalliesElsewhere(a: Board, c: Color, f: int, q: Piece, t: Tally)
    requires q.Man? && On(f) && q.color != c && Tallies(a, c, t)
    ensures Tallies(Put(a, f, q.color.Home(), q), c, t)
  {
    var r, y := c.Home(), q.color.Home();
    TakenElsewhere(a, r, ANY, 0, f, y, q);
    TakenElsewhere(a, r, 0, 0, f, y, q);
    TakenElsewhere(a, r, 1, 0, f, y, q);
    CountElsewhere(a, r, Man(c, Bishop), 0, 0, f, y, q);
    CountElsewhere(a, r, Man(c, Bishop), 1, 0, f, y, q);
    forall k: Kind
      ensures Count(Put(a, f, y, q), r, Man(c, k), ANY, 0) == t.men[k]
    {
      CountElsewhere(a, r, Man(c, k), ANY, 0, f, y, q);
    }
  }

  lemma {:induction false} NothingOn(b: Board, c: Color)
    requires forall f :: 0 <= f < 8 ==> At(b, f, c.Home()) == Empty
    ensures Tallies(b, c, NOTHING)
  {
    var r := c.Home();
    forall k: Kind
      ensures Count(b, r, Man(c, k), ANY, 0) == 0
    {
      EmptyRank(b, r, Man(c, k), ANY, 0);
    }
    EmptyRank(b, r, Man(c, Bishop), ANY, 0);
    EmptyRank(b, r, Man(c, Bishop), 0, 0);
    EmptyRank(b, r, Man(c, Bishop), 1, 0);
  }

  /** Puts a man on its home rank: on a square of the colour wanted, whatever the dice say. */
  method Fill(a: Board, q: Piece, wanted: int, ghost t: Tally, ghost u: Tally) returns (b: Board, ghost next: Tally)
    requires Begun(a) && q.Man? && (wanted == 0 || wanted == 1 || wanted == ANY)
    requires Tallies(a, q.color, t) && Tallies(a, q.color.Toggle(), u)
    requires if wanted == ANY then |t.men| < 8 else if wanted == 0 then t.black < 4 else t.white < 4
    ensures Begun(b) && Tallies(b, q.color, next) && Tallies(b, q.color.Toggle(), u)
    ensures next == Added(t, q.kind, 0) || next == Added(t, q.kind, 1)
    ensures wanted != ANY ==> next == Added(t, q.kind, wanted)
  {
    var f;
    b, f := PlacePiece(a, q, wanted);
    BegunPut(a, f, q);
    TalliesPut(a, q, f, t);
    TalliesElsewhere(a, q.color.Toggle(), f, q, u);
    next := Added(t, q.kind, SquareColor(f, q.color.Home()));
  }

  /** The men of the initial array. */
  const ARRAY := multiset{King, Queen, Rook, Rook, Bishop, Bishop, Knight, Knight}

  /** Puts two men of a kind anywhere on their home rank. */
  method FillTwo(a: Board, q: Piece, ghost t: Tally, ghost u: Tally) returns (b: Board, ghost next: Tally)
    requires Begun(a) && q.Man? && Tallies(a, q.color, t) && Tallies(a, q.color.Toggle(), u) && |t.men| < 7
    ensures Begun(b) && Tallies(b, q.color, next) && Tallies(b, q.color.Toggle(), u)
    ensures next.men == t.men + multiset{q.kind, q.kind}
    ensures q.kind != Bishop ==> next.blackBishops == t.blackBishops && next.whiteBishops == t.whiteBishops
  {
    b, next := Fill(a, q, ANY, t, u);
    b, next := Fill(b, q, ANY, next, u);
    assert next.men == t.men + multiset{q.kind, q.kind};
  }

  /** Puts a king and a queen anywhere on White's rank. */
  method FillRoyals(a: Board, ghost u: Tally) returns (b: Board, ghost next: Tally)
    requires Begun(a) && Tallies(a, White, NOTHING) && Tallies(a, Black, u)
    ensures Begun(b) && Tallies(b, White, next) && Tallies(b, Black, u) && next.men == multiset{King, Queen}
  {
    b, next := Fill(a, Man(White, King), ANY, NOTHING, u);
    b, next := Fill(b, Man(White, Queen), ANY, next, u);
  }

  lemma {:induction false} IsArray(m: multiset<Kind>)
    requires m == multiset{King, Queen} + multiset{Rook, Rook} + multiset{Bishop, Bishop} + multiset{Knight, Knight}
    ensures m == ARRAY && |m| == 8
  {
  }

  /** White's men shuffled. */
  method ShuffledWhite() returns (b: Board)
    ensures Begun(b) && forall k: Kind :: Count(b, 0, Man(White, k), ANY, 0) == ARRAY[k]
    ensures forall f :: 0 <= f < 8 ==> At(b, f, 0).Man?
  {
    b := Pawns();
    NothingOn(b, White);
    NothingOn(b, Black);
    ghost var t;
    b, t := FillRoyals(b, NOTHING);
    b, t := FillTwo(b, Man(White, Rook), t, NOTHING);
    b, t := FillTwo(b, Man(White, Bishop), t, NOTHING);
    b, t := FillTwo(b, Man(White, Knight), t, NOTHING);
    IsArray(t.men);
    FullRank(b, 0, 0);
  }

  /** Style 2: the men of the initial array shuffled, Black as White. */
  method Style2() returns (b: Board)
    ensures IsSetUp(b) && Mirrored(b) && forall k: Kind :: Count(b, 0, Man(White, k), ANY, 0) == ARRAY[k]
  {
    var a := ShuffledWhite();
    b := Mirror(a);
    forall k: Kind
      ensures Count(b, 0, Man(White, k), ANY, 0) == Count(a, 0, Man(White, k), ANY, 0)
    {
      SameRankSameCount(a, b, Man(White, k), ANY, 0);
    }
  }

  /** Puts a man on a square of its home rank that is known to be free. */
  method PutAt(a: Board, f: int, q: Piece, ghost t: Tally, ghost u: Tally) returns (b: Board, ghost next: Tally)
    requires Begun(a) && q.Man? && On(f) && At(a, f, q.color.Home()) == Empty
    requires Tallies(a, q.color, t) && Tallies(a, q.color.Toggle(), u)
    ensures Begun(b) && Tallies(b, q.color, next) && Tallies(b, q.color.Toggle(), u)
    ensures b == Put(a, f, q.color.Home(), q) && next == Added(t, q.kind, SquareColor(f, q.color.Home()))
    ensures forall x, r :: 0 <= x < 8 && 0 <= r < 8 && (x != f || r != q.color.Home()) ==> At(b, x, r) == At(a, x, r)
  {
    BegunPut(a, f, q);
    PutFrame(a, f, q.color.Home(), q);
    TalliesPut(a, q, f, t);
    TalliesElsewhere(a, q.color.Toggle(), f, q, u);
    b, next := Put(a, f, q.color.Home(), q), Added(t, q.kind, SquareColor(f, q.color.Home()));
  }

  /** King and queen in the middle, either way round: one square of each colour is taken. */
  method PlaceRoyals(a: Board, c: Color, ghost u: Tally) returns (b: Board, ghost t: Tally)
    requires Begun(a) && Tallies(a, c, NOTHING) && Tallies(a, c.Toggle(), u)
    requires forall f :: 0 <= f < 8 ==> At(a, f, c.Home()) == Empty
    ensures Begun(b) && Tallies(b, c, t) && Tallies(b, c.Toggle(), u)
    ensures At(b, 0, c.Home()) == At(b, 7, c.Home()) == Empty
    ensures t == Tally(multiset{King, Queen}, 1, 1, 0, 0)
  {
    var coin: bool := *;
    var f, g := if coin then 4 else 3, if coin then 3 else 4;
    b, t := PutAt(a, f, Man(c, King), NOTHING, u);
    b, t := PutAt(b, g, Man(c, Queen), t, u);
  }

  /** Rooks in the corners: another square of each colour is taken. */
  method PlaceRooks(a: Board, c: Color, ghost t: Tally, ghost u: Tally) returns (b: Board, ghost next: Tally)
    requires Begun(a) && Tallies(a, c, t) && Tallies(a, c.Toggle(), u)
    requires At(a, 0, c.Home()) == At(a, 7, c.Home()) == Empty
    ensures Begun(b) && Tallies(b, c, next) && Tallies(b, c.Toggle(), u)
    ensures next == Tally(t.men + multiset{Rook, Rook}, t.black + 1, t.white + 1, t.blackBishops, t.whiteBishops)
  {
    b, next := PutAt(a, 0, Man(c, Rook), t, u);
    b, next := PutAt(b, 7, Man(c, Rook), next, u);
    assert next.men == t.men + multiset{Rook, Rook};
  }

  lemma {:induction false} TwoBishops(t: Tally)
    ensures Added(Added(t, Bishop, 1), Bishop, 0)
         == Tally(t.men + multiset{Bishop, Bishop}, t.black + 1, t.white + 1, t.blackBishops + 1, t.whiteBishops + 1)
  {
    assert t.men + multiset{Bishop} + multiset{Bishop} == t.men + multiset{Bishop, Bishop};
  }

  /** A bishop on a square of each colour. */
  method PlaceBishops(a: Board, c: Color, ghost t: Tally, ghost u: Tally) returns (b: Board, ghost next: Tally)
    requires Begun(a) && Tallies(a, c, t) && Tallies(a, c.Toggle(), u) && t.black < 4 && t.white < 4
    ensures Begun(b) && Tallies(b, c, next) && Tallies(b, c.Toggle(), u)
    ensures next == Tally(t.men + multiset{Bishop, Bishop}, t.black + 1, t.white + 1, t.blackBishops + 1,
            t.whiteBishops + 1)
  {
    b, next := Fill(a, Man(c, Bishop), 1, t, u);
    ghost var mid := next;
    b, next := Fill(b, Man(c, Bishop), 0, mid, u);
    TwoBishops(t);
  }

  /** All eight men are there, with bishops on both colours. */
  predicate Full(t: Tally) { t.men == ARRAY && |t.men| == 8 && t.blackBishops == t.whiteBishops == 1 }

  /** Style 1, one side: bishops on both colours go before the knights. */
  method Style1Side(a: Board, c: Color, ghost u: Tally) returns (b: Board, ghost t: Tally)
    requires Begun(a) && Tallies(a, c, NOTHING) && Tallies(a, c.Toggle(), u)
    requires forall f :: 0 <= f < 8 ==> At(a, f, c.Home()) == Empty
    ensures Begun(b) && Tallies(b, c, t) && Tallies(b, c.Toggle(), u)
    ensures Full(t)
  {
    b, t := PlaceRoyals(a, c, u);
    b, t := PlaceRooks(b, c, t, u);
    b, t := PlaceBishops(b, c, t, u);
    b, t := FillTwo(b, Man(c, Knight), t, u);
    IsArray(t.men);
  }

  lemma {:induction false} StillNothing(b: Board, c: Color)
    requires Begun(b) && Tallies(b, c, NOTHING)
    ensures forall f :: 0 <= f < 8 ==> At(b, f, c.Home()) == Empty
  {
    NoneTaken(b, c.Home(), 0);
  }

  lemma {:induction false} NoneTaken(b: Board, r: int, f: nat)
    requires On(r) && f <= 8 && Taken(b, r, ANY, f) == 0
    ensures forall x :: f <= x < 8 ==> At(b, x, r) == Empty
    decreases 8 - f
  {
    if f < 8 {
      NoneTaken(b, r, f + 1);
    }
  }

  /** Eight men fill a home rank. */
  lemma {:induction false} TallyIsFull(b: Board, c: Color, t: Tally)
    requires Begun(b) && Tallies(b, c, t) && Full(t)
    ensures forall f :: 0 <= f < 8 ==> Own(b, c, f, c.Home())
    ensures forall k: Kind :: Count(b, c.Home(), Man(c, k), ANY, 0) == ARRAY[k]
    ensures forall wanted :: 0 <= wanted <= 1 ==> Count(b, c.Home(), Man(c, Bishop), wanted, 0) == 1
  {
    FullRank(b, c.Home(), 0);
  }

  lemma {:induction false} BothAreFull(b: Board, t: Tally, u: Tally)
    requires Begun(b) && Tallies(b, White, t) && Tallies(b, Black, u) && Full(t) && Full(u)
    ensures IsSetUp(b)
    ensures forall c: Color, k: Kind :: Count(b, c.Home(), Man(c, k), ANY, 0) == ARRAY[k]
    ensures forall c: Color, wanted :: 0 <= wanted <= 1 ==> Count(b, c.Home(), Man(c, Bishop), wanted, 0) == 1
  {
    forall c: Color
      ensures forall f :: 0 <= f < 8 ==> Own(b, c, f, c.Home())
      ensures forall k: Kind :: Count(b, c.Home(), Man(c, k), ANY, 0) == ARRAY[k]
      ensures forall wanted :: 0 <= wanted <= 1 ==> Count(b, c.Home(), Man(c, Bishop), wanted, 0) == 1
    {
      TallyIsFull(b, c, if c == White then t else u);
    }
  }

  /** Style 1: both sides have the initial men, with bishops on opposite colours. */
  method Style1() returns (b: Board)
    ensures IsSetUp(b)
    ensures forall c: Color, k: Kind :: Count(b, c.Home(), Man(c, k), ANY, 0) == ARRAY[k]
    ensures forall c: Color, wanted :: 0 <= wanted <= 1 ==> Count(b, c.Home(), Man(c, Bishop), wanted, 0) == 1
  {
    b := Pawns();
    NothingOn(b, White);
    NothingOn(b, Black);
    ghost var t, u;
    b, t := Style1Side(b, White, NOTHING);
    StillNothing(b, Black);
    b, u := Style1Side(b, Black, t);
    BothAreFull(b, t, u);
  }

  /** White's men of a kind on squares of a colour that style 4 has passed when it comes to f. */
  function Passed(a: Board, k: Kind, wanted: int, f: nat): int
    requires f <= 8
  {
    Count(a, 0, Man(White, k), wanted, 0) - Count(a, 0, Man(White, k), wanted, f)
  }

  /** White's rank is as it was, and Black's holds nothing but Black's men. */
  ghost predicate Dealing(a: Board, b: Board) {
    Begun(b) && forall f :: 0 <= f < 8 ==> At(b, f, 0) == At(a, f, 0)
  }

  /** Black's bishops so far: of each colour as many as White's passed on the other. */
  ghost predicate BishopsDealt(a: Board, b: Board, i: nat)
    requires i <= 8
  {
    && (forall c :: 0 <= c <= 1 ==>
          && Taken(b, 7, c, 0) == Count(b, 7, Man(Black, Bishop), c, 0) == Passed(a, Bishop, 1 - c, i))
    && Taken(b, 7, ANY, 0) == Count(b, 7, Man(Black, Bishop), ANY, 0) == Passed(a, Bishop, ANY, i)
    && forall k: Kind :: k != Bishop ==> Count(b, 7, Man(Black, k), ANY, 0) == 0
  }

  lemma {:induction false} RoomForBishop(a: Board, b: Board, i: nat)
    requires i < 8 && BishopsDealt(a, b, i)
    ensures Taken(b, 7, 1 - SquareColor(i, 0), 0) < 4
  {
    var c := SquareColor(i, 0);
    assert Taken(b, 7, 1 - c, 0) == Passed(a, Bishop, 1 - (1 - c), i);
    CountWithin(a, 0, Man(White, Bishop), c, i);
    SquaresOfRank(c, 0);
    assert Squares(c, 0, i) >= 1;
  }

  lemma {:induction false} DealBishop(a: Board, b: Board, i: nat, x: int)
    requires i < 8 && BishopsDealt(a, b, i) && Free(b, x, 7, 1 - SquareColor(i, 0)) && At(a, i, 0) == Man(White, Bishop)
    ensures BishopsDealt(a, Put(b, x, 7, Man(Black, Bishop)), i + 1)
  {
    var q := Man(Black, Bishop);
    forall c | -1 <= c <= 1
      ensures Taken(Put(b, x, 7, q), 7, c, 0)
              == Taken(b, 7, c, 0) + (if c == ANY || SquareColor(x, 7) == c then 1 else 0)
      ensures forall k: Kind ::
                (Count(Put(b, x, 7, q), 7, Man(Black, k), c, 0)
                 == Count(b, 7, Man(Black, k), c, 0) + if (c == ANY || SquareColor(x, 7) == c) && k == Bishop then 1
                     else 0)
    {
      TakenPut(b, 7, c, 0, x, q);
      forall k: Kind
        ensures Count(Put(b, x, 7, q), 7, Man(Black, k), c, 0)
                == Count(b, 7, Man(Black, k), c, 0) + if (c == ANY || SquareColor(x, 7) == c) && k == Bishop then 1
                    else 0
      {
        CountPut(b, 7, Man(Black, k), c, 0, x, q);
      }
    }
  }

  lemma {:induction false} PassBy(a: Board, b: Board, i: nat)
    requires i < 8 && BishopsDealt(a, b, i) && At(a, i, 0) != Man(White, Bishop)
    ensures BishopsDealt(a, b, i + 1)
  {
  }

  /** Black's bishops go first, each to the colour opposite to one of White's. */
  method DealBishops(a: Board) returns (b: Board)
    requires Begun(a) && (forall f :: 0 <= f < 8 ==> At(a, f, 7) == Empty)
    ensures Dealing(a, b) && BishopsDealt(a, b, 8)
  {
    b := a;
    NothingDealt(a);
    for i := 0 to 8
      invariant Dealing(a, b) && BishopsDealt(a, b, i)
    {
      if At(b, i, 0) == Man(White, Bishop) {
        RoomForBishop(a, b, i);
        ghost var b0 := b;
        var x;
        b, x := PlacePiece(b, Man(Black, Bishop), 1 - SquareColor(i, 0));
        BegunPut(b0, x, Man(Black, Bishop));
        PutFrame(b0, x, 7, Man(Black, Bishop));
        DealBishop(a, b0, i, x);
      } else {
        PassBy(a, b, i);
      }
    }
  }

  lemma {:induction false} NothingDealt(a: Board)
    requires forall f :: 0 <= f < 8 ==> At(a, f, 7) == Empty
    ensures BishopsDealt(a, a, 0)
  {
    forall k: Kind, c | -1 <= c <= 1
      ensures Taken(a, 7, c, 0) == 0 && Count(a, 7, Man(Black, k), c, 0) == 0
    {
      EmptyRank(a, 7, Man(Black, k), c, 0);
    }
  }

  /** Black's other men so far: of each kind as many as White's passed. */
  ghost predicate OthersDealt(a: Board, b: Board, i: nat)
    requires i <= 8
  {
    && (forall c :: 0 <= c <= 1 ==> Count(b, 7, Man(Black, Bishop), c, 0) == Passed(a, Bishop, 1 - c, 8))
    && Taken(b, 7, ANY, 0) == i + Count(a, 0, Man(White, Bishop), ANY, i)
    && (forall k: Kind :: Count(b, 7, Man(Black, k), ANY, 0) == Passed(a, k, ANY, if k == Bishop then 8 else i))
  }

  lemma {:induction false} DealOther(a: Board, b: Board, i: nat, x: int)
    requires i < 8 && OthersDealt(a, b, i) && Free(b, x, 7, ANY) && Own(a, White, i, 0) && At(a, i, 0).kind != Bishop
    ensures OthersDealt(a, Put(b, x, 7, Man(Black, At(a, i, 0).kind)), i + 1)
  {
    var q := Man(Black, At(a, i, 0).kind);
    TakenPut(b, 7, ANY, 0, x, q);
    forall k: Kind, c | -1 <= c <= 1
      ensures Count(Put(b, x, 7, q), 7, Man(Black, k), c, 0)
              == Count(b, 7, Man(Black, k), c, 0) + if (c == ANY || SquareColor(x, 7) == c) && k == q.kind then 1 else 0
    {
      CountPut(b, 7, Man(Black, k), c, 0, x, q);
    }
  }

  lemma {:induction false} PassBishop(a: Board, b: Board, i: nat)
    requires i < 8 && OthersDealt(a, b, i) && At(a, i, 0) == Man(White, Bishop)
    ensures OthersDealt(a, b, i + 1)
  {
  }

  lemma {:induction false} RoomForOther(a: Board, b: Board, i: nat)
    requires i < 8 && OthersDealt(a, b, i) && At(a, i, 0) != Man(White, Bishop)
    ensures Taken(b, 7, ANY, 0) < 8
  {
    CountBelow(a, 0, Man(White, Bishop), ANY, i + 1);
  }

  /** Style 4: Black has White's men in another order, its bishops on the other colours. */
  method Style4() returns (b: Board, king: int)
    ensures IsSetUp(b) && On(king)
    ensures forall f :: 0 <= f < 8 ==> if f == king then At(b, f, 0) == Man(White, King) else Drawn(At(b, f, 0))
    ensures forall k: Kind :: Count(b, 7, Man(Black, k), ANY, 0) == Count(b, 0, Man(White, k), ANY, 0)
    ensures forall c :: 0 <= c <= 1 ==>
      Count(b, 7, Man(Black, Bishop), c, 0) == Count(b, 0, Man(White, Bishop), 1 - c, 0)
  {
    var a;
    a, king := WhiteRank();
    b := DealBishops(a);
    for i := 0 to 8
      invariant Dealing(a, b) && OthersDealt(a, b, i)
    {
      if At(b, i, 0) != Man(White, Bishop) {
        RoomForOther(a, b, i);
        ghost var b0 := b;
        var x;
        b, x := PlacePiece(b, Man(Black, At(b, i, 0).kind), ANY);
        BegunPut(b0, x, Man(Black, At(a, i, 0).kind));
        PutFrame(b0, x, 7, Man(Black, At(a, i, 0).kind));
        DealOther(a, b0, i, x);
      } else {
        PassBishop(a, b, i);
      }
    }
    FullRank(b, 7, 0);
    forall k: Kind, c | -1 <= c <= 1
      ensures Count(b, 0, Man(White, k), c, 0) == Count(a, 0, Man(White, k), c, 0)
    {
      SameRankSameCount(a, b, Man(White, k), c, 0);
    }
  }

  lemma {:induction false} SameRankSameCount(a: Board, b: Board, q: Piece, wanted: int, f: nat)
    requires f <= 8 && forall x :: 0 <= x < 8 ==> At(b, x, 0) == At(a, x, 0)
    ensures Count(b, 0, q, wanted, f) == Count(a, 0, q, wanted, f)
    decreases 8 - f
  {
    if f < 8 {
      SameRankSameCount(a, b, q, wanted, f + 1);
    }
  }
}
