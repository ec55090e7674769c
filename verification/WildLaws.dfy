/** Set-up files letter by letter, and the colours of squares. */
module WildLaws {
  import opened Texts
  import opened Positions
  import opened Legality
  import opened WildFiles
  import opened WildSetUps

  const KINDS: seq<Kind> := [Pawn, Knight, Bishop, Rook, Queen, King]

  lemma {:induction false} CharsAreRead(c: Color, side: char, man: char, file: char, rank: char, k: Kind, f: int,
      r: int)
    requires On(f) && On(r) && ManOf(man) == Some(k) && side == (if c == White then 'W' else 'B')
    requires file as int == 'a' as int + f && rank as int == '1' as int + r
    ensures ReadText(FRESH, [side, ':', ' ', man, file, rank, '\n']).board == Put(EMPTY_BOARD, f, r, Man(c, k))
  {
    var st := BeginLine(FRESH, c);
    var named := st.(man := Some(k));
    var filed := named.(file := Some(f));
    CharIsRead(FRESH, side, [':', ' ', man, file, rank, '\n']);
    CharIsRead(st, ':', [' ', man, file, rank, '\n']);
    CharIsRead(st, ' ', [man, file, rank, '\n']);
    CharIsRead(st, man, [file, rank, '\n']);
    CharIsRead(named, file, [rank, '\n']);
    CharIsRead(filed, rank, ['\n']);
    CharIsRead(PlaceOn(filed, r), '\n', []);
  }

  lemma {:induction false} SquareIsNamed(f: int, r: int)
    requires On(f) && On(r)
    ensures "abcdefgh"[f] as int == 'a' as int + f && "12345678"[r] as int == '1' as int + r
  {
  }

  lemma {:induction false} ManIsNamed(i: nat)
    requires i < 6
    ensures ManOf("PNBRQK"[i]) == Some(KINDS[i])
  {
  }

  /** A line names White's or Black's men; a man is put down by his capital, the file and the rank. */
  lemma {:induction false} LineIsRead(c: Color, i: nat, f: int, r: int)
    requires i < 6 && On(f) && On(r)
    ensures var side := if c == White then 'W' else 'B';
      ReadText(FRESH, [side, ':', ' ', "PNBRQK"[i], "abcdefgh"[f], "12345678"[r], '\n']).board
        == Put(EMPTY_BOARD, f, r, Man(c, KINDS[i]))
  {
    ManIsNamed(i);
    SquareIsNamed(f, r);
    CharsAreRead(c, if c == White then 'W' else 'B', "PNBRQK"[i], "abcdefgh"[f], "12345678"[r], KINDS[i], f, r);
  }

  lemma {:induction false} CharIsRead(st: Reader, c: char, rest: string)
    ensures ReadText(st, [c] + rest) == ReadText(ReadChar(st, c), rest)
  {
    assert ([c] + rest)[1..] == rest;
  }

  /** Squares that touch along an edge differ in colour, and a1 is black. */
  lemma {:induction false} ColorsAlternate(f: int, r: int)
    requires On(f) && On(r)
    ensures f < 7 ==> SquareColor(f + 1, r) != SquareColor(f, r)
    ensures r < 7 ==> SquareColor(f, r + 1) != SquareColor(f, r)
    ensures SquareColor(0, 0) == 0 && 0 <= SquareColor(f, r) <= 1
  {
  }

  /** A bishop stays on the colour of its square, which is why two of one colour would be no pair. */
  lemma {:induction false} BishopKeepsColor(b: Board, f: int, r: int, tf: int, tr: int)
    requires BishopMove(b, f, r, tf, tr)
    ensures SquareColor(tf, tr) == SquareColor(f, r)
  {
  }

  /** The rank holds rook, knight, bishop, queen, king, bishop, knight and rook. */
  predicate HoldsArray(b: Board, c: Color, h: int)
    requires On(h)
  {
    && At(b, 0, h) == Man(c, Rook) && At(b, 1, h) == Man(c, Knight) && At(b, 2, h) == Man(c, Bishop)
    && At(b, 3, h) == Man(c, Queen) && At(b, 4, h) == Man(c, King) && At(b, 5, h) == Man(c, Bishop)
    && At(b, 6, h) == Man(c, Knight) && At(b, 7, h) == Man(c, Rook)
  }

  lemma {:induction false} CountStep(b: Board, h: int, q: Piece, f: nat)
    requires On(h) && f < 8
    ensures Count(b, h, q, ANY, f) == Count(b, h, q, ANY, f + 1) + if At(b, f, h) == q then 1 else 0
  {
  }

  lemma {:induction false} ArrayCounted(c: Color, k: Kind, b: Board, h: int)
    requires On(h) && HoldsArray(b, c, h)
    ensures Count(b, h, Man(c, k), ANY, 0) == ARRAY[k]
  {
    var q := Man(c, k);
    CountStep(b, h, q, 7);
    CountStep(b, h, q, 6);
    CountStep(b, h, q, 5);
    CountStep(b, h, q, 4);
    CountStep(b, h, q, 3);
    CountStep(b, h, q, 2);
    CountStep(b, h, q, 1);
    CountStep(b, h, q, 0);
    InArray(k);
  }

  lemma {:induction false} InArray(k: Kind)
    ensures ARRAY[k] == if k == King || k == Queen then 1 else if k == Pawn then 0 else 2
  {
  }

  /** The men that styles 1 and 2 place are those of the standard start. */
  lemma {:induction false} ArrayIsInitial(c: Color, k: Kind)
    ensures Count(StandardStart().board, c.Home(), Man(c, k), ANY, 0) == ARRAY[k]
  {
    assert HoldsArray(StandardStart().board, c, c.Home());
    ArrayCounted(c, k, StandardStart().board, c.Home());
  }
}
