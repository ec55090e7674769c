/** Positions as text: the placement and active-colour fields of section 16.1.3 of the PGN
    standard, written and read back. */
module Fen {
  import opened Texts
  import opened Positions

  function Letter(q: Piece): char
    requires q.Man?
  {
    var c := match q.kind
      case Pawn => 'p'
      case Knight => 'n'
      case Bishop => 'b'
      case Rook => 'r'
      case Queen => 'q'
      case King => 'k';
    if q.color.White? then c - (32 as char) else c
  }

  function CharToPiece(c: char): Piece {
    match c
    case 'P' => Man(White, Pawn)
    case 'p' => Man(Black, Pawn)
    case 'N' => Man(White, Knight)
    case 'n' => Man(Black, Knight)
    case 'B' => Man(White, Bishop)
    case 'b' => Man(Black, Bishop)
    case 'R' => Man(White, Rook)
    case 'r' => Man(Black, Rook)
    case 'Q' => Man(White, Queen)
    case 'q' => Man(Black, Queen)
    case 'K' => Man(White, King)
    case 'k' => Man(Black, King)
    case _ => Empty
  }

  function Digit(n: nat): char
    requires n < 10
  {
    '0' + (n as char)
  }

  lemma {:induction false} LetterRoundTrip(q: Piece)
    requires q.Man?
    ensures IsAlpha(Letter(q)) && CharToPiece(Letter(q)) == q
  {
  }

  lemma {:induction false} DigitRoundTrip(n: nat)
    requires n < 10
    ensures !IsAlpha(Digit(n)) && Digit(n) != '/' && Digit(n) as int - '0' as int == n
  {
  }

  type Rank = s: seq<Piece> | |s| == 8 witness seq(8, _ => Empty)

  function RankOf(b: Board, r: int): Rank
    requires On(r)
  {
    seq(8, f requires 0 <= f < 8 => At(b, f, r))
  }

  /** The text of a rank from file f on, with `count` empty squares before it still to be noted. */
  function RankFrom(row: Rank, f: nat, count: nat): (t: string)
    requires count <= f <= 8 && (f == 8 ==> count == 0)
    ensures |t| <= 8 - (f - count)
    decreases 8 - f, |row|
  {
    if f == 8 then ""
    else if row[f].Man? then (if count > 0 then [Digit(count)] else "") + ([Letter(row[f])] + RankFrom(row, f + 1, 0))
    else if f == 7 then [Digit(count + 1)]
    else RankFrom(row, f + 1, count + 1)
  }

  function RankText(b: Board, r: int): (t: string)
    requires On(r)
    ensures |t| <= 8
  {
    RankFrom(RankOf(b, r), 0, 0)
  }

  /** The ranks from r down, with slashes between them. */
  function Placement(b: Board, r: int): (t: string)
    requires On(r)
    ensures |t| <= 9 * r + 8
    decreases r, |b|
  {
    if r == 0 then RankText(b, r) else RankText(b, r) + ("/" + Placement(b, r - 1))
  }

  function Active(c: Color): char { if c.White? then 'w' else 'b' }

  const CAPACITY := 74

  /** The text always fits, with the terminating zero, into the room there is. */
  function FenText(b: Board, c: Color): (t: string)
    ensures |t| < CAPACITY
  {
    Placement(b, 7) + [' ', Active(c)]
  }

  /** How many squares a digit empties: a number, and anything else all the rest. */
  function Emptied(c: char, f: nat): (n: nat)
    requires f < 8
    ensures 1 <= n <= 8 - f
  {
    var t := c as int - '0' as int;
    if 1 <= t <= 8 - f then t else 8 - f
  }

  /** Empties n squares from file f on. */
  function Blank(row: Rank, f: nat, n: nat): Rank
    requires f + n <= 8
  {
    row[..f] + seq(n, _ => Empty) + row[f + n..]
  }

  /** Reads a rank into the squares from file f on. */
  function ReadRank(s: string, pos: nat, f: nat, row: Rank): (r: (nat, Rank))
    requires f <= 8
    ensures pos <= r.0
    decreases |s| - pos
  {
    if f == 8 || pos + 1 >= |s| then (pos, row)
    else if IsAlpha(s[pos]) then ReadRank(s, pos + 1, f + 1, row[f := CharToPiece(s[pos])])
    else if s[pos] == '/' then ReadRank(s, pos + 1, f, row)
    else ReadRank(s, pos + 1, f + Emptied(s[pos], f), Blank(row, f, Emptied(s[pos], f)))
  }

  /** The board with a rank replaced. */
  function SetRank(b: Board, r: int, row: Rank): Board
    requires On(r)
  {
    seq(64, i requires 0 <= i < 64 => if i % 8 == r then row[i / 8] else b[i])
  }

  /** Reads the ranks from r down. */
  function ReadRanks(s: string, pos: nat, r: int, b: Board): (nat, Board)
    requires -1 <= r < 8
    decreases r + 1, |b|
  {
    if r < 0 then (pos, b)
    else
      var (next, row) := ReadRank(s, pos, 0, RankOf(b, r));
      ReadRanks(s, next, r - 1, SetRank(b, r, row))
  }

  /** The board and the side to move that a text puts in place of those before. */
  function Read(s: string, b: Board, c: Color): (Board, Color) {
    var (pos, after) := ReadRanks(s, 0, 7, b);
    (after, if pos + 1 >= |s| then c else if s[pos + 1] == 'w' then White else Black)
  }

  /** The squares before file f are read, and from f - count on the rank is empty. */
  ghost predicate ReadSoFar(row: Rank, got: Rank, f: nat, count: nat) {
    && count <= f <= 8 && (forall i :: 0 <= i < f - count ==> got[i] == row[i])
    && (forall i :: f - count <= i < f ==> row[i] == Empty)
  }

  /** What is written of a rank is read back. */
  lemma {:induction false} RankRoundTrip(s: string, pos: nat, row: Rank, got: Rank, f: nat, count: nat)
    requires ReadSoFar(row, got, f, count) && (f == 8 ==> count == 0)
    requires Reads(s, pos, RankFrom(row, f, count)) && pos + |RankFrom(row, f, count)| + 1 < |s|
    ensures ReadRank(s, pos, f - count, got) == (pos + |RankFrom(row, f, count)|, row)
    decreases 8 - f, 2
  {
    if f == 8 {
      assert got == row;
    } else if row[f].Man? {
      if count > 0 {
        ManBehindDigit(s, pos, row, got, f, count);
      } else {
        assert "" + ([Letter(row[f])] + RankFrom(row, f + 1, 0)) == [Letter(row[f])] + RankFrom(row, f + 1, 0);
        ManIsRead(s, pos, row, got, f);
      }
    } else if f == 7 {
      assert [Digit(count + 1)][0] == s[pos];
      DigitIsRead(s, pos, row, got, 8, count + 1, count + 1);
      assert Blank(got, 7 - count, count + 1) == row;
    } else {
      RankRoundTrip(s, pos, row, got, f + 1, count + 1);
    }
  }

  /** A man behind empty squares: their number, then the man and the rest of the rank. */
  lemma {:induction false} ManBehindDigit(s: string, pos: nat, row: Rank, got: Rank, f: nat, count: nat)
    requires ReadSoFar(row, got, f, count) && f < 8 && count > 0 && row[f].Man?
    requires var t := RankFrom(row, f, count); Reads(s, pos, t) && pos + |t| + 1 < |s|
    ensures ReadRank(s, pos, f - count, got) == (pos + |RankFrom(row, f, count)|, row)
    decreases 8 - f, 1
  {
    var rest := [Letter(row[f])] + RankFrom(row, f + 1, 0);
    assert RankFrom(row, f, count) == [Digit(count)] + rest;
    ReadsParts(s, pos, [Digit(count)], rest);
    assert [Digit(count)][0] == s[pos];
    DigitIsRead(s, pos, row, got, f, count, count);
    ManIsRead(s, pos + 1, row, Blank(got, f - count, count), f);
  }

  lemma {:induction false} DigitIsRead(s: string, pos: nat, row: Rank, got: Rank, f: nat, count: nat, n: nat)
    requires 0 < n == count <= f <= 8 && (forall i :: 0 <= i < f - count ==> got[i] == row[i])
    requires forall i :: f - count <= i < f ==> row[i] == Empty
    requires pos + 1 < |s| && s[pos] == Digit(n)
    ensures ReadRank(s, pos, f - count, got) == ReadRank(s, pos + 1, f, Blank(got, f - count, count))
    ensures ReadSoFar(row, Blank(got, f - count, count), f, 0)
  {
    DigitRoundTrip(n);
  }

  lemma {:induction false} ManIsRead(s: string, pos: nat, row: Rank, got: Rank, f: nat)
    requires ReadSoFar(row, got, f, 0) && f < 8 && row[f].Man?
    requires var t := [Letter(row[f])] + RankFrom(row, f + 1, 0); Reads(s, pos, t) && pos + |t| + 1 < |s|
    ensures ReadRank(s, pos, f, got) == (pos + 1 + |RankFrom(row, f + 1, 0)|, row)
    decreases 8 - f, 0
  {
    LetterRoundTrip(row[f]);
    ReadsParts(s, pos, [Letter(row[f])], RankFrom(row, f + 1, 0));
    assert [Letter(row[f])][0] == s[pos];
    RankRoundTrip(s, pos + 1, row, got[f := row[f]], f + 1, 0);
  }

  /** Which ranks of a board are already those of another. */
  ghost predicate SameAbove(a: Board, b: Board, r: int) {
    forall f, y :: 0 <= f < 8 && 0 <= y < 8 && y > r ==> At(a, f, y) == At(b, f, y)
  }

  lemma {:induction false} SetRankAbove(a: Board, b: Board, r: int)
    requires On(r) && SameAbove(a, b, r)
    ensures SameAbove(a, SetRank(b, r, RankOf(a, r)), r - 1)
  {
    var c := SetRank(b, r, RankOf(a, r));
    forall f, y | 0 <= f < 8 && 0 <= y < 8 && y > r - 1
      ensures At(a, f, y) == At(c, f, y)
    {
      assert (8 * f + y) % 8 == y && (8 * f + y) / 8 == f;
      assert y > r ==> At(a, f, y) == At(b, f, y);
    }
  }

  /** The ranks from r down are read back. */
  lemma {:induction false} RanksRoundTrip(s: string, pos: nat, r: int, a: Board, b: Board)
    requires On(r) && SameAbove(a, b, r) && Reads(s, pos, Placement(a, r)) && pos + |Placement(a, r)| + 1 < |s|
    ensures ReadRanks(s, pos, r, b) == (pos + |Placement(a, r)|, a)
    decreases r
  {
    var next, c := pos + |RankText(a, r)|, SetRank(b, r, RankOf(a, r));
    if r == 0 {
      RankIsRead(s, pos, r, a, b);
      AllRanksSame(a, c);
    } else {
      ReadsParts(s, pos, RankText(a, r), "/" + Placement(a, r - 1));
      ReadsParts(s, next, "/", Placement(a, r - 1));
      assert s[next] == "/"[0];
      RankIsRead(s, pos, r, a, b);
      SlashIsRead(s, next, r - 1, c);
      RanksRoundTrip(s, next + 1, r - 1, a, c);
    }
  }

  lemma {:induction false} AllRanksSame(a: Board, b: Board)
    requires SameAbove(a, b, -1)
    ensures a == b
  {
    BoardsEqual(a, b);
  }

  /** One rank of those from r down is read. */
  lemma {:induction false} RankIsRead(s: string, pos: nat, r: int, a: Board, b: Board)
    requires On(r) && SameAbove(a, b, r) && Reads(s, pos, RankText(a, r)) && pos + |RankText(a, r)| + 1 < |s|
    ensures var c := SetRank(b, r, RankOf(a, r));
      SameAbove(a, c, r - 1) && ReadRanks(s, pos, r, b) == ReadRanks(s, pos + |RankText(a, r)|, r - 1, c)
  {
    RankRoundTrip(s, pos, RankOf(a, r), RankOf(b, r), 0, 0);
    SetRankAbove(a, b, r);
  }

  lemma {:induction false} SlashIsRead(s: string, pos: nat, r: int, b: Board)
    requires On(r) && pos + 1 < |s| && s[pos] == '/'
    ensures ReadRanks(s, pos, r, b) == ReadRanks(s, pos + 1, r, b)
  {
    assert ReadRank(s, pos, 0, RankOf(b, r)) == ReadRank(s, pos + 1, 0, RankOf(b, r));
  }

  /** Reading what was written restores the board and the side to move, whatever was there before. */
  lemma {:induction false} FenRoundTrip(a: Board, c: Color, b: Board, d: Color)
    ensures Read(FenText(a, c), b, d) == (a, c)
  {
    var s := FenText(a, c);
    var n := |Placement(a, 7)|;
    assert Reads(s, 0, Placement(a, 7));
    RanksRoundTrip(s, 0, 7, a, b);
    assert s[n + 1] == [' ', Active(c)][1];
  }

  /** Two positions have the same text exactly if board and side to move are the same. */
  lemma {:induction false} FenIsExact(a: Board, c: Color, b: Board, d: Color)
    ensures FenText(a, c) == FenText(b, d) <==> a == b && c == d
  {
    FenRoundTrip(a, c, a, c);
    FenRoundTrip(b, d, a, c);
  }

  lemma {:induction false} FullRank(row: Rank, f: nat)
    requires f <= 8 && forall i :: 0 <= i < 8 ==> row[i].Man?
    ensures |RankFrom(row, f, 0)| == 8 - f
    decreases 8 - f
  {
    if f < 8 {
      FullRank(row, f + 1);
    }
  }

  lemma {:induction false} FullRanks(b: Board, r: int)
    requires On(r) && forall i :: 0 <= i < 64 ==> b[i].Man?
    ensures |Placement(b, r)| == 9 * r + 8
    decreases r
  {
    forall f | 0 <= f < 8
      ensures RankOf(b, r)[f].Man?
    {
      assert RankOf(b, r)[f] == b[8 * f + r];
    }
    FullRank(RankOf(b, r), 0);
    if r > 0 {
      FullRanks(b, r - 1);
    }
  }

  /** The room is needed in full: a board without an empty square takes all of it. */
  lemma {:induction false} FullBoardFillsRoom(b: Board, c: Color)
    requires forall i :: 0 <= i < 64 ==> b[i].Man?
    ensures |FenText(b, c)| == CAPACITY - 1
  {
    FullRanks(b, 7);
  }
}
