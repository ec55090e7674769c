/** Set-up files: the text in which a set-up is written, and reading it back. */
module WildFiles {
  import opened Texts
  import opened Positions

  /** Where the reader of a set-up file stands: within a line it knows a colour, and of what
      it met last a man, a file and a rank. */
  datatype Reader = Reader(board: Board, onMove: Option<Color>, newLine: bool, skipping: bool,
                           color: Option<Color>, man: Option<Kind>, file: Option<int>)

  /** Clearing the board has made it White's turn. */
  const FRESH := Reader(EMPTY_BOARD, Some(White), true, false, None, None, None)

  function ManOf(c: char): Option<Kind> {
    match c
    case 'P' => Some(Pawn)
    case 'R' => Some(Rook)
    case 'N' => Some(Knight)
    case 'B' => Some(Bishop)
    case 'Q' => Some(Queen)
    case 'K' => Some(King)
    case _ => None
  }

  function BeginLine(st: Reader, c: Color): Reader {
    st.(color := Some(c), onMove := if st.onMove.None? then Some(c) else st.onMove, newLine := false)
  }

  function EndLine(st: Reader): Reader {
    st.(newLine := true, skipping := false, color := None, man := None, file := None)
  }

  /** Puts a man on the square, if all is known of it. */
  function PlaceOn(st: Reader, r: int): Reader
    requires On(r)
  {
    if st.file.Some? && On(st.file.value) && st.color.Some? && st.man.Some?
    then st.(board := Put(st.board, st.file.value, r, Man(st.color.value, st.man.value)))
    else st
  }

  /** One character. */
  function ReadChar(st: Reader, c: char): Reader {
    if st.skipping then (if c == '\n' then EndLine(st) else st)
    else if st.newLine then
      if c == 'W' then BeginLine(st, White)
      else if c == 'B' then BeginLine(st, Black)
      else if c == '\n' then st
      else st.(skipping := true)
    else if ManOf(c).Some? then st.(man := ManOf(c))
    else if 'a' <= c <= 'h' then st.(file := Some(c as int - 'a' as int))
    else if '1' <= c <= '8' then PlaceOn(st, c as int - '1' as int)
    else if c == '#' then st.(skipping := true)
    else if c == '\n' then EndLine(st)
    else st
  }

  function ReadText(st: Reader, s: string): Reader
    decreases |s|
  {
    if s == "" then st else ReadText(ReadChar(st, s[0]), s[1..])
  }

  /** Since it is someone's turn already, no line changes whose: not even when Black's comes first. */
  lemma {:induction false} WhiteStaysToMove(st: Reader, s: string)
    requires st.onMove == Some(White)
    ensures ReadText(st, s).onMove == Some(White)
    decreases |s|
  {
    if s != "" {
      WhiteStaysToMove(ReadChar(st, s[0]), s[1..]);
    }
  }

  /** Reads a set-up file onto an empty board. */
  method BoardReadFile(text: string) returns (board: Board, onMove: Option<Color>)
    ensures var st := ReadText(FRESH, text); board == st.board && onMove == st.onMove
    ensures onMove == Some(White)
  {
    WhiteStaysToMove(FRESH, text);
    var st, i := FRESH, 0;
    while i < |text|
      invariant i <= |text| && ReadText(FRESH, text) == ReadText(st, text[i..])
    {
      assert text[i..][1..] == text[i + 1..];
      st := ReadChar(st, text[i]);
      i := i + 1;
    }
    board, onMove := st.board, st.onMove;
  }

  function ManLetter(q: Piece): char {
    if q.Empty? then ' '
    else match q.kind
      case Pawn => 'P'
      case Knight => 'N'
      case Bishop => 'B'
      case Rook => 'R'
      case Queen => 'Q'
      case King => 'K'
  }

  function FileLetter(f: int): char
    requires On(f)
  {
    'a' + (f as char)
  }

  function RankDigit(r: int): char
    requires On(r)
  {
    '1' + (r as char)
  }

  /** A square of a line: the man is named only when it changes. */
  function SquareText(b: Board, f: int, r: int, last: Option<Piece>): string
    requires On(f) && On(r)
  {
    (if last == Some(At(b, f, r)) then "" else [' ', ManLetter(At(b, f, r))]) + [' ', FileLetter(f), RankDigit(r)]
  }

  /** The squares of a rank from file f on. */
  function RankText(b: Board, r: int, f: nat, last: Option<Piece>): string
    requires On(r) && f <= 8
    decreases 8 - f, |b|
  {
    if f == 8 then "" else SquareText(b, f, r, last) + RankText(b, r, f + 1, Some(At(b, f, r)))
  }

  /** Two ranks of a colour, one after the other. */
  function ColorText(b: Board, r1: int, r2: int): string
    requires On(r1) && On(r2)
  {
    RankText(b, r1, 0, None) + RankText(b, r2, 0, Some(At(b, 7, r1)))
  }

  function WildText(b: Board): string {
    "W:" + (ColorText(b, 1, 0) + ("\nB:" + (ColorText(b, 6, 7) + "\n")))
  }

  lemma {:induction false} ReadJoins(st: Reader, a: string, b: string)
    ensures ReadText(st, a + b) == ReadText(ReadText(st, a), b)
    decreases |a|
  {
    if a == "" {
      assert a + b == b;
    } else {
      assert (a + b)[1..] == a[1..] + b;
      ReadJoins(ReadChar(st, a[0]), a[1..], b);
    }
  }

  lemma {:induction false} ReadOne(st: Reader, c: char)
    ensures ReadText(st, [c]) == ReadChar(st, c)
  {
    assert [c][1..] == "";
  }

  /** Within a line of a colour. */
  predicate InLine(st: Reader, c: Color) { !st.newLine && !st.skipping && st.color == Some(c) }

  /** What is written of a square puts its man there. */
  lemma {:induction false} SquareIsRead(st: Reader, b: Board, f: int, r: int, last: Option<Piece>, c: Color)
    requires On(f) && On(r) && InLine(st, c) && Own(b, c, f, r)
    requires last.Some? ==> st.man == (if last.value.Man? then Some(last.value.kind) else None)
    ensures var next := ReadText(st, SquareText(b, f, r, last));
      && InLine(next, c) && next.board == Put(st.board, f, r, At(b, f, r)) && next.onMove == st.onMove
      && next.man == Some(At(b, f, r).kind)
  {
    var q := At(b, f, r);
    var named := if last == Some(q) then st else st.(man := Some(q.kind));
    var square := [' ', FileLetter(f), RankDigit(r)];
    assert square == [' '] + [FileLetter(f)] + [RankDigit(r)];
    NameIsRead(st, b, f, r, last);
    ReadJoins(st, if last == Some(q) then "" else [' ', ManLetter(q)], square);
    ReadJoins(named, [' '] + [FileLetter(f)], [RankDigit(r)]);
    ReadJoins(named, [' '], [FileLetter(f)]);
    ReadOne(named, ' ');
    ReadOne(named, FileLetter(f));
    ReadOne(named.(file := Some(f)), RankDigit(r));
  }

  lemma {:induction false} NameIsRead(st: Reader, b: Board, f: int, r: int, last: Option<Piece>)
    requires On(f) && On(r) && !st.newLine && !st.skipping && At(b, f, r).Man?
    ensures var q := At(b, f, r);
      ReadText(st, if last == Some(q) then "" else [' ', ManLetter(q)]) == if last == Some(q) then st
          else st.(man := Some(q.kind))
  {
    var q := At(b, f, r);
    assert [' ', ManLetter(q)] == [' '] + [ManLetter(q)];
    ReadJoins(st, [' '], [ManLetter(q)]);
    ReadOne(st, ' ');
    ReadOne(st, ManLetter(q));
  }

  /** The squares from file f on of a rank are as on the other board. */
  function Copied(a: Board, b: Board, r: int, f: nat): Board
    requires On(r) && f <= 8
    decreases 8 - f, |a|
  {
    if f == 8 then a else Copied(Put(a, f, r, At(b, f, r)), b, r, f + 1)
  }

  /** What is written of a rank puts its men there. */
  lemma {:induction false} RankIsRead(st: Reader, b: Board, r: int, f: nat, last: Option<Piece>, c: Color)
    requires On(r) && f <= 8 && InLine(st, c) && (forall x :: 0 <= x < 8 ==> Own(b, c, x, r))
    requires last.Some? ==> st.man == (if last.value.Man? then Some(last.value.kind) else None)
    ensures var next := ReadText(st, RankText(b, r, f, last));
      && InLine(next, c) && next.board == Copied(st.board, b, r, f) && next.onMove == st.onMove
      && (f < 8 ==> At(b, 7, r).Man? && next.man == Some(At(b, 7, r).kind))
    decreases 8 - f
  {
    if f < 8 {
      assert Own(b, c, f, r) && Own(b, c, 7, r);
      SquareIsRead(st, b, f, r, last, c);
      var next := ReadText(st, SquareText(b, f, r, last));
      ReadJoins(st, SquareText(b, f, r, last), RankText(b, r, f + 1, Some(At(b, f, r))));
      RankIsRead(next, b, r, f + 1, Some(At(b, f, r)), c);
    }
  }

  lemma {:induction false} ColorIsRead(st: Reader, b: Board, r1: int, r2: int, c: Color)
    requires On(r1) && On(r2) && InLine(st, c)
    requires forall x :: 0 <= x < 8 ==> Own(b, c, x, r1) && Own(b, c, x, r2)
    ensures var next := ReadText(st, ColorText(b, r1, r2));
      InLine(next, c) && next.board == Copied(Copied(st.board, b, r1, 0), b, r2, 0) && next.onMove == st.onMove
  {
    var first, last := RankText(b, r1, 0, None), Some(At(b, 7, r1));
    RankIsRead(st, b, r1, 0, None, c);
    ReadJoins(st, first, RankText(b, r2, 0, last));
    RankIsRead(ReadText(st, first), b, r2, 0, last, c);
  }

  /** White on the first two ranks, Black on the last two, and nothing between. */
  ghost predicate IsSetUp(b: Board) {
    forall f :: 0 <= f < 8 ==>
      && Own(b, White, f, 0) && Own(b, White, f, 1) && Own(b, Black, f, 6) && Own(b, Black, f, 7)
      && At(b, f, 2) == Empty && At(b, f, 3) == Empty && At(b, f, 4) == Empty && At(b, f, 5) == Empty
  }

  lemma {:induction false} CopiedAt(a: Board, b: Board, r: int, f: nat, x: int, y: int)
    requires On(r) && f <= 8 && On(x) && On(y)
    ensures At(Copied(a, b, r, f), x, y) == if y == r && x >= f then At(b, x, y) else At(a, x, y)
    decreases 8 - f
  {
    if f < 8 {
      CopiedAt(Put(a, f, r, At(b, f, r)), b, r, f + 1, x, y);
    }
  }

  /** The board that is read is the board that was written. */
  lemma {:induction false} WildRoundTrip(b: Board)
    requires IsSetUp(b)
    ensures var st := ReadText(FRESH, WildText(b)); st.board == b && st.onMove == Some(White)
  {
    var white, black := ColorText(b, 1, 0), ColorText(b, 6, 7);
    var s1 := ReadText(FRESH, "W:");
    Opening(FRESH, 'W');
    ColorIsRead(s1, b, 1, 0, White);
    var s2 := ReadText(s1, white);
    Closing(s2);
    var s3 := ReadText(s2, "\nB:");
    ColorIsRead(s3, b, 6, 7, Black);
    var s4 := ReadText(s3, black);
    ReadOne(s4, '\n');
    ReadJoins(FRESH, "W:", white + ("\nB:" + (black + "\n")));
    ReadJoins(s1, white, "\nB:" + (black + "\n"));
    ReadJoins(s2, "\nB:", black + "\n");
    ReadJoins(s3, black, "\n");
    AllCopied(b);
  }

  lemma {:induction false} Opening(st: Reader, c: char)
    requires st.newLine && !st.skipping && c == 'W'
    ensures ReadText(st, "W:") == BeginLine(st, White)
  {
    assert "W:" == ['W'] + [':'];
    ReadJoins(st, ['W'], [':']);
    ReadOne(st, 'W');
    ReadOne(BeginLine(st, White), ':');
  }

  lemma {:induction false} Closing(st: Reader)
    requires InLine(st, White)
    ensures ReadText(st, "\nB:") == BeginLine(EndLine(st), Black)
  {
    assert "\nB:" == ['\n'] + ['B'] + [':'];
    ReadJoins(st, ['\n'] + ['B'], [':']);
    ReadJoins(st, ['\n'], ['B']);
    ReadOne(st, '\n');
    ReadOne(EndLine(st), 'B');
    ReadOne(BeginLine(EndLine(st), Black), ':');
  }

  lemma {:induction false} AllCopied(b: Board)
    requires IsSetUp(b)
    ensures Copied(Copied(Copied(Copied(EMPTY_BOARD, b, 1, 0), b, 0, 0), b, 6, 0), b, 7, 0) == b
  {
    var b1 := Copied(EMPTY_BOARD, b, 1, 0);
    var b2 := Copied(b1, b, 0, 0);
    var b3 := Copied(b2, b, 6, 0);
    var b4 := Copied(b3, b, 7, 0);
    forall f, r | On(f) && On(r)
      ensures At(b4, f, r) == At(b, f, r)
    {
      CopiedAt(EMPTY_BOARD, b, 1, 0, f, r);
      CopiedAt(b1, b, 0, 0, f, r);
      CopiedAt(b2, b, 6, 0, f, r);
      CopiedAt(b3, b, 7, 0, f, r);
    }
    BoardsEqual(b4, b);
  }

  /** Writes the squares of a rank behind what is written. */
  method WriteRank(b: Board, r: int, onPiece: Option<Piece>, text: string)
      returns (written: string, last: Option<Piece>)
    requires On(r)
    ensures written == text + RankText(b, r, 0, onPiece) && last == Some(At(b, 7, r))
  {
    written, last := text, onPiece;
    var f: nat := 0;
    while f < 8
      invariant f <= 8 && text + RankText(b, r, 0, onPiece) == written + RankText(b, r, f, last)
      invariant f > 0 ==> last == Some(At(b, f - 1, r))
    {
      var q := At(b, f, r);
      ghost var before := written;
      if last != Some(q) {
        written := written + [' ', ManLetter(q)];
      }
      written := written + [' ', FileLetter(f), RankDigit(r)];
      assert written == before + SquareText(b, f, r, last);
      RankFrom(b, r, f, last, before);
      last, f := Some(q), f + 1;
    }
    assert written + "" == written;
  }

  lemma {:induction false} RankFrom(b: Board, r: int, f: nat, last: Option<Piece>, before: string)
    requires On(r) && f < 8
    ensures before + RankText(b, r, f, last)
         == before + SquareText(b, f, r, last) + RankText(b, r, f + 1, Some(At(b, f, r)))
  {
    Joined(before, SquareText(b, f, r, last), RankText(b, r, f + 1, Some(At(b, f, r))));
  }

  lemma {:induction false} Joined(a: string, b: string, c: string)
    ensures a + (b + c) == a + b + c
  {
  }

  /** Writes the two ranks of a colour. */
  method WriteColor(b: Board, r1: int, r2: int, text: string) returns (written: string)
    requires On(r1) && On(r2)
    ensures written == text + ColorText(b, r1, r2)
  {
    var last;
    written, last := WriteRank(b, r1, None, text);
    ghost var first := RankText(b, r1, 0, None);
    written, last := WriteRank(b, r2, last, written);
    Joined(text, first, RankText(b, r2, 0, Some(At(b, 7, r1))));
  }

  lemma {:induction false} Regroup(a: string, b: string, c: string, d: string, e: string)
    ensures a + b + c + d + e == a + (b + (c + (d + e)))
  {
    assert a + b + c + d + e == a + (b + c + d + e);
    assert b + c + d + e == b + (c + (d + e));
  }

  /** Writes a set-up, and what was written reads back as the same board. */
  method WriteWild(b: Board) returns (text: string)
    ensures text == WildText(b)
    ensures IsSetUp(b) ==> ReadText(FRESH, text).board == b
  {
    if IsSetUp(b) {
      WildRoundTrip(b);
    }
    text := WriteColor(b, 1, 0, "W:");
    text := WriteColor(b, 6, 7, text + "\nB:");
    text := text + "\n";
    Regroup("W:", ColorText(b, 1, 0), "\nB:", ColorText(b, 6, 7), "\n");
  }
}
