/** Writing a position into a buffer and reading it back onto the board, in place. */
module FenMethods {
  import opened Texts
  import opened Positions
  import opened GameStates
  import opened Fen

  /** The ranks from r down, each with a slash behind it. */
  function Slashed(b: Board, r: int): string
    requires -1 <= r < 8
    decreases r + 1, |b|
  {
    if r < 0 then "" else RankText(b, r) + ("/" + Slashed(b, r - 1))
  }

  lemma {:induction false} SlashedIsPlacement(b: Board, r: int)
    requires On(r)
    ensures Slashed(b, r) == Placement(b, r) + "/"
    decreases r
  {
    if r > 0 {
      SlashedIsPlacement(b, r - 1);
      assert RankText(b, r) + ("/" + (Placement(b, r - 1) + "/")) == RankText(b, r) + ("/" + Placement(b, r - 1)) + "/";
    } else {
      assert Slashed(b, -1) == "" && "/" + "" == "/";
    }
  }

  /** The buffer begins with the text. */
  predicate Begins(buf: array<char>, t: string)
    reads buf
  {
    |t| <= buf.Length && buf[..|t|] == t
  }

  method Append(buf: array<char>, n: nat, c: char, ghost t: string) returns (next: nat)
    requires n == |t| < buf.Length && Begins(buf, t)
    modifies buf
    ensures next == n + 1 && Begins(buf, t + [c])
  {
    buf[n] := c;
    next := n + 1;
  }

  /** Writes a rank behind what is in the buffer. */
  method WriteRank(gs: GameState, r: int, buf: array<char>, start: nat, ghost t: string) returns (n: nat)
    requires gs.Valid() && On(r) && start == |t| && Begins(buf, t) && start + 8 <= buf.Length
    modifies buf
    ensures n == start + |RankText(gs.board[..], r)| && Begins(buf, t + RankText(gs.board[..], r))
  {
    ghost var row := RankOf(gs.board[..], r);
    ghost var text, done := RankText(gs.board[..], r), "";
    assert t + done == t;
    var count: nat, f: nat := 0, 0;
    n := start;
    while f < 8
      invariant count <= f <= 8 && (f == 8 ==> count == 0) && n == |t + done| && Begins(buf, t + done)
      invariant text == done + RankFrom(row, f, count) && |done| <= f - count
    {
      var q := gs.board[8 * f + r];
      assert q == row[f];
      if q.Man? {
        if count > 0 {
          n := Append(buf, n, Digit(count), t + done);
          StepText(t, done, Digit(count), [Letter(q)] + RankFrom(row, f + 1, 0));
          done := done + [Digit(count)];
          count := 0;
        }
        n := Append(buf, n, Letter(q), t + done);
        StepText(t, done, Letter(q), RankFrom(row, f + 1, 0));
        done := done + [Letter(q)];
      } else if f == 7 {
        n := Append(buf, n, Digit(count + 1), t + done);
        StepText(t, done, Digit(count + 1), "");
        done := done + [Digit(count + 1)];
        count := 0;
      } else {
        count := count + 1;
      }
      f := f + 1;
    }
    assert text == done;
  }

  lemma {:induction false} StepText(t: string, done: string, c: char, rest: string)
    ensures t + done + [c] == t + (done + [c]) && done + ([c] + rest) == done + [c] + rest
  {
  }

  lemma {:induction false} SlashedFrom(b: Board, r: int, done: string)
    requires On(r)
    ensures done + Slashed(b, r) == done + RankText(b, r) + ['/'] + Slashed(b, r - 1)
  {
    var row, rest := RankText(b, r), Slashed(b, r - 1);
    assert row + ("/" + rest) == row + ['/'] + rest;
    assert done + (row + ['/'] + rest) == done + row + ['/'] + rest;
  }

  /** Writes the ranks, the last slash becomes a space, then the side to move and a zero. */
  method BoardToFen(gs: GameState, buf: array<char>)
    requires gs.Valid() && buf.Length == CAPACITY
    modifies buf
    ensures var t := FenText(gs.board[..], gs.onMove); Begins(buf, t + [0 as char])
  {
    ghost var b, done := gs.board[..], "";
    var n: nat, r := 0, 7;
    while r >= 0
      invariant -1 <= r < 8 && n == |done| <= 9 * (7 - r) && Begins(buf, done)
      invariant Slashed(b, 7) == done + Slashed(b, r)
    {
      ghost var row := RankText(b, r);
      n := WriteRank(gs, r, buf, n, done);
      n := Append(buf, n, '/', done + row);
      SlashedFrom(b, r, done);
      done := done + row + ['/'];
      r := r - 1;
    }
    SlashedIsPlacement(b, 7);
    assert done + "" == done;
    Conclude(buf, n, Placement(b, 7), gs.onMove);
  }

  /** The slash behind the last rank becomes a space, and the side to move follows. */
  method Conclude(buf: array<char>, end: nat, ghost t: string, c: Color)
    requires end == |t| + 1 && end + 2 <= buf.Length && Begins(buf, t + "/")
    modifies buf
    ensures Begins(buf, t + [' ', Active(c)] + [0 as char])
  {
    buf[end - 1] := ' ';
    assert buf[..end] == t + [' '];
    var n := Append(buf, end, Active(c), t + [' ']);
    assert t + [' '] + [Active(c)] == t + [' ', Active(c)];
    n := Append(buf, n, 0 as char, t + [' ', Active(c)]);
  }

  /** Reads a rank from pos on. */
  method ReadRankInto(gs: GameState, s: string, start: nat, r: int) returns (pos: nat)
    requires gs.Valid() && On(r)
    modifies gs.board
    ensures var (next, row) := ReadRank(s, start, 0, RankOf(old(gs.board[..]), r));
      pos == next && gs.board[..] == SetRank(old(gs.board[..]), r, row)
  {
    ghost var b: Board := gs.board[..];
    ghost var row := RankOf(b, r);
    SetSameRank(b, r);
    pos := start;
    var f: nat := 0;
    while f < 8 && pos + 1 < |s|
      invariant f <= 8 && start <= pos && gs.board[..] == SetRank(b, r, row)
      invariant ReadRank(s, start, 0, RankOf(b, r)) == ReadRank(s, pos, f, row)
      decreases |s| - pos
    {
      var next := s[pos];
      if IsAlpha(next) {
        SetOneMore(b, r, row, f, CharToPiece(next));
        gs.board[8 * f + r] := CharToPiece(next);
        row, f := row[f := CharToPiece(next)], f + 1;
      } else if next != '/' {
        ghost var was := row;
        row := Blank(row, f, Emptied(next, f));
        f := EmptySquares(gs, r, f, next, b, was);
      }
      pos := pos + 1;
    }
  }

  lemma {:induction false} SetSameRank(b: Board, r: int)
    requires On(r)
    ensures SetRank(b, r, RankOf(b, r)) == b
  {
    var same := SetRank(b, r, RankOf(b, r));
    forall i | 0 <= i < 64
      ensures same[i] == b[i]
    {
      if i % 8 == r {
        assert RankOf(b, r)[i / 8] == At(b, i / 8, r);
      }
    }
  }

  lemma {:induction false} SetOneMore(b: Board, r: int, row: Rank, f: nat, q: Piece)
    requires On(r) && f < 8
    ensures SetRank(b, r, row[f := q]) == SetRank(b, r, row)[8 * f + r := q]
  {
    assert (8 * f + r) % 8 == r && (8 * f + r) / 8 == f;
    var a, c := SetRank(b, r, row[f := q]), SetRank(b, r, row)[8 * f + r := q];
    forall i | 0 <= i < 64
      ensures a[i] == c[i]
    {
      if i % 8 == r && i / 8 == f {
        assert i == 8 * f + r;
      }
    }
  }

  /** Empties squares one by one, the first in any case. */
  method EmptySquares(gs: GameState, r: int, start: nat, c: char, ghost b: Board, ghost row: Rank) returns (f: nat)
    requires gs.Valid() && On(r) && start < 8 && gs.board[..] == SetRank(b, r, row)
    modifies gs.board
    ensures f == start + Emptied(c, start) && gs.board[..] == SetRank(b, r, Blank(row, start, f - start))
  {
    var t := c as int - '0' as int;
    f := start;
    gs.board[8 * f + r] := Empty;
    SetOneMore(b, r, row, f, Empty);
    assert row[start := Empty] == Blank(row, start, 1);
    f, t := f + 1, t - 1;
    while t != 0 && f < 8
      invariant start < f <= 8 && t == c as int - '0' as int - (f - start)
      invariant c as int - '0' as int > 0 ==> t >= 0
      invariant gs.board[..] == SetRank(b, r, Blank(row, start, f - start))
      decreases 8 - f
    {
      gs.board[8 * f + r] := Empty;
      SetOneMore(b, r, Blank(row, start, f - start), f, Empty);
      assert Blank(row, start, f - start)[f := Empty] == Blank(row, start, f + 1 - start);
      f, t := f + 1, t - 1;
    }
  }

  /** Puts a text's board and side to move in place. */
  method FenToBoard(s: string, gs: GameState)
    requires gs.Valid()
    modifies gs, gs.board
    ensures (gs.board[..], gs.onMove) == Read(s, old(gs.board[..]), old(gs.onMove))
    ensures gs.Snapshot() == old(gs.Snapshot()).(board := gs.board[..], onMove := gs.onMove)
    ensures forall b: Board, c: Color :: s == FenText(b, c) ==> gs.board[..] == b && gs.onMove == c
  {
    ghost var b: Board, c := gs.board[..], gs.onMove;
    forall a: Board, d: Color | s == FenText(a, d)
      ensures Read(s, b, c) == (a, d)
    {
      FenRoundTrip(a, d, b, c);
    }
    var pos: nat, r := 0, 7;
    while r >= 0
      invariant -1 <= r < 8 && ReadRanks(s, 0, 7, b) == ReadRanks(s, pos, r, gs.board[..])
      modifies gs.board
    {
      pos := ReadRankInto(gs, s, pos, r);
      r := r - 1;
    }
    if pos + 1 < |s| {
      gs.onMove := if s[pos + 1] == 'w' then White else Black;
    }
  }
}
