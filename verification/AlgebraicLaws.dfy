/** What short algebraic texts say, letter by letter. */
module AlgebraicLaws {
  import opened Texts
  import opened Positions
  import opened Legality
  import opened Targets
  import opened Algebraic

  const KINDS: seq<Kind> := [Pawn, Knight, Bishop, Rook, Queen, King]

  /** The letter of a man, upper or lower case. */
  function LetterOf(i: nat, upper: bool): char
    requires i < 6
  {
    if upper then "PNBRQK"[i] else "pnbrqk"[i]
  }

  function FileChar(f: int): char
    requires On(f)
  {
    "abcdefgh"[f]
  }

  function RankChar(r: int): char
    requires On(r)
  {
    "12345678"[r]
  }

  lemma {:induction false} SquareChars(f: int, r: int)
    requires On(f) && On(r)
    ensures Admits('f', FileChar(f)) && FileChar(f) as int - 'a' as int == f
    ensures Admits('r', RankChar(r)) && RankChar(r) as int - '1' as int == r
  {
  }

  /** The letters name the men. */
  lemma {:induction false} LettersNameMen(i: nat, upper: bool)
    requires i < 6
    ensures ManOf(LetterOf(i, upper)) == Some(KINDS[i]) && Admits('p', LetterOf(i, upper))
  {
  }

  lemma {:induction false} Uncut(text: string, mark: char)
    requires forall k :: 0 <= k < |text| ==> text[k] != mark
    ensures Cut(text, mark) == text
  {
    if text != "" {
      Uncut(text[1..], mark);
      assert text == [text[0]] + text[1..];
    }
  }

  /** If just one form from the i-th on fits, that one counts. */
  lemma {:induction false} OneFormCounts(text: string, i: nat, j: nat, so: Info)
    requires i <= |PATTERNS| && HasForm(text, j) && forall k :: i <= k && HasForm(text, k) ==> k == j
    ensures MoveInfoFrom(text, i, so) == if i <= j then Info(FormInfo(text, j).fields, so.Info?) else so
    decreases |PATTERNS| - i
  {
    if i < |PATTERNS| {
      assert HasForm(text, i) <==> i == j;
      OneFormCounts(text, i + 1, j, if i == j then Info(FormInfo(text, j).fields, so.Info?) else so);
    }
  }

  /** A text that has a form, has no mark of check or promotion and is not the pawn or bishop of the b-file
      says what the form says. */
  lemma {:induction false} FormCounts(text: string, j: nat)
    requires HasForm(text, j) && !IsTheB(text) && forall k :: 0 <= k < |text| ==> text[k] != '+' && text[k] != '='
    ensures MoveInfo(text) == Info(FormInfo(text, j).fields, false)
  {
    Uncut(text, '+');
    Uncut(text, '=');
    forall k: nat | HasForm(text, k)
      ensures k == j
    {
      if k < j {
        TwoFormsMeet(text, k, j);
        BothFormsFit(text, k);
      } else if j < k {
        TwoFormsMeet(text, j, k);
        BothFormsFit(text, j);
      }
    }
    OneFormCounts(text, 0, j, NotMove);
  }

  /** One character from the right: it is admitted, and noted. */
  predicate Steps(form: string, text: string, n: nat, so: Reading, next: Reading) {
    0 < n <= |form| == |text| && Admits(form[n - 1], text[n - 1]) && Note(form[n - 1], text[n - 1], so) == next
  }

  lemma {:induction false} StepRead(form: string, text: string, n: nat, so: Reading, next: Reading)
    requires Steps(form, text, n, so, next)
    ensures ReadForm(form, text, n, so) == ReadForm(form, text, n - 1, next)
  {
  }

  /** A text read in the j-th form says what was noted. */
  lemma {:induction false} ReadingCounts(text: string, j: nat, x: Reading)
    requires j < |PATTERNS| && |PATTERNS[j]| == |text| && ReadForm(PATTERNS[j], text, |text|, BLANK) == Fits(x)
    requires Plausible(FieldsOf(x)) && !IsTheB(text)
    requires forall k :: 0 <= k < |text| ==> text[k] != '+' && text[k] != '='
    ensures MoveInfo(text) == Info(FieldsOf(x), false)
  {
    FormCounts(text, j);
  }

  lemma {:induction false} PlainChars(i: nat, upper: bool, f: int, r: int)
    requires i < 6 && On(f) && On(r)
    ensures LetterOf(i, upper) !in "+=x" && FileChar(f) !in "+=x" && RankChar(r) !in "+=x"
    ensures LetterOf(i, upper) == 'b' <==> i == 2 && !upper
  {
  }

  /** A man and a square, as in Nf3, but for a lower-case b. */
  lemma {:induction false} ManTo(i: nat, upper: bool, f: int, r: int)
    requires i < 6 && (i == 2 ==> upper) && On(f) && On(r)
    ensures MoveInfo([LetterOf(i, upper), FileChar(f), RankChar(r)])
            == Info(Fields(KINDS[i], UNKNOWN, UNKNOWN, f, r), false)
  {
    var text, form := [LetterOf(i, upper), FileChar(f), RankChar(r)], "pfr";
    SquareChars(f, r);
    PlainChars(i, upper, f, r);
    LettersNameMen(i, upper);
    var r1 := BLANK.(tr := r);
    StepRead(form, text, 3, BLANK, r1);
    var r2 := r1.(tf := f);
    StepRead(form, text, 2, r1, r2);
    var r3 := r2.(piece := Some(KINDS[i]));
    StepRead(form, text, 1, r2, r3);
    ReadingCounts(text, 3, r3);
  }

  /** With a capture, as in Nxf3. */
  lemma {:induction false} ManTakesOn(i: nat, upper: bool, f: int, r: int)
    requires i < 6 && (i == 2 ==> upper) && On(f) && On(r)
    ensures MoveInfo([LetterOf(i, upper), 'x', FileChar(f), RankChar(r)])
            == Info(Fields(KINDS[i], UNKNOWN, UNKNOWN, f, r), false)
  {
    var text, form := [LetterOf(i, upper), 'x', FileChar(f), RankChar(r)], "pxfr";
    SquareChars(f, r);
    PlainChars(i, upper, f, r);
    LettersNameMen(i, upper);
    var r1 := BLANK.(tr := r);
    StepRead(form, text, 4, BLANK, r1);
    var r2 := r1.(tf := f);
    StepRead(form, text, 3, r1, r2);
    var r3 := r2;
    StepRead(form, text, 2, r2, r3);
    var r4 := r3.(piece := Some(KINDS[i]));
    StepRead(form, text, 1, r3, r4);
    ReadingCounts(text, 1, r4);
  }

  /** The file a man comes from, as in Nbd2. */
  lemma {:induction false} ManFromFile(i: nat, upper: bool, e: int, f: int, r: int)
    requires i < 6 && (i == 0 ==> Abs(e - f) == 1) && On(e) && On(f) && On(r)
    ensures MoveInfo([LetterOf(i, upper), FileChar(e), FileChar(f), RankChar(r)])
            == Info(Fields(KINDS[i], e, UNKNOWN, f, r), false)
  {
    var text, form := [LetterOf(i, upper), FileChar(e), FileChar(f), RankChar(r)], "pffr";
    SquareChars(f, r);
    PlainChars(i, upper, f, r);
    LettersNameMen(i, upper);
    SquareChars(e, r);
    PlainChars(i, upper, e, r);
    var r1 := BLANK.(tr := r);
    StepRead(form, text, 4, BLANK, r1);
    var r2 := r1.(tf := f);
    StepRead(form, text, 3, r1, r2);
    var r3 := r2.(ff := e);
    StepRead(form, text, 2, r2, r3);
    var r4 := r3.(piece := Some(KINDS[i]));
    StepRead(form, text, 1, r3, r4);
    ReadingCounts(text, 4, r4);
  }

  /** And with a capture, as in Nbxd2. */
  lemma {:induction false} ManFromFileTakes(i: nat, upper: bool, e: int, f: int, r: int)
    requires i < 6 && (i == 0 ==> Abs(e - f) == 1) && On(e) && On(f) && On(r)
    ensures MoveInfo([LetterOf(i, upper), FileChar(e), 'x', FileChar(f), RankChar(r)])
            == Info(Fields(KINDS[i], e, UNKNOWN, f, r), false)
  {
    var text, form := [LetterOf(i, upper), FileChar(e), 'x', FileChar(f), RankChar(r)], "pfxfr";
    SquareChars(f, r);
    PlainChars(i, upper, f, r);
    LettersNameMen(i, upper);
    SquareChars(e, r);
    PlainChars(i, upper, e, r);
    var r1 := BLANK.(tr := r);
    StepRead(form, text, 5, BLANK, r1);
    var r2 := r1.(tf := f);
    StepRead(form, text, 4, r1, r2);
    var r3 := r2;
    StepRead(form, text, 3, r2, r3);
    var r4 := r3.(ff := e);
    StepRead(form, text, 2, r3, r4);
    var r5 := r4.(piece := Some(KINDS[i]));
    StepRead(form, text, 1, r4, r5);
    ReadingCounts(text, 5, r5);
  }

  /** The rank it comes from, as in N1d2. */
  lemma {:induction false} ManFromRank(i: nat, upper: bool, q: int, f: int, r: int)
    requires i < 6 && On(q) && On(f) && On(r)
    ensures MoveInfo([LetterOf(i, upper), RankChar(q), FileChar(f), RankChar(r)])
            == Info(Fields(KINDS[i], UNKNOWN, q, f, r), false)
  {
    var text, form := [LetterOf(i, upper), RankChar(q), FileChar(f), RankChar(r)], "prfr";
    SquareChars(f, r);
    PlainChars(i, upper, f, r);
    LettersNameMen(i, upper);
    SquareChars(f, q);
    PlainChars(i, upper, f, q);
    var r1 := BLANK.(tr := r);
    StepRead(form, text, 4, BLANK, r1);
    var r2 := r1.(tf := f);
    StepRead(form, text, 3, r1, r2);
    var r3 := r2.(fr := q);
    StepRead(form, text, 2, r2, r3);
    var r4 := r3.(piece := Some(KINDS[i]));
    StepRead(form, text, 1, r3, r4);
    ReadingCounts(text, 6, r4);
  }

  /** And with a capture, as in N1xd2. */
  lemma {:induction false} ManFromRankTakes(i: nat, upper: bool, q: int, f: int, r: int)
    requires i < 6 && On(q) && On(f) && On(r)
    ensures MoveInfo([LetterOf(i, upper), RankChar(q), 'x', FileChar(f), RankChar(r)])
            == Info(Fields(KINDS[i], UNKNOWN, q, f, r), false)
  {
    var text, form := [LetterOf(i, upper), RankChar(q), 'x', FileChar(f), RankChar(r)], "prxfr";
    SquareChars(f, r);
    PlainChars(i, upper, f, r);
    LettersNameMen(i, upper);
    SquareChars(f, q);
    PlainChars(i, upper, f, q);
    var r1 := BLANK.(tr := r);
    StepRead(form, text, 5, BLANK, r1);
    var r2 := r1.(tf := f);
    StepRead(form, text, 4, r1, r2);
    var r3 := r2;
    StepRead(form, text, 3, r2, r3);
    var r4 := r3.(fr := q);
    StepRead(form, text, 2, r3, r4);
    var r5 := r4.(piece := Some(KINDS[i]));
    StepRead(form, text, 1, r4, r5);
    ReadingCounts(text, 7, r5);
  }

  /** A square is where a pawn goes. */
  lemma {:induction false} PawnTo(f: int, r: int)
    requires On(f) && On(r)
    ensures MoveInfo([FileChar(f), RankChar(r)]) == Info(Fields(Pawn, UNKNOWN, UNKNOWN, f, r), false)
  {
    var text, form := [FileChar(f), RankChar(r)], "fr";
    SquareChars(f, r);
    PlainChars(0, true, f, r);
    var r1 := BLANK.(tr := r);
    StepRead(form, text, 2, BLANK, r1);
    var r2 := r1.(tf := f);
    StepRead(form, text, 1, r1, r2);
    ReadingCounts(text, 8, r2);
  }

  /** The file a pawn comes from, as in exd5, but for the b-file. */
  lemma {:induction false} PawnTakesOn(e: int, f: int, r: int)
    requires On(e) && e != 1 && On(f) && Abs(e - f) == 1 && On(r)
    ensures MoveInfo([FileChar(e), 'x', FileChar(f), RankChar(r)]) == Info(Fields(Pawn, e, UNKNOWN, f, r), false)
  {
    var text, form := [FileChar(e), 'x', FileChar(f), RankChar(r)], "fxfr";
    SquareChars(f, r);
    SquareChars(e, r);
    PlainChars(0, true, f, r);
    PlainChars(0, true, e, r);
    var r1 := BLANK.(tr := r);
    StepRead(form, text, 4, BLANK, r1);
    var r2 := r1.(tf := f);
    StepRead(form, text, 3, r1, r2);
    var r3 := r2;
    StepRead(form, text, 2, r2, r3);
    var r4 := r3.(ff := e);
    StepRead(form, text, 1, r3, r4);
    ReadingCounts(text, 0, r4);
  }

  /** Or without the x. */
  lemma {:induction false} PawnGoesFromFile(e: int, f: int, r: int)
    requires On(e) && e != 1 && On(f) && Abs(e - f) == 1 && On(r)
    ensures MoveInfo([FileChar(e), FileChar(f), RankChar(r)]) == Info(Fields(Pawn, e, UNKNOWN, f, r), false)
  {
    var text, form := [FileChar(e), FileChar(f), RankChar(r)], "ffr";
    SquareChars(f, r);
    SquareChars(e, r);
    PlainChars(0, true, f, r);
    PlainChars(0, true, e, r);
    var r1 := BLANK.(tr := r);
    StepRead(form, text, 3, BLANK, r1);
    var r2 := r1.(tf := f);
    StepRead(form, text, 2, r1, r2);
    var r3 := r2.(ff := e);
    StepRead(form, text, 1, r2, r3);
    ReadingCounts(text, 2, r3);
  }

  /** Two files, as in ed. */
  lemma {:induction false} PawnTakesFile(e: int, f: int)
    requires On(e) && On(f) && Abs(e - f) == 1
    ensures MoveInfo([FileChar(e), FileChar(f)]) == Info(Fields(Pawn, e, UNKNOWN, f, UNKNOWN), false)
  {
    var text, form := [FileChar(e), FileChar(f)], "ff";
    SquareChars(f, 0);
    SquareChars(e, 0);
    PlainChars(0, true, f, 0);
    PlainChars(0, true, e, 0);
    var r1 := BLANK.(tf := f);
    StepRead(form, text, 2, BLANK, r1);
    var r2 := r1.(ff := e);
    StepRead(form, text, 1, r1, r2);
    ReadingCounts(text, 9, r2);
  }

  /** A man dropped, as in N@f3. */
  lemma {:induction false} ManDropped(i: nat, upper: bool, f: int, r: int)
    requires i < 6 && On(f) && On(r)
    ensures MoveInfo([LetterOf(i, upper), '@', FileChar(f), RankChar(r)])
            == Info(Fields(KINDS[i], DROP, DROP, f, r), false)
  {
    var text, form := [LetterOf(i, upper), '@', FileChar(f), RankChar(r)], "p@fr";
    SquareChars(f, r);
    PlainChars(i, upper, f, r);
    LettersNameMen(i, upper);
    var r1 := BLANK.(tr := r);
    StepRead(form, text, 4, BLANK, r1);
    var r2 := r1.(tf := f);
    StepRead(form, text, 3, r1, r2);
    var r3 := r2.(ff := DROP, fr := DROP);
    StepRead(form, text, 2, r2, r3);
    var r4 := r3.(piece := Some(KINDS[i]));
    StepRead(form, text, 1, r3, r4);
    ReadingCounts(text, 11, r4);
  }

  lemma {:induction false} NoFormCounts(text: string, i: nat, so: Info)
    requires i <= |PATTERNS| && forall k :: i <= k ==> !HasForm(text, k)
    ensures MoveInfoFrom(text, i, so) == so
    decreases |PATTERNS| - i
  {
    if i < |PATTERNS| {
      assert !HasForm(text, i);
      NoFormCounts(text, i + 1, so);
    }
  }

  /** The last form that fits says what is meant. */
  lemma {:induction false} LastFormCounts(text: string, i: nat, j: nat, so: Info)
    requires i <= j && HasForm(text, j) && forall k :: j < k ==> !HasForm(text, k)
    ensures var info := MoveInfoFrom(text, i, so); info.Info? && info.fields == FormInfo(text, j).fields
    decreases j - i
  {
    var x := FormInfo(text, i);
    var next := if x.NotMove? then so else Info(x.fields, so.Info?);
    if i < j {
      LastFormCounts(text, i + 1, j, next);
    } else {
      NoFormCounts(text, i + 1, next);
    }
  }

  /** A lower-case b to the a- or c-file is read as a bishop's move, and as confused. */
  lemma {:induction false} TheBConfuses(takes: bool, f: int, r: int)
    requires (f == 0 || f == 2) && On(r)
    ensures MoveInfo(['b'] + (if takes then ['x'] else []) + [FileChar(f), RankChar(r)])
            == Info(Fields(Bishop, UNKNOWN, UNKNOWN, f, r), true)
  {
    var text := ['b'] + (if takes then ['x'] else []) + [FileChar(f), RankChar(r)];
    SquareChars(f, r);
    PlainChars(2, false, f, r);
    LettersNameMen(2, false);
    Uncut(text, '+');
    Uncut(text, '=');
    assert IsTheB(text);
    ConfusionIsTheB(text);
    var j := if takes then 1 else 3;
    BothFormsFit(text, j - 1);
    TheBIsRead(text, j, f, r);
    forall k: nat | j < k
      ensures !HasForm(text, k)
    {
      TwoFormsMeet(text, j, k);
    }
    LastFormCounts(text, 0, j, NotMove);
  }

  lemma {:induction false} TheBIsRead(text: string, j: nat, f: int, r: int)
    requires On(f) && On(r) && (j == 1 || j == 3) && HasForm(text, j)
    requires text == ['b'] + (if j == 1 then ['x'] else []) + [FileChar(f), RankChar(r)]
    ensures FormInfo(text, j).fields == Fields(Bishop, UNKNOWN, UNKNOWN, f, r)
  {
    var form, n := PATTERNS[j], |text|;
    SquareChars(f, r);
    LettersNameMen(2, false);
    var r1 := BLANK.(tr := r);
    StepRead(form, text, n, BLANK, r1);
    var r2 := r1.(tf := f);
    StepRead(form, text, n - 1, r1, r2);
    var r3 := r2.(piece := Some(Bishop));
    if j == 1 {
      StepRead(form, text, 2, r2, r2);
    }
    StepRead(form, text, 1, r2, r3);
  }

  /** The man of the side to move on (x, y) may go to (f, r). */
  ghost predicate MayGo(p: Position, t: Table, k: Kind, x: int, y: int, f: int, r: int) {
    && On(x) && On(y) && On(f) && On(r)
    && At(p.board, x, y) == Man(p.onMove, k) && LegalAndCheck(p, Square(x, y), f, r, t)
  }

  /** The text asks for a man, and the one on (x, y) may be it. */
  ghost predicate Meant(p: Position, t: Table, text: string, x: int, y: int) {
    Asks(MoveInfo(text)) && Candidate(p, t, QueryOf(MoveInfo(text)), x, y)
  }

  /** Nf3 means any knight that may go to f3. */
  lemma {:induction false} ManIsMeant(p: Position, t: Table, i: nat, upper: bool, f: int, r: int, x: int, y: int)
    requires i < 6 && (i == 2 ==> upper) && On(f) && On(r)
    ensures Meant(p, t, [LetterOf(i, upper), FileChar(f), RankChar(r)], x, y) <==> MayGo(p, t, KINDS[i], x, y, f, r)
  {
    ManTo(i, upper, f, r);
  }

  /** Ngf3 means one from the g-file. */
  lemma {:induction false} FileIsMeant(p: Position, t: Table, i: nat, upper: bool, e: int, f: int, r: int, x: int,
      y: int)
    requires i < 6 && (i == 0 ==> Abs(e - f) == 1) && On(e) && On(f) && On(r)
    ensures Meant(p, t, [LetterOf(i, upper), FileChar(e), FileChar(f), RankChar(r)], x, y) <==>
        MayGo(p, t, KINDS[i], x, y, f, r) && x == e
  {
    ManFromFile(i, upper, e, f, r);
  }

  /** N1f3 means one from the first rank. */
  lemma {:induction false} RankIsMeant(p: Position, t: Table, i: nat, upper: bool, e: int, f: int, r: int, x: int,
      y: int)
    requires i < 6 && On(e) && On(f) && On(r)
    ensures Meant(p, t, [LetterOf(i, upper), RankChar(e), FileChar(f), RankChar(r)], x, y) <==>
        MayGo(p, t, KINDS[i], x, y, f, r) && y == e
  {
    ManFromRank(i, upper, e, f, r);
  }

  /** e4 means any pawn that may go to e4. */
  lemma {:induction false} PawnIsMeant(p: Position, t: Table, f: int, r: int, x: int, y: int)
    requires On(f) && On(r)
    ensures Meant(p, t, [FileChar(f), RankChar(r)], x, y) <==> MayGo(p, t, Pawn, x, y, f, r)
  {
    PawnTo(f, r);
  }

  /** exd5 and ed5 mean one from the e-file. */
  lemma {:induction false} TakerIsMeant(p: Position, t: Table, takes: bool, e: int, f: int, r: int, x: int, y: int)
    requires On(e) && e != 1 && On(f) && Abs(e - f) == 1 && On(r)
    ensures Meant(p, t, [FileChar(e)] + (if takes then ['x'] else []) + [FileChar(f), RankChar(r)], x, y) <==>
        MayGo(p, t, Pawn, x, y, f, r) && x == e
  {
    var text := [FileChar(e)] + (if takes then ['x'] else []) + [FileChar(f), RankChar(r)];
    if takes {
      assert text == [FileChar(e), 'x', FileChar(f), RankChar(r)];
      PawnTakesOn(e, f, r);
    } else {
      assert text == [FileChar(e), FileChar(f), RankChar(r)];
      PawnGoesFromFile(e, f, r);
    }
  }

  /** bxc4 and bc4 mean any bishop that may go there, or a pawn of the b-file. */
  lemma {:induction false} TheBIsMeant(p: Position, t: Table, takes: bool, f: int, r: int, x: int, y: int)
    requires (f == 0 || f == 2) && On(r)
    ensures Meant(p, t, ['b'] + (if takes then ['x'] else []) + [FileChar(f), RankChar(r)], x, y) <==>
        MayGo(p, t, Bishop, x, y, f, r) || (MayGo(p, t, Pawn, x, y, f, r) && FileChar(x) == 'b')
  {
    TheBConfuses(takes, f, r);
  }

  lemma {:induction false} TakesAhead(p: Position, t: Table, x: int, y: int, f: int, r: int)
    requires MayGo(p, t, Pawn, x, y, f, r) && x != f
    ensures r == y + p.onMove.Forward()
  {
    PawnSideways(p, x, y, f, r);
  }

  /** ed means any pawn of the e-file that may take on the d-file, on whatever rank. */
  lemma {:induction false} FilesAreMeant(p: Position, t: Table, e: int, f: int, x: int, y: int)
    requires On(e) && On(f) && Abs(e - f) == 1
    ensures Meant(p, t, [FileChar(e), FileChar(f)], x, y) <==> x == e && exists r :: MayGo(p, t, Pawn, x, y, f, r)
  {
    PawnTakesFile(e, f);
    if x == e && exists r :: MayGo(p, t, Pawn, x, y, f, r) {
      var r :| MayGo(p, t, Pawn, x, y, f, r);
      TakesAhead(p, t, x, y, f, r);
    }
    if Meant(p, t, [FileChar(e), FileChar(f)], x, y) {
      assert MayGo(p, t, Pawn, x, y, f, y + p.onMove.Forward());
    }
  }
}
