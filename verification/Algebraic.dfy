/** Short algebraic moves: which move of a position a text like "Nbd2", "exd5" or "bc4" means. */
module Algebraic {
  import opened Texts
  import opened Positions
  import opened Legality
  import opened GameStates
  import opened Moves
  import opened Runs

  const UNKNOWN := -1
  const DROP := -2

  /** What a text says: the man, and as far as it is known where from and where to; DROP
      stands for a man dropped. */
  datatype Fields = Fields(piece: Kind, ff: int, fr: int, tf: int, tr: int)

  datatype Info = NotMove | Info(fields: Fields, confused: bool)

  /** The forms a move can take: f a file, r a rank, p a man, and the other characters themselves. */
  const PATTERNS: seq<string> := [
    "fxfr", "pxfr", "ffr", "pfr", "pffr", "pfxfr", "prfr", "prxfr", "fr", "ff", "fxf", "p@fr", "#fr", "#pfr"]

  datatype Reading = Reading(piece: Option<Kind>, ff: int, fr: int, tf: int, tr: int)

  const BLANK := Reading(None, UNKNOWN, UNKNOWN, UNKNOWN, UNKNOWN)

  function ManOf(c: char): Option<Kind> {
    match c
    case 'k' => Some(King) case 'K' => Some(King)
    case 'q' => Some(Queen) case 'Q' => Some(Queen)
    case 'r' => Some(Rook) case 'R' => Some(Rook)
    case 'b' => Some(Bishop) case 'B' => Some(Bishop)
    case 'n' => Some(Knight) case 'N' => Some(Knight)
    case 'p' => Some(Pawn) case 'P' => Some(Pawn)
    case _ => None
  }

  predicate Admits(form: char, c: char) {
    match form
    case 'f' => 'a' <= c <= 'h'
    case 'r' => '1' <= c <= '8'
    case 'p' => ManOf(c).Some?
    case 'x' => c == 'x' || c == 'X'
    case '@' => c == '@' || c == '*'
    case '#' => c == '#'
    case _ => true
  }

  /** One character more, from the right: the first file and rank met are the target's. */
  function Note(form: char, c: char, so: Reading): Reading
    requires Admits(form, c)
  {
    match form
    case 'f' =>
      var f := c as int - 'a' as int;
      if so.tf == UNKNOWN then so.(tf := f) else so.(ff := f)
    case 'r' =>
      var r := c as int - '1' as int;
      if so.tr == UNKNOWN then so.(tr := r) else so.(fr := r)
    case 'p' => so.(piece := ManOf(c))
    case '@' => so.(ff := DROP, fr := DROP)
    case '#' => so.(ff := DROP, fr := DROP)
    case _ => so
  }

  datatype Match = Fails | Fits(reading: Reading)

  /** The text read against a form, from the n-th character down. */
  function ReadForm(form: string, text: string, n: nat, so: Reading): Match
    requires n <= |form| == |text|
    decreases n, |text|
  {
    if n == 0 then Fits(so)
    else if !Admits(form[n - 1], text[n - 1]) then Fails
    else ReadForm(form, text, n - 1, Note(form[n - 1], text[n - 1], so))
  }

  /** A pawn that comes from another file comes from the next one. */
  predicate Plausible(x: Fields) {
    x.piece == Pawn && x.fr == UNKNOWN && x.ff != UNKNOWN ==> Abs(x.ff - x.tf) == 1
  }

  function FieldsOf(x: Reading): Fields {
    Fields(if x.piece.None? then Pawn else x.piece.value, x.ff, x.fr, x.tf, x.tr)
  }

  /** What the text says if it has the i-th form. */
  function FormInfo(text: string, i: nat): Info
    requires i < |PATTERNS|
  {
    if |PATTERNS[i]| != |text| then NotMove
    else match ReadForm(PATTERNS[i], text, |text|, BLANK)
      case Fails => NotMove
      case Fits(x) => if Plausible(FieldsOf(x)) then Info(FieldsOf(x), false) else NotMove
  }

  /** Going through the forms from the i-th on: the last that fits counts, and a second one confuses. */
  function MoveInfoFrom(text: string, i: nat, so: Info): Info
    requires i <= |PATTERNS|
    decreases |PATTERNS| - i, |text|
  {
    if i == |PATTERNS| then so
    else
      var x := FormInfo(text, i);
      MoveInfoFrom(text, i + 1, if x.NotMove? then so else Info(x.fields, so.Info?))
  }

  /** Cuts a text off at the first check or promotion mark. */
  function Cut(text: string, mark: char): string {
    if text == "" || text[0] == mark then "" else [text[0]] + Cut(text[1..], mark)
  }

  function MoveInfo(text: string): Info { MoveInfoFrom(Cut(Cut(text, '+'), '='), 0, NotMove) }

  method CutAt(text: string, mark: char) returns (cut: string)
    ensures cut == Cut(text, mark)
  {
    var i := 0;
    while i < |text| && text[i] != mark
      invariant i <= |text| && Cut(text, mark) == text[..i] + Cut(text[i..], mark)
    {
      assert text[..i + 1] == text[..i] + [text[i]] && text[i..][1..] == text[i + 1..];
      i := i + 1;
    }
    cut := text[..i];
    assert cut + "" == cut;
  }

  /** Reads a text against a form, character by character from the right. */
  method MatchForm(form: string, text: string) returns (m: Match)
    requires |form| == |text|
    ensures m == ReadForm(form, text, |text|, BLANK)
  {
    var j: nat, so := |text|, BLANK;
    while j > 0
      invariant j <= |text| && ReadForm(form, text, |text|, BLANK) == ReadForm(form, text, j, so)
    {
      j := j - 1;
      if !Admits(form[j], text[j]) {
        return Fails;
      }
      so := Note(form[j], text[j], so);
    }
    m := Fits(so);
  }

  /** Tries all forms; the last that fits counts, and a second one confuses. */
  method GetMoveInfo(text: string) returns (info: Info)
    ensures info == MoveInfo(text)
  {
    var tmp := CutAt(text, '+');
    tmp := CutAt(tmp, '=');
    info := NotMove;
    var i := 0;
    while i < |PATTERNS|
      invariant i <= |PATTERNS| && MoveInfoFrom(tmp, 0, NotMove) == MoveInfoFrom(tmp, i, info)
    {
      if |PATTERNS[i]| == |tmp| {
        var m := MatchForm(PATTERNS[i], tmp);
        if m.Fits? && Plausible(FieldsOf(m.reading)) {
          info := Info(FieldsOf(m.reading), info.Info?);
        }
      }
      i := i + 1;
    }
  }

  predicate InReach(x: int) { x == UNKNOWN || On(x) }

  /** As far as they are known, the squares are squares; without a rank to go to there is
      none to come from, and nothing is dropped. */
  predicate Sensible(x: Reading) {
    && InReach(x.tf) && InReach(x.tr) && (InReach(x.ff) || x.ff == DROP) && (InReach(x.fr) || x.fr == DROP)
    && (x.tr == UNKNOWN ==> x.fr == UNKNOWN && x.ff != DROP)
  }

  /** Forms that drop a man end in a rank. */
  predicate DropsOnRank(form: string) {
    form != "" && (form[|form| - 1] == 'r' || forall k :: 0 <= k < |form| ==> form[k] != '@' && form[k] != '#')
  }

  lemma {:induction false} FormsDropOnRank(i: nat)
    requires i < |PATTERNS|
    ensures DropsOnRank(PATTERNS[i])
  {
  }

  lemma {:induction false} ReadFormSensible(form: string, text: string, n: nat, so: Reading)
    requires n <= |form| == |text| && DropsOnRank(form) && Sensible(so)
    requires n < |form| && form[|form| - 1] == 'r' ==> so.tr != UNKNOWN
    ensures var m := ReadForm(form, text, n, so); m.Fits? ==> Sensible(m.reading)
    decreases n
  {
    if n > 0 && Admits(form[n - 1], text[n - 1]) {
      NoteSensible(form[n - 1], text[n - 1], so);
      ReadFormSensible(form, text, n - 1, Note(form[n - 1], text[n - 1], so));
    }
  }

  lemma {:induction false} NoteSensible(form: char, c: char, so: Reading)
    requires Admits(form, c) && Sensible(so) && (form == '@' || form == '#' ==> so.tr != UNKNOWN)
    ensures Sensible(Note(form, c, so)) && (form == 'r' || so.tr != UNKNOWN ==> Note(form, c, so).tr != UNKNOWN)
  {
  }

  /** What a text says makes sense. */
  predicate SensibleInfo(info: Info) {
    info.Info? ==>
      var x := info.fields;
      Sensible(Reading(Some(x.piece), x.ff, x.fr, x.tf, x.tr)) && Plausible(x)
  }

  lemma {:induction false} MoveInfoSensible(text: string, i: nat, so: Info)
    requires i <= |PATTERNS| && SensibleInfo(so)
    ensures SensibleInfo(MoveInfoFrom(text, i, so))
    decreases |PATTERNS| - i
  {
    if i < |PATTERNS| {
      var x := FormInfo(text, i);
      FormInfoSensible(text, i);
      MoveInfoSensible(text, i + 1, if x.NotMove? then so else Info(x.fields, so.Info?));
    }
  }

  lemma {:induction false} FormInfoSensible(text: string, i: nat)
    requires i < |PATTERNS|
    ensures SensibleInfo(FormInfo(text, i))
  {
    FormsDropOnRank(i);
    if |PATTERNS[i]| == |text| {
      ReadFormSensible(PATTERNS[i], text, |text|, BLANK);
    }
  }

  lemma {:induction false} MoveInfoInRange(text: string)
    ensures SensibleInfo(MoveInfo(text))
  {
    MoveInfoSensible(Cut(Cut(text, '+'), '='), 0, NotMove);
  }

  /** Every character of the text is one the form admits there. */
  ghost predicate Conforms(form: string, text: string) {
    |form| == |text| && forall k :: 0 <= k < |text| ==> Admits(form[k], text[k])
  }

  lemma {:induction false} ReadFormIff(form: string, text: string, n: nat, so: Reading)
    requires n <= |form| == |text|
    ensures ReadForm(form, text, n, so).Fits? <==> forall k :: 0 <= k < n ==> Admits(form[k], text[k])
    decreases n
  {
    if n > 0 && Admits(form[n - 1], text[n - 1]) {
      ReadFormIff(form, text, n - 1, Note(form[n - 1], text[n - 1], so));
    }
  }

  lemma {:induction false} FormInfoConforms(text: string, i: nat)
    requires i < |PATTERNS|
    ensures FormInfo(text, i).Info? ==> Conforms(PATTERNS[i], text)
  {
    if |PATTERNS[i]| == |text| {
      ReadFormIff(PATTERNS[i], text, |text|, BLANK);
    }
  }

  /** Two forms that could be told apart by no character are a pawn's from a file and a man's. */
  lemma {:induction false} FormsApart(i: nat, j: nat)
    requires i < j < |PATTERNS| && |PATTERNS[i]| == |PATTERNS[j]| && (i, j) != (0, 1) && (i, j) != (2, 3)
    ensures exists k :: 0 <= k < |PATTERNS[i]| && NoCommon(PATTERNS[i][k], PATTERNS[j][k])
  {
    var a, b := PATTERNS[i], PATTERNS[j];
    assert NoCommon(a[0], b[0]) || NoCommon(a[1], b[1]) || (|a| > 2 && NoCommon(a[2], b[2])) by {
      FormsApartSoon(i, j);
    }
  }

  /** No character is admitted by both. */
  ghost predicate NoCommon(a: char, b: char) { forall c :: !(Admits(a, c) && Admits(b, c)) }

  lemma {:induction false} FormsApartSoon(i: nat, j: nat)
    requires i < j < |PATTERNS| && |PATTERNS[i]| == |PATTERNS[j]| && (i, j) != (0, 1) && (i, j) != (2, 3)
    ensures var a, b := PATTERNS[i], PATTERNS[j];
      |a| >= 2 && (NoCommon(a[0], b[0]) || NoCommon(a[1], b[1]) || (|a| > 2 && NoCommon(a[2], b[2])))
  {
  }

  predicate HasForm(text: string, i: nat) { i < |PATTERNS| && FormInfo(text, i).Info? }

  ghost predicate SomeForm(text: string, i: nat) { exists j :: i <= j && HasForm(text, j) }

  ghost predicate TwoForms(text: string, i: nat) { exists j, k :: i <= j < k && HasForm(text, j) && HasForm(text, k) }

  lemma {:induction false} FormsFrom(text: string, i: nat)
    ensures SomeForm(text, i) <==> HasForm(text, i) || SomeForm(text, i + 1)
    ensures TwoForms(text, i) <==> (HasForm(text, i) && SomeForm(text, i + 1)) || TwoForms(text, i + 1)
  {
    if SomeForm(text, i) {
      var j :| i <= j && HasForm(text, j);
      assert j == i || i + 1 <= j;
    }
    if TwoForms(text, i) {
      var j, k :| i <= j < k && HasForm(text, j) && HasForm(text, k);
      assert i + 1 <= k && (j == i || i + 1 <= j);
    }
  }

  /** What the forms make of a text: confused if two fit. */
  lemma {:induction false} FoldConfused(text: string, i: nat, so: Info)
    requires i <= |PATTERNS|
    ensures var r := MoveInfoFrom(text, i, so);
      && (r.Info? <==> so.Info? || SomeForm(text, i))
      && (r.Info? && r.confused <==>
            if SomeForm(text, i) then so.Info? || TwoForms(text, i) else so.Info? && so.confused)
    decreases |PATTERNS| - i
  {
    FormsFrom(text, i);
    if i < |PATTERNS| {
      var x := FormInfo(text, i);
      FoldConfused(text, i + 1, if x.NotMove? then so else Info(x.fields, so.Info?));
    }
  }

  lemma {:induction false} FormsDisjoint(text: string, i: nat, j: nat)
    requires i < j < |PATTERNS| && (i, j) != (0, 1) && (i, j) != (2, 3)
    ensures !(Conforms(PATTERNS[i], text) && Conforms(PATTERNS[j], text))
  {
    if |PATTERNS[i]| == |PATTERNS[j]| == |text| {
      FormsApart(i, j);
      var k :| 0 <= k < |text| && NoCommon(PATTERNS[i][k], PATTERNS[j][k]);
      assert !(Admits(PATTERNS[i][k], text[k]) && Admits(PATTERNS[j][k], text[k]));
    }
  }

  /** The two forms are a pawn's from a file and a man's, with or without an x. */
  lemma {:induction false} TwoFormsMeet(text: string, i: nat, j: nat)
    requires i < j
    ensures HasForm(text, i) && HasForm(text, j) ==> (i, j) == (0, 1) || (i, j) == (2, 3)
  {
    if j < |PATTERNS| && (i, j) != (0, 1) && (i, j) != (2, 3) {
      FormsDisjoint(text, i, j);
      FormInfoConforms(text, i);
      FormInfoConforms(text, j);
    }
  }

  /** A lower-case b, to a neighbouring file: the bishop, or the pawn of that file. */
  predicate IsTheB(text: string) {
    && (|text| == 3 || (|text| == 4 && Admits('x', text[1])))
    && text[0] == 'b' && (text[|text| - 2] == 'a' || text[|text| - 2] == 'c') && Admits('r', text[|text| - 1])
  }

  function FileOf(c: char): int { c as int - 'a' as int }

  function RankIn(c: char): int { c as int - '1' as int }

  lemma {:induction false} PawnFromFile(text: string)
    requires (|text| == 4 && Conforms("fxfr", text)) || (|text| == 3 && Conforms("ffr", text))
    ensures var n := |text|; var i := if n == 4 then 0 else 2;
      HasForm(text, i) <==> Abs(FileOf(text[0]) - FileOf(text[n - 2])) == 1
  {
    var n := |text|;
    var form := if n == 4 then "fxfr" else "ffr";
    var r1 := BLANK.(tr := RankIn(text[n - 1]));
    var r2 := r1.(tf := FileOf(text[n - 2]));
    var r3 := r2.(ff := FileOf(text[0]));
    assert ReadForm(form, text, n, BLANK) == ReadForm(form, text, n - 1, r1);
    assert ReadForm(form, text, n - 1, r1) == ReadForm(form, text, n - 2, r2);
    assert ReadForm(form, text, n - 2, r2) == ReadForm(form, text, 1, r2);
    assert ReadForm(form, text, 1, r2) == ReadForm(form, text, 0, r3) == Fits(r3);
  }

  lemma {:induction false} ManToSquare(text: string)
    requires (|text| == 4 && Conforms("pxfr", text)) || (|text| == 3 && Conforms("pfr", text))
    ensures HasForm(text, if |text| == 4 then 1 else 3)
  {
    var n := |text|;
    var form := if n == 4 then "pxfr" else "pfr";
    var r1 := BLANK.(tr := RankIn(text[n - 1]));
    var r2 := r1.(tf := FileOf(text[n - 2]));
    var r3 := r2.(piece := ManOf(text[0]));
    assert ReadForm(form, text, n, BLANK) == ReadForm(form, text, n - 1, r1);
    assert ReadForm(form, text, n - 1, r1) == ReadForm(form, text, n - 2, r2);
    assert ReadForm(form, text, n - 2, r2) == ReadForm(form, text, 1, r2);
    assert ReadForm(form, text, 1, r2) == ReadForm(form, text, 0, r3) == Fits(r3);
  }

  lemma {:induction false} BothFormsFit(text: string, i: nat)
    requires i == 0 || i == 2
    ensures HasForm(text, i) && HasForm(text, i + 1) <==> IsTheB(text) && |text| == (if i == 0 then 4 else 3)
  {
    FormInfoConforms(text, i);
    FormInfoConforms(text, i + 1);
    if HasForm(text, i) && HasForm(text, i + 1) {
      BothConform(text, i);
      PawnFromFile(text);
    } else if IsTheB(text) && |text| == (if i == 0 then 4 else 3) {
      TheBConforms(text, i);
      PawnFromFile(text);
      ManToSquare(text);
    }
  }

  lemma {:induction false} BothConform(text: string, i: nat)
    requires (i == 0 || i == 2) && Conforms(PATTERNS[i], text) && Conforms(PATTERNS[i + 1], text)
    ensures var n := |text|; n == (if i == 0 then 4 else 3) && text[0] == 'b' && Admits('r', text[n - 1])
    ensures |text| == 4 ==> Admits('x', text[1]) && Conforms("fxfr", text)
    ensures |text| == 3 ==> Conforms("ffr", text)
  {
    var n := |text|;
    assert Admits(PATTERNS[i][0], text[0]) && Admits(PATTERNS[i + 1][0], text[0]);
    assert Admits(PATTERNS[i][1], text[1]) && Admits(PATTERNS[i][n - 1], text[n - 1]);
  }

  lemma {:induction false} TheBConforms(text: string, i: nat)
    requires (i == 0 || i == 2) && IsTheB(text) && |text| == (if i == 0 then 4 else 3)
    ensures |text| == 4 ==> Conforms("fxfr", text) && Conforms("pxfr", text)
    ensures |text| == 3 ==> Conforms("ffr", text) && Conforms("pfr", text)
  {
  }

  /** A text confuses exactly if it is a lower-case b to the a- or c-file. */
  lemma {:induction false} ConfusionIsTheB(text: string)
    ensures MoveInfo(text).Info? && MoveInfo(text).confused <==> IsTheB(Cut(Cut(text, '+'), '='))
  {
    var s := Cut(Cut(text, '+'), '=');
    FoldConfused(s, 0, NotMove);
    BothFormsFit(s, 0);
    BothFormsFit(s, 2);
    if TwoForms(s, 0) {
      var j, k :| 0 <= j < k && HasForm(s, j) && HasForm(s, k);
      TwoFormsMeet(s, j, k);
      assert SomeForm(s, 0);
    }
    if IsTheB(s) {
      assert (HasForm(s, 0) && HasForm(s, 1)) || (HasForm(s, 2) && HasForm(s, 3));
      assert SomeForm(s, 0) && TwoForms(s, 0);
    }
  }

  /** What is looked for among the men of the side to move. */
  datatype Query =
    | ByMan(kind: Kind, file: int, rank: int, tf: int, tr: int)
    | BishopOrPawn(tf: int, tr: int)
    | PawnTakes(file: int, tf: int)

  predicate Posed(q: Query) {
    match q
    case ByMan(_, _, _, tf, tr) => On(tf) && On(tr)
    case BishopOrPawn(tf, tr) => On(tf) && On(tr)
    case PawnTakes(file, tf) => On(tf) && Abs(file - tf) == 1
  }

  /** The rank the man goes to. */
  function Towards(q: Query, p: Position, r: int): int {
    match q
    case ByMan(_, _, _, _, tr) => tr
    case BishopOrPawn(_, tr) => tr
    case PawnTakes(_, _) => r + p.onMove.Forward()
  }

  /** The man on the square may be the one meant. */
  predicate Suits(q: Query, b: Board, f: int, r: int)
    requires On(f) && On(r) && At(b, f, r).Man?
  {
    var kind := At(b, f, r).kind;
    match q
    case ByMan(k, file, rank, _, _) => kind == k && (file == UNKNOWN || file == f) && (rank == UNKNOWN || rank == r)
    case BishopOrPawn(_, _) => kind == Bishop || (kind == Pawn && f == 1)
    case PawnTakes(file, _) => kind == Pawn && f == file
  }

  /** A man that suits and may go there. */
  ghost predicate Candidate(p: Position, t: Table, q: Query, f: int, r: int) {
    && Posed(q) && On(f) && On(r) && Own(p.board, p.onMove, f, r) && Suits(q, p.board, f, r)
    && On(Towards(q, p, r)) && LegalAndCheck(p, Square(f, r), q.tf, Towards(q, p, r), t)
  }

  /** A square, or none. */
  datatype Found = Nobody | Someone(file: int, rank: int)

  /** Of the squares before the n-th that pass, the only one, or that there is none. */
  ghost predicate Tally(passes: (int, int) -> bool, n: int, found: Found) {
    && (found.Someone? ==> passes(found.file, found.rank) && 8 * found.file + found.rank < n)
    && forall f, r :: 0 <= f < 8 && 0 <= r < 8 && 8 * f + r < n && passes(f, r) ==> found == Someone(f, r)
  }

  /** Is the man on the square a candidate? A pawn that takes needs something to take. */
  method IsCandidate(gs: GameState, t: Table, q: Query, f: int, r: int) returns (ok: bool)
    requires gs.Valid() && Posed(q) && On(f) && On(r) && Own(gs.board[..], gs.onMove, f, r) && NoEdgePawns(gs.board[..])
    ensures ok == Candidate(gs.Snapshot(), t, q, f, r)
  {
    var kind, tr := gs.board[8 * f + r].kind, 0;
    match q {
      case ByMan(k, file, rank, _, _) =>
        if (file != UNKNOWN && file != f) || (rank != UNKNOWN && rank != r) || kind != k {
          return false;
        }
        tr := q.tr;
      case BishopOrPawn(_, _) =>
        if kind != Pawn && kind != Bishop {
          return false;
        }
        tr := q.tr;
      case PawnTakes(file, tf) =>
        if file != f || kind != Pawn {
          return false;
        }
        assert IsPawn(At(gs.board[..], f, r));
        tr := r + gs.onMove.Forward();
        NothingToTake(gs.Snapshot(), t, f, r, tf, tr);
        var victim := gs.board[8 * tf + tr];
        if victim == Empty {
          if gs.ep[8 * gs.onMove.Row() + f] != tf - f {
            return false;
          }
        } else if victim.color == gs.onMove {
          return false;
        }
    }
    ok := IsLegalAndCheckMove(gs, Square(f, r), q.tf, tr, t);
    if q.BishopOrPawn? && kind == Pawn && f != 1 {
      ok := false;
    }
  }

  /** A pawn changes file only onto an enemy or where its flag points. */
  lemma {:induction false} NothingToTake(p: Position, t: Table, f: int, r: int, tf: int, tr: int)
    requires On(f) && On(r) && On(tf) && On(tr) && At(p.board, f, r) == Man(p.onMove, Pawn) && Abs(f - tf) == 1
    ensures At(p.board, tf, tr) == Empty && EpAt(p.ep, p.onMove, f) != tf - f
            ==> !LegalAndCheck(p, Square(f, r), tf, tr, t)
    ensures Own(p.board, p.onMove, tf, tr) ==> !LegalAndCheck(p, Square(f, r), tf, tr, t)
  {
  }

  lemma {:induction false} TallyOn(passes: (int, int) -> bool, b: Board, c: Color, n: int, m: int, found: Found)
    requires n <= m && Tally(passes, n, found) && NoneBetween(b, c, n, m)
    requires forall f, r :: passes(f, r) ==> On(f) && On(r) && Own(b, c, f, r)
    ensures Tally(passes, m, found)
  {
  }

  lemma {:induction false} TallyAt(passes: (int, int) -> bool, f: int, r: int, found: Found)
    requires On(f) && On(r) && Tally(passes, 8 * f + r, found) && (passes(f, r) ==> found == Nobody)
    ensures Tally(passes, 8 * f + r + 1, if passes(f, r) then Someone(f, r) else found)
  {
    forall x, y | 0 <= x < 8 && 0 <= y < 8 && 8 * x + y < 8 * f + r + 1 && passes(x, y)
      ensures (if passes(f, r) then Someone(f, r) else found) == Someone(x, y)
    {
      if 8 * x + y == 8 * f + r {
        assert x == f && y == r;
      }
    }
  }

  ghost function Passing(p: Position, t: Table, q: Query): (int, int) -> bool {
    (f, r) => Candidate(p, t, q, f, r)
  }

  /** Two different men could be meant. */
  ghost predicate Several(p: Position, t: Table, q: Query) {
    exists f, r, x, y :: Candidate(p, t, q, f, r) && Candidate(p, t, q, x, y) && (f, r) != (x, y)
  }

  lemma {:induction false} PassingOwn(p: Position, t: Table, q: Query)
    ensures forall f, r :: Passing(p, t, q)(f, r) ==> On(f) && On(r) && Own(p.board, p.onMove, f, r)
  {
  }

  lemma {:induction false} TwoPass(p: Position, t: Table, q: Query, f: int, r: int, x: int, y: int)
    requires Passing(p, t, q)(f, r) && Passing(p, t, q)(x, y) && (f, r) != (x, y)
    ensures Several(p, t, q)
  {
  }

  /** Looks at one more man. */
  method Consider(gs: GameState, t: Table, q: Query, f: int, r: int, found: Found)
      returns (several: bool, newFound: Found)
    requires gs.Valid() && Posed(q) && NoEdgePawns(gs.board[..])
    requires On(f) && On(r) && Own(gs.board[..], gs.onMove, f, r)
    requires Tally(Passing(gs.Snapshot(), t, q), 8 * f + r, found)
    ensures several ==> Several(gs.Snapshot(), t, q)
    ensures !several ==> Tally(Passing(gs.Snapshot(), t, q), 8 * f + r + 1, newFound)
  {
    ghost var passes := Passing(gs.Snapshot(), t, q);
    newFound := found;
    var ok := IsCandidate(gs, t, q, f, r);
    assert ok == passes(f, r);
    if ok && found.Someone? {
      TwoPass(gs.Snapshot(), t, q, f, r, found.file, found.rank);
      return true, found;
    }
    TallyAt(passes, f, r, found);
    several := false;
    if ok {
      newFound := Someone(f, r);
    }
  }

  /** Looks through the men of the side to move. */
  method FindCandidate(gs: GameState, t: Table, q: Query) returns (several: bool, found: Found)
    requires gs.Valid() && Posed(q) && NoEdgePawns(gs.board[..])
    ensures several ==> Several(gs.Snapshot(), t, q)
    ensures !several ==> Tally(Passing(gs.Snapshot(), t, q), 64, found)
  {
    ghost var p := gs.Snapshot();
    ghost var passes := Passing(p, t, q);
    PassingOwn(p, t, q);
    found := Nobody;
    var more, f, r := NextPiece(gs.board[..], 0, -1, gs.onMove);
    TallyOn(passes, p.board, p.onMove, 0, if more then 8 * f + r else 64, found);
    while more
      invariant more ==> On(f) && On(r) && Own(p.board, p.onMove, f, r)
      invariant Tally(passes, if more then 8 * f + r else 64, found)
      decreases more, 8 - f, 8 - r
    {
      several, found := Consider(gs, t, q, f, r, found);
      if several {
        return;
      }
      ghost var n := 8 * f + r + 1;
      more, f, r := NextPiece(gs.board[..], f, r, gs.onMove);
      TallyOn(passes, p.board, p.onMove, n, if more then 8 * f + r else 64, found);
    }
    several := false;
  }

  /** The query a text poses, if it needs one. */
  function QueryOf(info: Info): (q: Query)
    requires info.Info?
  {
    var x := info.fields;
    if x.tr == UNKNOWN then PawnTakes(x.ff, x.tf)
    else if info.confused then BishopOrPawn(x.tf, x.tr)
    else ByMan(x.piece, x.ff, x.fr, x.tf, x.tr)
  }

  /** The text leaves the man to be found. */
  predicate Asks(info: Info) {
    && info.Info? && info.fields.tf != UNKNOWN
    && if info.fields.tr == UNKNOWN then info.fields.piece == Pawn && info.fields.ff != UNKNOWN
       else info.confused || info.fields.ff == UNKNOWN || info.fields.fr == UNKNOWN
  }

  /** Which move a text means in a position. */
  method ParseMove(gs: GameState, t: Table, text: string) returns (outcome: Outcome, from: Origin, tf: int, tr: int)
    requires gs.Valid() && NoEdgePawns(gs.board[..])
    ensures var info := MoveInfo(text); var p := gs.Snapshot();
      && (info.NotMove? ==> outcome == Illegal)
      && (Asks(info) ==> Answer(p, t, QueryOf(info), outcome, from, tf, tr))
      && (info.Info? && !Asks(info) && info.fields.ff == DROP && info.fields.tf != UNKNOWN
          && info.fields.tr != UNKNOWN ==>
            var drop := Drop(info.fields.piece);
            && InRange(drop, info.fields.tf, info.fields.tr)
            && outcome == (if LegalAndCheck(p, drop, info.fields.tf, info.fields.tr, t) then Ok else Illegal)
            && (outcome == Ok ==> (from, tf, tr) == (drop, info.fields.tf, info.fields.tr)))
      && (outcome == Ok ==> InRange(from, tf, tr) && LegalAndCheck(p, from, tf, tr, t))
  {
    var info := GetMoveInfo(text);
    outcome, from, tf, tr := Illegal, Drop(Pawn), 0, 0;
    if info.NotMove? {
      return;
    }
    MoveInfoInRange(text);
    var x := info.fields;
    if x.tf == UNKNOWN {
      return Ambiguous, from, tf, tr;
    }
    if x.tr == UNKNOWN && (x.piece != Pawn || x.ff == UNKNOWN) {
      return Ambiguous, from, tf, tr;
    }
    if Asks(info) {
      outcome, from, tf, tr := Resolve(gs, t, QueryOf(info));
    } else if x.ff == DROP {
      var ok := IsLegalAndCheckMove(gs, Drop(x.piece), x.tf, x.tr, t);
      if ok {
        outcome, from, tf, tr := Ok, Drop(x.piece), x.tf, x.tr;
      }
    }
  }

  /** The answer to a query: the move if just one man can be meant, ambiguous if several can,
      illegal if none can. */
  ghost predicate Answer(p: Position, t: Table, q: Query, outcome: Outcome, from: Origin, tf: int, tr: int) {
    match outcome
    case Ok =>
      && from.Square? && Candidate(p, t, q, from.file, from.rank) && tf == q.tf && tr == Towards(q, p, from.rank)
      && forall f, r :: Candidate(p, t, q, f, r) ==> f == from.file && r == from.rank
    case Ambiguous => Several(p, t, q)
    case Illegal => forall f, r :: !Candidate(p, t, q, f, r)
    case _ => false
  }

  lemma {:induction false} TallyEnds(p: Position, t: Table, q: Query, found: Found)
    requires Tally(Passing(p, t, q), 64, found)
    ensures found.Someone? ==> Candidate(p, t, q, found.file, found.rank)
    ensures forall f, r :: Candidate(p, t, q, f, r) ==> found == Someone(f, r)
  {
    forall f, r | Candidate(p, t, q, f, r)
      ensures found == Someone(f, r)
    {
      assert Passing(p, t, q)(f, r);
    }
  }

  method Resolve(gs: GameState, t: Table, q: Query) returns (outcome: Outcome, from: Origin, tf: int, tr: int)
    requires gs.Valid() && Posed(q) && NoEdgePawns(gs.board[..])
    ensures Answer(gs.Snapshot(), t, q, outcome, from, tf, tr)
    ensures outcome == Ok ==> InRange(from, tf, tr) && LegalAndCheck(gs.Snapshot(), from, tf, tr, t)
  {
    outcome, from, tf, tr := Illegal, Drop(Pawn), 0, 0;
    var several, found := FindCandidate(gs, t, q);
    if several {
      return Ambiguous, from, tf, tr;
    }
    TallyEnds(gs.Snapshot(), t, q, found);
    if found.Someone? {
      outcome, from, tf, tr := Ok, Square(found.file, found.rank), q.tf, Towards(q, gs.Snapshot(), found.rank);
    }
  }
}
