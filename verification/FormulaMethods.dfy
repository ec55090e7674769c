/** The formula evaluator step by step, as its callers run it. */
module FormulaMethods {
  import opened Texts
  import opened Formula
  import opened FormulaSkip
  import opened FormulaSyntax
  import opened FormulaErrors

  method SkipWhite(s: string, start: nat) returns (i: nat)
    requires start <= |s|
    ensures i == SkipSpaces(s, start)
  {
    i := start;
    while i < |s| && IsSpace(s[i])
      invariant start <= i <= |s| && SkipSpaces(s, start) == SkipSpaces(s, i)
    {
      i := i + 1;
    }
  }

  /** Moves past the text if what follows spells it, in any case, and stays put if not. */
  method MoveIndexPastString(s: string, i: nat, text: string) returns (found: bool, j: nat)
    requires i <= |s|
    ensures found <==> i + |text| <= |s| && Spells(s[i..i + |text|], text)
    ensures i <= j <= |s| && (if found then j == i + |text| else j == i)
    ensures found == StandsAt(s, i, text)
  {
    if i + |text| > |s| {
      return false, i;
    }
    var k := 0;
    while k < |text|
      invariant k <= |text| && StandsFrom(s, i, text, 0) == StandsFrom(s, i, text, k)
      invariant forall n :: 0 <= n < k ==> Lower(s[i..i + |text|][n]) == Lower(text[n])
    {
      if Lower(s[i + k]) != Lower(text[k]) {
        assert Lower(s[i..i + |text|][k]) != Lower(text[k]);
        return false, i;
      }
      k := k + 1;
    }
    return true, i + |text|;
  }

  method ScanForOperator(s: string, start: nat) returns (op: Op, i: nat)
    requires start <= |s|
    ensures (op, i) == ScanForOp(s, start)
  {
    i := SkipWhite(s, start);
    if i == |s| || s[i] == '#' {
      return OpNone, i;
    }
    if s[i] == ')' {
      return OpRtParen, i;
    }
    var k := 0;
    while k < |SPELLINGS|
      invariant k <= |SPELLINGS| && i < |s| && FindSpelling(s, i, 0) == FindSpelling(s, i, k)
    {
      var found, j := MoveIndexPastString(s, i, SPELLINGS[k].0);
      if found {
        return SPELLINGS[k].1, j;
      }
      k := k + 1;
    }
    op := OpBad;
  }

  method ScanDigits(s: string, start: nat) returns (i: nat, token: int)
    requires start <= |s|
    ensures (i, token) == ReadNumber(s, start)
  {
    i, token := start, 0;
    while i < |s| && IsDigit(s[i])
      invariant start <= i <= |s| && ReadDigits(s, start, 0) == ReadDigits(s, i, token)
    {
      token := 10 * token + (s[i] as int - '0' as int);
      i := i + 1;
    }
    i := SkipWhite(s, i);
    var found;
    found, i := MoveIndexPastString(s, i, "minutes");
    if found {
      token := 60 * token;
    }
  }

  method CheckFormula(w: World, sheet: Sheet, clause: nat, start: nat, level: nat, eval: bool) returns (r: Result)
    requires clause < 10 && level >= TYPE_NONE && (sheet[clause].Some? ==> start <= |sheet[clause].value|)
    ensures r == Check(w, sheet, clause, start, level, eval)
    decreases clause, if sheet[clause].Some? then |sheet[clause].value| - start else 0, 4
  {
    if sheet[clause].None? {
      return Good(start, 1);
    }
    var s := sheet[clause].value;
    r := ScanForNumber(w, sheet, clause, start, level, eval);
    if r.Bad? {
      return;
    }
    var i, token, lastPos := r.i, r.v, r.i;
    var nextOp;
    nextOp, i := ScanForOperator(s, i);
    while OpType(nextOp) > level
      invariant start <= lastPos <= i <= |s| && (nextOp, i) == ScanForOp(s, lastPos)
      invariant Check(w, sheet, clause, start, level, eval) == Continue(w, sheet, clause, lastPos, level, eval, token)
      decreases |s| - i, OpType(nextOp)
    {
      if nextOp == OpRtParen {
        return Bad(Paren);
      }
      if eval {
        r := EvalBinaryOp(w, sheet, clause, i, nextOp, token);
      } else {
        r := CheckFormula(w, sheet, clause, i, OpType(nextOp), false);
      }
      if r.Bad? {
        return;
      }
      i, token, lastPos := r.i, r.v, r.i;
      nextOp, i := ScanForOperator(s, i);
    }
    if nextOp == OpBad {
      return Bad(BadOp);
    }
    if nextOp != OpNone && nextOp != OpRtParen {
      i := lastPos;
    }
    r := Good(i, token);
  }

  method EvalBinaryOp(w: World, sheet: Sheet, clause: nat, i: nat, op: Op, left: int) returns (r: Result)
    requires clause < 10 && OpType(op) > TYPE_NONE && sheet[clause].Some? && i <= |sheet[clause].value|
    ensures r == Binary(w, sheet, clause, i, op, left)
    decreases clause, |sheet[clause].value| - i, 5
  {
    if op == Or && left != 0 {
      r := CheckFormula(w, sheet, clause, i, OpType(op), false);
      if r.Good? {
        r := Good(r.i, 1);
      }
    } else if op == And && left == 0 {
      r := CheckFormula(w, sheet, clause, i, OpType(op), false);
      if r.Good? {
        r := Good(r.i, left);
      }
    } else {
      r := CheckFormula(w, sheet, clause, i, OpType(op), true);
      if r.Good? {
        r := Good(r.i, Apply(w, op, left, r.v));
      }
    }
  }

  method ScanForNumber(w: World, sheet: Sheet, clause: nat, start: nat, level: nat, eval: bool) returns (r: Result)
    requires clause < 10 && level >= TYPE_NONE && sheet[clause].Some? && start <= |sheet[clause].value|
    ensures r == Operand(w, sheet, clause, start, level, eval)
    decreases clause, |sheet[clause].value| - start, 2
  {
    var s := sheet[clause].value;
    var i := SkipWhite(s, start);
    if i == |s| || s[i] == '#' {
      return if level != TYPE_NONE then Bad(Eof) else Good(i, 1);
    }
    var c := s[i];
    if c == ')' {
      return if level != TYPE_PAREN then Bad(Paren) else Good(i, 1);
    }
    if c == '(' {
      r := GetNumberInsideParens(w, sheet, clause, i, eval);
    } else if c == '-' || c == '!' {
      i := i + 1;
      if i < |s| && s[i] == c {
        return Bad(Unary);
      }
      r := ScanForNumber(w, sheet, clause, i, TYPE_UNARY, eval);
      if r.Good? {
        r := Good(r.i, if c == '-' then -r.v else Truth(r.v == 0));
      }
    } else if IsDigit(c) {
      var token;
      i, token := ScanDigits(s, i);
      r := Good(i, token);
    } else if IsAlpha(c) {
      r := VarToToken(w, sheet, clause, i, eval);
    } else {
      r := Bad(Nonsense);
    }
  }

  method GetNumberInsideParens(w: World, sheet: Sheet, clause: nat, start: nat, eval: bool) returns (r: Result)
    requires clause < 10 && sheet[clause].Some? && start <= |sheet[clause].value|
    ensures r == Parens(w, sheet, clause, start, eval)
    decreases clause, |sheet[clause].value| - start, 0
  {
    var s := sheet[clause].value;
    var i := SkipWhite(s, start);
    if i == |s| || s[i] != '(' {
      return Bad(BadChar);
    }
    r := CheckFormula(w, sheet, clause, i + 1, TYPE_PAREN, eval);
    if r.Good? {
      r := if r.i < |s| && s[r.i] == ')' then Good(r.i + 1, r.v) else Bad(Paren);
    }
  }

  method VarToToken(w: World, sheet: Sheet, clause: nat, i: nat, eval: bool) returns (r: Result)
    requires clause < 10 && sheet[clause].Some? && i <= |sheet[clause].value|
    ensures r == Variable(w, sheet, clause, i, eval)
    decreases clause, |sheet[clause].value| - i, 1
  {
    var s := sheet[clause].value;
    var n, j, found := 0, i, false;
    while n < NO_NAME && !found
      invariant n <= NO_NAME && i <= j <= |s|
      invariant FindName(s, i, 0) == if found then (n, j) else FindName(s, i, n)
      invariant found ==> n < NO_NAME
      invariant !found ==> j == i
      decreases NO_NAME - n, !found
    {
      found, j := MoveIndexPastString(s, i, NAMES[n]);
      if !found {
        n := n + 1;
      }
    }
    if found {
      if n == MY_MAX_TIME || n == MAX_TIME {
        r := GetNumberInsideParens(w, sheet, clause, j, eval);
        r := if r.Bad? then Bad(BadVar) else Good(r.i, MaxTime(w, r.v, if n == MY_MAX_TIME then 1 else 2));
      } else {
        r := Good(j, ValueOf(w, n));
      }
    } else if ClauseAt(s, i, clause) {
      r := CheckFormula(w, sheet, s[i + 1] as int - '1' as int, 0, TYPE_NONE, eval);
      r := if r.Bad? then Bad(BadVar) else Good(i + 2, r.v);
    } else {
      r := Bad(BadVar);
    }
  }

  /** The text a player sets, without the white space before it; nothing left means none. */
  function Trimmed(text: Option<string>): Option<string> {
    if text.None? then None
    else
      var t := text.value[SkipSpaces(text.value, 0)..];
      if t == "" then None else Some(t)
  }

  /** The blanks before the first other character go, and nothing else. */
  lemma {:induction false} TrimmedExactly(text: string)
    ensures Trimmed(None) == None
    ensures match Trimmed(Some(text))
      case None => forall k :: 0 <= k < |text| ==> IsSpace(text[k])
      case Some(t) =>
        t != "" && !IsSpace(t[0]) && |t| <= |text| && text[|text| - |t|..] == t
        && forall k :: 0 <= k < |text| - |t| ==> IsSpace(text[k])
  {
    SkippedAreSpaces(text, 0);
  }

  lemma {:induction false} SkippedAreSpaces(s: string, i: nat)
    requires i <= |s|
    ensures forall k :: i <= k < SkipSpaces(s, i) ==> IsSpace(s[k])
    decreases |s| - i
  {
    if i < |s| && IsSpace(s[i]) {
      SkippedAreSpaces(s, i + 1);
    }
  }

  /** A clause that writes a tree is readable exactly when the tree is acceptable. */
  lemma {:induction false} AcceptedIfAcceptable(w: World, sheet: Sheet, clause: nat)
    requires clause < 10
    ensures forall es: Entries :: ProperEntries(es) && Writes(es, sheet) ==>
      (Readable(sheet, clause) <==> EntryAcceptable(es, clause))
  {
    forall es: Entries | ProperEntries(es) && Writes(es, sheet)
      ensures Readable(sheet, clause) <==> EntryAcceptable(es, clause)
    {
      ClauseExact(w, es, sheet, clause);
    }
  }

  /** A player's formula and helper clauses. */
  class Player {
    var sheet: Sheet

    constructor ()
      ensures sheet == seq(10, _ => None) && AllReadable(sheet)
    {
      sheet := seq(10, _ => None);
    }

    /** Sets a clause if it can be read, and keeps the old one if not. */
    method SetValidFormula(w: World, clause: nat, text: Option<string>) returns (ok: bool)
      requires clause < 10
      modifies this
      ensures ok <==> Readable(old(sheet)[clause := Trimmed(text)], clause)
      ensures sheet == if ok then old(sheet)[clause := Trimmed(text)] else old(sheet)
      ensures old(AllReadable(sheet)) ==> AllReadable(sheet)
      ensures forall es: Entries :: ProperEntries(es) && Writes(es, old(sheet)[clause := Trimmed(text)]) ==>
        (ok <==> EntryAcceptable(es, clause))
    {
      AcceptedIfAcceptable(w, sheet[clause := Trimmed(text)], clause);
      var former := sheet[clause];
      ghost var before := sheet;
      sheet := sheet[clause := Trimmed(text)];
      OneReadingIsEnough(w, sheet, clause, false);
      if AllReadable(before) && Readable(sheet, clause) {
        forall d: nat | d < 10 ensures Readable(sheet, d) { ReplacedStaysReadable(before, sheet, clause, d); }
      }
      if sheet[clause].None? {
        return true;
      }
      var r := CheckFormula(w, sheet, clause, 0, TYPE_NONE, false);
      ok := r.Good?;
      if !ok {
        sheet := sheet[clause := former];
        assert sheet == before;
      }
    }

    /** Whether an offer suits the player: the formula's value, or 0 if it cannot be read. */
    method GameMatchesFormula(w: World) returns (value: int)
      ensures AllReadable(sheet) ==> Check(w, sheet, FORMULA, 0, TYPE_NONE, true).Good?
      ensures var r := Check(w, sheet, FORMULA, 0, TYPE_NONE, true); value == if r.Good? then r.v else 0
      ensures forall es: Entries :: ProperEntries(es) && Writes(es, sheet) ==>
        value == if EntryAcceptable(es, FORMULA) then Value(w, es, FORMULA) else 0
    {
      assert AllReadable(sheet) ==> Readable(sheet, FORMULA);
      var r := CheckFormula(w, sheet, FORMULA, 0, TYPE_NONE, true);
      value := if r.Bad? then 0 else r.v;
      forall es: Entries | ProperEntries(es) && Writes(es, sheet)
        ensures value == if EntryAcceptable(es, FORMULA) then Value(w, es, FORMULA) else 0
      {
        ClauseExact(w, es, sheet, FORMULA);
      }
    }
  }
}
