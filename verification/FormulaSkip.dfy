/** Skipping a part of a formula reads it exactly as evaluating it does: what is wrong,
    and where reading stops, depend on the text alone. */
module FormulaSkip {
  import opened Texts
  import opened Formula

  predicate SameShape(a: Result, b: Result) {
    if a.Bad? then b == a else b.Good? && a.i == b.i
  }

  /** The clause is the same, and the clauses below it are readable or not alike. */
  ghost predicate Akin(u: World, a: Sheet, v: World, b: Sheet, clause: nat) {
    && clause < 10 && a[clause] == b[clause]
    && forall c: nat, e, f :: c < clause ==>
         Check(u, a, c, 0, TYPE_NONE, e).Good? == Check(v, b, c, 0, TYPE_NONE, f).Good?
  }

  lemma {:induction false} SameReading(u: World, a: Sheet, v: World, b: Sheet, clause: nat, c: nat, e: bool, f: bool)
    requires Akin(u, a, v, b, clause) && c < clause
    ensures Check(u, a, c, 0, TYPE_NONE, e).Good? == Check(v, b, c, 0, TYPE_NONE, f).Good?
  {
  }

  lemma {:induction false} CheckShape(u: World, a: Sheet, v: World, b: Sheet, clause: nat, i: nat, level: nat, e: bool,
      f: bool)
    requires Akin(u, a, v, b, clause) && level >= TYPE_NONE && (a[clause].Some? ==> i <= |a[clause].value|)
    ensures SameShape(Check(u, a, clause, i, level, e), Check(v, b, clause, i, level, f))
    decreases clause, if a[clause].Some? then |a[clause].value| - i else 0, 4
  {
    if a[clause].Some? {
      var first, first' := Operand(u, a, clause, i, level, e), Operand(v, b, clause, i, level, f);
      OperandShape(u, a, v, b, clause, i, level, e, f);
      if first.Good? {
        ContinueShape(u, a, v, b, clause, first.i, level, e, f, first.v, first'.v);
      }
    }
  }

  lemma {:induction false} ContinueShape(u: World, a: Sheet, v: World, b: Sheet, clause: nat, i: nat, level: nat,
      e: bool, f: bool, t: int, t': int)
    requires Akin(u, a, v, b, clause) && level >= TYPE_NONE && a[clause].Some? && i <= |a[clause].value|
    ensures SameShape(Continue(u, a, clause, i, level, e, t), Continue(v, b, clause, i, level, f, t'))
    decreases clause, |a[clause].value| - i, 3
  {
    var (op, j) := ScanForOp(a[clause].value, i);
    if OpType(op) > level && op != OpRtParen {
      var next := if e then Binary(u, a, clause, j, op, t) else Check(u, a, clause, j, OpType(op), false);
      var next' := if f then Binary(v, b, clause, j, op, t') else Check(v, b, clause, j, OpType(op), false);
      RightShape(u, a, v, b, clause, j, op, e, f, t, t');
      if next.Good? {
        ContinueShape(u, a, v, b, clause, next.i, level, e, f, next.v, next'.v);
      }
    }
  }

  /** However the right operand is treated, it is read the same way. */
  lemma {:induction false} RightShape(u: World, a: Sheet, v: World, b: Sheet, clause: nat, i: nat, op: Op, e: bool,
      f: bool, t: int, t': int)
    requires Akin(u, a, v, b, clause) && OpType(op) > TYPE_NONE && a[clause].Some? && i <= |a[clause].value|
    ensures SameShape(if e then Binary(u, a, clause, i, op, t) else Check(u, a, clause, i, OpType(op), false),
                      if f then Binary(v, b, clause, i, op, t') else Check(v, b, clause, i, OpType(op), false))
    decreases clause, |a[clause].value| - i, 5
  {
    CheckShape(u, a, v, b, clause, i, OpType(op), false, false);
    CheckShape(u, a, v, b, clause, i, OpType(op), true, false);
    CheckShape(u, a, v, b, clause, i, OpType(op), false, true);
    CheckShape(u, a, v, b, clause, i, OpType(op), true, true);
  }

  lemma {:induction false} OperandShape(u: World, a: Sheet, v: World, b: Sheet, clause: nat, i: nat, level: nat,
      e: bool, f: bool)
    requires Akin(u, a, v, b, clause) && level >= TYPE_NONE && a[clause].Some? && i <= |a[clause].value|
    ensures SameShape(Operand(u, a, clause, i, level, e), Operand(v, b, clause, i, level, f))
    decreases clause, |a[clause].value| - i, 2
  {
    var s := a[clause].value;
    var j := SkipSpaces(s, i);
    if j < |s| {
      if s[j] == '(' {
        ParensShape(u, a, v, b, clause, j, e, f);
      } else if (s[j] == '-' || s[j] == '!') && !(j + 1 < |s| && s[j + 1] == s[j]) {
        OperandShape(u, a, v, b, clause, j + 1, TYPE_UNARY, e, f);
      } else if IsAlpha(s[j]) {
        VariableShape(u, a, v, b, clause, j, e, f);
      }
    }
  }

  lemma {:induction false} ParensShape(u: World, a: Sheet, v: World, b: Sheet, clause: nat, i: nat, e: bool, f: bool)
    requires Akin(u, a, v, b, clause) && a[clause].Some? && i <= |a[clause].value|
    ensures SameShape(Parens(u, a, clause, i, e), Parens(v, b, clause, i, f))
    decreases clause, |a[clause].value| - i, 0
  {
    var s := a[clause].value;
    var j := SkipSpaces(s, i);
    if j < |s| && s[j] == '(' {
      CheckShape(u, a, v, b, clause, j + 1, TYPE_PAREN, e, f);
    }
  }

  lemma {:induction false} VariableShape(u: World, a: Sheet, v: World, b: Sheet, clause: nat, i: nat, e: bool, f: bool)
    requires Akin(u, a, v, b, clause) && a[clause].Some? && i <= |a[clause].value|
    ensures SameShape(Variable(u, a, clause, i, e), Variable(v, b, clause, i, f))
    decreases clause, |a[clause].value| - i, 1
  {
    var s := a[clause].value;
    var (n, j) := FindName(s, i, 0);
    if n != NO_NAME {
      if n == MY_MAX_TIME || n == MAX_TIME {
        ParensShape(u, a, v, b, clause, j, e, f);
      }
    } else if ClauseAt(s, i, clause) {
      SameReading(u, a, v, b, clause, s[i + 1] as int - '1' as int, e, f);
    }
  }

  /** The right operand without any short cut. */
  function BinaryInFull(w: World, sheet: Sheet, clause: nat, i: nat, op: Op, left: int): Result
    requires clause < 10 && OpType(op) > TYPE_NONE && sheet[clause].Some? && i <= |sheet[clause].value|
  {
    var right := Check(w, sheet, clause, i, OpType(op), true);
    if right.Bad? then right else Good(right.i, Apply(w, op, left, right.v))
  }

  /** The clauses up to and including this one are the same. */
  predicate SameClauses(a: Sheet, b: Sheet, clause: nat) {
    clause < 10 && forall c :: 0 <= c <= clause ==> a[c] == b[c]
  }

  /** The same clauses are read alike, whatever the offer and whether evaluated or skipped. */
  lemma {:induction false} SameClausesAkin(u: World, a: Sheet, v: World, b: Sheet, clause: nat)
    requires SameClauses(a, b, clause)
    ensures Akin(u, a, v, b, clause)
    decreases clause
  {
    forall c: nat, e, f | c < clause
      ensures Check(u, a, c, 0, TYPE_NONE, e).Good? == Check(v, b, c, 0, TYPE_NONE, f).Good?
    {
      SameClausesAkin(u, a, v, b, c);
      CheckShape(u, a, v, b, c, 0, TYPE_NONE, e, f);
    }
  }

  /** Reading never depends on the offer or on evaluating: not the error, not the place. */
  lemma {:induction false} ReadingIsSyntactic(u: World, a: Sheet, v: World, b: Sheet, clause: nat, i: nat, level: nat,
      e: bool, f: bool)
    requires SameClauses(a, b, clause) && level >= TYPE_NONE && (a[clause].Some? ==> i <= |a[clause].value|)
    ensures SameShape(Check(u, a, clause, i, level, e), Check(v, b, clause, i, level, f))
  {
    SameClausesAkin(u, a, v, b, clause);
    CheckShape(u, a, v, b, clause, i, level, e, f);
  }

  /** Skipping the right side of `and` and `or` when the left decides changes nothing. */
  lemma {:induction false} ShortCutIsFaithful(w: World, sheet: Sheet, clause: nat, i: nat, op: Op, left: int)
    requires clause < 10 && OpType(op) > TYPE_NONE && sheet[clause].Some? && i <= |sheet[clause].value|
    ensures Binary(w, sheet, clause, i, op, left) == BinaryInFull(w, sheet, clause, i, op, left)
  {
    ReadingIsSyntactic(w, sheet, w, sheet, clause, i, OpType(op), false, true);
  }

  /** The clause can be read without error. */
  ghost predicate Readable(sheet: Sheet, clause: nat)
    requires clause < 10
  {
    forall w, e :: Check(w, sheet, clause, 0, TYPE_NONE, e).Good?
  }

  ghost predicate AllReadable(sheet: Sheet) { forall c: nat :: c < 10 ==> Readable(sheet, c) }

  /** One reading without error, evaluated or not, shows that a clause is readable. */
  lemma {:induction false} OneReadingIsEnough(w: World, sheet: Sheet, clause: nat, e: bool)
    requires clause < 10
    ensures Check(w, sheet, clause, 0, TYPE_NONE, e).Good? <==> Readable(sheet, clause)
  {
    forall v, f
      ensures Check(w, sheet, clause, 0, TYPE_NONE, e).Good? == Check(v, sheet, clause, 0, TYPE_NONE, f).Good?
    {
      ReadingIsSyntactic(w, sheet, v, sheet, clause, 0, TYPE_NONE, e, f);
    }
  }

  /** Replacing a clause by a readable one leaves every other readable. */
  lemma {:induction false} ReplacedStaysReadable(a: Sheet, b: Sheet, clause: nat, d: nat)
    requires AllReadable(a) && clause < 10 && d < 10 && b == a[clause := b[clause]] && Readable(b, clause)
    ensures Readable(b, d)
    decreases d
  {
    if d != clause {
      forall w, e
        ensures Check(w, b, d, 0, TYPE_NONE, e).Good?
      {
        forall c: nat, g, f | c < d
          ensures Check(w, a, c, 0, TYPE_NONE, g).Good? == Check(w, b, c, 0, TYPE_NONE, f).Good?
        {
          ReplacedStaysReadable(a, b, clause, c);
          assert Readable(a, c);
        }
        CheckShape(w, a, w, b, d, 0, TYPE_NONE, e, e);
        assert Readable(a, d);
      }
    }
  }
}
