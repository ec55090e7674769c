/** Reading a formula gives the value its tree means. */
module FormulaCorrect {
  import opened Texts
  import opened Formula
  import opened FormulaSkip
  import opened FormulaSyntax
  import opened FormulaLexing
  import opened FormulaPlaces

  /** No operator follows. */
  predicate Stops(s: string, i: nat) { i >= |s| || s[i] == '#' || s[i] == ')' }

  /** Two outcomes that differ at most in white space passed over before an operator. */
  predicate Alike(s: string, a: Result, b: Result) {
    if a.Bad? then a == b
    else
      && b.Good? && a.v == b.v && a.i <= |s| && b.i <= |s|
      && SkipSpaces(s, a.i) == SkipSpaces(s, b.i)
      && (Stops(s, SkipSpaces(s, a.i)) ==> a.i == b.i)
  }

  /** White space before an operator makes no difference to going on. */
  lemma {:induction false} ContinueShift(w: World, sheet: Sheet, clause: nat, i: nat, j: nat, level: nat, token: int)
    requires clause < 10 && level >= TYPE_NONE && sheet[clause].Some? && i <= |sheet[clause].value|
    requires j <= |sheet[clause].value|
    requires SkipSpaces(sheet[clause].value, i) == SkipSpaces(sheet[clause].value, j)
    ensures Alike(sheet[clause].value, Continue(w, sheet, clause, i, level, true, token),
            Continue(w, sheet, clause, j, level, true, token))
  {
    var s := sheet[clause].value;
    SameOperator(s, i, j);
    var (op, k) := ScanForOp(s, i);
    if OpType(op) > level {
      assert Continue(w, sheet, clause, i, level, true, token) == Continue(w, sheet, clause, j, level, true, token);
    } else {
      ContinueEnds(w, sheet, clause, i, level, token);
      ContinueEnds(w, sheet, clause, j, level, token);
    }
  }

  lemma {:induction false} SameOperator(s: string, i: nat, j: nat)
    requires i <= |s| && j <= |s| && SkipSpaces(s, i) == SkipSpaces(s, j)
    ensures ScanForOp(s, i) == ScanForOp(s, j)
  {
  }

  /** Where an operator is a stop, and where a stop is an operator. */
  lemma {:induction false} StopOrOperator(s: string, p: nat)
    requires p <= |s|
    ensures Stops(s, SkipSpaces(s, p)) <==> ScanForOp(s, p).0 in {OpNone, OpRtParen}
    ensures Stops(s, SkipSpaces(s, p)) ==> ScanForOp(s, p).1 == SkipSpaces(s, p)
    ensures SkipSpaces(s, p) < |s| && s[SkipSpaces(s, p)] == ')' ==> ScanForOp(s, p).0 == OpRtParen
  {
  }

  /** How going on comes to an end. */
  lemma {:induction false} ContinueEnds(w: World, sheet: Sheet, clause: nat, i: nat, level: nat, token: int)
    requires clause < 10 && level >= TYPE_NONE && sheet[clause].Some? && i <= |sheet[clause].value|
    requires OpType(ScanForOp(sheet[clause].value, i).0) <= level
    ensures var s := sheet[clause].value;
            Continue(w, sheet, clause, i, level, true, token)
              == if ScanForOp(s, i).0 == OpBad then Bad(BadOp)
                  else Good(if Stops(s, SkipSpaces(s, i)) then SkipSpaces(s, i) else i, token)
  {
    StopOrOperator(sheet[clause].value, i);
  }

  /** An operand is read: its value is found, and reading stops behind it, up to space. */
  predicate OperandDone(s: string, r: Result, p: nat, v: int) {
    r.Good? && r.v == v && p <= r.i <= |s| && SkipSpaces(s, r.i) == SkipSpaces(s, p)
  }

  /** The clause's text is s. */
  predicate HasText(sheet: Sheet, clause: nat, s: string) { clause < 10 && sheet[clause] == Some(s) }

  /** Whatever operator comes before, the operand at i is read up to p, with value v. */
  ghost predicate Reaches(w: World, sheet: Sheet, clause: nat, s: string, i: nat, p: nat, v: int)
    requires HasText(sheet, clause, s) && i <= |s|
  {
    forall level: nat :: level >= TYPE_NONE ==> OperandDone(s, Operand(w, sheet, clause, i, level, true), p, v)
  }

  /** Below level m, reading an expression from i amounts to going on from p with value v. */
  ghost predicate Climbs(w: World, sheet: Sheet, clause: nat, s: string, i: nat, p: nat, m: nat, v: int)
    requires HasText(sheet, clause, s) && i <= |s| && p <= |s|
  {
    forall level: nat :: TYPE_NONE <= level < m ==>
      Alike(s, Check(w, sheet, clause, i, level, true), Continue(w, sheet, clause, p, level, true, v))
  }

  lemma {:induction false} NumberReaches(w: World, sheet: Sheet, clause: nat, s: string, i: nat, j: nat, p: nat, v: int)
    requires HasText(sheet, clause, s) && NumberAt(s, i, j, p, v)
    ensures Reaches(w, sheet, clause, s, i, p, v)
  {
    forall level: nat | level >= TYPE_NONE
      ensures OperandDone(s, Operand(w, sheet, clause, i, level, true), p, v)
    {
      assert Operand(w, sheet, clause, i, level, true) == Good(ReadNumber(s, j).0, v);
    }
  }

  lemma {:induction false} OperandName(w: World, sheet: Sheet, clause: nat, s: string, i: nat, j: nat, r: Result)
    requires HasText(sheet, clause, s) && i <= |s| && SkipSpaces(s, i) == j && j < |s| && IsAlpha(s[j])
    requires r == Variable(w, sheet, clause, j, true) && r.Good?
    ensures Reaches(w, sheet, clause, s, i, r.i, r.v)
  {
    forall level: nat | level >= TYPE_NONE
      ensures OperandDone(s, Operand(w, sheet, clause, i, level, true), r.i, r.v)
    {
      assert Operand(w, sheet, clause, i, level, true) == r;
    }
  }

  lemma {:induction false} NameReaches(w: World, sheet: Sheet, clause: nat, s: string, i: nat, j: nat, k: nat, n: nat)
    requires HasText(sheet, clause, s) && NameAt(s, i, j, k, n) && n < NO_NAME && n != MY_MAX_TIME && n != MAX_TIME
    ensures Reaches(w, sheet, clause, s, i, k, ValueOf(w, n))
  {
    NamedVariable(w, sheet, clause, s, j, n);
    OperandName(w, sheet, clause, s, i, j, Good(k, ValueOf(w, n)));
  }

  lemma {:induction false} NamedVariable(w: World, sheet: Sheet, clause: nat, s: string, j: nat, n: nat)
    requires HasText(sheet, clause, s) && j <= |s| && FindName(s, j, 0).0 == n && n < NO_NAME && n != MY_MAX_TIME
    requires n != MAX_TIME
    ensures Variable(w, sheet, clause, j, true) == Good(FindName(s, j, 0).1, ValueOf(w, n))
  {
  }

  /** A name with an argument in parentheses. */
  lemma {:induction false} LongestReaches(w: World, sheet: Sheet, clause: nat, s: string, i: nat, j: nat, k: nat,
      n: nat, p: nat, v: int)
    requires HasText(sheet, clause, s) && NameAt(s, i, j, k, n) && (n == MY_MAX_TIME || n == MAX_TIME)
    requires Parens(w, sheet, clause, k, true) == Good(p, v)
    ensures Reaches(w, sheet, clause, s, i, p, MaxTime(w, v, if n == MY_MAX_TIME then 1 else 2))
  {
    LongestVariable(w, sheet, clause, s, j, k, n, p, v);
    OperandName(w, sheet, clause, s, i, j, Good(p, MaxTime(w, v, if n == MY_MAX_TIME then 1 else 2)));
  }

  lemma {:induction false} LongestVariable(w: World, sheet: Sheet, clause: nat, s: string, j: nat, k: nat, n: nat,
      p: nat, v: int)
    requires HasText(sheet, clause, s) && j <= |s| && FindName(s, j, 0) == (n, k) && (n == MY_MAX_TIME || n == MAX_TIME)
    requires Parens(w, sheet, clause, k, true) == Good(p, v)
    ensures Variable(w, sheet, clause, j, true) == Good(p, MaxTime(w, v, if n == MY_MAX_TIME then 1 else 2))
  {
  }

  lemma {:induction false} HelperReaches(w: World, sheet: Sheet, clause: nat, s: string, i: nat, j: nat,
      c: HelperIndex, v: int)
    requires c < clause && HasText(sheet, clause, s) && HelperAt(s, i, j, c)
    requires var r := Check(w, sheet, c, 0, TYPE_NONE, true); r.Good? && r.v == v
    ensures Reaches(w, sheet, clause, s, i, j + 2, v)
  {
    HelperVariable(w, sheet, clause, s, j, c, v);
    OperandName(w, sheet, clause, s, i, j, Good(j + 2, v));
  }

  lemma {:induction false} HelperVariable(w: World, sheet: Sheet, clause: nat, s: string, j: nat, c: HelperIndex,
      v: int)
    requires c < clause && HasText(sheet, clause, s) && j + 1 < |s| && Lower(s[j]) == 'f' && s[j + 1] == HelperDigit(c)
    requires FindName(s, j, 0).0 == NO_NAME
    requires var r := Check(w, sheet, c, 0, TYPE_NONE, true); r.Good? && r.v == v
    ensures Variable(w, sheet, clause, j, true) == Good(j + 2, v)
  {
    assert s[j + 1] as int - '1' as int == c;
  }

  /** Parentheses whose inside is read up to the closing one. */
  lemma {:induction false} ParensRead(w: World, sheet: Sheet, clause: nat, s: string, i: nat, j: nat, p: nat, q: nat,
      m: nat, v: int)
    requires HasText(sheet, clause, s) && ParensAt(s, i, j, p, q)
    requires Climbs(w, sheet, clause, s, j + 1, p, m, v) && m > TYPE_PAREN
    ensures Parens(w, sheet, clause, i, true) == Good(q + 1, v)
  {
    var r := Check(w, sheet, clause, j + 1, TYPE_PAREN, true);
    AlikeAtClose(w, sheet, clause, s, r, p, q, v);
    ClosedParens(w, sheet, clause, s, i, j, q, v);
  }

  /** Reading up to a closing parenthesis comes to rest on it. */
  lemma {:induction false} AlikeAtClose(w: World, sheet: Sheet, clause: nat, s: string, r: Result, p: nat, q: nat,
      v: int)
    requires HasText(sheet, clause, s) && p <= |s| && SkipSpaces(s, p) == q && q < |s| && s[q] == ')'
    requires Alike(s, r, Continue(w, sheet, clause, p, TYPE_PAREN, true, v))
    ensures r == Good(q, v)
  {
    StopOrOperator(s, p);
    ContinueEnds(w, sheet, clause, p, TYPE_PAREN, v);
    SkipTwice(s, p);
  }

  lemma {:induction false} ClosedParens(w: World, sheet: Sheet, clause: nat, s: string, i: nat, j: nat, q: nat, v: int)
    requires HasText(sheet, clause, s) && i <= |s| && SkipSpaces(s, i) == j && j < |s| && s[j] == '('
    requires Check(w, sheet, clause, j + 1, TYPE_PAREN, true) == Good(q, v) && q < |s| && s[q] == ')'
    ensures Parens(w, sheet, clause, i, true) == Good(q + 1, v)
  {
  }

  lemma {:induction false} GroupReaches(w: World, sheet: Sheet, clause: nat, s: string, i: nat, j: nat, p: nat, q: nat,
      m: nat, v: int)
    requires HasText(sheet, clause, s) && ParensAt(s, i, j, p, q)
    requires Climbs(w, sheet, clause, s, j + 1, p, m, v) && m > TYPE_PAREN
    ensures Reaches(w, sheet, clause, s, i, q + 1, v)
  {
    SkipTwice(s, i);
    ParensRead(w, sheet, clause, s, j, j, p, q, m, v);
    OperandParens(w, sheet, clause, s, i, j, q + 1, v);
  }

  lemma {:induction false} OperandParens(w: World, sheet: Sheet, clause: nat, s: string, i: nat, j: nat, p: nat, v: int)
    requires HasText(sheet, clause, s) && i <= |s| && SkipSpaces(s, i) == j && j < |s| && s[j] == '('
    requires Parens(w, sheet, clause, j, true) == Good(p, v)
    ensures Reaches(w, sheet, clause, s, i, p, v)
  {
    forall level: nat | level >= TYPE_NONE
      ensures OperandDone(s, Operand(w, sheet, clause, i, level, true), p, v)
    {
      assert Operand(w, sheet, clause, i, level, true) == Good(p, v);
    }
  }

  lemma {:induction false} SignedReaches(w: World, sheet: Sheet, clause: nat, s: string, i: nat, j: nat, sign: char,
      p: nat, v: int)
    requires HasText(sheet, clause, s) && SignAt(s, i, j, sign) && Reaches(w, sheet, clause, s, j + 1, p, v)
    ensures Reaches(w, sheet, clause, s, i, p, if sign == '-' then -v else Truth(v == 0))
  {
    var r := Operand(w, sheet, clause, j + 1, TYPE_UNARY, true);
    forall level: nat | level >= TYPE_NONE
      ensures OperandDone(s, Operand(w, sheet, clause, i, level, true), p, if sign == '-' then -v else Truth(v == 0))
    {
      OperandSigned(w, sheet, clause, s, i, level, j, r);
    }
  }

  lemma {:induction false} OperandSigned(w: World, sheet: Sheet, clause: nat, s: string, i: nat, level: nat, j: nat,
      r: Result)
    requires HasText(sheet, clause, s) && level >= TYPE_NONE && i <= |s| && SkipSpaces(s, i) == j && j + 1 < |s|
    requires (s[j] == '-' || s[j] == '!') && s[j + 1] != s[j]
    requires r == Operand(w, sheet, clause, j + 1, TYPE_UNARY, true) && r.Good?
    ensures Operand(w, sheet, clause, i, level, true) == Good(r.i, if s[j] == '-' then -r.v else Truth(r.v == 0))
  {
  }

  /** Once the operand is read, checking goes on behind it. */
  lemma {:induction false} ReachesClimbs(w: World, sheet: Sheet, clause: nat, s: string, i: nat, p: nat, m: nat, v: int)
    requires HasText(sheet, clause, s) && i <= |s| && p <= |s| && Reaches(w, sheet, clause, s, i, p, v)
    ensures Climbs(w, sheet, clause, s, i, p, m, v)
  {
    forall level: nat | TYPE_NONE <= level < m
      ensures Alike(s, Check(w, sheet, clause, i, level, true), Continue(w, sheet, clause, p, level, true, v))
    {
      var first := Operand(w, sheet, clause, i, level, true);
      ContinueShift(w, sheet, clause, first.i, p, level, v);
    }
  }

  lemma {:induction false} AlikeChain(s: string, a: Result, b: Result, c: Result)
    requires Alike(s, a, b) && Alike(s, b, c)
    ensures Alike(s, a, c)
  {
  }

  /** With the operator found and its right side read, going on before the operator is
      going on behind the right side with the value of both. */
  lemma {:induction false} InfixGoesOn(w: World, sheet: Sheet, clause: nat, s: string, p: nat, j: nat, q: nat, op: Op,
      level: nat, a: int, b: int)
    requires HasText(sheet, clause, s) && level >= TYPE_NONE && p <= |s| && j <= |s| && q <= |s|
    requires ScanForOp(s, p) == (op, j) && OpType(op) > level && OpType(op) >= 4
    requires Boundary(s, q, OpType(op))
    requires Alike(s, Check(w, sheet, clause, j, OpType(op), true), Continue(w, sheet, clause, q, OpType(op), true, b))
    ensures Alike(s, Continue(w, sheet, clause, p, level, true, a),
            Continue(w, sheet, clause, q, level, true, Apply(w, op, a, b)))
  {
    ContinueEnds(w, sheet, clause, q, OpType(op), b);
    SkipTwice(s, q);
    ShortCutIsFaithful(w, sheet, clause, j, op, a);
    var next := Binary(w, sheet, clause, j, op, a);
    ContinueShift(w, sheet, clause, next.i, q, level, Apply(w, op, a, b));
  }

  /** An operator behind p, its right side from j to q. */
  lemma {:induction false} InfixClimbs(w: World, sheet: Sheet, clause: nat, s: string, i: nat, p: nat, j: nat, q: nat,
      op: Op,
                    m: nat, n: nat, a: int, b: int)
    requires HasText(sheet, clause, s) && i <= |s| && p <= |s| && j <= |s| && q <= |s|
    requires ScanForOp(s, p) == (op, j) && 4 <= OpType(op) <= m && OpType(op) < n && Boundary(s, q, OpType(op))
    requires Climbs(w, sheet, clause, s, i, p, m, a) && Climbs(w, sheet, clause, s, j, q, n, b)
    ensures Climbs(w, sheet, clause, s, i, q, OpType(op), Apply(w, op, a, b))
  {
    forall level: nat | TYPE_NONE <= level < OpType(op)
      ensures Alike(s, Check(w, sheet, clause, i, level, true),
              Continue(w, sheet, clause, q, level, true, Apply(w, op, a, b)))
    {
      InfixStep(w, sheet, clause, s, i, p, j, q, op, m, n, a, b, level);
    }
  }

  lemma {:induction false} InfixStep(w: World, sheet: Sheet, clause: nat, s: string, i: nat, p: nat, j: nat, q: nat,
      op: Op,
                  m: nat, n: nat, a: int, b: int, level: nat)
    requires HasText(sheet, clause, s) && i <= |s| && p <= |s| && j <= |s| && q <= |s|
    requires ScanForOp(s, p) == (op, j) && 4 <= OpType(op) <= m && OpType(op) < n && Boundary(s, q, OpType(op))
    requires Climbs(w, sheet, clause, s, i, p, m, a) && Climbs(w, sheet, clause, s, j, q, n, b)
    requires TYPE_NONE <= level < OpType(op)
    ensures Alike(s, Check(w, sheet, clause, i, level, true),
            Continue(w, sheet, clause, q, level, true, Apply(w, op, a, b)))
  {
    InfixGoesOn(w, sheet, clause, s, p, j, q, op, level, a, b);
    AlikeChain(s, Check(w, sheet, clause, i, level, true), Continue(w, sheet, clause, p, level, true, a),
               Continue(w, sheet, clause, q, level, true, Apply(w, op, a, b)));
  }

  lemma {:induction false} NameCorrect(w: World, sheet: Sheet, clause: nat, s: string, i: nat, gap: string, n: nat,
      word: string, p: nat)
    requires HasText(sheet, clause, s) && Gap(gap) && n < NO_NAME && !TakesArgument(n) && Spells(word, NAMES[n])
    requires Reads(s, i, gap + word) && p == i + |gap| + |word| && Break(s, p)
    ensures Reaches(w, sheet, clause, s, i, p, ValueOf(w, n))
  {
    assert NameAt(s, i, i + |gap|, p, n) by { NameWritten(s, i, gap, n, word); }
    NameReaches(w, sheet, clause, s, i, i + |gap|, p, n);
  }

  lemma {:induction false} HelperCorrect(w: World, es: Entries, sheet: Sheet, clause: nat, s: string, i: nat,
                                         gap: string, letter: char, c: HelperIndex)
    requires ProperEntries(es) && Writes(es, sheet) && HasText(sheet, clause, s) && c < clause && EntryAcceptable(es, c)
    requires Gap(gap) && Lower(letter) == 'f' && Reads(s, i, gap + [letter, HelperDigit(c)])
    ensures Reaches(w, sheet, clause, s, i, i + |gap| + 2, Value(w, es, c))
    decreases c, 3
  {
    ClauseCorrect(w, es, sheet, c);
    assert HelperAt(s, i, i + |gap|, c) by { HelperWritten(s, i, gap, letter, c); }
    HelperReaches(w, sheet, clause, s, i, i + |gap|, c, Value(w, es, c));
  }

  lemma {:induction false} GroupCorrect(w: World, es: Entries, sheet: Sheet, clause: nat, s: string, i: nat,
                                        gap: string, inner: Expr, gap2: string, p: nat)
    requires ProperEntries(es) && Writes(es, sheet) && HasText(sheet, clause, s)
    requires Gap(gap) && Tokens(inner) && Gap(gap2) && Proper(inner) && Acceptable(es, clause, inner)
    requires Reads(s, i, gap + ("(" + (Text(inner) + (gap2 + ")"))))
    requires p == i + |gap| + 1 + |Text(inner)| + |gap2| + 1
    ensures Reaches(w, sheet, clause, s, i, p, Eval(w, es, clause, inner))
    decreases clause, 1, inner, 3
  {
    var j := i + |gap|;
    var q := j + 1 + |Text(inner)|;
    ParensWritten(s, i, gap, Text(inner), gap2);
    InnerCorrect(w, es, sheet, clause, s, j + 1, inner, q);
    GroupReaches(w, sheet, clause, s, i, j, q, q + |gap2|, Level(inner), Eval(w, es, clause, inner));
  }

  lemma {:induction false} LongestCorrect(w: World, es: Entries, sheet: Sheet, clause: nat, s: string, i: nat,
                                          gap: string, n: nat, word: string, gap2: string, arg: Expr, gap3: string,
                                              p: nat)
    requires ProperEntries(es) && Writes(es, sheet) && HasText(sheet, clause, s)
    requires Gap(gap) && TakesArgument(n) && Spells(word, NAMES[n]) && Gap(gap2) && Tokens(arg) && Gap(gap3)
    requires Proper(arg) && Acceptable(es, clause, arg)
    requires Reads(s, i, gap + (word + (gap2 + ("(" + (Text(arg) + (gap3 + ")"))))))
    requires p == i + |gap| + |word| + |gap2| + 1 + |Text(arg)| + |gap3| + 1
    ensures Reaches(w, sheet, clause, s, i, p, MaxTime(w, Eval(w, es, clause, arg), if n == MY_MAX_TIME then 1 else 2))
    decreases clause, 1, arg, 5
  {
    assert NameAt(s, i, i + |gap|, i + |gap| + |word|, n) by {
      LongestWritten(s, i, gap, n, word, gap2, Text(arg) + (gap3 + ")"));
    }
    ArgumentCorrect(w, es, sheet, clause, s, i, gap, n, word, gap2, arg, gap3, p);
  }

  lemma {:induction false} ArgumentCorrect(w: World, es: Entries, sheet: Sheet, clause: nat, s: string, i: nat,
                                           gap: string, n: nat, word: string, gap2: string, arg: Expr, gap3: string,
                                               p: nat)
    requires ProperEntries(es) && Writes(es, sheet) && HasText(sheet, clause, s)
    requires NameAt(s, i, i + |gap|, i + |gap| + |word|, n) && TakesArgument(n)
    requires Tokens(arg) && Proper(arg) && Acceptable(es, clause, arg) && Gap(gap2) && Gap(gap3)
    requires Reads(s, i, gap + (word + (gap2 + ("(" + (Text(arg) + (gap3 + ")"))))))
    requires p == i + |gap| + |word| + |gap2| + 1 + |Text(arg)| + |gap3| + 1
    ensures Reaches(w, sheet, clause, s, i, p, MaxTime(w, Eval(w, es, clause, arg), if n == MY_MAX_TIME then 1 else 2))
    decreases clause, 1, arg, 4
  {
    var k := i + |gap| + |word|;
    var inner := Text(arg) + (gap3 + ")");
    assert Reads(s, k, gap2 + ("(" + inner)) by {
      ReadsParts(s, i, gap, word + (gap2 + ("(" + inner)));
      ReadsParts(s, i + |gap|, word, gap2 + ("(" + inner));
    }
    ParensCorrect(w, es, sheet, clause, s, k, gap2, arg, gap3);
    LongestReaches(w, sheet, clause, s, i, i + |gap|, k, n, p, Eval(w, es, clause, arg));
  }

  lemma {:induction false} ParensCorrect(w: World, es: Entries, sheet: Sheet, clause: nat, s: string, i: nat,
                                         gap: string, inner: Expr, gap2: string)
    requires ProperEntries(es) && Writes(es, sheet) && HasText(sheet, clause, s)
    requires Gap(gap) && Tokens(inner) && Gap(gap2) && Proper(inner) && Acceptable(es, clause, inner)
    requires Reads(s, i, gap + ("(" + (Text(inner) + (gap2 + ")"))))
    ensures Parens(w, sheet, clause, i, true)
            == Good(i + |gap| + 1 + |Text(inner)| + |gap2| + 1, Eval(w, es, clause, inner))
    decreases clause, 1, inner, 3
  {
    var j := i + |gap|;
    var q := j + 1 + |Text(inner)|;
    ParensWritten(s, i, gap, Text(inner), gap2);
    InnerCorrect(w, es, sheet, clause, s, j + 1, inner, q);
    ParensRead(w, sheet, clause, s, i, j, q, q + |gap2|, Level(inner), Eval(w, es, clause, inner));
  }

  /** What stands in parentheses is read right. */
  lemma {:induction false} InnerCorrect(w: World, es: Entries, sheet: Sheet, clause: nat, s: string, i: nat, e: Expr,
      p: nat)
    requires ProperEntries(es) && Writes(es, sheet) && HasText(sheet, clause, s) && Tokens(e) && Proper(e)
    requires Acceptable(es, clause, e)
    requires Reads(s, i, Text(e)) && p == i + |Text(e)| && Break(s, p) && Boundary(s, p, TYPE_PAREN)
    ensures Climbs(w, sheet, clause, s, i, p, Level(e), Eval(w, es, clause, e)) && Level(e) > TYPE_PAREN
    decreases clause, 1, e, 2
  {
    LevelRange(e);
    BoundaryRises(s, p, TYPE_PAREN, Level(e));
    Climb(w, es, sheet, clause, s, i, e, p);
  }

  lemma {:induction false} SignedCorrect(w: World, es: Entries, sheet: Sheet, clause: nat, s: string, i: nat,
                                         gap: string, sign: char, arg: Expr, p: nat)
    requires ProperEntries(es) && Writes(es, sheet) && HasText(sheet, clause, s)
    requires Gap(gap) && (sign == '-' || sign == '!') && Tokens(arg) && Proper(arg) && Acceptable(es, clause, arg)
    requires Level(arg) == TYPE_UNARY
    requires !Doubled(sign, arg)
    requires Reads(s, i, gap + ([sign] + Text(arg))) && p == i + |gap| + 1 + |Text(arg)| && Break(s, p)
    requires Boundary(s, p, TYPE_UNARY)
    ensures var v := Eval(w, es, clause, arg); Reaches(w, sheet, clause, s, i, p, if sign == '-' then -v
            else Truth(v == 0))
    decreases clause, 1, arg, 3
  {
    var j := i + |gap|;
    TextStarts(arg);
    SignedWritten(s, i, gap, sign, Text(arg));
    OperandCorrect(w, es, sheet, clause, s, j + 1, arg, p);
    SignedReaches(w, sheet, clause, s, i, j, sign, p, Eval(w, es, clause, arg));
  }

  lemma {:induction false} NumberCorrect(w: World, es: Entries, sheet: Sheet, clause: nat, s: string, i: nat, e: Expr,
      p: nat)
    requires ProperEntries(es) && HasText(sheet, clause, s) && Tokens(e) && Proper(e) && Acceptable(es, clause, e)
    requires (e.Number? || e.Minutes?)
    requires Reads(s, i, Text(e)) && p == i + |Text(e)| && Break(s, p) && Boundary(s, p, TYPE_UNARY)
    ensures Reaches(w, sheet, clause, s, i, p, Eval(w, es, clause, e))
  {
    if e.Number? {
      NumberWritten(s, i, e.gap, e.digits, p);
    } else {
      MinutesWritten(s, i, e.gap, e.digits, e.gap2, e.word, p);
    }
    NumberReaches(w, sheet, clause, s, i, i + |e.gap|, p, Eval(w, es, clause, e));
  }

  predicate Nested(e: Expr) { e.LongestGame? || e.Group? || e.Signed? }

  /** An operand without others in it is read right. */
  lemma {:induction false} LeafCorrect(w: World, es: Entries, sheet: Sheet, clause: nat, s: string, i: nat, e: Expr,
      p: nat)
    requires ProperEntries(es) && Writes(es, sheet) && HasText(sheet, clause, s) && Tokens(e) && Proper(e)
    requires Acceptable(es, clause, e)
    requires !e.Infix? && !Nested(e)
    requires Reads(s, i, Text(e)) && p == i + |Text(e)| && Break(s, p) && Boundary(s, p, TYPE_UNARY)
    ensures Reaches(w, sheet, clause, s, i, p, Eval(w, es, clause, e))
    decreases clause, 0
  {
    match e
    case Number(_, _) => NumberCorrect(w, es, sheet, clause, s, i, e, p);
    case Minutes(_, _, _, _) => NumberCorrect(w, es, sheet, clause, s, i, e, p);
    case Name(gap, n, word) => NameCorrect(w, sheet, clause, s, i, gap, n, word, p);
    case Helper(gap, letter, c) => HelperCorrect(w, es, sheet, clause, s, i, gap, letter, c);
  }

  /** An operand is read right, up to p. */
  lemma {:induction false} OperandCorrect(w: World, es: Entries, sheet: Sheet, clause: nat, s: string, i: nat, e: Expr,
      p: nat)
    requires ProperEntries(es) && Writes(es, sheet) && HasText(sheet, clause, s) && Tokens(e) && Proper(e)
    requires Acceptable(es, clause, e)
    requires !e.Infix?
    requires Reads(s, i, Text(e)) && p == i + |Text(e)| && Break(s, p) && Boundary(s, p, TYPE_UNARY)
    ensures Reaches(w, sheet, clause, s, i, p, Eval(w, es, clause, e))
    decreases clause, 1, e, 0
  {
    if e.LongestGame? {
      LongestCorrect(w, es, sheet, clause, s, i, e.gap, e.n, e.word, e.gap2, e.arg, e.gap3, p);
    } else if e.Group? {
      GroupCorrect(w, es, sheet, clause, s, i, e.gap, e.inner, e.gap2, p);
    } else if e.Signed? {
      SignedCorrect(w, es, sheet, clause, s, i, e.gap, e.sign, e.arg, p);
    } else {
      LeafCorrect(w, es, sheet, clause, s, i, e, p);
    }
  }

  /** Both sides of an operator are read right. */
  lemma {:induction false} InfixCorrect(w: World, es: Entries, sheet: Sheet, clause: nat, s: string, i: nat, q: nat,
      j: nat, p: nat,
                                        op: Op, left: Expr, right: Expr, e: Expr)
    requires ProperEntries(es) && Writes(es, sheet) && HasText(sheet, clause, s)
    requires Tokens(left) && Proper(left) && Acceptable(es, clause, left) && Tokens(right) && Proper(right)
    requires Acceptable(es, clause, right)
    requires e.Infix? && left == e.left && right == e.right
    requires 4 <= OpType(op) <= Level(left) && OpType(op) < Level(right) && q <= |s| && ScanForOp(s, q) == (op, j)
    requires Reads(s, i, Text(left)) && q == i + |Text(left)| && Break(s, q) && Boundary(s, q, Level(left))
    requires Reads(s, j, Text(right)) && p == j + |Text(right)| && Break(s, p) && Boundary(s, p, OpType(op))
    ensures Climbs(w, sheet, clause, s, i, p, OpType(op),
            Apply(w, op, Eval(w, es, clause, left), Eval(w, es, clause, right)))
    decreases clause, 1, e, 0, 0
  {
    BoundaryRises(s, p, OpType(op), Level(right));
    Climb(w, es, sheet, clause, s, i, left, q);
    Climb(w, es, sheet, clause, s, j, right, p);
    InfixClimbs(w, sheet, clause, s, i, q, j, p, op, Level(left), Level(right), Eval(w, es, clause, left),
        Eval(w, es, clause, right));
  }

  /** An operator and both its sides are read right. */
  lemma {:induction false} OperatorCorrect(w: World, es: Entries, sheet: Sheet, clause: nat, s: string, i: nat,
                                           left: Expr, gap: string, op: Op, word: string, right: Expr, e: Expr, p: nat)
    requires ProperEntries(es) && Writes(es, sheet) && HasText(sheet, clause, s)
    requires Tokens(left) && Proper(left) && Acceptable(es, clause, left) && Tokens(right) && Proper(right)
    requires Acceptable(es, clause, right) && Gap(gap)
    requires SpellsOperator(word, op)
    requires OpType(op) <= Level(left) && OpType(op) < Level(right)
    requires e.Infix? && left == e.left && right == e.right
    requires Reads(s, i, Text(left) + (gap + (word + Text(right))))
    requires p == i + |Text(left)| + |gap| + |word| + |Text(right)|
    requires Break(s, p) && Boundary(s, p, OpType(op))
    ensures Climbs(w, sheet, clause, s, i, p, OpType(op),
            Apply(w, op, Eval(w, es, clause, left), Eval(w, es, clause, right)))
    decreases clause, 1, e, 0, 1
  {
    var q := i + |Text(left)|;
    TextStarts(right);
    InfixWritten(s, i, Text(left), gap, op, word, Text(right), Level(left));
    InfixCorrect(w, es, sheet, clause, s, i, q, q + |gap| + |word|, p, op, left, right, e);
  }

  /** Expressions are read right. */
  lemma {:induction false} Climb(w: World, es: Entries, sheet: Sheet, clause: nat, s: string, i: nat, e: Expr, p: nat)
    requires ProperEntries(es) && Writes(es, sheet) && HasText(sheet, clause, s) && Tokens(e) && Proper(e)
    requires Acceptable(es, clause, e)
    requires Reads(s, i, Text(e)) && p == i + |Text(e)| && Break(s, p) && Boundary(s, p, Level(e))
    ensures Climbs(w, sheet, clause, s, i, p, Level(e), Eval(w, es, clause, e))
    decreases clause, 1, e, 1
  {
    if e.Infix? {
      OperatorCorrect(w, es, sheet, clause, s, i, e.left, e.gap, e.op, e.word, e.right, e, p);
    } else {
      OperandCorrect(w, es, sheet, clause, s, i, e, p);
      ReachesClimbs(w, sheet, clause, s, i, p, Level(e), Eval(w, es, clause, e));
    }
  }

  /** A whole acceptable clause is read without error, and its value is the one its tree means. */
  lemma {:induction false} ClauseCorrect(w: World, es: Entries, sheet: Sheet, clause: nat)
    requires ProperEntries(es) && Writes(es, sheet) && clause < 10 && EntryAcceptable(es, clause)
    ensures var r := Check(w, sheet, clause, 0, TYPE_NONE, true); r.Good? && r.v == Value(w, es, clause)
    decreases clause, 2
  {
    assert ProperEntry(es[clause]);
    match es[clause]
    case Unset =>
    case Blank(tail) => BlankRead(w, sheet, clause, tail);
    case Holds(e, tail) =>
      var s := Text(e) + tail;
      TailBoundary(s, |Text(e)|, tail, e);
      Climb(w, es, sheet, clause, s, 0, e, |Text(e)|);
      LevelRange(e);
      assert Alike(s, Check(w, sheet, clause, 0, TYPE_NONE, true),
                   Continue(w, sheet, clause, |Text(e)|, TYPE_NONE, true, Eval(w, es, clause, e)));
      ContinueEnds(w, sheet, clause, |Text(e)|, TYPE_NONE, Eval(w, es, clause, e));
  }

  lemma {:induction false} BlankRead(w: World, sheet: Sheet, clause: nat, tail: string)
    requires HasText(sheet, clause, tail) && IsTail(tail)
    ensures var r := Check(w, sheet, clause, 0, TYPE_NONE, true); r.Good? && r.v == 1
  {
    var j := SkipSpaces(tail, 0);
    SkipTwice(tail, 0);
    StopOrOperator(tail, j);
    assert Operand(w, sheet, clause, 0, TYPE_NONE, true) == Good(j, 1);
    ContinueEnds(w, sheet, clause, j, TYPE_NONE, 1);
  }

  /** The end of a clause ends its expression. */
  lemma {:induction false} TailBoundary(s: string, p: nat, tail: string, e: Expr)
    requires Tokens(e) && p <= |s| && s[p..] == tail && IsTail(tail)
    ensures Break(s, p) && Boundary(s, p, Level(e)) && ScanForOp(s, p).0 == OpNone
  {
    SkipInTail(s, p, tail, 0);
    var j := SkipSpaces(tail, 0);
    assert j < |tail| ==> s[p + j] == tail[j];
    if tail != "" {
      assert s[p] == tail[0];
    }
    LevelRange(e);
  }

  lemma {:induction false} SkipInTail(s: string, p: nat, tail: string, k: nat)
    requires p <= |s| && s[p..] == tail && k <= |tail|
    ensures SkipSpaces(s, p + k) == p + SkipSpaces(tail, k)
    decreases |tail| - k
  {
    if k < |tail| {
      assert s[p + k] == tail[k];
      if IsSpace(tail[k]) {
        SkipInTail(s, p, tail, k + 1);
      }
    }
  }
}
