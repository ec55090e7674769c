/** Which of the written formulas are refused: those with a doubled sign or with a helper clause
    that is not below, and those that name such a clause. */
module FormulaErrors {
  import opened Texts
  import opened Formula
  import opened FormulaSkip
  import opened FormulaSyntax
  import opened FormulaLexing
  import opened FormulaPlaces
  import opened FormulaCorrect

  /** Reading an expression from i below level m ends in an error. */
  ghost predicate Fails(w: World, sheet: Sheet, clause: nat, s: string, i: nat, m: nat)
    requires HasText(sheet, clause, s) && i <= |s|
  {
    forall level: nat :: TYPE_NONE <= level < m ==> Check(w, sheet, clause, i, level, true).Bad?
  }

  /** So does reading an operand from i. */
  ghost predicate Stumbles(w: World, sheet: Sheet, clause: nat, s: string, i: nat)
    requires HasText(sheet, clause, s) && i <= |s|
  {
    forall level: nat :: level >= TYPE_NONE ==> Operand(w, sheet, clause, i, level, true).Bad?
  }

  lemma {:induction false} StumblesFails(w: World, sheet: Sheet, clause: nat, s: string, i: nat, m: nat)
    requires HasText(sheet, clause, s) && i <= |s| && Stumbles(w, sheet, clause, s, i)
    ensures Fails(w, sheet, clause, s, i, m)
  {
    forall level: nat | TYPE_NONE <= level < m
      ensures Check(w, sheet, clause, i, level, true).Bad?
    {
      assert Operand(w, sheet, clause, i, level, true).Bad?;
    }
  }

  lemma {:induction false} DoubledStumbles(w: World, sheet: Sheet, clause: nat, s: string, i: nat, j: nat)
    requires HasText(sheet, clause, s) && i <= |s| && SkipSpaces(s, i) == j && j + 1 < |s|
    requires (s[j] == '-' || s[j] == '!') && s[j + 1] == s[j]
    ensures Stumbles(w, sheet, clause, s, i)
  {
    forall level: nat | level >= TYPE_NONE
      ensures Operand(w, sheet, clause, i, level, true).Bad?
    {
      assert Operand(w, sheet, clause, i, level, true) == Bad(Unary);
    }
  }

  lemma {:induction false} SignStumbles(w: World, sheet: Sheet, clause: nat, s: string, i: nat, j: nat, sign: char)
    requires HasText(sheet, clause, s) && SignAt(s, i, j, sign) && Stumbles(w, sheet, clause, s, j + 1)
    ensures Stumbles(w, sheet, clause, s, i)
  {
    assert Operand(w, sheet, clause, j + 1, TYPE_UNARY, true).Bad?;
    forall level: nat | level >= TYPE_NONE
      ensures Operand(w, sheet, clause, i, level, true).Bad?
    {
      assert Operand(w, sheet, clause, i, level, true) == Operand(w, sheet, clause, j + 1, TYPE_UNARY, true);
    }
  }

  lemma {:induction false} ParensFail(w: World, sheet: Sheet, clause: nat, s: string, i: nat, j: nat, p: nat, q: nat,
      m: nat)
    requires HasText(sheet, clause, s) && ParensAt(s, i, j, p, q) && m > TYPE_PAREN
    requires Fails(w, sheet, clause, s, j + 1, m)
    ensures Parens(w, sheet, clause, i, true).Bad?
  {
    assert Check(w, sheet, clause, j + 1, TYPE_PAREN, true).Bad?;
  }

  lemma {:induction false} GroupStumbles(w: World, sheet: Sheet, clause: nat, s: string, i: nat, j: nat, p: nat,
      q: nat, m: nat)
    requires HasText(sheet, clause, s) && ParensAt(s, i, j, p, q) && m > TYPE_PAREN
    requires Fails(w, sheet, clause, s, j + 1, m)
    ensures Stumbles(w, sheet, clause, s, i)
  {
    SkipTwice(s, i);
    ParensFail(w, sheet, clause, s, j, j, p, q, m);
    forall level: nat | level >= TYPE_NONE
      ensures Operand(w, sheet, clause, i, level, true).Bad?
    {
      assert Operand(w, sheet, clause, i, level, true) == Parens(w, sheet, clause, j, true);
    }
  }

  lemma {:induction false} NameStumbles(w: World, sheet: Sheet, clause: nat, s: string, i: nat, j: nat)
    requires HasText(sheet, clause, s) && i <= |s| && SkipSpaces(s, i) == j && j < |s| && IsAlpha(s[j])
    requires Variable(w, sheet, clause, j, true).Bad?
    ensures Stumbles(w, sheet, clause, s, i)
  {
    forall level: nat | level >= TYPE_NONE
      ensures Operand(w, sheet, clause, i, level, true).Bad?
    {
      assert Operand(w, sheet, clause, i, level, true) == Variable(w, sheet, clause, j, true);
    }
  }

  /** A name whose argument cannot be read. */
  lemma {:induction false} LongestStumbles(w: World, sheet: Sheet, clause: nat, s: string, i: nat, j: nat, k: nat,
      n: nat)
    requires HasText(sheet, clause, s) && NameAt(s, i, j, k, n) && TakesArgument(n)
    requires Parens(w, sheet, clause, k, true).Bad?
    ensures Stumbles(w, sheet, clause, s, i)
  {
    assert Variable(w, sheet, clause, j, true) == Bad(BadVar);
    NameStumbles(w, sheet, clause, s, i, j);
  }

  /** A helper clause that is not below, or cannot be read. */
  lemma {:induction false} HelperStumbles(w: World, sheet: Sheet, clause: nat, s: string, i: nat, j: nat,
      c: HelperIndex)
    requires HasText(sheet, clause, s) && HelperAt(s, i, j, c)
    requires c < clause ==> Check(w, sheet, c, 0, TYPE_NONE, true).Bad?
    ensures Stumbles(w, sheet, clause, s, i)
  {
    assert s[j + 1] as int - '1' as int == c;
    assert Variable(w, sheet, clause, j, true) == Bad(BadVar);
    NameStumbles(w, sheet, clause, s, i, j);
  }

  /** An operator whose left side is read up to p, and whose right side cannot be read. */
  lemma {:induction false} RightFails(w: World, sheet: Sheet, clause: nat, s: string, i: nat, p: nat, j: nat, op: Op,
      m: nat, n: nat, a: int)
    requires HasText(sheet, clause, s) && i <= |s| && p <= |s| && j <= |s|
    requires ScanForOp(s, p) == (op, j) && 4 <= OpType(op) <= m && OpType(op) < n
    requires Climbs(w, sheet, clause, s, i, p, m, a) && Fails(w, sheet, clause, s, j, n)
    ensures Fails(w, sheet, clause, s, i, OpType(op))
  {
    forall level: nat | TYPE_NONE <= level < OpType(op)
      ensures Check(w, sheet, clause, i, level, true).Bad?
    {
      assert Check(w, sheet, clause, j, OpType(op), true).Bad?;
      ShortCutIsFaithful(w, sheet, clause, j, op, a);
      assert Continue(w, sheet, clause, p, level, true, a).Bad?;
      assert Alike(s, Check(w, sheet, clause, i, level, true), Continue(w, sheet, clause, p, level, true, a));
    }
  }

  /** What must be given of an expression at i that ends at p. */
  ghost predicate Stands(es: Entries, sheet: Sheet, clause: nat, s: string, i: nat, e: Expr, p: nat) {
    && ProperEntries(es) && Writes(es, sheet) && HasText(sheet, clause, s) && Tokens(e) && Proper(e)
    && Reads(s, i, Text(e)) && p == i + |Text(e)| && Break(s, p)
  }

  lemma {:induction false} SignedRefused(w: World, es: Entries, sheet: Sheet, clause: nat, s: string, i: nat, e: Expr,
      p: nat)
    requires Stands(es, sheet, clause, s, i, e, p) && Boundary(s, p, TYPE_UNARY) && e.Signed?
    requires !Acceptable(es, clause, e)
    ensures Stumbles(w, sheet, clause, s, i)
    decreases clause, 1, e, 0
  {
    var j := i + |e.gap|;
    TextStarts(e.arg);
    if Doubled(e.sign, e.arg) {
      DoubledAt(s, i, e.gap, e.sign, Text(e.arg));
      DoubledStumbles(w, sheet, clause, s, i, j);
    } else {
      SignedWritten(s, i, e.gap, e.sign, Text(e.arg));
      OperandRefused(w, es, sheet, clause, s, j + 1, e.arg, p);
      SignStumbles(w, sheet, clause, s, i, j, e.sign);
    }
  }

  lemma {:induction false} DoubledAt(s: string, i: nat, gap: string, sign: char, arg: string)
    requires Reads(s, i, gap + ([sign] + arg)) && Gap(gap) && (sign == '-' || sign == '!') && arg != ""
    requires arg[0] == sign
    ensures var j := i + |gap|; SkipSpaces(s, i) == j && j + 1 < |s| && s[j] == s[j + 1] == sign
  {
    ReadsParts(s, i, gap, [sign] + arg);
    ReadsParts(s, i + |gap|, [sign], arg);
    TokenStart(s, i, gap, [sign]);
    ReadsAt(s, i + |gap| + 1, arg, 0);
  }

  lemma {:induction false} GroupRefused(w: World, es: Entries, sheet: Sheet, clause: nat, s: string, i: nat, e: Expr,
      p: nat)
    requires Stands(es, sheet, clause, s, i, e, p) && e.Group? && !Acceptable(es, clause, e)
    ensures Stumbles(w, sheet, clause, s, i)
    decreases clause, 1, e, 0
  {
    var j := i + |e.gap|;
    var q := j + 1 + |Text(e.inner)|;
    ParensWritten(s, i, e.gap, Text(e.inner), e.gap2);
    LevelRange(e.inner);
    BoundaryRises(s, q, TYPE_PAREN, Level(e.inner));
    Refused(w, es, sheet, clause, s, j + 1, e.inner, q);
    GroupStumbles(w, sheet, clause, s, i, j, q, q + |e.gap2|, Level(e.inner));
  }

  lemma {:induction false} ThirdPart(s: string, i: nat, gap: string, word: string, rest: string)
    requires Reads(s, i, gap + (word + rest))
    ensures Reads(s, i + |gap| + |word|, rest)
  {
    ReadsParts(s, i, gap, word + rest);
    ReadsParts(s, i + |gap|, word, rest);
  }

  lemma {:induction false} ThirdRefused(w: World, es: Entries, sheet: Sheet, clause: nat, s: string, i: nat,
      gap: string, word: string, gap2: string, arg: Expr, gap3: string)
    requires ProperEntries(es) && Writes(es, sheet) && HasText(sheet, clause, s)
    requires Gap(gap2) && Tokens(arg) && Gap(gap3) && Proper(arg) && !Acceptable(es, clause, arg)
    requires Reads(s, i, gap + (word + (gap2 + ("(" + (Text(arg) + (gap3 + ")"))))))
    ensures i + |gap| + |word| <= |s| && Parens(w, sheet, clause, i + |gap| + |word|, true).Bad?
    decreases clause, 1, arg, 4
  {
    ThirdPart(s, i, gap, word, gap2 + ("(" + (Text(arg) + (gap3 + ")"))));
    ArgumentRefused(w, es, sheet, clause, s, i + |gap| + |word|, gap2, arg, gap3);
  }

  lemma {:induction false} LongestRefused(w: World, es: Entries, sheet: Sheet, clause: nat, s: string, i: nat,
      gap: string, n: nat, word: string, gap2: string, arg: Expr, gap3: string)
    requires ProperEntries(es) && Writes(es, sheet) && HasText(sheet, clause, s)
    requires Gap(gap) && TakesArgument(n) && Spells(word, NAMES[n])
    requires Gap(gap2) && Tokens(arg) && Gap(gap3) && Proper(arg) && !Acceptable(es, clause, arg)
    requires Reads(s, i, gap + (word + (gap2 + ("(" + (Text(arg) + (gap3 + ")"))))))
    ensures Stumbles(w, sheet, clause, s, i)
    decreases clause, 1, arg, 5
  {
    ThirdRefused(w, es, sheet, clause, s, i, gap, word, gap2, arg, gap3);
    LongestWritten(s, i, gap, n, word, gap2, Text(arg) + (gap3 + ")"));
    LongestStumbles(w, sheet, clause, s, i, i + |gap|, i + |gap| + |word|, n);
  }

  lemma {:induction false} ArgumentRefused(w: World, es: Entries, sheet: Sheet, clause: nat, s: string, i: nat,
      gap: string, inner: Expr, gap2: string)
    requires ProperEntries(es) && Writes(es, sheet) && HasText(sheet, clause, s)
    requires Gap(gap) && Tokens(inner) && Gap(gap2) && Proper(inner) && !Acceptable(es, clause, inner)
    requires Reads(s, i, gap + ("(" + (Text(inner) + (gap2 + ")"))))
    ensures Parens(w, sheet, clause, i, true).Bad?
    decreases clause, 1, inner, 3
  {
    var j := i + |gap|;
    var q := j + 1 + |Text(inner)|;
    ParensWritten(s, i, gap, Text(inner), gap2);
    LevelRange(inner);
    BoundaryRises(s, q, TYPE_PAREN, Level(inner));
    Refused(w, es, sheet, clause, s, j + 1, inner, q);
    ParensFail(w, sheet, clause, s, i, j, q, q + |gap2|, Level(inner));
  }

  lemma {:induction false} HelperRefused(w: World, es: Entries, sheet: Sheet, clause: nat, s: string, i: nat,
      gap: string, letter: char, c: HelperIndex)
    requires ProperEntries(es) && Writes(es, sheet) && HasText(sheet, clause, s)
    requires Reads(s, i, gap + [letter, HelperDigit(c)]) && Gap(gap) && Lower(letter) == 'f'
    requires c < clause ==> !EntryAcceptable(es, c)
    ensures Stumbles(w, sheet, clause, s, i)
    decreases clause, 0
  {
    if c < clause {
      ClauseRefused(w, es, sheet, c);
    }
    HelperWritten(s, i, gap, letter, c);
    HelperStumbles(w, sheet, clause, s, i, i + |gap|, c);
  }

  /** An operand that is not acceptable is refused. */
  lemma {:induction false} OperandRefused(w: World, es: Entries, sheet: Sheet, clause: nat, s: string, i: nat, e: Expr,
      p: nat)
    requires Stands(es, sheet, clause, s, i, e, p) && Boundary(s, p, TYPE_UNARY) && !e.Infix?
    requires !Acceptable(es, clause, e)
    ensures Stumbles(w, sheet, clause, s, i)
    decreases clause, 1, e, 1
  {
    if e.Signed? {
      SignedRefused(w, es, sheet, clause, s, i, e, p);
    } else if e.Group? {
      GroupRefused(w, es, sheet, clause, s, i, e, p);
    } else if e.LongestGame? {
      LongestRefused(w, es, sheet, clause, s, i, e.gap, e.n, e.word, e.gap2, e.arg, e.gap3);
    } else {
      HelperRefused(w, es, sheet, clause, s, i, e.gap, e.letter, e.c);
    }
  }

  /** An operator whose right side is not acceptable. */
  lemma {:induction false} RightRefused(w: World, es: Entries, sheet: Sheet, clause: nat, s: string, i: nat, q: nat,
      j: nat, p: nat, op: Op, left: Expr, right: Expr)
    requires Stands(es, sheet, clause, s, i, left, q) && Boundary(s, q, Level(left)) && Acceptable(es, clause, left)
    requires ScanForOp(s, q) == (op, j) && 4 <= OpType(op) <= Level(left) && OpType(op) < Level(right)
    requires Stands(es, sheet, clause, s, j, right, p) && Boundary(s, p, Level(right))
    requires !Acceptable(es, clause, right)
    ensures Fails(w, sheet, clause, s, i, OpType(op))
    decreases clause, 1, right, 3
  {
    Climb(w, es, sheet, clause, s, i, left, q);
    Refused(w, es, sheet, clause, s, j, right, p);
    RightFails(w, sheet, clause, s, i, q, j, op, Level(left), Level(right), Eval(w, es, clause, left));
  }

  lemma {:induction false} SidesRefused(w: World, es: Entries, sheet: Sheet, clause: nat, s: string, i: nat, q: nat,
      j: nat, p: nat, e: Expr)
    requires e.Infix? && Stands(es, sheet, clause, s, i, e.left, q) && Boundary(s, q, Level(e.left))
    requires ScanForOp(s, q) == (e.op, j) && 4 <= OpType(e.op) <= Level(e.left) && OpType(e.op) < Level(e.right)
    requires Stands(es, sheet, clause, s, j, e.right, p) && Boundary(s, p, Level(e.right))
    requires Acceptable(es, clause, e.left) ==> !Acceptable(es, clause, e.right)
    ensures Fails(w, sheet, clause, s, i, OpType(e.op))
    decreases clause, 1, e, 0
  {
    if Acceptable(es, clause, e.left) {
      RightRefused(w, es, sheet, clause, s, i, q, j, p, e.op, e.left, e.right);
    } else {
      Refused(w, es, sheet, clause, s, i, e.left, q);
    }
  }

  /** Where the two sides of an operator stand. */
  lemma {:induction false} SidesStand(es: Entries, sheet: Sheet, clause: nat, s: string, i: nat, left: Expr,
      gap: string, op: Op, word: string, right: Expr, p: nat)
    requires ProperEntries(es) && Writes(es, sheet) && HasText(sheet, clause, s)
    requires Tokens(left) && Gap(gap) && SpellsOperator(word, op) && Tokens(right) && Proper(left) && Proper(right)
    requires Level(left) >= OpType(op) && Level(right) > OpType(op)
    requires Reads(s, i, Text(left) + (gap + (word + Text(right))))
    requires p == i + |Text(left)| + |gap| + |word| + |Text(right)| && Break(s, p) && Boundary(s, p, OpType(op))
    ensures var q := i + |Text(left)|; var j := q + |gap| + |word|;
      && Stands(es, sheet, clause, s, i, left, q) && Boundary(s, q, Level(left))
      && OpType(op) >= 4 && ScanForOp(s, q) == (op, j)
      && Stands(es, sheet, clause, s, j, right, p) && Boundary(s, p, Level(right))
  {
    TextStarts(right);
    InfixWritten(s, i, Text(left), gap, op, word, Text(right), Level(left));
    BoundaryRises(s, p, OpType(op), Level(right));
  }

  lemma {:induction false} InfixRefused(w: World, es: Entries, sheet: Sheet, clause: nat, s: string, i: nat,
      left: Expr, gap: string, op: Op, word: string, right: Expr, p: nat)
    requires ProperEntries(es) && Writes(es, sheet) && HasText(sheet, clause, s)
    requires Tokens(left) && Gap(gap) && SpellsOperator(word, op) && Tokens(right) && Proper(left) && Proper(right)
    requires Level(left) >= OpType(op) && Level(right) > OpType(op)
    requires Reads(s, i, Text(left) + (gap + (word + Text(right))))
    requires p == i + |Text(left)| + |gap| + |word| + |Text(right)| && Break(s, p) && Boundary(s, p, OpType(op))
    requires Acceptable(es, clause, left) ==> !Acceptable(es, clause, right)
    ensures Fails(w, sheet, clause, s, i, OpType(op))
    decreases clause, 1, Infix(left, gap, op, word, right), 1
  {
    var q := i + |Text(left)|;
    SidesStand(es, sheet, clause, s, i, left, gap, op, word, right, p);
    SidesRefused(w, es, sheet, clause, s, i, q, q + |gap| + |word|, p, Infix(left, gap, op, word, right));
  }

  /** An expression that is not acceptable is refused. */
  lemma {:induction false} Refused(w: World, es: Entries, sheet: Sheet, clause: nat, s: string, i: nat, e: Expr, p: nat)
    requires Stands(es, sheet, clause, s, i, e, p) && Boundary(s, p, Level(e)) && !Acceptable(es, clause, e)
    ensures Fails(w, sheet, clause, s, i, Level(e))
    decreases clause, 1, e, 2
  {
    if e.Infix? {
      InfixRefused(w, es, sheet, clause, s, i, e.left, e.gap, e.op, e.word, e.right, p);
    } else {
      OperandRefused(w, es, sheet, clause, s, i, e, p);
      StumblesFails(w, sheet, clause, s, i, Level(e));
    }
  }

  lemma {:induction false} ClauseRefused(w: World, es: Entries, sheet: Sheet, clause: nat)
    requires ProperEntries(es) && Writes(es, sheet) && clause < 10 && !EntryAcceptable(es, clause)
    ensures Check(w, sheet, clause, 0, TYPE_NONE, true).Bad?
    decreases clause, 2
  {
    assert ProperEntry(es[clause]);
    var e, tail := es[clause].e, es[clause].tail;
    var s := Text(e) + tail;
    TailBoundary(s, |Text(e)|, tail, e);
    LevelRange(e);
    Refused(w, es, sheet, clause, s, 0, e, |Text(e)|);
  }

  /** A clause that writes a tree is read without error exactly when the tree is acceptable, and
      then its value is the one the tree means. */
  lemma {:induction false} ClauseExact(w: World, es: Entries, sheet: Sheet, clause: nat)
    requires ProperEntries(es) && Writes(es, sheet) && clause < 10
    ensures var r := Check(w, sheet, clause, 0, TYPE_NONE, true);
      && (r.Good? <==> EntryAcceptable(es, clause))
      && (r.Good? ==> r.v == Value(w, es, clause))
    ensures Readable(sheet, clause) <==> EntryAcceptable(es, clause)
  {
    OneReadingIsEnough(w, sheet, clause, true);
    if EntryAcceptable(es, clause) {
      ClauseCorrect(w, es, sheet, clause);
    } else {
      ClauseRefused(w, es, sheet, clause);
    }
  }

  /** The clause `!!1` is refused. */
  lemma {:induction false} DoubledSignIsRefused(w: World, sheet: Sheet, clause: nat)
    requires clause < 10 && sheet[clause] == Some("!!1")
    ensures Check(w, sheet, clause, 0, TYPE_NONE, true) == Bad(Unary)
  {
    var s := "!!1";
    assert s[0] == s[1] == '!' && SkipSpaces(s, 0) == 0;
    assert Operand(w, sheet, clause, 0, TYPE_NONE, true) == Bad(Unary);
  }
}
