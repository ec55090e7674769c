/** Where the tokens of a written formula are found. */
module FormulaPlaces {
  import opened Texts
  import opened Formula
  import opened FormulaSyntax
  import opened FormulaLexing

  /** Neither a number nor a name goes on at p. */
  predicate Break(s: string, p: nat) { p < |s| ==> !IsDigit(s[p]) && EndsName(s[p]) }

  /** At p something follows that an expression of the given level ends before. */
  predicate Boundary(s: string, p: nat, level: nat) {
    p <= |s| && ScanForOp(s, p).0 != OpBad && OpType(ScanForOp(s, p).0) <= level
  }

  /** A number from i, its digits at j: reading stops where only space separates it from p. */
  predicate NumberAt(s: string, i: nat, j: nat, p: nat, v: int) {
    && i <= |s| && SkipSpaces(s, i) == j && j < |s| && IsDigit(s[j])
    && var (k, n) := ReadNumber(s, j); n == v && p <= k && SkipSpaces(s, k) == SkipSpaces(s, p)
  }

  /** The n-th name from i, its letters from j to k. */
  predicate NameAt(s: string, i: nat, j: nat, k: nat, n: nat) {
    i <= |s| && SkipSpaces(s, i) == j && j < |s| && IsAlpha(s[j]) && FindName(s, j, 0) == (n, k)
  }

  /** The name of a helper clause from i, its letter at j. */
  predicate HelperAt(s: string, i: nat, j: nat, c: HelperIndex) {
    && i <= |s| && SkipSpaces(s, i) == j && j + 1 < |s| && Lower(s[j]) == 'f' && s[j + 1] == HelperDigit(c)
    && FindName(s, j, 0).0 == NO_NAME
  }

  /** Parentheses from i, opening at j; behind p only space precedes the closing one at q. */
  predicate ParensAt(s: string, i: nat, j: nat, p: nat, q: nat) {
    && i <= |s| && SkipSpaces(s, i) == j && j < |s| && s[j] == '('
    && p <= |s| && SkipSpaces(s, p) == q && q < |s| && s[q] == ')'
  }

  /** A sign from i, at j, that is not doubled. */
  predicate SignAt(s: string, i: nat, j: nat, sign: char) {
    && i <= |s| && SkipSpaces(s, i) == j && j + 1 < |s| && s[j] == sign && s[j + 1] != sign
    && (sign == '-' || sign == '!')
  }

  /** Where a token begins. */
  lemma {:induction false} TokenStart(s: string, i: nat, gap: string, token: string)
    requires Reads(s, i, gap) && Reads(s, i + |gap|, token) && Gap(gap) && token != "" && !IsSpace(token[0])
    ensures SkipSpaces(s, i) == i + |gap| < |s| && s[i + |gap|] == token[0]
  {
    ReadsAt(s, i + |gap|, token, 0);
    SkipTo(s, i, gap);
  }

  lemma {:induction false} NumberPlace(s: string, i: nat, gap: string, digits: string, p: nat)
    requires Reads(s, i, gap) && Reads(s, i + |gap|, digits) && Gap(gap) && Digits(digits)
    requires p == i + |gap| + |digits| && Break(s, p) && Boundary(s, p, TYPE_UNARY)
    ensures NumberAt(s, i, i + |gap|, p, DigitsValue(digits, 0))
  {
    var j := i + |gap|;
    assert SkipSpaces(s, i) == j < |s| && s[j] == digits[0] by { TokenStart(s, i, gap, digits); }
    assert ReadNumber(s, j) == (SkipSpaces(s, p), DigitsValue(digits, 0)) by { NumberScanned(s, j, digits, p); }
    SkipTwice(s, p);
  }

  lemma {:induction false} NumberScanned(s: string, j: nat, digits: string, p: nat)
    requires Reads(s, j, digits) && Digits(digits) && p == j + |digits| && Break(s, p) && Boundary(s, p, TYPE_UNARY)
    ensures ReadNumber(s, j) == (SkipSpaces(s, p), DigitsValue(digits, 0))
  {
    DigitsRead(s, j, digits, 0);
    NoMinutes(s, p);
  }

  lemma {:induction false} MinutesPlace(s: string, i: nat, gap: string, digits: string, gap2: string, word: string,
      p: nat)
    requires Reads(s, i, gap) && Reads(s, i + |gap|, digits) && Gap(gap) && Digits(digits) && Gap(gap2)
    requires Spells(word, "minutes")
    requires Reads(s, i + |gap| + |digits|, gap2) && Reads(s, i + |gap| + |digits| + |gap2|, word)
    requires p == i + |gap| + |digits| + |gap2| + |word|
    ensures NumberAt(s, i, i + |gap|, p, 60 * DigitsValue(digits, 0))
  {
    TokenStart(s, i, gap, digits);
    MinutesScanned(s, i + |gap|, digits, gap2, word);
  }

  lemma {:induction false} MinutesScanned(s: string, j: nat, digits: string, gap2: string, word: string)
    requires Reads(s, j, digits) && Reads(s, j + |digits|, gap2) && Reads(s, j + |digits| + |gap2|, word)
    requires Digits(digits) && Gap(gap2) && Spells(word, "minutes")
    ensures ReadNumber(s, j) == (j + |digits| + |gap2| + |word|, 60 * DigitsValue(digits, 0))
  {
    var k := j + |digits|;
    assert SkipSpaces(s, k) == k + |gap2| && StandsAt(s, k + |gap2|, "minutes") by { MinutesAhead(s, k, gap2, word); }
    assert k == |s| || !IsDigit(s[k]) by { MinutesBreak(s, k, gap2, word); }
    DigitsRead(s, j, digits, 0);
  }

  lemma {:induction false} MinutesAhead(s: string, k: nat, gap: string, word: string)
    requires Reads(s, k, gap) && Reads(s, k + |gap|, word) && Gap(gap) && Spells(word, "minutes")
    ensures SkipSpaces(s, k) == k + |gap| && StandsAt(s, k + |gap|, "minutes")
  {
    SpelledStands(s, k + |gap|, word, "minutes");
    StandsChar(s, k + |gap|, "minutes", 0);
    SkipTo(s, k, gap);
  }

  lemma {:induction false} MinutesBreak(s: string, k: nat, gap: string, word: string)
    requires Reads(s, k, gap) && Reads(s, k + |gap|, word) && Gap(gap) && Spells(word, "minutes")
    ensures k < |s| && !IsDigit(s[k])
  {
    if gap != "" {
      ReadsAt(s, k, gap, 0);
    } else {
      assert Lower(word[0]) == 'm';
      ReadsAt(s, k, word, 0);
    }
  }

  lemma {:induction false} NamePlace(s: string, i: nat, gap: string, n: nat, word: string)
    requires Reads(s, i, gap) && Reads(s, i + |gap|, word) && Gap(gap) && n < NO_NAME && Spells(word, NAMES[n])
    requires Break(s, i + |gap| + |word|)
    ensures NameAt(s, i, i + |gap|, i + |gap| + |word|, n)
  {
    var j := i + |gap|;
    NameFound(s, j, word, n);
    assert SkipSpaces(s, i) == j by { SkipTo(s, i, gap); }
  }

  lemma {:induction false} HelperPlace(s: string, i: nat, gap: string, letter: char, c: HelperIndex)
    requires Reads(s, i, gap) && Reads(s, i + |gap|, [letter, HelperDigit(c)]) && Gap(gap) && Lower(letter) == 'f'
    ensures HelperAt(s, i, i + |gap|, c)
  {
    var word := [letter, HelperDigit(c)];
    TokenStart(s, i, gap, word);
    ReadsAt(s, i + |gap|, word, 1);
    HelperIsNoName(s, i + |gap|);
  }

  lemma {:induction false} ParensPlace(s: string, i: nat, gap: string, p: nat, gap2: string)
    requires Reads(s, i, gap) && Reads(s, i + |gap|, "(") && Gap(gap)
    requires Reads(s, p, gap2) && Reads(s, p + |gap2|, ")") && Gap(gap2)
    ensures ParensAt(s, i, i + |gap|, p, p + |gap2|) && Break(s, p) && Boundary(s, p, TYPE_PAREN)
  {
    TokenStart(s, i, gap, "(");
    TokenStart(s, p, gap2, ")");
    if gap2 != "" {
      ReadsAt(s, p, gap2, 0);
    }
  }

  lemma {:induction false} SignPlace(s: string, i: nat, gap: string, sign: char, arg: string)
    requires Reads(s, i, gap) && Reads(s, i + |gap|, [sign]) && Reads(s, i + |gap| + 1, arg) && Gap(gap)
    requires (sign == '-' || sign == '!') && arg != "" && arg[0] != sign
    ensures SignAt(s, i, i + |gap|, sign)
  {
    TokenStart(s, i, gap, [sign]);
    ReadsAt(s, i + |gap| + 1, arg, 0);
  }

  /** An operator is found, and ends what stands before it. */
  lemma {:induction false} OperatorPlace(s: string, p: nat, gap: string, op: Op, word: string, right: string,
      level: nat)
    requires Reads(s, p, gap) && Reads(s, p + |gap|, word) && Gap(gap) && SpellsOperator(word, op)
    requires Reads(s, p + |gap| + |word|, right) && right != "" && right[0] !in {'=', '<', '>', '|', '&'}
    requires OpType(op) <= level
    ensures ScanForOp(s, p) == (op, p + |gap| + |word|) && OpType(op) >= 4 && Boundary(s, p, level) && Break(s, p)
  {
    var k :| 0 <= k < |SPELLINGS| && SPELLINGS[k].1 == op && Spells(word, SPELLINGS[k].0);
    ReadsAt(s, p + |gap| + |word|, right, 0);
    SpellingIsOperator(k);
    OperatorFound(s, p, gap, word, k);
    assert Break(s, p) by { OperatorBreak(s, p, gap, word, k); }
  }

  lemma {:induction false} OperatorBreak(s: string, p: nat, gap: string, word: string, k: nat)
    requires Reads(s, p, gap) && Reads(s, p + |gap|, word) && Gap(gap) && k < |SPELLINGS|
    requires Spells(word, SPELLINGS[k].0)
    ensures Break(s, p)
  {
    if gap != "" {
      ReadsAt(s, p, gap, 0);
    } else {
      SpellingSizes(k);
      assert Lower(word[0]) == Lower(SPELLINGS[k].0[0]);
      ReadsAt(s, p, word, 0);
    }
  }

  /** A parenthesis, possibly after space, ends a name. */
  lemma {:induction false} ParensBreak(s: string, k: nat, gap: string)
    requires Reads(s, k, gap) && Gap(gap) && Reads(s, k + |gap|, "(")
    ensures Break(s, k)
  {
    ReadsAt(s, k + |gap|, "(", 0);
    if gap != "" {
      ReadsAt(s, k, gap, 0);
    }
  }

  /** No expression's text is empty or begins like the rest of an operator. */
  predicate Starts(t: string) { t != "" && t[0] !in {'=', '<', '>', '|', '&'} }

  lemma {:induction false} GapStarts(gap: string, rest: string)
    requires Gap(gap) && Starts(rest)
    ensures Starts(gap + rest)
  {
    if gap != "" {
      assert IsSpace(gap[0]);
    }
  }

  lemma {:induction false} WordStarts(word: string, n: nat, rest: string)
    requires n < NO_NAME && Spells(word, NAMES[n])
    ensures Starts(word + rest)
  {
    NamesAreLetters(n);
    assert Lower(word[0]) == Lower(NAMES[n][0]);
  }

  lemma {:induction false} TextStarts(e: Expr)
    requires Tokens(e)
    ensures Starts(Text(e))
  {
    match e
    case Number(gap, digits) => GapStarts(gap, digits);
    case Minutes(gap, digits, gap2, word) => GapStarts(gap, digits + (gap2 + word));
    case Name(gap, n, word) => NameStarts(gap, n, word, "");
    case LongestGame(gap, n, word, gap2, arg, gap3) => NameStarts(gap, n, word,
        gap2 + ("(" + (Text(arg) + (gap3 + ")"))));
    case Helper(gap, letter, c) => GapStarts(gap, [letter, HelperDigit(c)]);
    case Group(gap, inner, gap2) => GapStarts(gap, "(" + (Text(inner) + (gap2 + ")")));
    case Signed(gap, sign, arg) => GapStarts(gap, [sign] + Text(arg));
    case Infix(left, _, _, _, _) => TextStarts(left);
  }

  lemma {:induction false} NameStarts(gap: string, n: nat, word: string, rest: string)
    requires Gap(gap) && n < NO_NAME && Spells(word, NAMES[n])
    ensures Starts(gap + (word + rest)) && Starts(gap + word)
  {
    WordStarts(word, n, rest);
    WordStarts(word, n, "");
    assert word + "" == word;
    GapStarts(gap, word + rest);
    GapStarts(gap, word);
  }

  /** A boundary for some level is one for every higher one. */
  lemma {:induction false} BoundaryRises(s: string, p: nat, low: nat, high: nat)
    requires Boundary(s, p, low) && low <= high
    ensures Boundary(s, p, high)
  {
  }

  lemma {:induction false} LevelRange(e: Expr)
    requires Tokens(e)
    ensures TYPE_PAREN < Level(e) <= TYPE_UNARY
  {
    if e.Infix? {
      var k :| 0 <= k < |SPELLINGS| && SPELLINGS[k].1 == e.op && Spells(e.word, SPELLINGS[k].0);
      SpellingIsOperator(k);
    }
  }

  lemma {:induction false} NumberWritten(s: string, i: nat, gap: string, digits: string, p: nat)
    requires Reads(s, i, gap + digits) && Gap(gap) && Digits(digits)
    requires p == i + |gap| + |digits| && Break(s, p) && Boundary(s, p, TYPE_UNARY)
    ensures NumberAt(s, i, i + |gap|, p, DigitsValue(digits, 0))
  {
    ReadsParts(s, i, gap, digits);
    NumberPlace(s, i, gap, digits, p);
  }

  lemma {:induction false} MinutesWritten(s: string, i: nat, gap: string, digits: string, gap2: string, word: string,
      p: nat)
    requires Reads(s, i, gap + (digits + (gap2 + word))) && Gap(gap) && Digits(digits) && Gap(gap2)
    requires Spells(word, "minutes")
    requires p == i + |gap| + |digits| + |gap2| + |word|
    ensures NumberAt(s, i, i + |gap|, p, 60 * DigitsValue(digits, 0))
  {
    ReadsParts(s, i, gap, digits + (gap2 + word));
    ReadsParts(s, i + |gap|, digits, gap2 + word);
    ReadsParts(s, i + |gap| + |digits|, gap2, word);
    MinutesPlace(s, i, gap, digits, gap2, word, p);
  }

  lemma {:induction false} NameWritten(s: string, i: nat, gap: string, n: nat, word: string)
    requires Reads(s, i, gap + word) && Gap(gap) && n < NO_NAME && Spells(word, NAMES[n])
    requires Break(s, i + |gap| + |word|)
    ensures NameAt(s, i, i + |gap|, i + |gap| + |word|, n)
  {
    ReadsParts(s, i, gap, word);
    NamePlace(s, i, gap, n, word);
  }

  lemma {:induction false} HelperWritten(s: string, i: nat, gap: string, letter: char, c: HelperIndex)
    requires Reads(s, i, gap + [letter, HelperDigit(c)]) && Gap(gap) && Lower(letter) == 'f'
    ensures HelperAt(s, i, i + |gap|, c)
  {
    ReadsParts(s, i, gap, [letter, HelperDigit(c)]);
    HelperPlace(s, i, gap, letter, c);
  }

  lemma {:induction false} ParensWritten(s: string, i: nat, gap: string, inner: string, gap2: string)
    requires Reads(s, i, gap + ("(" + (inner + (gap2 + ")")))) && Gap(gap) && Gap(gap2)
    ensures var j := i + |gap|; var q := j + 1 + |inner|;
      Reads(s, j + 1, inner) && ParensAt(s, i, j, q, q + |gap2|) && Break(s, q) && Boundary(s, q, TYPE_PAREN)
  {
    var j := i + |gap|;
    var q := j + 1 + |inner|;
    ReadsParts(s, i, gap, "(" + (inner + (gap2 + ")")));
    ReadsParts(s, j, "(", inner + (gap2 + ")"));
    ReadsParts(s, j + 1, inner, gap2 + ")");
    ReadsParts(s, q, gap2, ")");
    ParensPlace(s, i, gap, q, gap2);
  }

  lemma {:induction false} LongestWritten(s: string, i: nat, gap: string, n: nat, word: string, gap2: string,
      rest: string)
    requires Reads(s, i, gap + (word + (gap2 + ("(" + rest))))
    requires Gap(gap) && n < NO_NAME && Spells(word, NAMES[n]) && Gap(gap2)
    ensures NameAt(s, i, i + |gap|, i + |gap| + |word|, n)
  {
    LongestParts(s, i, gap, word, gap2, rest);
    NamePlace(s, i, gap, n, word);
  }

  lemma {:induction false} LongestParts(s: string, i: nat, gap: string, word: string, gap2: string, rest: string)
    requires Reads(s, i, gap + (word + (gap2 + ("(" + rest)))) && Gap(gap2)
    ensures Reads(s, i, gap) && Reads(s, i + |gap|, word) && Break(s, i + |gap| + |word|)
  {
    var k := i + |gap| + |word|;
    ReadsParts(s, i, gap, word + (gap2 + ("(" + rest)));
    ReadsParts(s, i + |gap|, word, gap2 + ("(" + rest));
    ReadsParts(s, k, gap2, "(" + rest);
    ReadsParts(s, k + |gap2|, "(", rest);
    ParensBreak(s, k, gap2);
  }

  lemma {:induction false} SignedWritten(s: string, i: nat, gap: string, sign: char, arg: string)
    requires Reads(s, i, gap + ([sign] + arg)) && Gap(gap) && (sign == '-' || sign == '!') && arg != ""
    requires arg[0] != sign
    ensures SignAt(s, i, i + |gap|, sign) && Reads(s, i + |gap| + 1, arg)
  {
    ReadsParts(s, i, gap, [sign] + arg);
    ReadsParts(s, i + |gap|, [sign], arg);
    SignPlace(s, i, gap, sign, arg);
  }

  /** The parts of an infix expression stand one after the other, and its operator is found. */
  lemma {:induction false} InfixWritten(s: string, i: nat, left: string, gap: string, op: Op, word: string,
      right: string, level: nat)
    requires Reads(s, i, left + (gap + (word + right))) && Gap(gap) && SpellsOperator(word, op) && Starts(right)
    requires OpType(op) <= level
    ensures var q := i + |left|; var j := q + |gap| + |word|;
      && Reads(s, i, left) && Break(s, q) && Boundary(s, q, level) && Reads(s, j, right)
      && OpType(op) >= 4 && ScanForOp(s, q) == (op, j)
  {
    ReadsParts(s, i, left, gap + (word + right));
    ReadsParts(s, i + |left|, gap, word + right);
    ReadsParts(s, i + |left| + |gap|, word, right);
    OperatorPlace(s, i + |left|, gap, op, word, right, level);
  }
}
