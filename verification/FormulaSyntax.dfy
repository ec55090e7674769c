/** Formulas as trees, how they are written, and what they mean. */
module FormulaSyntax {
  import opened Texts
  import opened Formula

  /** The helper clauses f1 to f9, counted from 0. */
  type HelperIndex = c: nat | c < 9

  /** An expression as written: every token carries the white space before it. */
  datatype Expr =
    | Number(gap: string, digits: string)
    | Minutes(gap: string, digits: string, gap2: string, word: string)
    | Name(gap: string, n: nat, word: string)
    | LongestGame(gap: string, n: nat, word: string, gap2: string, arg: Expr, gap3: string)
    | Helper(gap: string, letter: char, c: HelperIndex)
    | Group(gap: string, inner: Expr, gap2: string)
    | Signed(gap: string, sign: char, arg: Expr)
    | Infix(left: Expr, gap: string, op: Op, word: string, right: Expr)

  function HelperDigit(c: HelperIndex): char { '1' + (c as char) }

  function Text(e: Expr): string {
    match e
    case Number(gap, digits) => gap + digits
    case Minutes(gap, digits, gap2, word) => gap + (digits + (gap2 + word))
    case Name(gap, _, word) => gap + word
    case LongestGame(gap, _, word, gap2, arg, gap3) => gap + (word + (gap2 + ("(" + (Text(arg) + (gap3 + ")")))))
    case Helper(gap, letter, c) => gap + [letter, HelperDigit(c)]
    case Group(gap, inner, gap2) => gap + ("(" + (Text(inner) + (gap2 + ")")))
    case Signed(gap, sign, arg) => gap + ([sign] + Text(arg))
    case Infix(left, gap, _, word, right) => Text(left) + (gap + (word + Text(right)))
  }

  predicate Gap(g: string) { forall i :: 0 <= i < |g| ==> IsSpace(g[i]) }

  predicate Digits(d: string) { d != "" && forall i :: 0 <= i < |d| ==> IsDigit(d[i]) }

  /** The word spells the text, in any case. */
  predicate Spells(word: string, text: string) {
    |word| == |text| && forall i :: 0 <= i < |word| ==> Lower(word[i]) == Lower(text[i])
  }

  predicate SpellsOperator(word: string, op: Op) {
    exists k :: 0 <= k < |SPELLINGS| && SPELLINGS[k].1 == op && Spells(word, SPELLINGS[k].0)
  }

  predicate TakesArgument(n: nat) { n == MY_MAX_TIME || n == MAX_TIME }

  /** The tokens are tokens. */
  predicate Tokens(e: Expr) {
    match e
    case Number(gap, digits) => Gap(gap) && Digits(digits)
    case Minutes(gap, digits, gap2, word) => Gap(gap) && Digits(digits) && Gap(gap2) && Spells(word, "minutes")
    case Name(gap, n, word) => Gap(gap) && n < NO_NAME && !TakesArgument(n) && Spells(word, NAMES[n])
    case LongestGame(gap, n, word, gap2, arg, gap3) =>
      Gap(gap) && TakesArgument(n) && Spells(word, NAMES[n]) && Gap(gap2) && Tokens(arg) && Gap(gap3)
    case Helper(gap, letter, _) => Gap(gap) && Lower(letter) == 'f'
    case Group(gap, inner, gap2) => Gap(gap) && Tokens(inner) && Gap(gap2)
    case Signed(gap, sign, arg) => Gap(gap) && (sign == '-' || sign == '!') && Tokens(arg)
    case Infix(left, gap, op, word, right) => Tokens(left) && Gap(gap) && SpellsOperator(word, op) && Tokens(right)
  }

  /** How tightly the outermost operator binds. */
  function Level(e: Expr): nat { if e.Infix? then OpType(e.op) else TYPE_UNARY }

  /** The tree is the one the documented precedence and left association give its text. */
  predicate Proper(e: Expr) {
    match e
    case Number(_, _) => true
    case Minutes(_, _, _, _) => true
    case Name(_, _, _) => true
    case LongestGame(_, _, _, _, arg, _) => Proper(arg)
    case Helper(_, _, _) => true
    case Group(_, inner, _) => Proper(inner)
    case Signed(_, _, arg) => Proper(arg) && Level(arg) == TYPE_UNARY
    case Infix(left, _, op, _, right) =>
      Proper(left) && Proper(right) && Level(left) >= OpType(op) && Level(right) > OpType(op)
  }

  /** What a clause holds: nothing, only space and comment, or an expression and then these. */
  datatype Entry = Unset | Blank(tail: string) | Holds(e: Expr, tail: string)

  /** Space, and then possibly a comment. */
  predicate IsTail(t: string) {
    var j := SkipSpaces(t, 0);
    j == |t| || t[j] == '#'
  }

  predicate ProperEntry(entry: Entry) {
    match entry
    case Unset => true
    case Blank(tail) => IsTail(tail)
    case Holds(e, tail) => Tokens(e) && Proper(e) && IsTail(tail)
  }

  function EntryText(entry: Entry): Option<string> {
    match entry
    case Unset => None
    case Blank(tail) => Some(tail)
    case Holds(e, tail) => Some(Text(e) + tail)
  }

  /** All ten clauses as trees. */
  type Entries = es: seq<Entry> | |es| == 10 witness seq(10, _ => Unset)

  predicate ProperEntries(es: Entries) {
    forall c :: 0 <= c < 10 ==> ProperEntry(es[c])
  }

  /** The sign is written twice, with nothing between. */
  predicate Doubled(sign: char, arg: Expr) { Text(arg) != "" && Text(arg)[0] == sign }

  /** No sign is doubled, and helper clauses are below the clause they are named in; and so it
      is in the helper clauses that are named. */
  predicate Acceptable(es: Entries, clause: nat, e: Expr)
    requires clause < 10
    decreases clause, 0, e
  {
    match e
    case Number(_, _) => true
    case Minutes(_, _, _, _) => true
    case Name(_, _, _) => true
    case LongestGame(_, _, _, _, arg, _) => Acceptable(es, clause, arg)
    case Helper(_, _, c) => c < clause && EntryAcceptable(es, c)
    case Group(_, inner, _) => Acceptable(es, clause, inner)
    case Signed(_, sign, arg) => !Doubled(sign, arg) && Acceptable(es, clause, arg)
    case Infix(left, _, _, _, right) => Acceptable(es, clause, left) && Acceptable(es, clause, right)
  }

  predicate EntryAcceptable(es: Entries, clause: nat)
    requires clause < 10
    decreases clause, 1
  {
    es[clause].Holds? ==> Acceptable(es, clause, es[clause].e)
  }

  function DigitsValue(d: string, acc: int): int {
    if d == "" then acc else DigitsValue(d[1..], 10 * acc + (d[0] as int - '0' as int))
  }

  /** The value of an expression standing in a clause. */
  function Eval(w: World, es: Entries, clause: nat, e: Expr): int
    requires clause < 10 && Acceptable(es, clause, e)
    decreases clause, 0, e
  {
    match e
    case Number(_, digits) => DigitsValue(digits, 0)
    case Minutes(_, digits, _, _) => 60 * DigitsValue(digits, 0)
    case Name(_, n, _) => ValueOf(w, n)
    case LongestGame(_, n, _, _, arg, _) => MaxTime(w, Eval(w, es, clause, arg), if n == MY_MAX_TIME then 1 else 2)
    case Helper(_, _, c) => Value(w, es, c)
    case Group(_, inner, _) => Eval(w, es, clause, inner)
    case Signed(_, sign, arg) =>
      var v := Eval(w, es, clause, arg);
      if sign == '-' then -v else Truth(v == 0)
    case Infix(left, _, op, _, right) => Apply(w, op, Eval(w, es, clause, left), Eval(w, es, clause, right))
  }

  /** The value of a clause; one that says nothing is true. */
  function Value(w: World, es: Entries, clause: nat): int
    requires clause < 10 && EntryAcceptable(es, clause)
    decreases clause, 1
  {
    match es[clause]
    case Unset => 1
    case Blank(_) => 1
    case Holds(e, _) => Eval(w, es, clause, e)
  }

  /** The sheet with the texts of the trees. */
  predicate Writes(es: Entries, sheet: Sheet) {
    forall c :: 0 <= c < 10 ==> sheet[c] == EntryText(es[c])
  }
}
