/** What formulas mean in plain arithmetic, word by word as they are written. */
module FormulaLaws {
  import opened Texts
  import opened Formula
  import opened FormulaSyntax
  import opened FormulaErrors

  /** A condition is worth 1 or 0. */
  predicate Tells(condition: bool, z: int) { if condition then z == 1 else z == 0 }

  /** What the word of an operator makes of x and y. */
  predicate Means(word: string, x: int, y: int, z: int) {
    if |word| == 1 then
      match word[0]
      case '+' => z == x + y
      case '-' => z + y == x
      case '*' => z == x * y
      case '/' => y != 0 ==> DividesTo(x, y, z)
      case '>' => Tells(x > y, z)
      case '<' => Tells(x < y, z)
      case '=' => Tells(x == y, z)
      case '|' => Tells(x != 0 || y != 0, z)
      case '&' => Tells(x != 0 && y != 0, z)
      case _ => false
    else if |word| == 2 then
      match (word[0], word[1])
      case ('>', '=') => Tells(x >= y, z)
      case ('=', '>') => Tells(x >= y, z)
      case ('<', '=') => Tells(x <= y, z)
      case ('=', '<') => Tells(x <= y, z)
      case ('=', '=') => Tells(x == y, z)
      case ('!', '=') => Tells(x != y, z)
      case ('<', '>') => Tells(x != y, z)
      case ('&', '&') => Tells(x != 0 && y != 0, z)
      case ('|', '|') => Tells(x != 0 || y != 0, z)
      case _ => IsOr(word) && Tells(x != 0 || y != 0, z)
    else IsAnd(word) && Tells(x != 0 && y != 0, z)
  }

  predicate IsOr(word: string) { |word| == 2 && word[0] in {'o', 'O'} && word[1] in {'r', 'R'} }

  predicate IsAnd(word: string) {
    |word| == 3 && word[0] in {'a', 'A'} && word[1] in {'n', 'N'} && word[2] in {'d', 'D'}
  }

  /** How tightly the word binds. */
  function Binds(word: string): nat
    requires 1 <= |word| <= 3
  {
    if |word| == 3 || word[0] == '&' then 2
    else if word[0] == '|' || IsOr(word) then 1
    else match word[0]
      case '+' => 5
      case '-' => 5
      case '*' => 6
      case '/' => 6
      case '!' => 3
      case '=' => if |word| == 1 || word[1] == '=' then 3 else 4
      case '<' => if |word| == 2 && word[1] == '>' then 3 else 4
      case _ => 4
  }

  /** z is the quotient toward zero: what is left over is less than y and has the sign of x. */
  predicate DividesTo(x: int, y: int, z: int) { IsLeft(x, y, x - z * y) }

  predicate IsLeft(x: int, y: int, rest: int) {
    (if rest < 0 then -rest else rest) < (if y < 0 then -y else y) && (rest == 0 || (rest > 0 <==> x > 0))
  }

  /** What has no letters is spelled in one way. */
  lemma {:induction false} SpelledOnce(word: string, text: string)
    requires Spells(word, text) && forall i :: 0 <= i < |text| ==> !IsAlpha(text[i])
    ensures word == text
  {
    forall i | 0 <= i < |text|
      ensures word[i] == text[i]
    {
      assert Lower(word[i]) == Lower(text[i]);
    }
  }

  lemma {:induction false} LettersSpelled(word: string)
    ensures Spells(word, "or") ==> IsOr(word) && |word| == 2
    ensures Spells(word, "and") ==> IsAnd(word) && |word| == 3
  {
    if |word| == 2 {
      assert Spells(word, "or") ==> Lower(word[0]) == 'o' && Lower(word[1]) == 'r';
    }
    if |word| == 3 {
      assert Spells(word, "and") ==> Lower(word[0]) == 'a' && Lower(word[1]) == 'n' && Lower(word[2]) == 'd';
    }
  }

  lemma {:induction false} SpellingsPlain(k: nat)
    requires 2 <= k < |SPELLINGS|
    ensures forall i :: 0 <= i < |SPELLINGS[k].0| ==> !IsAlpha(SPELLINGS[k].0[i])
  {
  }

  lemma {:induction false} Divided(n: nat, y: int)
    requires y != 0
    ensures n == (n / y) * y + n % y && 0 <= n % y < if y < 0 then -y else y
    ensures n == 0 ==> n % y == 0
  {
  }

  lemma {:induction false} NegativeTimes(q: int, y: int)
    ensures -q * y == -(q * y)
  {
  }

  lemma {:induction false} QuotientDivides(x: int, y: int)
    requires y != 0
    ensures DividesTo(x, y, Quotient(x, y))
  {
    var n := if x >= 0 then x else -x;
    Divided(n, y);
    NegativeTimes(n / y, y);
    SignedRest(x, y, n / y * y, n % y, Quotient(x, y) * y);
  }

  lemma {:induction false} SignedRest(x: int, y: int, whole: int, rest: int, product: int)
    requires y != 0 && 0 <= rest < (if y < 0 then -y else y) && (x == 0 ==> rest == 0)
    requires (if x >= 0 then x else -x) == whole + rest && product == if x >= 0 then whole else -whole
    ensures IsLeft(x, y, x - product)
  {
  }

  /** The k-th spelling of an operator, as written: first the longer ones. */
  lemma {:induction false} LongSpellingMeans(w: World, k: nat, x: int, y: int)
    requires 2 <= k < 11
    ensures var (word, op) := SPELLINGS[k]; Means(word, x, y, Apply(w, op, x, y))
  {
  }

  lemma {:induction false} ShortSpellingMeans(w: World, k: nat, x: int, y: int)
    requires 11 <= k < |SPELLINGS|
    ensures var (word, op) := SPELLINGS[k]; Means(word, x, y, Apply(w, op, x, y))
  {
    if y != 0 {
      QuotientDivides(x, y);
    }
  }

  lemma {:induction false} SpellingBinds(k: nat)
    requires 2 <= k < |SPELLINGS|
    ensures var (word, op) := SPELLINGS[k]; 1 <= |word| <= 2 && OpType(op) == Binds(word) + 3
  {
  }

  /** The words written for an operator mean what it computes and bind as it does. */
  lemma {:induction false} WordMeans(w: World, word: string, op: Op, x: int, y: int)
    requires SpellsOperator(word, op)
    ensures Means(word, x, y, Apply(w, op, x, y)) && 1 <= |word| <= 3 && OpType(op) == Binds(word) + 3 > 3
  {
    var k: nat :| k < |SPELLINGS| && SPELLINGS[k].1 == op && Spells(word, SPELLINGS[k].0);
    if k >= 2 {
      SpellingsPlain(k);
      SpelledOnce(word, SPELLINGS[k].0);
      if k < 11 {
        LongSpellingMeans(w, k, x, y);
      } else {
        ShortSpellingMeans(w, k, x, y);
      }
      SpellingBinds(k);
      SpellingIsOperator(k);
    } else {
      LettersSpelled(word);
    }
  }

  /** An operator between two expressions. */
  lemma {:induction false} InfixMeans(w: World, es: Entries, clause: nat, e: Expr)
    requires clause < 10 && e.Infix? && Tokens(e) && Acceptable(es, clause, e)
    ensures Means(e.word, Eval(w, es, clause, e.left), Eval(w, es, clause, e.right), Eval(w, es, clause, e))
  {
    WordMeans(w, e.word, e.op, Eval(w, es, clause, e.left), Eval(w, es, clause, e.right));
  }

  /** A sign before an expression. */
  lemma {:induction false} SignMeans(w: World, es: Entries, clause: nat, e: Expr)
    requires clause < 10 && e.Signed? && Tokens(e) && Acceptable(es, clause, e)
    ensures e.sign == '-' ==> Eval(w, es, clause, e) + Eval(w, es, clause, e.arg) == 0
    ensures e.sign == '!' ==> Tells(Eval(w, es, clause, e.arg) == 0, Eval(w, es, clause, e))
  {
  }

  /** A helper clause is named by the letter f and its number from 1 to 9, and worth what the clause is. */
  lemma {:induction false} HelperMeans(w: World, es: Entries, clause: nat, e: Expr)
    requires clause < 10 && e.Helper? && Tokens(e) && Acceptable(es, clause, e)
    ensures EntryAcceptable(es, e.c) && Eval(w, es, clause, e) == Value(w, es, e.c)
    ensures Text(e) == e.gap + [e.letter, "123456789"[e.c]] && e.letter in {'f', 'F'}
  {
  }

  /** Blanks are the space, the tab, and the ends of lines and pages; the digits are ten. */
  lemma {:induction false} CharactersMean(c: char)
    ensures IsSpace(c) <==> c in {' ', '\t', '\n', '\r', 11 as char, 12 as char}
    ensures IsDigit(c) <==> exists n :: 0 <= n < 10 && c == "0123456789"[n]
  {
    if IsDigit(c) {
      var n := c as int - '0' as int;
      assert c == "0123456789"[n];
    }
  }

  /** Capitals count as small letters. */
  lemma {:induction false} CapitalsMean(k: nat, c: char)
    ensures k < 26 ==> Lower("ABCDEFGHIJKLMNOPQRSTUVWXYZ"[k]) == "abcdefghijklmnopqrstuvwxyz"[k]
    ensures !('A' <= c <= 'Z') ==> Lower(c) == c
  {
  }

  /** A number in decimal digits. */
  function Decimal(n: nat): string {
    (if n < 10 then "" else Decimal(n / 10)) + ["0123456789"[n % 10]]
  }

  lemma {:induction false} DigitsBehind(d: string, c: char, acc: int)
    ensures DigitsValue(d + [c], acc) == 10 * DigitsValue(d, acc) + (c as int - '0' as int)
    decreases |d|
  {
    if d == "" {
      assert d + [c] == [c] && [c][1..] == "";
    } else {
      assert (d + [c])[1..] == d[1..] + [c];
      DigitsBehind(d[1..], c, 10 * acc + (d[0] as int - '0' as int));
    }
  }

  lemma {:induction false} DecimalValue(n: nat)
    ensures DigitsValue(Decimal(n), 0) == n
  {
    var c := "0123456789"[n % 10];
    assert c as int - '0' as int == n % 10;
    if n >= 10 {
      DecimalValue(n / 10);
    }
    DigitsBehind(if n < 10 then "" else Decimal(n / 10), c, 0);
  }

  /** A number written in decimal is worth that number, and so many minutes sixty times it. */
  lemma {:induction false} NumberMeans(w: World, es: Entries, clause: nat, n: nat, gap: string, gap2: string,
      word: string)
    requires clause < 10
    ensures Eval(w, es, clause, Number(gap, Decimal(n))) == n
    ensures Eval(w, es, clause, Minutes(gap, Decimal(n), gap2, word)) == 60 * n
  {
    DecimalValue(n);
  }

  /** The text is a variable, and worth z. */
  ghost predicate Named(w: World, n: nat, text: string, z: int) {
    Tokens(Name("", n, text)) && (forall es: Entries :: Eval(w, es, 0, Name("", n, text)) == z)
  }

  lemma {:induction false} Called(w: World, n: nat, text: string)
    requires n < NO_NAME && !TakesArgument(n) && text == NAMES[n]
    ensures Named(w, n, text, ValueOf(w, n))
  {
  }

  /** What is known of the players. */
  lemma {:induction false} PlayersNamed(w: World)
    ensures Named(w, 0, "registered", w.registered)
    ensures Named(w, 6, "timeseal", w.timeseal)
    ensures Named(w, 8, "computer", w.computer)
  {
    Called(w, 0, "registered");
    Called(w, 6, "timeseal");
    Called(w, 8, "computer");
  }

  lemma {:induction false} ListsNamed(w: World)
    ensures Named(w, 10, "private", w.closed)
    ensures Named(w, 12, "abuser", w.abuser)
  {
    Called(w, 10, "private");
    Called(w, 12, "abuser");
  }

  lemma {:induction false} RatingsNamed(w: World)
    ensures Named(w, 7, "myrating", w.myRating)
    ensures Named(w, 13, "rating", w.yourRating)
    ensures Named(w, 1, "ratingdiff", w.yourRating - w.myRating)
  {
    Called(w, 7, "myrating");
    Called(w, 13, "rating");
    Called(w, 1, "ratingdiff");
  }

  /** What the outcome would be worth. */
  lemma {:induction false} StakesNamed(w: World)
    ensures Named(w, 2, "assessloss", if w.rated == 0 then 0 else w.loss)
    ensures Named(w, 3, "assessdraw", if w.rated == 0 then 0 else w.draw)
    ensures Named(w, 4, "assesswin", if w.rated == 0 then 0 else w.win)
  {
    Called(w, 2, "assessloss");
    Called(w, 3, "assessdraw");
    Called(w, 4, "assesswin");
  }

  lemma {:induction false} TermsNamed(w: World)
    ensures Named(w, 14, "rated", w.rated)
    ensures Named(w, 21, "time", w.wInitTime)
    ensures Named(w, 22, "inc", w.wIncrement)
  {
    Called(w, 14, "rated");
    Called(w, 21, "time");
    Called(w, 22, "inc");
  }

  /** Of the variables for the kind of game one is 1 and the others are 0. */
  lemma {:induction false} KindsNamed(w: World)
    ensures Named(w, 9, "standard", if w.kind == StandardGame then 1 else 0)
    ensures Named(w, 15, "nonstandard", if w.kind == NonstandardGame then 1 else 0)
    ensures Named(w, 16, "lightning", if w.kind == LightningGame then 1 else 0)
    ensures Named(w, 17, "bughouse", if w.kind == BughouseGame then 1 else 0)
  {
    Called(w, 9, "standard");
    Called(w, 15, "nonstandard");
    Called(w, 16, "lightning");
    Called(w, 17, "bughouse");
  }

  lemma {:induction false} OtherKindsNamed(w: World)
    ensures Named(w, 18, "untimed", if w.kind == UntimedGame then 1 else 0)
    ensures Named(w, 19, "blitz", if w.kind == BlitzGame then 1 else 0)
    ensures Named(w, 20, "wild", if w.kind == WildGame then 1 else 0)
  {
    Called(w, 18, "untimed");
    Called(w, 19, "blitz");
    Called(w, 20, "wild");
  }

  /** What a player has for so many moves, in seconds; who begins with nothing gets ten. */
  function OwnTime(w: World, minutes: int, increment: int, moves: int): int {
    60 * minutes + increment * moves + if minutes == 0 && w.kind != UntimedGame then 10 else 0
  }

  /** The longest game is as long as what both players have, whether their terms are the same or not;
      the time of the player who reads the offer is the second player's. */
  lemma {:induction false} LongestGameMeans(w: World, es: Entries, clause: nat, e: Expr)
    requires clause < 10 && e.LongestGame? && Tokens(e) && Acceptable(es, clause, e)
    ensures var moves, z := Eval(w, es, clause, e.arg), Eval(w, es, clause, e);
      var mine, yours := OwnTime(w, w.bInitTime, w.bIncrement, moves), OwnTime(w, w.wInitTime, w.wIncrement, moves);
      if |e.word| == |"mymaxtime"| then z == mine else z == mine + yours
  {
    assert |e.word| == |NAMES[e.n]|;
    TwiceOwn(w, Eval(w, es, clause, e.arg));
  }

  lemma {:induction false} TwiceOwn(w: World, moves: int)
    ensures MaxTime(w, moves, 1) == OwnTime(w, w.bInitTime, w.bIncrement, moves)
    ensures MaxTime(w, moves, 2)
         == OwnTime(w, w.bInitTime, w.bIncrement, moves) + OwnTime(w, w.wInitTime, w.wIncrement, moves)
  {
    assert moves * (w.wIncrement + w.bIncrement) == moves * w.wIncrement + moves * w.bIncrement;
    assert 2 * (60 * w.wInitTime + moves * w.wIncrement) == 120 * w.wInitTime + 2 * (moves * w.wIncrement);
    assert moves * w.wIncrement == w.wIncrement * moves && moves * w.bIncrement == w.bIncrement * moves;
  }

  /** Three operands with two operators between them, as a tree with one operator inside: the first or
      the second. */
  function Chained(first: bool, a: Expr, g: string, op: Op, u: string, b: Expr, h: string, oq: Op, v: string,
      c: Expr): Expr
  {
    if first then Infix(Infix(a, g, op, u, b), h, oq, v, c) else Infix(a, g, op, u, Infix(b, h, oq, v, c))
  }

  predicate IsOperand(e: Expr) { !e.Infix? && Tokens(e) && Proper(e) }

  lemma {:induction false} WordBinds(word: string, op: Op)
    requires SpellsOperator(word, op)
    ensures 1 <= |word| <= 3 && OpType(op) == Binds(word) + 3 > 3
  {
    WordMeans(World(WildGame, 0, 0, 0, 0, 0, 0, 0, 0, 0, 0, 0, 0, 0, 0, 0, x => x), word, op, 0, 0);
  }

  lemma {:induction false} Rejoined(a: string, g: string, u: string, b: string, h: string, v: string, c: string)
    ensures a + (g + (u + b)) + (h + (v + c)) == a + (g + (u + (b + (h + (v + c)))))
  {
    assert a + (g + (u + b)) + (h + (v + c)) == a + ((g + (u + b)) + (h + (v + c)));
    assert (g + (u + b)) + (h + (v + c)) == g + ((u + b) + (h + (v + c)));
  }

  lemma {:induction false} ChainedTokens(first: bool, a: Expr, g: string, op: Op, u: string, b: Expr, h: string, oq: Op,
      v: string, c: Expr)
    requires IsOperand(a) && IsOperand(b) && IsOperand(c) && Gap(g) && Gap(h)
    requires SpellsOperator(u, op) && SpellsOperator(v, oq)
    ensures Tokens(Chained(first, a, g, op, u, b, h, oq, v, c))
  {
  }

  /** Whichever operator is inside, the text is the same; and the tree is the one its text is read as
      exactly if the one inside binds more tightly, or as tightly and comes first. */
  lemma {:induction false} ChainedIsProper(first: bool, a: Expr, g: string, op: Op, u: string, b: Expr, h: string,
      oq: Op, v: string, c: Expr)
    requires IsOperand(a) && IsOperand(b) && IsOperand(c) && OpType(op) < TYPE_UNARY && OpType(oq) < TYPE_UNARY
    ensures var e := Chained(first, a, g, op, u, b, h, oq, v, c);
      && (Proper(e) <==> first == (OpType(op) >= OpType(oq)))
      && Text(e) == Text(a) + (g + (u + (Text(b) + (h + (v + Text(c))))))
  {
    Rejoined(Text(a), g, u, Text(b), h, v, Text(c));
  }

  /** What a chain is worth: first the operator inside, then the other. */
  predicate ChainWorth(first: bool, u: string, v: string, l: int, m: int, n: int, x: int, z: int) {
    if first then Means(u, l, m, x) && Means(v, x, n, z) else Means(v, m, n, x) && Means(u, l, x, z)
  }

  lemma {:induction false} ChainOfWords(w: World, first: bool, op: Op, u: string, oq: Op, v: string, l: int, m: int,
      n: int, x: int, z: int)
    requires SpellsOperator(u, op) && SpellsOperator(v, oq)
    requires x == if first then Apply(w, op, l, m) else Apply(w, oq, m, n)
    requires z == if first then Apply(w, oq, x, n) else Apply(w, op, l, x)
    ensures ChainWorth(first, u, v, l, m, n, x, z)
  {
    if first {
      WordMeans(w, u, op, l, m);
      WordMeans(w, v, oq, x, n);
    } else {
      WordMeans(w, v, oq, m, n);
      WordMeans(w, u, op, l, x);
    }
  }

  lemma {:induction false} ChainEval(w: World, es: Entries, clause: nat, first: bool, a: Expr, g: string, op: Op,
      u: string, b: Expr, h: string, oq: Op, v: string, c: Expr, l: int, m: int, n: int, x: int, z: int)
    requires clause < 10 && Acceptable(es, clause, a) && Acceptable(es, clause, b) && Acceptable(es, clause, c)
    requires l == Eval(w, es, clause, a) && m == Eval(w, es, clause, b) && n == Eval(w, es, clause, c)
    requires x == if first then Apply(w, op, l, m) else Apply(w, oq, m, n)
    requires z == if first then Apply(w, oq, x, n) else Apply(w, op, l, x)
    ensures var e := Chained(first, a, g, op, u, b, h, oq, v, c);
      Acceptable(es, clause, e) && Eval(w, es, clause, e) == z
  {
    if first {
      assert Eval(w, es, clause, Infix(a, g, op, u, b)) == x;
    } else {
      assert Eval(w, es, clause, Infix(b, h, oq, v, c)) == x;
    }
  }

  /** A clause of three operands is read by how tightly its words bind, and from left to right where they
      bind alike. */
  lemma {:induction false} ChainMeans(w: World, es: Entries, sheet: Sheet, clause: nat, a: Expr, g: string, op: Op,
      u: string, b: Expr, h: string, oq: Op, v: string, c: Expr) returns (x: int)
    requires IsOperand(a) && IsOperand(b) && IsOperand(c) && Gap(g) && Gap(h)
    requires SpellsOperator(u, op) && SpellsOperator(v, oq) && 1 <= |u| <= 3 && 1 <= |v| <= 3
    requires clause < 10 && Acceptable(es, clause, a) && Acceptable(es, clause, b) && Acceptable(es, clause, c)
    requires es[clause] == Holds(Chained(Binds(u) >= Binds(v), a, g, op, u, b, h, oq, v, c), "")
    requires Writes(es, sheet) && forall d :: 0 <= d < 10 && d != clause ==> ProperEntry(es[d])
    ensures var r := Check(w, sheet, clause, 0, TYPE_NONE, true);
      && r.Good?
      && ChainWorth(Binds(u) >= Binds(v), u, v, Eval(w, es, clause, a), Eval(w, es, clause, b), Eval(w, es, clause, c),
           x, r.v)
  {
    var first := Binds(u) >= Binds(v);
    WordBinds(u, op);
    WordBinds(v, oq);
    ChainedTokens(first, a, g, op, u, b, h, oq, v, c);
    ChainedIsProper(first, a, g, op, u, b, h, oq, v, c);
    var l, m, n := Eval(w, es, clause, a), Eval(w, es, clause, b), Eval(w, es, clause, c);
    x := if first then Apply(w, op, l, m) else Apply(w, oq, m, n);
    var z := if first then Apply(w, oq, x, n) else Apply(w, op, l, x);
    ChainOfWords(w, first, op, u, oq, v, l, m, n, x, z);
    ChainEval(w, es, clause, first, a, g, op, u, b, h, oq, v, c, l, m, n, x, z);
    ReadsAs(w, es, sheet, clause, "", Chained(first, a, g, op, u, b, h, oq, v, c));
  }

  lemma {:induction false} ReadsAs(w: World, es: Entries, sheet: Sheet, clause: nat, tail: string, e: Expr)
    requires clause < 10 && es[clause] == Holds(e, tail) && IsTail(tail) && Tokens(e) && Proper(e)
    requires Acceptable(es, clause, e)
    requires Writes(es, sheet) && forall d :: 0 <= d < 10 && d != clause ==> ProperEntry(es[d])
    ensures var r := Check(w, sheet, clause, 0, TYPE_NONE, true); r.Good? && r.v == Eval(w, es, clause, e)
  {
    assert ProperEntry(es[clause]);
    ClauseExact(w, es, sheet, clause);
  }

  lemma {:induction false} MinusAndMore()
    ensures SpellsOperator("-", Minus) && SpellsOperator(">", Gt)
  {
    assert SPELLINGS[17] == ("-", Minus) && SPELLINGS[13] == (">", Gt);
  }

  lemma {:induction false} OnlyFormula(e: Expr, tail: string, text: string, sheet: Sheet, es: Entries)
    requires Text(e) + tail == text && sheet == seq(10, _ => None)[FORMULA := Some(text)]
    requires es == seq(10, _ => Unset)[FORMULA := Holds(e, tail)]
    ensures Writes(es, sheet) && forall d :: 0 <= d < 10 && d != FORMULA ==> ProperEntry(es[d])
  {
  }

  /** Another: so many minutes in parentheses, with a comment behind. */
  lemma {:induction false} MinutesInParentheses(w: World, n: nat, note: string, sheet: Sheet)
    requires sheet == seq(10, _ => None)[FORMULA := Some("(" + Decimal(n) + " minutes)#" + note)]
    ensures var r := Check(w, sheet, FORMULA, 0, TYPE_NONE, true); r.Good? && r.v == 60 * n
  {
    var inner := Minutes("", Decimal(n), " ", "minutes");
    var e, tail := Group("", inner, ""), "#" + note;
    DecimalDigits(n);
    GroupText(Decimal(n), note);
    var es: Entries := seq(10, _ => Unset)[FORMULA := Holds(e, tail)];
    OnlyFormula(e, tail, "(" + Decimal(n) + " minutes)#" + note, sheet, es);
    NumberMeans(w, es, FORMULA, n, "", " ", "minutes");
    ReadsAs(w, es, sheet, FORMULA, tail, e);
  }

  lemma {:induction false} GroupText(digits: string, note: string)
    ensures Text(Group("", Minutes("", digits, " ", "minutes"), "")) + ("#" + note)
            == "(" + digits + " minutes)#" + note
  {
    assert "" + (digits + (" " + "minutes")) == digits + " minutes";
    assert "" + ("(" + ((digits + " minutes") + ("" + ")"))) == "(" + digits + " minutes)";
    assert "(" + digits + " minutes)" + ("#" + note) == "(" + digits + " minutes)#" + note;
  }

  /** For instance, by how much one number exceeds another is more than a third. */
  lemma {:induction false} DifferenceExceeds(w: World, l: nat, m: nat, n: nat, sheet: Sheet)
    requires sheet == seq(10, _ => None)[FORMULA := Some(Decimal(l) + ("-" + (Decimal(m) + (">" + Decimal(n)))))]
    ensures var r := Check(w, sheet, FORMULA, 0, TYPE_NONE, true); r.Good? && Tells(l - m > n, r.v)
  {
    var a, b, c := Number("", Decimal(l)), Number("", Decimal(m)), Number("", Decimal(n));
    DecimalDigits(l);
    DecimalDigits(m);
    DecimalDigits(n);
    MinusAndMore();
    var e := Chained(true, a, "", Minus, "-", b, "", Gt, ">", c);
    ChainedIsProper(true, a, "", Minus, "-", b, "", Gt, ">", c);
    NumberTexts(Decimal(l), Decimal(m), Decimal(n));
    var es: Entries := seq(10, _ => Unset)[FORMULA := Holds(e, "")];
    assert Text(e) + "" == Text(e);
    OnlyFormula(e, "", Decimal(l) + ("-" + (Decimal(m) + (">" + Decimal(n)))), sheet, es);
    var x := ChainMeans(w, es, sheet, FORMULA, a, "", Minus, "-", b, "", Gt, ">", c);
    NumberMeans(w, es, FORMULA, l, "", "", "");
    NumberMeans(w, es, FORMULA, m, "", "", "");
    NumberMeans(w, es, FORMULA, n, "", "", "");
  }

  lemma {:induction false} NumberTexts(l: string, m: string, n: string)
    ensures ("" + l) + ("" + ("-" + (("" + m) + ("" + (">" + ("" + n)))))) == l + ("-" + (m + (">" + n)))
  {
    assert "" + l == l && "" + m == m && "" + n == n;
    assert "" + (">" + n) == ">" + n;
    assert "" + ("-" + (m + (">" + n))) == "-" + (m + (">" + n));
  }

  lemma {:induction false} DecimalDigits(n: nat)
    ensures Digits(Decimal(n))
  {
    if n >= 10 {
      DecimalDigits(n / 10);
    }
  }
}
