/** The formula language players screen match offers with: how a clause is read and
    evaluated, as functions of the text and the position in it. */
module Formula {
  import opened Texts

  datatype Error = Eof | Unary | BadChar | BadVar | BadOp | Nonsense | Paren

  /** The position reached and the value found, or what is wrong. */
  datatype Result = Good(i: nat, v: int) | Bad(error: Error)

  datatype Op = OpBad | OpNone | OpRtParen | Or | And | Eq | Neq | Gt | Ge | Lt | Le | Plus | Minus | Mult | Div

  const TYPE_NONE := 1
  const TYPE_PAREN := 3
  const TYPE_UNARY := 10

  /** Precedence. */
  function OpType(op: Op): (t: nat)
    ensures t < TYPE_UNARY
  {
    match op
    case OpBad => 0
    case OpNone => TYPE_NONE
    case OpRtParen => 2
    case Or => 4
    case And => 5
    case Eq => 6
    case Neq => 6
    case Gt => 7
    case Ge => 7
    case Lt => 7
    case Le => 7
    case Plus => 8
    case Minus => 8
    case Mult => 9
    case Div => 9
  }

  /** A player's nine helper clauses f1 to f9 and, last, the formula itself. */
  type Sheet = s: seq<Option<string>> | |s| == 10 witness seq(10, _ => None)

  const FORMULA := 9

  datatype GameKind = StandardGame | NonstandardGame | LightningGame | BughouseGame | UntimedGame | BlitzGame | WildGame

  /** A particular offer: its terms, what is known of the two players, and what a loss, a draw and a
      win would be worth. */
  datatype World = World(
    kind: GameKind, rated: int, wInitTime: int, bInitTime: int, wIncrement: int, bIncrement: int,
    yourRating: int, myRating: int, loss: int, draw: int, win: int,
    registered: int, timeseal: int, computer: int, closed: int, abuser: int,
    fudge: int -> int)

  /** The variable names in the order they are tried; those at MY_MAX_TIME and MAX_TIME take
      an argument. */
  const NAMES: seq<string> := [
    "registered", "ratingdiff", "assessloss", "assessdraw", "assesswin", "mymaxtime", "timeseal", "myrating",
    "computer", "standard", "private", "maxtime", "abuser", "rating", "rated", "nonstandard", "lightning",
    "bughouse", "untimed", "blitz", "wild", "time", "inc"]

  const MY_MAX_TIME := 5
  const MAX_TIME := 11

  /** What the n-th variable stands for, if it takes no argument. */
  function ValueOf(w: World, n: nat): int {
    match n
    case 0 => w.registered
    case 1 => w.yourRating - w.myRating
    case 2 => if w.rated != 0 then w.loss else 0
    case 3 => if w.rated != 0 then w.draw else 0
    case 4 => if w.rated != 0 then w.win else 0
    case 6 => w.timeseal
    case 7 => w.myRating
    case 8 => w.computer
    case 9 => Truth(w.kind == StandardGame)
    case 10 => w.closed
    case 12 => w.abuser
    case 13 => w.yourRating
    case 14 => w.rated
    case 15 => Truth(w.kind == NonstandardGame)
    case 16 => Truth(w.kind == LightningGame)
    case 17 => Truth(w.kind == BughouseGame)
    case 18 => Truth(w.kind == UntimedGame)
    case 19 => Truth(w.kind == BlitzGame)
    case 20 => Truth(w.kind == WildGame)
    case 21 => w.wInitTime
    case _ => w.wIncrement
  }

  predicate IsSpace(c: char) { 9 <= c as int <= 13 || c == ' ' }

  predicate IsDigit(c: char) { '0' <= c <= '9' }

  function Lower(c: char): char { if 'A' <= c <= 'Z' then c + (32 as char) else c }

  function SkipSpaces(s: string, i: nat): (j: nat)
    requires i <= |s|
    ensures i <= j <= |s|
    ensures j < |s| ==> !IsSpace(s[j])
    decreases |s| - i
  {
    if i < |s| && IsSpace(s[i]) then SkipSpaces(s, i + 1) else i
  }

  /** The text stands at position i, in any case. */
  predicate StandsAt(s: string, i: nat, text: string) {
    i + |text| <= |s| && StandsFrom(s, i, text, 0)
  }

  /** The text from its k-th character on stands at position i + k. */
  predicate StandsFrom(s: string, i: nat, text: string, k: nat)
    requires k <= |text| && i + |text| <= |s|
    decreases |s| - i - k
  {
    k == |text| || (Lower(s[i + k]) == Lower(text[k]) && StandsFrom(s, i, text, k + 1))
  }

  /** The spellings of the operators in the order they are tried. */
  const SPELLINGS: seq<(string, Op)> := [
    ("and", And), ("or", Or), ("||", Or), ("&&", And), ("==", Eq), ("!=", Neq), ("<>", Neq), (">=", Ge), ("=>", Ge),
    ("<=", Le), ("=<", Le), ("|", Or), ("&", And), (">", Gt), ("<", Lt), ("=", Eq), ("+", Plus), ("-", Minus),
    ("*", Mult), ("/", Div)]

  lemma {:induction false} SpellingIsOperator(n: nat)
    requires n < |SPELLINGS|
    ensures |SPELLINGS[n].0| > 0 && OpType(SPELLINGS[n].1) >= 4
  {
  }

  /** The first operator from the k-th spelling on that stands at i, and where it ends. */
  function FindSpelling(s: string, i: nat, k: nat): (r: (Op, nat))
    requires k <= |SPELLINGS| && i <= |s|
    ensures i <= r.1 <= |s|
    ensures if r.0 == OpBad then r.1 == i else OpType(r.0) >= 4 && i < r.1
    decreases |SPELLINGS| - k, |s|
  {
    if k == |SPELLINGS| then (OpBad, i)
    else if StandsAt(s, i, SPELLINGS[k].0) then
      SpellingIsOperator(k);
      (SPELLINGS[k].1, i + |SPELLINGS[k].0|)
    else FindSpelling(s, i, k + 1)
  }

  /** The operator, or what stands in for one, at a position past any space. */
  function OpAt(s: string, j: nat): (r: (Op, nat))
    requires j <= |s|
    ensures j <= r.1 <= |s|
    ensures OpType(r.0) >= 4 ==> j < r.1
  {
    if j == |s| || s[j] == '#' then (OpNone, j)
    else if s[j] == ')' then (OpRtParen, j)
    else FindSpelling(s, j, 0)
  }

  function ScanForOp(s: string, i: nat): (r: (Op, nat))
    requires i <= |s|
    ensures i <= r.1 <= |s|
    ensures OpType(r.0) >= 4 ==> i < r.1
  {
    OpAt(s, SkipSpaces(s, i))
  }

  const NO_NAME := 23

  /** The first name from the k-th on that stands at i, and where it ends. */
  function FindName(s: string, i: nat, k: nat): (r: (nat, nat))
    requires k <= NO_NAME && i <= |s|
    ensures r.0 <= NO_NAME && i <= r.1 <= |s|
    decreases NO_NAME - k, |s|
  {
    if k == NO_NAME then (NO_NAME, i)
    else if StandsAt(s, i, NAMES[k]) then (k, i + |NAMES[k]|)
    else FindName(s, i, k + 1)
  }

  /** The longest a game of so many moves can last, in seconds. */
  function MaxTime(w: World, moves: int, players: int): int {
    if w.bInitTime == w.wInitTime && w.bIncrement == w.wIncrement then
      players * (60 * w.wInitTime + moves * w.wIncrement)
      + (if w.kind != UntimedGame && w.wInitTime == 0 then 10 * players else 0)
    else if players == 2 then
      60 * (w.wInitTime + w.bInitTime) + moves * (w.wIncrement + w.bIncrement)
      + (if w.kind != UntimedGame && w.wInitTime == 0 then 10 else 0)
          + (if w.kind != UntimedGame && w.bInitTime == 0 then 10 else 0)
    else
      60 * w.bInitTime + moves * w.bIncrement + (if w.kind != UntimedGame && w.bInitTime == 0 then 10 else 0)
  }

  /** Division that truncates toward zero. */
  function Quotient(a: int, b: int): int
    requires b != 0
  {
    if a >= 0 then a / b else -((-a) / b)
  }

  function Truth(b: bool): int { if b then 1 else 0 }

  /** The value of `left op right`. */
  function Apply(w: World, op: Op, left: int, right: int): int {
    match op
    case Or => Truth(left != 0 || right != 0)
    case And => Truth(left != 0 && right != 0)
    case Eq => Truth(left == right)
    case Neq => Truth(left != right)
    case Gt => Truth(left > right)
    case Ge => Truth(left >= right)
    case Lt => Truth(left < right)
    case Le => Truth(left <= right)
    case Plus => left + right
    case Minus => left - right
    case Mult => left * right
    case Div => if right != 0 then Quotient(left, right) else w.fudge(left)
    case _ => left
  }

  /** Reads digits from i on, with a value so far. */
  function ReadDigits(s: string, i: nat, acc: int): (r: (nat, int))
    requires i <= |s|
    ensures i <= r.0 <= |s| && (i < |s| && IsDigit(s[i]) ==> i < r.0)
    decreases |s| - i
  {
    if i < |s| && IsDigit(s[i]) then ReadDigits(s, i + 1, 10 * acc + (s[i] as int - '0' as int)) else (i, acc)
  }

  function ReadNumber(s: string, i: nat): (r: (nat, int))
    requires i <= |s|
    ensures i <= r.0 <= |s|
  {
    var (j, n) := ReadDigits(s, i, 0);
    var k := SkipSpaces(s, j);
    if StandsAt(s, k, "minutes") then (k + 7, 60 * n) else (k, n)
  }

  /** A reference to a helper clause below the current one stands at i. */
  predicate ClauseAt(s: string, i: nat, clause: nat) {
    && i + 1 < |s| && Lower(s[i]) == 'f' && IsDigit(s[i + 1])
    && s[i + 1] != '0' && s[i + 1] as int - '1' as int < clause
  }

  /** The expression from i up to an operator that binds no tighter than `level`. */
  function Check(w: World, sheet: Sheet, clause: nat, i: nat, level: nat, eval: bool): (r: Result)
    requires clause < 10 && level >= TYPE_NONE && (sheet[clause].Some? ==> i <= |sheet[clause].value|)
    ensures r.Good? && sheet[clause].Some? ==> i <= r.i <= |sheet[clause].value|
    decreases clause, if sheet[clause].Some? then |sheet[clause].value| - i else 0, 4
  {
    if sheet[clause].None? then Good(i, 1)
    else
      var first := Operand(w, sheet, clause, i, level, eval);
      if first.Bad? then first else Continue(w, sheet, clause, first.i, level, eval, first.v)
  }

  /** The rest of an expression whose value so far is `token`. */
  function Continue(w: World, sheet: Sheet, clause: nat, i: nat, level: nat, eval: bool, token: int): (r: Result)
    requires clause < 10 && level >= TYPE_NONE && sheet[clause].Some? && i <= |sheet[clause].value|
    ensures r.Good? ==> i <= r.i <= |sheet[clause].value|
    decreases clause, |sheet[clause].value| - i, 3
  {
    var (op, j) := ScanForOp(sheet[clause].value, i);
    if OpType(op) > level then
      if op == OpRtParen then Bad(Paren)
      else
        var next := if eval then Binary(w, sheet, clause, j, op, token)
            else Check(w, sheet, clause, j, OpType(op), false);
        if next.Bad? then next else Continue(w, sheet, clause, next.i, level, eval, next.v)
    else if op == OpBad then Bad(BadOp)
    else Good(if op == OpNone || op == OpRtParen then j else i, token)
  }

  /** The right operand, and the value of `left op right`. */
  function Binary(w: World, sheet: Sheet, clause: nat, i: nat, op: Op, left: int): (r: Result)
    requires clause < 10 && OpType(op) > TYPE_NONE && sheet[clause].Some? && i <= |sheet[clause].value|
    ensures r.Good? ==> i <= r.i <= |sheet[clause].value|
    decreases clause, |sheet[clause].value| - i, 5
  {
    if (op == Or && left != 0) || (op == And && left == 0) then
      var right := Check(w, sheet, clause, i, OpType(op), false);
      if right.Bad? then right else Good(right.i, Truth(op == Or))
    else
      var right := Check(w, sheet, clause, i, OpType(op), true);
      if right.Bad? then right else Good(right.i, Apply(w, op, left, right.v))
  }

  function Operand(w: World, sheet: Sheet, clause: nat, i: nat, level: nat, eval: bool): (r: Result)
    requires clause < 10 && level >= TYPE_NONE && sheet[clause].Some? && i <= |sheet[clause].value|
    ensures r.Good? ==> i <= r.i <= |sheet[clause].value|
    decreases clause, |sheet[clause].value| - i, 2
  {
    var s := sheet[clause].value;
    var j := SkipSpaces(s, i);
    if j == |s| || s[j] == '#' then (if level != TYPE_NONE then Bad(Eof) else Good(j, 1))
    else if s[j] == ')' then (if level != TYPE_PAREN then Bad(Paren) else Good(j, 1))
    else if s[j] == '(' then Parens(w, sheet, clause, j, eval)
    else if s[j] == '-' || s[j] == '!' then
      if j + 1 < |s| && s[j + 1] == s[j] then Bad(Unary)
      else
        var r := Operand(w, sheet, clause, j + 1, TYPE_UNARY, eval);
        if r.Bad? then r else Good(r.i, if s[j] == '-' then -r.v else Truth(r.v == 0))
    else if IsDigit(s[j]) then
      var (k, n) := ReadNumber(s, j);
      Good(k, n)
    else if IsAlpha(s[j]) then
      Variable(w, sheet, clause, j, eval)
    else Bad(Nonsense)
  }

  function Parens(w: World, sheet: Sheet, clause: nat, i: nat, eval: bool): (r: Result)
    requires clause < 10 && sheet[clause].Some? && i <= |sheet[clause].value|
    ensures r.Good? ==> i <= r.i <= |sheet[clause].value|
    decreases clause, |sheet[clause].value| - i, 0
  {
    var s := sheet[clause].value;
    var j := SkipSpaces(s, i);
    if j == |s| || s[j] != '(' then Bad(BadChar)
    else
      var r := Check(w, sheet, clause, j + 1, TYPE_PAREN, eval);
      if r.Bad? then r else if r.i < |s| && s[r.i] == ')' then Good(r.i + 1, r.v) else Bad(Paren)
  }

  function Variable(w: World, sheet: Sheet, clause: nat, i: nat, eval: bool): (r: Result)
    requires clause < 10 && sheet[clause].Some? && i <= |sheet[clause].value|
    ensures r.Good? ==> i <= r.i <= |sheet[clause].value|
    decreases clause, |sheet[clause].value| - i, 1
  {
    var s := sheet[clause].value;
    var (n, j) := FindName(s, i, 0);
    if n != NO_NAME then
      if n == MY_MAX_TIME || n == MAX_TIME then
        var r := Parens(w, sheet, clause, j, eval);
        if r.Bad? then Bad(BadVar) else Good(r.i, MaxTime(w, r.v, if n == MY_MAX_TIME then 1 else 2))
      else Good(j, ValueOf(w, n))
    else if ClauseAt(s, i, clause) then
      var r := Check(w, sheet, s[i + 1] as int - '1' as int, 0, TYPE_NONE, eval);
      if r.Bad? then Bad(BadVar) else Good(i + 2, r.v)
    else Bad(BadVar)
  }
}
