/** Tokens are found where they are written. */
module FormulaLexing {
  import opened Texts
  import opened Formula
  import opened FormulaSyntax

  lemma {:induction false} SkipGap(s: string, i: nat, g: string)
    requires Reads(s, i, g) && Gap(g)
    ensures SkipSpaces(s, i) == SkipSpaces(s, i + |g|)
    decreases |g|
  {
    if g != "" {
      ReadsAt(s, i, g, 0);
      assert g == [g[0]] + g[1..];
      ReadsParts(s, i, [g[0]], g[1..]);
      SkipGap(s, i + 1, g[1..]);
    }
  }

  /** After skipping there is nothing left to skip. */
  lemma {:induction false} SkipTwice(s: string, i: nat)
    requires i <= |s|
    ensures SkipSpaces(s, SkipSpaces(s, i)) == SkipSpaces(s, i)
  {
  }

  lemma {:induction false} SkipOnTheWay(s: string, i: nat, j: nat)
    requires i <= |s| && i <= j <= SkipSpaces(s, i)
    ensures SkipSpaces(s, j) == SkipSpaces(s, i)
    decreases j - i
  {
    if i < j {
      SkipOnTheWay(s, i + 1, j);
    }
  }

  lemma {:induction false} DigitsRead(s: string, i: nat, d: string, acc: int)
    requires Reads(s, i, d) && (forall k :: 0 <= k < |d| ==> IsDigit(d[k]))
    requires i + |d| == |s| || !IsDigit(s[i + |d|])
    ensures ReadDigits(s, i, acc) == (i + |d|, DigitsValue(d, acc))
    decreases |d|
  {
    if d != "" {
      ReadsAt(s, i, d, 0);
      assert d == [d[0]] + d[1..];
      ReadsParts(s, i, [d[0]], d[1..]);
      DigitsRead(s, i + 1, d[1..], 10 * acc + (d[0] as int - '0' as int));
    }
  }

  lemma {:induction false} StandsIff(s: string, i: nat, text: string, k: nat)
    requires k <= |text| && i + |text| <= |s|
    ensures StandsFrom(s, i, text, k) <==> forall n :: k <= n < |text| ==> Lower(s[i + n]) == Lower(text[n])
    decreases |text| - k
  {
    if k < |text| {
      StandsIff(s, i, text, k + 1);
    }
  }

  /** A spelled word stands where it is written. */
  lemma {:induction false} SpelledStands(s: string, i: nat, word: string, text: string)
    requires Reads(s, i, word) && Spells(word, text)
    ensures StandsAt(s, i, text)
  {
    StandsIff(s, i, text, 0);
    forall k | 0 <= k < |text|
      ensures Lower(s[i + k]) == Lower(text[k])
    {
      ReadsAt(s, i, word, k);
    }
  }

  lemma {:induction false} StandsChar(s: string, i: nat, text: string, k: nat)
    requires k < |text|
    ensures StandsAt(s, i, text) ==> i + k < |s| && Lower(s[i + k]) == Lower(text[k])
  {
    if StandsAt(s, i, text) {
      StandsIff(s, i, text, 0);
    }
  }

  /** A character that neither continues nor doubles an operator. */
  predicate EndsOperator(s: string, i: nat) {
    i >= |s| || s[i] !in {'=', '<', '>', '|', '&'}
  }

  lemma {:induction false} FindFrom(s: string, i: nat, k: nat, m: nat)
    requires k <= m < |SPELLINGS| && StandsAt(s, i, SPELLINGS[m].0)
    requires forall j :: k <= j < m ==> !StandsAt(s, i, SPELLINGS[j].0)
    ensures FindSpelling(s, i, k) == (SPELLINGS[m].1, i + |SPELLINGS[m].0|)
    decreases m - k
  {
    if k < m {
      FindFrom(s, i, k + 1, m);
    }
  }

  /** An earlier spelling differs in a character, or is longer by one that ends no operator. */
  lemma {:induction false} EarlierSpelling(j: nat, m: nat)
    requires j < m < |SPELLINGS|
    ensures var a, b := SPELLINGS[j].0, SPELLINGS[m].0;
      || Lower(a[0]) != Lower(b[0])
      || (|a| == 2 && |b| == 2 && Lower(a[1]) != Lower(b[1]))
      || (|a| == 2 && |b| == 1 && Lower(a[1]) in {'=', '<', '>', '|', '&'})
  {
  }

  lemma {:induction false} SpellingSizes(k: nat)
    requires k < |SPELLINGS|
    ensures var a := SPELLINGS[k].0;
      && 1 <= |a| <= 3 && (|a| == 3 ==> k == 0)
      && !IsSpace(a[0]) && a[0] != '#' && a[0] != ')' && !IsDigit(a[0])
      && Lower(a[0]) != 'm'
  {
  }

  lemma {:induction false} StandsTwo(s: string, i: nat, text: string)
    requires text != ""
    ensures StandsAt(s, i, text) ==> i < |s| && Lower(s[i]) == Lower(text[0])
    ensures StandsAt(s, i, text) && |text| >= 2 ==> i + 1 < |s| && Lower(s[i + 1]) == Lower(text[1])
  {
    StandsChar(s, i, text, 0);
    if |text| >= 2 {
      StandsChar(s, i, text, 1);
    }
  }

  /** A spelling before the m-th does not stand where the m-th is written. */
  lemma {:induction false} NotEarlier(s: string, i: nat, word: string, j: nat, m: nat)
    requires j < m < |SPELLINGS| && Reads(s, i, word) && Spells(word, SPELLINGS[m].0) && EndsOperator(s, i + |word|)
    ensures !StandsAt(s, i, SPELLINGS[j].0)
  {
    EarlierSpelling(j, m);
    SpellingSizes(j);
    SpellingSizes(m);
    ReadsAt(s, i, word, 0);
    if |word| == 2 {
      ReadsAt(s, i, word, 1);
    }
    StandsTwo(s, i, SPELLINGS[j].0);
  }

  lemma {:induction false} SpellingFound(s: string, i: nat, word: string, m: nat)
    requires m < |SPELLINGS| && Reads(s, i, word) && Spells(word, SPELLINGS[m].0) && EndsOperator(s, i + |word|)
    ensures FindSpelling(s, i, 0) == (SPELLINGS[m].1, i + |word|)
  {
    SpelledStands(s, i, word, SPELLINGS[m].0);
    forall j | 0 <= j < m
      ensures !StandsAt(s, i, SPELLINGS[j].0)
    {
      NotEarlier(s, i, word, j, m);
    }
    FindFrom(s, i, 0, m);
  }

  /** A gap is skipped up to what is no space. */
  lemma {:induction false} SkipTo(s: string, i: nat, g: string)
    requires Reads(s, i, g) && Gap(g) && (i + |g| < |s| ==> !IsSpace(s[i + |g|]))
    ensures SkipSpaces(s, i) == i + |g|
  {
    SkipGap(s, i, g);
  }

  /** Where no stop stands, the operators are tried. */
  lemma {:induction false} ScanTries(s: string, p: nat, j: nat)
    requires p <= |s| && SkipSpaces(s, p) == j && j < |s| && s[j] != '#' && s[j] != ')'
    ensures ScanForOp(s, p) == FindSpelling(s, j, 0)
  {
  }

  /** An operator is found where it is written. */
  lemma {:induction false} OperatorFound(s: string, p: nat, gap: string, word: string, k: nat)
    requires Reads(s, p, gap) && Reads(s, p + |gap|, word) && Gap(gap) && k < |SPELLINGS|
    requires Spells(word, SPELLINGS[k].0)
    requires EndsOperator(s, p + |gap| + |word|)
    ensures ScanForOp(s, p) == (SPELLINGS[k].1, p + |gap| + |word|)
  {
    var found := (SPELLINGS[k].1, p + |gap| + |word|);
    assert FindSpelling(s, p + |gap|, 0) == found by { SpellingFound(s, p + |gap|, word, k); }
    assert ScanForOp(s, p) == FindSpelling(s, p + |gap|, 0) by { OperatorTried(s, p, gap, word, k); }
    assert ScanForOp(s, p) == found;
  }

  lemma {:induction false} OperatorTried(s: string, p: nat, gap: string, word: string, k: nat)
    requires Reads(s, p, gap) && Reads(s, p + |gap|, word) && Gap(gap) && k < |SPELLINGS|
    requires Spells(word, SPELLINGS[k].0)
    ensures ScanForOp(s, p) == FindSpelling(s, p + |gap|, 0)
  {
    OperatorAhead(s, p, gap, word, k);
    ScanTries(s, p, p + |gap|);
  }

  lemma {:induction false} OperatorAhead(s: string, p: nat, gap: string, word: string, k: nat)
    requires Reads(s, p, gap) && Reads(s, p + |gap|, word) && Gap(gap) && k < |SPELLINGS|
    requires Spells(word, SPELLINGS[k].0)
    ensures var j := p + |gap|; SkipSpaces(s, p) == j && j < |s| && s[j] != '#' && s[j] != ')'
  {
    OperatorStart(s, p + |gap|, word, k);
    SkipTo(s, p, gap);
  }

  lemma {:induction false} OperatorStart(s: string, i: nat, word: string, k: nat)
    requires Reads(s, i, word) && k < |SPELLINGS| && Spells(word, SPELLINGS[k].0)
    ensures i < |s| && !IsSpace(s[i]) && s[i] != '#' && s[i] != ')' && |SPELLINGS[k].0| == |word| && word != ""
  {
    SpellingSizes(k);
    SpelledChar(word, SPELLINGS[k].0);
    ReadsAt(s, i, word, 0);
  }

  /** In any case, the first character of an operator is neither space nor a stop. */
  lemma {:induction false} SpelledChar(word: string, text: string)
    requires Spells(word, text) && text != "" && !IsSpace(text[0]) && text[0] != '#' && text[0] != ')'
    ensures word != "" && !IsSpace(word[0]) && word[0] != '#' && word[0] != ')'
  {
    assert Lower(word[0]) == Lower(text[0]);
  }

  lemma {:induction false} NoSpellingFrom(s: string, i: nat, k: nat)
    requires k <= |SPELLINGS| && i < |s| && Lower(s[i]) == 'm'
    ensures FindSpelling(s, i, k).0 == OpBad
    decreases |SPELLINGS| - k
  {
    if k < |SPELLINGS| {
      SpellingSizes(k);
      StandsChar(s, i, SPELLINGS[k].0, 0);
      NoSpellingFrom(s, i, k + 1);
    }
  }

  /** Where an operator or a stop comes next, "minutes" does not. */
  lemma {:induction false} NoMinutes(s: string, p: nat)
    requires p <= |s| && ScanForOp(s, p).0 != OpBad
    ensures !StandsAt(s, SkipSpaces(s, p), "minutes")
  {
    var j := SkipSpaces(s, p);
    StandsChar(s, j, "minutes", 0);
    if j < |s| && Lower(s[j]) == 'm' {
      NoSpellingFrom(s, j, 0);
    }
  }

  /** A character that does not go on with a name: no letter, or the first of `and` or `or`. */
  predicate EndsName(c: char) { IsAlpha(c) ==> Lower(c) == 'a' || Lower(c) == 'o' }

  /** Two names differ early, or the earlier is the longer, and not by an operator. */
  predicate Apart(a: string, b: string) {
    && |a| >= 3 && |b| >= 3
    && (|| (|a| > |b| && a[|b|] != 'a' && a[|b|] != 'o')
        || a[0] != b[0] || a[1] != b[1] || a[2] != b[2]
        || (|a| > 3 && |b| > 3 && a[3] != b[3])
        || (|a| > 6 && |b| > 6 && a[6] != b[6]))
  }

  lemma {:induction false} EarlierName(j: nat, n: nat)
    requires j < n < NO_NAME
    ensures Apart(NAMES[j], NAMES[n])
  {
    if j < 4 {
      AmongFirst(j, n);
    } else if j < 10 {
      AmongNext(j, n);
    } else {
      AmongLast(j, n);
    }
  }

  lemma {:induction false} AmongFirst(j: nat, n: nat)
    requires j < 4 && j < n < NO_NAME
    ensures Apart(NAMES[j], NAMES[n])
  {
  }

  lemma {:induction false} AmongNext(j: nat, n: nat)
    requires 4 <= j < 10 && j < n < NO_NAME
    ensures Apart(NAMES[j], NAMES[n])
  {
  }

  lemma {:induction false} AmongLast(j: nat, n: nat)
    requires 10 <= j < n < NO_NAME
    ensures Apart(NAMES[j], NAMES[n])
  {
  }

  predicate SmallLetters(t: string) { forall i :: 0 <= i < |t| ==> 'a' <= t[i] <= 'z' }

  lemma {:induction false} NamesAreLetters(n: nat)
    requires n < NO_NAME
    ensures SmallLetters(NAMES[n]) && NAMES[n] != "" && NAMES[n][0] != 'f'
  {
  }

  lemma {:induction false} FindNameFrom(s: string, i: nat, k: nat, n: nat)
    requires i <= |s| && k <= n <= NO_NAME && (n < NO_NAME ==> StandsAt(s, i, NAMES[n]))
    requires forall j :: k <= j < n ==> !StandsAt(s, i, NAMES[j])
    ensures FindName(s, i, k) == (n, if n < NO_NAME then i + |NAMES[n]| else i)
    decreases n - k
  {
    if k < n {
      FindNameFrom(s, i, k + 1, n);
    }
  }

  /** A name before the n-th does not stand where the n-th is written in full. */
  lemma {:induction false} NotEarlierName(s: string, i: nat, word: string, j: nat, n: nat)
    requires j < n < NO_NAME && Reads(s, i, word) && Spells(word, NAMES[n])
    requires i + |word| < |s| ==> EndsName(s[i + |word|])
    ensures !StandsAt(s, i, NAMES[j])
  {
    NamesAreLetters(j);
    NamesAreLetters(n);
    EarlierName(j, n);
    SpelledStands(s, i, word, NAMES[n]);
    BothStand(s, i, NAMES[j], NAMES[n]);
    if |NAMES[j]| > |word| {
      StandsChar(s, i, NAMES[j], |word|);
    }
  }

  /** Two names that stand at the same place agree as far as both go. */
  lemma {:induction false} BothStand(s: string, i: nat, a: string, b: string)
    requires StandsAt(s, i, b) && SmallLetters(a) && SmallLetters(b)
    ensures StandsAt(s, i, a) ==> forall k :: 0 <= k < |a| && k < |b| ==> a[k] == b[k]
  {
    forall k | 0 <= k < |a| && k < |b|
      ensures StandsAt(s, i, a) ==> a[k] == b[k]
    {
      StandsChar(s, i, a, k);
      StandsChar(s, i, b, k);
    }
  }

  lemma {:induction false} NameFound(s: string, i: nat, word: string, n: nat)
    requires n < NO_NAME && Reads(s, i, word) && Spells(word, NAMES[n])
    requires i + |word| < |s| ==> EndsName(s[i + |word|])
    ensures FindName(s, i, 0) == (n, i + |word|) && word != "" && IsAlpha(s[i])
  {
    SpelledStands(s, i, word, NAMES[n]);
    NamesAreLetters(n);
    StandsChar(s, i, NAMES[n], 0);
    forall j | 0 <= j < n
      ensures !StandsAt(s, i, NAMES[j])
    {
      NotEarlierName(s, i, word, j, n);
    }
    FindNameFrom(s, i, 0, n);
  }

  /** A helper clause is not mistaken for a name. */
  lemma {:induction false} HelperIsNoName(s: string, i: nat)
    requires i < |s| && Lower(s[i]) == 'f'
    ensures FindName(s, i, 0).0 == NO_NAME
  {
    forall j | 0 <= j < NO_NAME
      ensures !StandsAt(s, i, NAMES[j])
    {
      NamesAreLetters(j);
      StandsChar(s, i, NAMES[j], 0);
    }
    FindNameFrom(s, i, 0, NO_NAME);
  }
}
