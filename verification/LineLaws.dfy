/** What is typed, key by key and in the bytes that arrive for it, and the line that comes of it. */
module LineLaws {
  import opened LineInput

  /** A character, the key that rubs out the last one, other control keys, and the telnet commands to
      erase the line, to ask whether anyone is there, to ask for two options and to speak of others, and
      commands that are not known. */
  datatype Key =
    | Char(c: Byte)
    | Rub
    | Control(c: Byte)
    | EraseLine
    | AreYouThere
    | DoTimingMark
    | DoSuppressGoAhead
    | Negotiate(verb: Byte, option: Byte)
    | Unknown(c: Byte)

  predicate IsKey(key: Key) {
    match key
    case Char(c) => 32 <= c <= 223
    case Control(c) => c < 32 && c != 8 && c != 10
    case Negotiate(verb, option) => verb in {251, 252, 254} || (verb == 253 && option != 6 && option != 3)
    case Unknown(c) => c !in {244, 246, 248, 251, 252, 253, 254}
    case _ => true
  }

  function KeyBytes(key: Key): seq<Byte> {
    match key
    case Char(c) => [c]
    case Rub => [8]
    case Control(c) => [c]
    case EraseLine => [255, 248]
    case AreYouThere => [255, 246]
    case DoTimingMark => [255, 253, 6]
    case DoSuppressGoAhead => [255, 253, 3]
    case Negotiate(verb, option) => [255, verb, option]
    case Unknown(c) => [255, c]
  }

  /** The line after the key. */
  function Shown(line: seq<Byte>, key: Key): seq<Byte> {
    match key
    case Char(c) => line + [c]
    case Rub => if |line| <= 1 then [] else line[..|line| - 1]
    case EraseLine => []
    case _ => line
  }

  /** What the server answers at once. */
  function Reply(key: Key): seq<Event> {
    match key
    case AreYouThere => [HereIAm]
    case DoTimingMark => [WillTimingMark]
    case DoSuppressGoAhead => [WillSuppressGoAhead]
    case _ => []
  }

  function Arriving(keys: seq<Key>): seq<Byte> {
    if keys == [] then [] else KeyBytes(keys[0]) + Arriving(keys[1..])
  }

  function ShownAll(line: seq<Byte>, keys: seq<Key>): seq<Byte>
    decreases |keys|
  {
    if keys == [] then line else ShownAll(Shown(line, keys[0]), keys[1..])
  }

  function Replies(keys: seq<Key>): seq<Event> {
    if keys == [] then [] else Reply(keys[0]) + Replies(keys[1..])
  }

  /** All are keys, and the line stays below 1023 characters. */
  predicate Typable(line: seq<Byte>, keys: seq<Key>)
    decreases |keys|
  {
    |line| < 1023
    && (keys == [] || (IsKey(keys[0]) && Typable(Shown(line, keys[0]), keys[1..])))
  }

  lemma {:induction false} OneByte(e: Editor, b: Byte)
    ensures Run(e, [b]) == Step(e, b)
  {
    assert [b][1..] == [] && Step(e, b).1 + [] == Step(e, b).1;
  }

  lemma {:induction false} TwoBytes(e: Editor, a: Byte, b: Byte)
    ensures var (mid, first) := Step(e, a); var (last, second) := Step(mid, b); Run(e, [a, b]) == (last, first + second)
  {
    assert [a, b] == [a] + [b];
    RunSplits(e, [a], [b]);
    OneByte(e, a);
    OneByte(Step(e, a).0, b);
  }

  lemma {:induction false} ThreeBytes(e: Editor, a: Byte, b: Byte, c: Byte)
    ensures var (mid, first) := Step(e, a); var (next, second) := Step(mid, b); var (last, third) := Step(next, c);
      Run(e, [a, b, c]) == (last, first + (second + third))
  {
    assert [a, b, c] == [a] + [b, c];
    RunSplits(e, [a], [b, c]);
    OneByte(e, a);
    TwoBytes(Step(e, a).0, b, c);
  }

  /** Between keys the editor takes data. */
  predicate Ready(e: Editor, line: seq<Byte>) { (e.mode == Clean || e.mode == Moved) && e.line == line
      && |line| < 1023 }

  /** The bytes of a key do to the line what the key should. */
  lemma {:induction false} KeyIsEdited(e: Editor, line: seq<Byte>, key: Key)
    requires Ready(e, line) && IsKey(key) && |Shown(line, key)| < 1023
    ensures var (after, events) := Run(e, KeyBytes(key)); Ready(after, Shown(line, key)) && events == Reply(key)
  {
    match key
    case Char(c) => OneByte(e, c);
    case Rub => OneByte(e, 8);
    case Control(c) => OneByte(e, c);
    case EraseLine => TwoBytes(e, 255, 248);
    case AreYouThere => TwoBytes(e, 255, 246);
    case DoTimingMark => ThreeBytes(e, 255, 253, 6);
    case DoSuppressGoAhead => ThreeBytes(e, 255, 253, 3);
    case Negotiate(verb, option) => ThreeBytes(e, 255, verb, option);
    case Unknown(c) => TwoBytes(e, 255, c);
  }

  lemma {:induction false} KeysAreEdited(e: Editor, line: seq<Byte>, keys: seq<Key>)
    requires Ready(e, line) && Typable(line, keys)
    ensures var (after, events) := Run(e, Arriving(keys)); Ready(after, ShownAll(line, keys)) && events == Replies(keys)
    decreases |keys|
  {
    if keys != [] {
      var now := Shown(line, keys[0]);
      KeyIsEdited(e, line, keys[0]);
      KeysAreEdited(Run(e, KeyBytes(keys[0])).0, now, keys[1..]);
      RunSplits(e, KeyBytes(keys[0]), Arriving(keys[1..]));
    }
  }

  /** A newline behind any keys delivers the line they leave, behind the replies they ask for. */
  lemma {:induction false} LineOfKeys(keys: seq<Key>)
    requires Typable([], keys)
    ensures Run(START.editor, Arriving(keys) + [10])
         == (START.editor, Replies(keys) + [Line(ShownAll([], keys))])
  {
    KeysAreEdited(START.editor, [], keys);
    RunSplits(START.editor, Arriving(keys), [10]);
    OneByte(Run(START.editor, Arriving(keys)).0, 10);
  }

  /** The command to interrupt logs out, whatever was typed before. */
  lemma {:induction false} InterruptLogsOut(keys: seq<Key>)
    requires Typable([], keys)
    ensures Run(START.editor, Arriving(keys) + [255, 244]).1 == Replies(keys) + [Logout]
  {
    KeysAreEdited(START.editor, [], keys);
    RunSplits(START.editor, Arriving(keys), [255, 244]);
    TwoBytes(Run(START.editor, Arriving(keys)).0, 255, 244);
  }

  function Chars(t: seq<Byte>): seq<Key> { seq(|t|, k requires 0 <= k < |t| => Char(t[k])) }

  predicate Visible(t: seq<Byte>) { |t| < 1023 && forall k :: 0 <= k < |t| ==> 32 <= t[k] <= 223 }

  lemma {:induction false} CharsShow(line: seq<Byte>, t: seq<Byte>)
    requires |line| + |t| < 1023 && Visible(t)
    ensures Arriving(Chars(t)) == t && ShownAll(line, Chars(t)) == line + t && Replies(Chars(t)) == []
    ensures Typable(line, Chars(t))
    decreases |t|
  {
    if t == [] {
      assert line + t == line;
    } else {
      assert Chars(t)[1..] == Chars(t[1..]) && Chars(t)[0] == Char(t[0]);
      CharsShow(line + [t[0]], t[1..]);
      assert line + [t[0]] + t[1..] == line + t && [t[0]] + t[1..] == t;
    }
  }

  lemma {:induction false} Regrouped<T>(a: seq<T>, b: seq<T>, c: seq<T>)
    ensures a + b + c == a + (b + c)
  {
  }

  lemma {:induction false} BytesJoin(a: seq<Key>, b: seq<Key>)
    ensures Arriving(a + b) == Arriving(a) + Arriving(b)
    decreases |a|
  {
    if a == [] {
      assert a + b == b && [] + Arriving(b) == Arriving(b);
    } else {
      assert (a + b)[1..] == a[1..] + b;
      BytesJoin(a[1..], b);
      Regrouped(KeyBytes(a[0]), Arriving(a[1..]), Arriving(b));
    }
  }

  lemma {:induction false} RepliesJoin(a: seq<Key>, b: seq<Key>)
    ensures Replies(a + b) == Replies(a) + Replies(b)
    decreases |a|
  {
    if a == [] {
      assert a + b == b && [] + Replies(b) == Replies(b);
    } else {
      assert (a + b)[1..] == a[1..] + b;
      RepliesJoin(a[1..], b);
      Regrouped(Reply(a[0]), Replies(a[1..]), Replies(b));
    }
  }

  lemma {:induction false} LinesJoin(line: seq<Byte>, a: seq<Key>, b: seq<Key>)
    ensures ShownAll(line, a + b) == ShownAll(ShownAll(line, a), b)
    ensures Typable(line, a + b) <==> Typable(line, a) && Typable(ShownAll(line, a), b)
    decreases |a|
  {
    if a == [] {
      assert a + b == b;
    } else {
      assert (a + b)[1..] == a[1..] + b;
      LinesJoin(Shown(line, a[0]), a[1..], b);
    }
  }

  /** More keys. */
  lemma {:induction false} KeysJoin(line: seq<Byte>, a: seq<Key>, b: seq<Key>)
    ensures Arriving(a + b) == Arriving(a) + Arriving(b) && Replies(a + b) == Replies(a) + Replies(b)
    ensures ShownAll(line, a + b) == ShownAll(ShownAll(line, a), b)
    ensures Typable(line, a + b) <==> Typable(line, a) && Typable(ShownAll(line, a), b)
  {
    BytesJoin(a, b);
    RepliesJoin(a, b);
    LinesJoin(line, a, b);
  }

  lemma {:induction false} OneKey(line: seq<Byte>, key: Key)
    ensures Arriving([key]) == KeyBytes(key) && Replies([key]) == Reply(key)
    ensures ShownAll(line, [key]) == Shown(line, key)
    ensures Typable(line, [key]) <==> |line| < 1023 && IsKey(key) && |Shown(line, key)| < 1023
  {
    assert [key][1..] == [] && KeyBytes(key) + [] == KeyBytes(key) && Reply(key) + [] == Reply(key);
  }

  /** A text, a key and another text. */
  lemma {:induction false} TextKeyText(t: seq<Byte>, key: Key, u: seq<Byte>) returns (keys: seq<Key>)
    requires Visible(t) && Visible(u) && IsKey(key) && |Shown(t, key)| + |u| < 1023
    ensures Typable([], keys) && Arriving(keys) == t + KeyBytes(key) + u
    ensures ShownAll([], keys) == Shown(t, key) + u && Replies(keys) == Reply(key)
  {
    keys := Chars(t) + [key] + Chars(u);
    KeysJoin([], Chars(t) + [key], Chars(u));
    KeysJoin([], Chars(t), [key]);
    CharsShow([], t);
    OneKey(t, key);
    CharsShow(Shown(t, key), u);
    assert [] + t == t && [] + Reply(key) + [] == Reply(key);
  }

  /** Texts come out as they are. */
  lemma {:induction false} TextIsLine(t: seq<Byte>)
    requires Visible(t)
    ensures Run(START.editor, t + [10]).1 == [Line(t)]
  {
    CharsShow([], t);
    LineOfKeys(Chars(t));
    assert [] + t == t && [] + [Line(t)] == [Line(t)];
  }

  /** A backspace rubs out the last character, and no more. */
  lemma {:induction false} LastIsRubbedOut(t: seq<Byte>, u: seq<Byte>)
    requires 0 < |t| && Visible(t) && Visible(u) && |t| + |u| < 1023
    ensures Run(START.editor, t + [8] + u + [10]).1 == [Line(t[..|t| - 1] + u)]
  {
    var rubbed := TextKeyText(t, Rub, u);
    LineOfKeys(rubbed);
    assert |t| == 1 ==> t[..|t| - 1] == [];
    assert [] + [Line(t[..|t| - 1] + u)] == [Line(t[..|t| - 1] + u)];
  }

  /** The command to erase the line does so. */
  lemma {:induction false} LineIsErased(t: seq<Byte>, u: seq<Byte>)
    requires Visible(t) && Visible(u)
    ensures Run(START.editor, t + [255, 248] + u + [10]).1 == [Line(u)]
  {
    var erased := TextKeyText(t, EraseLine, u);
    LineOfKeys(erased);
    assert [] + u == u && [] + [Line(u)] == [Line(u)];
  }

  lemma {:induction false} KeyIsAnswered(t: seq<Byte>, key: Key, u: seq<Byte>, answer: Event)
    requires Visible(t) && Visible(u) && |t| + |u| < 1023 && IsKey(key)
    requires Shown(t, key) == t && Reply(key) == [answer]
    ensures Run(START.editor, t + KeyBytes(key) + u + [10]).1 == [answer, Line(t + u)]
  {
    var keys := TextKeyText(t, key, u);
    LineOfKeys(keys);
  }

  /** Requests are answered, and the line goes on behind them. */
  lemma {:induction false} RequestsAreAnswered(t: seq<Byte>, u: seq<Byte>)
    requires Visible(t) && Visible(u) && |t| + |u| < 1023
    ensures Run(START.editor, t + [255, 253, 6] + u + [10]).1 == [WillTimingMark, Line(t + u)]
    ensures Run(START.editor, t + [255, 253, 3] + u + [10]).1 == [WillSuppressGoAhead, Line(t + u)]
    ensures Run(START.editor, t + [255, 246] + u + [10]).1 == [HereIAm, Line(t + u)]
  {
    KeyIsAnswered(t, DoTimingMark, u, WillTimingMark);
    KeyIsAnswered(t, DoSuppressGoAhead, u, WillSuppressGoAhead);
    KeyIsAnswered(t, AreYouThere, u, HereIAm);
  }

  /** A text of 1023 characters is delivered without a newline. */
  lemma {:induction false} FullLineIsDelivered(t: seq<Byte>, c: Byte)
    requires Visible(t) && |t| == 1022 && 32 <= c <= 223
    ensures Run(START.editor, t + [c]) == (START.editor, [Line(t + [c])])
  {
    CharsShow([], t);
    KeysAreEdited(START.editor, [], Chars(t));
    assert [] + t == t;
    RunSplits(START.editor, t, [c]);
    OneByte(Run(START.editor, t).0, c);
    assert [] + [Line(t + [c])] == [Line(t + [c])];
  }
}
