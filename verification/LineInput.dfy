/** Line input: bytes as they arrive, telnet commands among them, are edited into lines.
    First the editor as a machine that takes one byte at a time. */
module LineInput {
  type Byte = b: int | 0 <= b < 256

  const LIMIT := 1023

  const NEWLINE := 10
  const BACKSPACE := 8
  const IAC := 255
  const DONT := 254
  const DO := 253
  const WONT := 252
  const WILL := 251
  const EL := 248
  const AYT := 246
  const IP := 244
  const TELOPT_TM := 6
  const TELOPT_SGA := 3

  /** Clean and Moved take data; the others are within a telnet command. */
  datatype Mode = Clean | Iac | Moved | Skip | Do | Closed

  datatype Event = Line(text: seq<Byte>) | HereIAm | WillTimingMark | WillSuppressGoAhead | Logout

  datatype Editor = Editor(line: seq<Byte>, mode: Mode)

  /** Lines come to an end, and so may the connection. */
  predicate Ends(event: Event) { event.Line? || event.Logout? }

  function WithoutLast(line: seq<Byte>): seq<Byte> { if line == [] then [] else line[..|line| - 1] }

  /** A byte of data; those above 0xDF are kept only behind something that was left out. */
  function Data(e: Editor, b: Byte): (Editor, seq<Event>) {
    if b == IAC then (e.(mode := Iac), [])
    else if b == NEWLINE then (Editor([], Clean), [Line(e.line)])
    else if b == BACKSPACE then (Editor(WithoutLast(e.line), Moved), [])
    else if b < 0x20 || (e.mode == Clean && b > 0xDF) then (e.(mode := Moved), [])
    else (e.(line := e.line + [b]), [])
  }

  function Command(e: Editor, b: Byte): (Editor, seq<Event>) {
    if b == IP then (e.(mode := Closed), [Logout])
    else if b == DO then (e.(mode := Do), [])
    else if b == WILL || b == DONT || b == WONT then (e.(mode := Skip), [])
    else if b == AYT then (e.(mode := Moved), [HereIAm])
    else if b == EL then (Editor([], Moved), [])
    else (e.(mode := Moved), [])
  }

  function Requested(b: Byte): seq<Event> {
    if b == TELOPT_TM then [WillTimingMark] else if b == TELOPT_SGA then [WillSuppressGoAhead] else []
  }

  /** One byte, but for the limit on a line. */
  function Edit(e: Editor, b: Byte): (Editor, seq<Event>) {
    match e.mode
    case Clean => Data(e, b)
    case Moved => Data(e, b)
    case Iac => Command(e, b)
    case Skip => (e.(mode := Moved), [])
    case Do => (e.(mode := Moved), Requested(b))
    case Closed => (e, [])
  }

  /** One byte; a line that has reached the limit ends right there. */
  function Step(e: Editor, b: Byte): (Editor, seq<Event>) {
    var (next, events) := Edit(e, b);
    if |next.line| == LIMIT then (Editor([], Clean), events + [Line(next.line)]) else (next, events)
  }

  /** All the bytes. */
  function Run(e: Editor, input: seq<Byte>): (r: (Editor, seq<Event>))
    decreases |input|
  {
    if input == [] then (e, [])
    else
      var (next, events) := Step(e, input[0]);
      var (last, more) := Run(next, input[1..]);
      (last, events + more)
  }

  /** The events of a byte end a line or the connection. */
  predicate Stops(events: seq<Event>) { events != [] && Ends(events[|events| - 1]) }

  /** The bytes up to one that ends a line or the connection: the editor then, the events
      and the bytes left. */
  function RunToEnd(e: Editor, input: seq<Byte>): (r: (Editor, seq<Event>, seq<Byte>))
    ensures |r.2| <= |input|
    decreases |input|
  {
    if input == [] then (e, [], [])
    else
      var (next, events) := Step(e, input[0]);
      if Stops(events) then (next, events, input[1..])
      else
        var (last, more, rest) := RunToEnd(next, input[1..]);
        (last, events + more, rest)
  }

  /** The editor between calls, and the bytes behind the last line that wait to be looked at. */
  datatype Conn = Conn(editor: Editor, waiting: seq<Byte>)

  const START := Conn(Editor([], Clean), [])

  function Settled(e: Editor): Editor { if e.mode == Moved then e.(mode := Clean) else e }

  /** The room left in the buffer between calls. */
  function Room(c: Conn): nat {
    var held := |c.editor.line| + |c.waiting|;
    if held <= LIMIT then LIMIT - held else 0
  }

  /** Everything there is to look at fits into the room: bytes that waited count twice. */
  predicate Fits(c: Conn, received: seq<Byte>) { |c.waiting| + |received| <= Room(c) }

  /** What is looked at in a call; the rest is thrown away. */
  function Looked(c: Conn, received: seq<Byte>): (r: seq<Byte>) {
    var all := c.waiting + received;
    if |all| >= Room(c) then all[..Room(c)] else all
  }

  /** Nothing is thrown away exactly when everything fits. */
  lemma {:induction false} NothingLostIff(c: Conn, received: seq<Byte>)
    ensures Looked(c, received) == c.waiting + received <==> Fits(c, received)
  {
    var all := c.waiting + received;
    assert |all| >= Room(c) ==> all[..Room(c)] == all || |all| > Room(c);
  }

  /** One call. */
  function Call(c: Conn, received: seq<Byte>): (Conn, seq<Event>) {
    var (e, events, rest) := RunToEnd(c.editor, Looked(c, received));
    (Conn(Settled(e), rest), events)
  }

  function Calls(c: Conn, chunks: seq<seq<Byte>>): (Conn, seq<Event>)
    decreases |chunks|
  {
    if chunks == [] then (c, [])
    else
      var (next, events) := Call(c, chunks[0]);
      var (last, more) := Calls(next, chunks[1..]);
      (last, events + more)
  }

  predicate AllFit(c: Conn, chunks: seq<seq<Byte>>)
    decreases |chunks|
  {
    chunks == [] || (Fits(c, chunks[0]) && AllFit(Call(c, chunks[0]).0, chunks[1..]))
  }

  function Flatten(chunks: seq<seq<Byte>>): seq<Byte> {
    if chunks == [] then [] else chunks[0] + Flatten(chunks[1..])
  }

  /** Outside of telnet commands no byte is above 0xDF. */
  predicate Plain(e: Editor, input: seq<Byte>)
    decreases |input|
  {
    input == []
    || ((e.mode == Clean || e.mode == Moved ==> input[0] <= 0xDF || input[0] == IAC)
        && Plain(Step(e, input[0]).0, input[1..]))
  }

  /** The same but for whether something was left out before. */
  predicate Alike(e: Editor, f: Editor) { Settled(e) == Settled(f) }

  lemma {:induction false} RunSplits(e: Editor, a: seq<Byte>, b: seq<Byte>)
    ensures var (mid, first) := Run(e, a); var (last, second) := Run(mid, b); Run(e, a + b) == (last, first + second)
    decreases |a|
  {
    if a == [] {
      assert a + b == b && [] + Run(e, b).1 == Run(e, b).1;
    } else {
      assert (a + b)[1..] == a[1..] + b;
      var (next, events) := Step(e, a[0]);
      RunSplits(next, a[1..], b);
      var (mid, first) := Run(next, a[1..]);
      assert events + first + Run(mid, b).1 == events + (first + Run(mid, b).1);
    }
  }

  lemma {:induction false} PlainSplits(e: Editor, a: seq<Byte>, b: seq<Byte>)
    ensures Plain(e, a + b) <==> Plain(e, a) && Plain(Run(e, a).0, b)
    decreases |a|
  {
    if a == [] {
      assert a + b == b;
    } else {
      assert (a + b)[1..] == a[1..] + b;
      PlainSplits(Step(e, a[0]).0, a[1..], b);
    }
  }

  /** Having left something out makes no difference to plain input. */
  lemma {:induction false} RunAlike(e: Editor, f: Editor, input: seq<Byte>)
    requires Alike(e, f) && Plain(e, input)
    ensures Plain(f, input) && Run(e, input).1 == Run(f, input).1 && Alike(Run(e, input).0, Run(f, input).0)
    decreases |input|
  {
    if input != [] {
      RunAlike(Step(e, input[0]).0, Step(f, input[0]).0, input[1..]);
    }
  }

  /** Stopping at an end and going on later is going on. */
  lemma {:induction false} RunResumes(e: Editor, input: seq<Byte>) returns (done: seq<Byte>)
    ensures var (mid, events, rest) := RunToEnd(e, input); input == done + rest && Run(e, done) == (mid, events)
    decreases |input|
  {
    if input == [] {
      done := [];
    } else {
      var (next, events) := Step(e, input[0]);
      if Stops(events) {
        done := [input[0]];
        assert done[1..] == [] && events + [] == events;
      } else {
        done := RunResumes(next, input[1..]);
        var tail := done;
        done := [input[0]] + tail;
        assert done[1..] == tail;
      }
    }
  }

  /** One call that throws nothing away. */
  lemma {:induction false} CallKeepsRun(c: Conn, received: seq<Byte>, later: seq<Byte>, all: seq<Byte>)
    requires all == c.waiting + received + later && Fits(c, received) && Plain(c.editor, all)
    ensures var (next, events) := Call(c, received);
      && Plain(next.editor, next.waiting + later)
      && Run(c.editor, all).1 == events + Run(next.editor, next.waiting + later).1
      && Alike(Run(c.editor, all).0, Run(next.editor, next.waiting + later).0)
  {
    var input := c.waiting + received;
    NothingLostIff(c, received);
    var (mid, events, rest) := RunToEnd(c.editor, input);
    var done := RunResumes(c.editor, input);
    assert all == input + later == done + (rest + later);
    RunSplits(c.editor, done, rest + later);
    PlainSplits(c.editor, done, rest + later);
    RunAlike(mid, Settled(mid), rest + later);
  }

  lemma {:induction false} Regroup(a: seq<Event>, b: seq<Event>, c: seq<Event>)
    ensures a + b + c == a + (b + c)
  {
  }

  /** Whatever the calls deliver, with what is still waiting it is what the editor makes of all
      the bytes one by one. */
  lemma {:induction false} CallsKeepRun(c: Conn, chunks: seq<seq<Byte>>)
    requires AllFit(c, chunks) && Plain(c.editor, c.waiting + Flatten(chunks))
    ensures var (last, events) := Calls(c, chunks);
      && events + Run(last.editor, last.waiting).1 == Run(c.editor, c.waiting + Flatten(chunks)).1
      && Alike(Run(last.editor, last.waiting).0, Run(c.editor, c.waiting + Flatten(chunks)).0)
    decreases |chunks|
  {
    if chunks == [] {
      assert c.waiting + Flatten(chunks) == c.waiting;
    } else {
      var next := Call(c, chunks[0]).0;
      FirstCallKeepsRun(c, chunks);
      CallsKeepRun(next, chunks[1..]);
      Regroup(Call(c, chunks[0]).1, Calls(next, chunks[1..]).1,
          Run(Calls(c, chunks).0.editor, Calls(c, chunks).0.waiting).1);
    }
  }

  /** The first of the calls. */
  lemma {:induction false} FirstCallKeepsRun(c: Conn, chunks: seq<seq<Byte>>)
    requires chunks != [] && AllFit(c, chunks) && Plain(c.editor, c.waiting + Flatten(chunks))
    ensures var (next, events) := Call(c, chunks[0]); var later := next.waiting + Flatten(chunks[1..]);
      && Plain(next.editor, later)
      && Run(c.editor, c.waiting + Flatten(chunks)).1 == events + Run(next.editor, later).1
      && Alike(Run(c.editor, c.waiting + Flatten(chunks)).0, Run(next.editor, later).0)
  {
    var later, all := Flatten(chunks[1..]), c.waiting + Flatten(chunks);
    assert all == c.waiting + chunks[0] + later;
    CallKeepsRun(c, chunks[0], later, all);
  }

  /** The same bytes, cut up in two ways: once all are looked at, the same was delivered and
      the same line begun. */
  lemma {:induction false} CutsDoNotMatter(c: Conn, a: seq<seq<Byte>>, b: seq<seq<Byte>>)
    requires Flatten(a) == Flatten(b) && AllFit(c, a) && AllFit(c, b) && Plain(c.editor, c.waiting + Flatten(a))
    requires Calls(c, a).0.waiting == [] && Calls(c, b).0.waiting == []
    ensures Calls(c, a).1 == Calls(c, b).1 && Alike(Calls(c, a).0.editor, Calls(c, b).0.editor)
  {
    CallsKeepRun(c, a);
    CallsKeepRun(c, b);
    assert Run(Calls(c, a).0.editor, []).1 == [] && Run(Calls(c, b).0.editor, []).1 == [];
    assert Calls(c, a).1 + [] == Calls(c, a).1 && Calls(c, b).1 + [] == Calls(c, b).1;
  }

  /** After something was left out, a byte is dealt with as between calls exactly when it is no
      data byte above 0xDF: those bytes, and no others, see the difference. */
  lemma {:induction false} HighBytesTell(e: Editor, b: Byte)
    requires e.mode == Moved && |e.line| < LIMIT
    ensures Step(e, b).1 == Step(Settled(e), b).1 && Alike(Step(e, b).0, Step(Settled(e), b).0)
      <==> !(0xDF < b < IAC)
  {
  }

  lemma {:induction false} CallFromStart(b: Byte, next: Editor, tail: seq<Byte>, events: seq<Event>)
    requires |tail| < LIMIT && Step(START.editor, b) == (next, []) && RunToEnd(next, tail) == (START.editor, events, [])
    ensures Call(START, [b] + tail) == (START, events)
  {
    NothingLostIff(START, [b] + tail);
    assert ([b] + tail)[1..] == tail && [] + ([b] + tail) == [b] + tail && [] + events == events;
  }

  /** A byte above 0xDF and a newline, together and when something was left out before. */
  lemma {:induction false} HighByteAndNewline()
    ensures var rest: seq<Byte> := [0xE9, NEWLINE];
      && RunToEnd(Editor([], Moved), rest) == (START.editor, [Line([0xE9])], [])
      && Call(START, rest) == (START, [Line([])])
  {
    var moved, kept := Editor([], Moved), Editor([0xE9], Moved);
    var rest: seq<Byte>, end: seq<Byte> := [0xE9, NEWLINE], [NEWLINE];
    assert rest[1..] == end && end[1..] == [] && [] + [0xE9] == kept.line
        && [] + [Line(kept.line)] == [Line(kept.line)];
    assert Step(moved, 0xE9) == (kept, []) && Step(kept, NEWLINE) == (START.editor, [Line([0xE9])]);
    assert RunToEnd(kept, end) == (START.editor, [Line([0xE9])], []);
    assert Step(START.editor, 0xE9) == (moved, []) && Step(moved, NEWLINE) == (START.editor, [Line([])]);
    assert RunToEnd(moved, end) == (START.editor, [Line([])], []);
    CallFromStart(0xE9, moved, end, [Line([])]);
    assert rest == [0xE9] + end;
  }

  /** A backspace alone is forgotten by the next call. */
  lemma {:induction false} BackspaceAlone()
    ensures Call(START, [BACKSPACE]) == (START, [])
  {
    var moved := Editor([], Moved);
    var none: seq<Byte>, silent: seq<Event> := [], [];
    assert Step(START.editor, BACKSPACE) == (moved, []) && silent + silent == silent;
    assert [BACKSPACE][1..] == none && none + [BACKSPACE] == [BACKSPACE];
    assert RunToEnd(moved, none) == (moved, [], none) && RunToEnd(START.editor, [BACKSPACE]) == (moved, [], none);
  }

  /** Above 0xDF cuts do matter: after a backspace such a byte is kept in the same call, but
      not in the next one. */
  lemma {:induction false} CutsMatterAboveDF()
    ensures Calls(START, [[BACKSPACE, 0xE9, NEWLINE]]).1 == [Line([0xE9])]
    ensures Calls(START, [[BACKSPACE], [0xE9, NEWLINE]]).1 == [Line([])]
  {
    var all: seq<Byte>, rest: seq<Byte> := [BACKSPACE, 0xE9, NEWLINE], [0xE9, NEWLINE];
    HighByteAndNewline();
    BackspaceAlone();
    assert all == [BACKSPACE] + rest && Step(START.editor, BACKSPACE) == (Editor([], Moved), []);
    CallFromStart(BACKSPACE, Editor([], Moved), rest, [Line([0xE9])]);
    var whole: seq<seq<Byte>>, apart: seq<seq<Byte>>, last: seq<seq<Byte>> := [all], [[BACKSPACE], rest], [rest];
    assert whole[1..] == [] && apart[1..] == last && last[1..] == [];
    assert Calls(START, last).1 == [Line([])];
  }

  /** A line in the making: no control characters, and not yet at the limit. */
  predicate IsText(line: seq<Byte>) { forall k :: 0 <= k < |line| ==> line[k] >= 0x20 }

  predicate LinesAreText(events: seq<Event>) {
    forall k :: 0 <= k < |events| && events[k].Line? ==> IsText(events[k].text) && |events[k].text| <= LIMIT
  }

  lemma {:induction false} StepKeepsText(e: Editor, b: Byte)
    requires IsText(e.line) && |e.line| < LIMIT
    ensures var (next, events) := Step(e, b); IsText(next.line) && |next.line| < LIMIT && LinesAreText(events)
  {
  }

  /** Whatever arrives, what is delivered are lines without control characters, within the limit. */
  lemma {:induction false} RunKeepsText(e: Editor, input: seq<Byte>)
    requires IsText(e.line) && |e.line| < LIMIT
    ensures var (last, events) := Run(e, input); IsText(last.line) && |last.line| < LIMIT && LinesAreText(events)
    decreases |input|
  {
    if input != [] {
      StepKeepsText(e, input[0]);
      RunKeepsText(Step(e, input[0]).0, input[1..]);
    }
  }

  function Prepend(events: seq<Event>, r: (Editor, seq<Event>, seq<Byte>)): (Editor, seq<Event>, seq<Byte>) {
    (r.0, events + r.1, r.2)
  }

  /** What will come of the rest of a buffer: a line at the limit is delivered. */
  function Outlook(e: Editor, rest: seq<Byte>): (Editor, seq<Event>, seq<Byte>) {
    if |e.line| == LIMIT then (Editor([], Clean), [Line(e.line)], []) else RunToEnd(e, rest)
  }

  lemma {:induction false} OutlookStep(e: Editor, rest: seq<Byte>)
    requires rest != [] && |e.line| + |rest| <= LIMIT && !Stops(Edit(e, rest[0]).1)
    ensures var (next, events) := Edit(e, rest[0]); Outlook(e, rest) == Prepend(events, Outlook(next, rest[1..]))
  {
  }

  predicate TakesData(e: Editor) { e.mode == Clean || e.mode == Moved }

  /** The byte ends neither the line nor the connection. */
  predicate Quiet(e: Editor, b: Byte) { if e.mode == Iac then b != IP else TakesData(e) ==> b != NEWLINE }

  /** After one more byte, with the replies sent so far, the outcome in view is the same. */
  lemma {:induction false} OutlookKept(goal: (Editor, seq<Event>, seq<Byte>), sent: seq<Event>, e: Editor,
      rest: seq<Byte>)
    requires rest != [] && |e.line| + |rest| <= LIMIT && e.mode != Closed && Quiet(e, rest[0])
    requires goal == Prepend(sent, Outlook(e, rest))
    ensures var (next, events) := Edit(e, rest[0]); goal == Prepend(sent + events, Outlook(next, rest[1..]))
  {
    var (next, events) := Edit(e, rest[0]);
    OutlookStep(e, rest);
    Regroup(sent, events, Outlook(next, rest[1..]).1);
  }

  /** A newline is the last byte looked at. */
  lemma {:induction false} OutlookLine(goal: (Editor, seq<Event>, seq<Byte>), sent: seq<Event>, e: Editor,
      rest: seq<Byte>)
    requires rest != [] && |e.line| < LIMIT && TakesData(e) && rest[0] == NEWLINE
    requires goal == Prepend(sent, Outlook(e, rest))
    ensures goal == (Editor([], Clean), sent + [Line(e.line)], rest[1..])
  {
  }

  /** So is the command to log out. */
  lemma {:induction false} OutlookLogout(goal: (Editor, seq<Event>, seq<Byte>), sent: seq<Event>, e: Editor,
      rest: seq<Byte>)
    requires rest != [] && |e.line| < LIMIT && e.mode == Iac && rest[0] == IP
    requires goal == Prepend(sent, Outlook(e, rest))
    ensures goal.1 == sent + [Logout]
  {
  }

  /** At the beginning of a call its outcome is in view. */
  lemma {:induction false} CallInView(c: Conn, bytes: seq<Byte>)
    requires |c.editor.line| < LIMIT
    ensures var goal := RunToEnd(c.editor, Looked(c, bytes));
      && goal == Prepend([], Outlook(c.editor, Looked(c, bytes)))
      && Call(c, bytes) == (Conn(Settled(goal.0), goal.2), goal.1)
  {
    var goal := RunToEnd(c.editor, Looked(c, bytes));
    assert [] + goal.1 == goal.1;
  }
}
