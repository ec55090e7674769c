/** Reading a line in place: one buffer holds the line so far, the bytes to look at and,
    in the end, whatever came behind the line. */
module LineReader {
  import opened LineInput

  datatype Received = Bytes(bytes: seq<Byte>) | NothingYet | Gone

  datatype Outcome = Incomplete | Complete(com: seq<Byte>) | LoggedOut | Disconnected

  /** What a call delivers besides replies. */
  function Delivered(outcome: Outcome): seq<Event> {
    match outcome
    case Incomplete => []
    case Complete(com) => [Line(com)]
    case LoggedOut => [Logout]
    case Disconnected => []
  }

  class Connection {
    const inBuf: array<Byte>
    var state: Mode
    var numPending: nat
    var processed: bool

    predicate Valid()
      reads this
    {
      && inBuf.Length == LIMIT + 2 && numPending < LIMIT && state != Moved && state != Closed
      && (!processed ==> state == Clean)
    }

    /** The connection as its caller may think of it. */
    function Abstract(): Conn
      requires Valid()
      reads this, inBuf
    {
      if processed then Conn(Editor(inBuf[..numPending], state), [])
      else Conn(Editor([], Clean), inBuf[..numPending])
    }

    constructor ()
      ensures Valid() && fresh(inBuf) && Abstract() == START
    {
      inBuf := new Byte[LIMIT + 2](_ => 0);
      state, numPending, processed := Clean, 0, false;
    }

    /** The editor's line is in the buffer: up to s while nothing was left out, else up to d. */
    predicate Shows(e: Editor, s: nat, d: nat)
      requires s <= inBuf.Length
      reads inBuf
    {
      if e.mode == Clean then inBuf[..s] == e.line else d <= s && inBuf[..d] == e.line
    }

    /** Looks at the byte at s, if it ends neither line nor connection. */
    method Look(s: nat, d: nat, mode: Mode, more: nat, ghost e: Editor)
      returns (ghost next: Editor, after: Mode, newD: nat, reply: seq<Event>)
      requires inBuf.Length == LIMIT + 2 && s + 1 + more <= LIMIT && mode != Closed && e.mode == mode && Shows(e, s, d)
      requires Quiet(e, inBuf[s])
      modifies inBuf
      ensures inBuf[s + 1..s + 1 + more] == old(inBuf[s..s + 1 + more])[1..]
      ensures (next, reply) == Edit(e, old(inBuf[s])) && next.mode == after != Closed && Shows(next, s + 1, newD)
    {
      var b := inBuf[s];
      after, newD, reply, next := mode, d, [], Edit(e, b).0;
      match mode
      case Clean =>
        if b == IAC {
          newD, after := s, Iac;
        } else if b == BACKSPACE {
          newD, after := if s > 0 then s - 1 else s, Moved;
        } else if b > 0xFF - 0x20 || b < 0x20 {
          newD, after := s, Moved;
        }
      case Iac =>
        if b == DO {
          after := Do;
        } else if b == WILL || b == DONT || b == WONT {
          after := Skip;
        } else if b == AYT {
          after, reply := Moved, [HereIAm];
        } else if b == EL {
          newD, after := 0, Moved;
        } else {
          after := Moved;
        }
      case Moved =>
        if b == IAC {
          after := Iac;
        } else if b == BACKSPACE {
          if d > 0 {
            newD := d - 1;
          }
        } else if b >= 0x20 {
          inBuf[d] := b;
          newD := d + 1;
        }
      case Skip =>
        after := Moved;
      case Do =>
        if b == TELOPT_TM {
          reply := [WillTimingMark];
        } else if b == TELOPT_SGA {
          reply := [WillSuppressGoAhead];
        }
        after := Moved;
    }

    /** What arrives goes behind what is there. */
    method Receive(bytes: seq<Byte>)
      requires inBuf.Length == LIMIT + 2 && numPending + |bytes| <= LIMIT
      modifies inBuf
      ensures inBuf[..numPending] == old(inBuf[..numPending])
      ensures inBuf[..numPending + |bytes|] == old(inBuf[..numPending]) + bytes
      ensures inBuf[numPending..numPending + |bytes|] == bytes
    {
      forall k | 0 <= k < |bytes| {
        inBuf[numPending + k] := bytes[k];
      }
    }

    /** A line is complete: it is copied out, and what follows it is moved to the front. */
    method Deliver(end: nat, next: nat, howmany: nat) returns (com: seq<Byte>)
      requires inBuf.Length == LIMIT + 2 && end < next && next + howmany <= LIMIT
      modifies this, inBuf
      ensures com == old(inBuf[..end])
      ensures Valid() && Abstract() == Conn(Editor([], Clean), old(inBuf[next..next + howmany]))
    {
      com := inBuf[..end];
      forall k | 0 <= k < howmany {
        inBuf[k] := inBuf[next + k];
      }
      inBuf[howmany] := 0;
      state, numPending, processed := Clean, howmany, false;
    }

    /** With n bytes from s on still to look at, and the replies sent so far, the call will come out as `goal`. */
    ghost predicate OnCourse(goal: (Editor, seq<Event>, seq<Byte>), sent: seq<Event>, e: Editor, s: nat, n: nat)
      requires s + n <= inBuf.Length
      reads inBuf
    {
      goal == Prepend(sent, Outlook(e, inBuf[s..s + n]))
    }

    /** The call came out as `goal`. */
    ghost predicate CameTo(goal: (Editor, seq<Event>, seq<Byte>), sent: seq<Event>, outcome: Outcome)
      reads this, inBuf
    {
      && sent + Delivered(outcome) == goal.1
      && (outcome != LoggedOut ==> Valid() && Abstract() == Conn(Settled(goal.0), goal.2))
    }

    /** The bytes are all looked at: the line so far is kept, or delivered if it fills the buffer. */
    method Settle(s: nat, d: nat, mode: Mode, ghost e: Editor, ghost goal: (Editor, seq<Event>, seq<Byte>),
                  ghost sent: seq<Event>) returns (outcome: Outcome)
      requires inBuf.Length == LIMIT + 2 && s <= LIMIT && e.mode == mode != Closed && Shows(e, s, d)
      requires OnCourse(goal, sent, e, s, 0)
      modifies this, inBuf
      ensures CameTo(goal, sent, outcome)
    {
      var end := if mode == Clean then s else d;
      state := if mode == Moved then Clean else mode;
      numPending := end;
      inBuf[end] := 0;
      processed := true;
      outcome := Incomplete;
      if numPending == LIMIT {
        outcome := Complete(inBuf[..LIMIT]);
        state, numPending, processed := Clean, 0, false;
        inBuf[0] := 0;
      }
    }

    /** Looks at a byte that does not end the line, with `more` behind it. */
    method Advance(s: nat, d: nat, mode: Mode, more: nat, ghost e: Editor,
                   ghost goal: (Editor, seq<Event>, seq<Byte>), ghost sent: seq<Event>)
      returns (ghost next: Editor, after: Mode, newD: nat, reply: seq<Event>)
      requires inBuf.Length == LIMIT + 2 && s + 1 + more <= LIMIT && mode != Closed && e.mode == mode && Shows(e, s, d)
      requires Quiet(e, inBuf[s]) && OnCourse(goal, sent, e, s, 1 + more)
      modifies inBuf
      ensures next.mode == after != Closed && Shows(next, s + 1, newD)
      ensures OnCourse(goal, sent + reply, next, s + 1, more)
    {
      OutlookKept(goal, sent, e, inBuf[s..s + 1 + more]);
      next, after, newD, reply := Look(s, d, mode, more, e);
    }

    /** Looks at a newline, with `more` behind it. */
    method Finish(s: nat, d: nat, mode: Mode, more: nat, ghost e: Editor,
                  ghost goal: (Editor, seq<Event>, seq<Byte>), ghost sent: seq<Event>) returns (outcome: Outcome)
      requires inBuf.Length == LIMIT + 2 && s + 1 + more <= LIMIT && e.mode == mode && Shows(e, s, d)
      requires TakesData(e) && inBuf[s] == NEWLINE && OnCourse(goal, sent, e, s, 1 + more)
      modifies this, inBuf
      ensures CameTo(goal, sent, outcome)
    {
      OutlookLine(goal, sent, e, inBuf[s..s + 1 + more]);
      var com := Deliver(if mode == Clean then s else d, s + 1, more);
      outcome := Complete(com);
    }

    /** Looks at the bytes from s on, up to the end of a line. */
    method Scan(start: nat, count: nat, ghost e0: Editor, ghost goal: (Editor, seq<Event>, seq<Byte>))
      returns (outcome: Outcome, sent: seq<Event>)
      requires Valid() && start + count <= LIMIT && e0.mode == state && |e0.line| < LIMIT && inBuf[..start] == e0.line
      requires OnCourse(goal, [], e0, start, count)
      modifies this, inBuf
      ensures CameTo(goal, sent, outcome)
    {
      var s: nat, howmany: nat, d: nat, mode := start, count, start, state;
      ghost var e := e0;
      sent := [];
      while howmany > 0
        invariant inBuf.Length == LIMIT + 2 && s + howmany <= LIMIT
        invariant e.mode == mode != Closed && Shows(e, s, d)
        invariant OnCourse(goal, sent, e, s, howmany)
      {
        howmany := howmany - 1;
        if (mode == Clean || mode == Moved) && inBuf[s] == NEWLINE {
          outcome := Finish(s, d, mode, howmany, e, goal, sent);
          return outcome, sent;
        }
        if mode == Iac && inBuf[s] == IP {
          OutlookLogout(goal, sent, e, inBuf[s..s + 1 + howmany]);
          return LoggedOut, sent;
        }
        var reply;
        e, mode, d, reply := Advance(s, d, mode, howmany, e, goal, sent);
        s, sent := s + 1, sent + reply;
      }
      outcome := Settle(s, d, mode, e, goal, sent);
    }

    /** What arrived goes behind what is there, and the count of bytes to look at is cut to the room. */
    method Gather(bytes: seq<Byte>) returns (s: nat, howmany: nat)
      requires Valid() && |bytes| <= LIMIT - numPending
      modifies inBuf
      ensures s + howmany <= LIMIT && inBuf[..s] == old(Abstract()).editor.line
      ensures inBuf[s..s + howmany] == Looked(old(Abstract()), bytes)
    {
      Receive(bytes);
      s, howmany := 0, |bytes|;
      if processed {
        s := numPending;
      } else {
        howmany := howmany + numPending;
      }
      if howmany >= LIMIT - numPending {
        howmany := LIMIT - numPending;
      }
    }

    /** Reads what has arrived, up to the end of a line. */
    method ReadLine(received: Received) returns (outcome: Outcome, sent: seq<Event>)
      requires Valid()
      requires received.Bytes? ==> 0 < |received.bytes| <= LIMIT - numPending
      modifies this, inBuf
      ensures received.Gone? ==> outcome == Disconnected && sent == []
      ensures !received.Gone? ==>
        var (next, events) := Call(old(Abstract()), if received.Bytes? then received.bytes else []);
        sent + Delivered(outcome) == events && (outcome != LoggedOut ==> Valid() && Abstract() == next)
    {
      if received.Gone? {
        return Disconnected, [];
      }
      var bytes := if received.Bytes? then received.bytes else [];
      ghost var c := Abstract();
      if received.NothingYet? && processed {
        return Incomplete, [];
      }
      var s, howmany := Gather(bytes);
      CallInView(c, bytes);
      outcome, sent := Scan(s, howmany, c.editor, RunToEnd(c.editor, Looked(c, bytes)));
    }
  }
}
