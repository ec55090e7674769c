/** The clocks of a game without timeseal: time is charged lazily, rolled back by a pause
    and refunded by a takeback. Times are in tenths of a second. */
module Clocks {
  import opened Positions

  /** What the players agreed on. */
  datatype Terms = Terms(untimed: bool, wInitTime: nat, wIncrement: nat, bIncrement: nat)

  /** What each side has on its clock at the start of a turn. */
  datatype Times = Times(w: int, b: int)

  datatype Timed = Timed(color: Color, tookTime: nat)

  function Add(t: Times, color: Color, d: int): Times {
    if color == White then t.(w := t.w + d) else t.(b := t.b + d)
  }

  function Increment(terms: Terms, color: Color): nat {
    if color == White then terms.wIncrement else terms.bIncrement
  }

  /** What a takeback takes back of the increment. */
  function IncrementBack(terms: Terms, color: Color): nat {
    if color == White || terms.bIncrement == 0 then terms.wIncrement else terms.bIncrement
  }

  /** A move costs its time and earns the increment, but for the first of each side. */
  function Charged(terms: Terms, t: Times, m: Timed, moveNum: nat): Times {
    if moveNum == 1 then t
    else Add(t, m.color, Increment(terms, m.color) - (if terms.untimed then 0 else m.tookTime))
  }

  /** A takeback gives the time back and takes the increment; what the other side was charged
      since the move is given back too. In a game that began with nothing on the clocks neither
      is done, so that charge stands. */
  function Refunded(terms: Terms, t: Times, m: Timed, spent: int): Times {
    if terms.wInitTime == 0 then Add(t, m.color.Toggle(), -spent)
    else Add(t, m.color, m.tookTime - IncrementBack(terms, m.color))
  }

  /** A takeback undoes what the move did to the clocks, the other side having been charged
      the time spent since then. */
  predicate Refundable(terms: Terms, m: Timed, moveNum: nat, spent: int) {
    if terms.wInitTime == 0 then
      spent == 0 && (moveNum == 1 || Increment(terms, m.color) == if terms.untimed then 0 else m.tookTime)
    else if moveNum == 1 then m.tookTime == IncrementBack(terms, m.color)
    else if terms.untimed then
      m.tookTime + Increment(terms, m.color) == IncrementBack(terms, m.color)
    else m.color == White || terms.bIncrement != 0 || terms.wIncrement == 0
  }

  /** Exactly then are the clocks what they were. */
  lemma {:induction false} RefundIsExact(terms: Terms, t: Times, m: Timed, moveNum: nat, spent: int)
    ensures Refunded(terms, Charged(terms, t, m, moveNum), m, spent) == t <==> Refundable(terms, m, moveNum, spent)
  {
  }

  /** From the second move on, with time and equal increments, every move is refunded. */
  lemma {:induction false} TimedGamesRefund(terms: Terms, m: Timed, moveNum: nat, spent: int)
    requires !terms.untimed && terms.wInitTime > 0 && terms.wIncrement == terms.bIncrement && moveNum != 1
    ensures Refundable(terms, m, moveNum, spent)
  {
  }

  /** A game of no time and twelve seconds a move: White's second move takes as long as the
      increment, Black thinks for five seconds, and the takeback leaves Black five seconds short. */
  lemma {:induction false} ThinkingIsLost(t: Times)
    ensures var terms := Terms(false, 0, 120, 120); var m := Timed(White, 120);
      && Charged(terms, t, m, 2) == t
      && Refunded(terms, Charged(terms, t, m, 2), m, 50) == t.(b := t.b - 50)
      && !Refundable(terms, m, 2, 50)
  {
  }

  /** The clocks at the start of a turn, whose turn it is and the number of the move. */
  datatype Turn = Turn(before: Times, moveNum: nat, color: Color)

  /** The move led from one turn to the next. */
  predicate Leads(turn: Turn, m: Timed, next: Turn) {
    && m.color == turn.color != next.color && turn.moveNum >= 1
    && next.moveNum == if turn.color == Black then turn.moveNum + 1 else turn.moveNum
  }

  /** All turns so far, the present one last, and the moves between them. */
  ghost predicate Ordered(turns: seq<Turn>, moves: seq<Timed>) {
    && |turns| == |moves| + 1 && turns[0].moveNum == 1
    && forall k :: 0 <= k < |moves| ==> Leads(turns[k], moves[k], turns[k + 1])
  }

  /** The clocks at every turn are those before it, charged for the move between. */
  ghost predicate Balanced(terms: Terms, turns: seq<Turn>, moves: seq<Timed>) {
    && |turns| == |moves| + 1
    && forall k :: 0 <= k < |moves|
        ==> turns[k + 1].before == Charged(terms, turns[k].before, moves[k], turns[k].moveNum)
  }

  /** What the moves of a colour among the first n, but for the first of each side, add to its clock: for each
      the increment, less the time it took if there is a limit. */
  function Gained(moves: seq<Timed>, color: Color, increment: nat, limited: bool, n: nat): int
    requires n <= |moves|
  {
    if n <= 2 then 0
    else Gained(moves, color, increment, limited, n - 1)
         + if moves[n - 1].color != color then 0
           else if limited then increment - moves[n - 1].tookTime else increment
  }

  /** In a game begun by White both sides' first moves have the number 1, and no others. */
  lemma {:induction false} FirstMovesAreTwo(turns: seq<Turn>, moves: seq<Timed>, k: nat)
    requires Ordered(turns, moves) && k < |turns| && turns[0].color == White
    ensures turns[k].color == (if k % 2 == 0 then White else Black) && turns[k].moveNum == k / 2 + 1
    decreases k
  {
    if k > 0 {
      FirstMovesAreTwo(turns, moves, k - 1);
      assert Leads(turns[k - 1], moves[k - 1], turns[k]);
    }
  }

  /** Each side has on its clock what it began with and what its moves added. */
  lemma {:induction false} ClocksAddUp(terms: Terms, turns: seq<Turn>, moves: seq<Timed>, n: nat)
    requires Ordered(turns, moves) && Balanced(terms, turns, moves) && n <= |moves|
    requires turns[0].color == White
    ensures turns[n].before.w == turns[0].before.w + Gained(moves, White, terms.wIncrement, !terms.untimed, n)
    ensures turns[n].before.b == turns[0].before.b + Gained(moves, Black, terms.bIncrement, !terms.untimed, n)
    decreases n
  {
    if n > 0 {
      ClocksAddUp(terms, turns, moves, n - 1);
      FirstMovesAreTwo(turns, moves, n - 1);
      assert Leads(turns[n - 1], moves[n - 1], turns[n]);
      assert turns[n].before == Charged(terms, turns[n - 1].before, moves[n - 1], turns[n - 1].moveNum);
    }
  }

  lemma {:induction false} TurnAdded(terms: Terms, turns: seq<Turn>, moves: seq<Timed>, m: Timed, next: Turn)
    requires Ordered(turns, moves) && Leads(turns[|moves|], m, next)
    ensures Ordered(turns + [next], moves + [m])
    ensures Balanced(terms, turns, moves)
            && next.before == Charged(terms, turns[|moves|].before, m, turns[|moves|].moveNum)
            ==> Balanced(terms, turns + [next], moves + [m])
  {
    forall k | 0 <= k < |moves + [m]|
      ensures Leads((turns + [next])[k], (moves + [m])[k], (turns + [next])[k + 1])
    {
      if k < |moves| {
        assert Leads(turns[k], moves[k], turns[k + 1]);
      }
    }
  }

  lemma {:induction false} TurnsDropped(terms: Terms, turns: seq<Turn>, moves: seq<Timed>, k: nat)
    requires Ordered(turns, moves) && k <= |moves|
    ensures Ordered(turns[..k + 1], moves[..k])
    ensures Balanced(terms, turns, moves) ==> Balanced(terms, turns[..k + 1], moves[..k])
  {
    forall i | 0 <= i < k
      ensures Leads(turns[..k + 1][i], moves[..k][i], turns[..k + 1][i + 1])
    {
      assert Leads(turns[i], moves[i], turns[i + 1]);
    }
  }

  /** The order does not depend on the clocks. */
  lemma {:induction false} SameOrder(a: seq<Turn>, b: seq<Turn>, moves: seq<Timed>)
    requires Ordered(a, moves) && |b| == |a| && b[..|moves|] == a[..|moves|]
    requires b[|moves|].moveNum == a[|moves|].moveNum && b[|moves|].color == a[|moves|].color
    ensures Ordered(b, moves)
  {
    forall k | 0 <= k < |moves|
      ensures Leads(b[k], moves[k], b[k + 1])
    {
      assert Leads(a[k], moves[k], a[k + 1]);
      assert b[k] == b[..|moves|][k] && (k + 1 < |moves| ==> b[k + 1] == b[..|moves|][k + 1]);
    }
  }

  /** Nor does anything else depend on more than the turns. */
  lemma {:induction false} SameTurns(terms: Terms, a: seq<Turn>, b: seq<Turn>, moves: seq<Timed>)
    requires Ordered(a, moves) && |b| == |a| && b[..|moves|] == a[..|moves|]
    requires b[|moves|].moveNum == a[|moves|].moveNum && b[|moves|].color == a[|moves|].color
    ensures Ordered(b, moves)
    ensures Balanced(terms, a, moves) && b[|moves|].before == a[|moves|].before ==> Balanced(terms, b, moves)
  {
    SameOrder(a, b, moves);
    if b[|moves|].before == a[|moves|].before {
      assert b == b[..|moves|] + [b[|moves|]] && a == a[..|moves|] + [a[|moves|]];
    }
  }

  class Game {
    const terms: Terms
    const startTime: nat
    var onMove: Color
    var moveNum: nat
    var wTime: int
    var bTime: int
    var lastDecTime: nat
    var lastMoveTime: nat
    var clockStopped: bool
    var moveList: seq<Timed>
    ghost var turns: seq<Turn>

    /** The clocks at the start of the turn: what was charged since then is added back. */
    function Banked(): Times
      reads this
    {
      Add(Times(wTime, bTime), onMove, lastDecTime - lastMoveTime)
    }

    /** Nothing is charged in the first moves, in a pause or without a limit. */
    predicate Idle()
      reads this
    {
      moveNum == 1 || clockStopped || terms.untimed
    }

    /** What the side on move has been charged in this turn, once charged up to now. */
    function Spent(now: nat): int
      reads this
    {
      (if Idle() then lastDecTime else now) - lastMoveTime
    }

    ghost function Now(): Turn
      reads this
    {
      Turn(Banked(), moveNum, onMove)
    }

    /** The turns and the moves belong together, and time goes on. Nothing is charged while
        the clocks stand. */
    ghost predicate Valid()
      reads this
    {
      && startTime <= lastMoveTime <= lastDecTime
      && (clockStopped || terms.untimed || (terms.wInitTime > 0 && moveNum == 1) ==> lastDecTime == lastMoveTime)
      && Ordered(turns + [Now()], moveList)
    }

    /** The clocks agree with all that was charged since the game began. */
    ghost predicate Accounted()
      reads this
    {
      (moveNum == 1 ==> lastDecTime == lastMoveTime) && Balanced(terms, turns + [Now()], moveList)
    }

    constructor (terms: Terms, time: nat, now: nat)
      ensures Valid() && Accounted() && turns == [] && Banked() == Times(time, time) && this.terms == terms
    {
      this.terms, startTime := terms, now;
      onMove, moveNum, wTime, bTime := White, 1, time, time;
      lastDecTime, lastMoveTime, clockStopped := now, now, false;
      moveList, turns := [], [];
    }

    /** Charges the time since the last charge; however often, it adds up to the same. */
    method UpdateTime(now: nat)
      requires Valid() && lastDecTime <= now
      modifies this`wTime, this`bTime, this`lastDecTime
      ensures Valid() && Banked() == old(Banked()) && (old(Accounted()) ==> Accounted())
      ensures lastDecTime == if Idle() then old(lastDecTime) else now
    {
      if !Idle() {
        if onMove == White {
          wTime := wTime - (now - lastDecTime);
        } else {
          bTime := bTime - (now - lastDecTime);
        }
        lastDecTime := now;
      }
    }

    /** The increment of the side on move, not on move 1. */
    method AddIncrement()
      modifies this`wTime, this`bTime
      ensures Times(wTime, bTime)
           == Add(old(Times(wTime, bTime)), onMove, if moveNum == 1 then 0 else Increment(terms, onMove))
    {
      if moveNum != 1 {
        if onMove == White {
          wTime := wTime + terms.wIncrement;
        } else {
          bTime := bTime + terms.bIncrement;
        }
      }
    }

    /** The numbers of moves begin at 1. */
    lemma {:induction false} NumbersFromOne()
      requires Valid()
      ensures moveNum >= 1 && (moveList == [] ==> moveNum == 1)
    {
      var all := turns + [Now()];
      if |moveList| > 0 {
        assert Leads(all[|moveList| - 1], moveList[|moveList| - 1], all[|moveList|]);
      }
    }

    /** The time part of a move. On move 1 the clocks stay as they are. */
    method PlayMove(now: nat)
      requires Valid() && !clockStopped && lastDecTime <= now
      modifies this
      ensures Valid() && !clockStopped && (old(Accounted()) ==> Accounted())
      ensures turns == old(turns + [Now()]) && |moveList| == old(|moveList|) + 1 && old(moveList) < moveList
      ensures var before := if old(moveNum) == 1 then old(Times(wTime, bTime)) else old(Banked());
        Banked() == Charged(terms, before, moveList[old(|moveList|)], old(moveNum))
      ensures lastMoveTime == lastDecTime == now && moveList[old(|moveList|)].color == old(onMove)
      ensures old(|moveList|) > 0 ==> moveList[old(|moveList|)].tookTime == now - old(lastMoveTime)
    {
      ghost var all := turns + [Now()];
      NumbersFromOne();
      UpdateTime(now);
      AddIncrement();
      var move := Timed(onMove, now - (if |moveList| > 0 then lastMoveTime else startTime));
      TurnOn(move, all);
      lastMoveTime, lastDecTime := now, now;
      TurnAdded(terms, all, old(moveList), move, Now());
    }

    /** The move is noted, and it is the other side's turn. */
    method TurnOn(move: Timed, ghost all: seq<Turn>)
      requires move.color == onMove
      modifies this`onMove, this`moveNum, this`moveList, this`turns
      ensures moveList == old(moveList) + [move] && turns == all
      ensures onMove == old(onMove).Toggle()
      ensures moveNum == if old(onMove) == Black then old(moveNum) + 1 else old(moveNum)
    {
      if onMove == Black {
        moveNum := moveNum + 1;
      }
      onMove := if onMove == White then Black else White;
      moveList, turns := moveList + [move], all;
    }

    /** Rolls the charges of this turn back and stops the clock. */
    method Pause(now: nat)
      requires Valid() && !clockStopped && wTime != 0 && lastDecTime <= now
      modifies this`wTime, this`bTime, this`lastDecTime, this`lastMoveTime, this`clockStopped
      ensures Valid() && clockStopped && (old(Accounted()) ==> Accounted())
      ensures Times(wTime, bTime) == Banked() == old(Banked()) && lastMoveTime == lastDecTime == now
    {
      clockStopped := true;
      if onMove == White {
        wTime := wTime + (lastDecTime - lastMoveTime);
      } else {
        bTime := bTime + (lastDecTime - lastMoveTime);
      }
      lastMoveTime, lastDecTime := now, now;
    }

    /** The clock goes on from now, so nothing of the pause will be charged. */
    method Unpause(now: nat)
      requires Valid() && clockStopped && lastDecTime <= now
      modifies this`lastDecTime, this`lastMoveTime, this`clockStopped
      ensures Valid() && !clockStopped && (old(Accounted()) ==> Accounted())
      ensures Times(wTime, bTime) == Banked() == old(Banked()) && lastMoveTime == lastDecTime == now
    {
      clockStopped := false;
      lastMoveTime, lastDecTime := now, now;
    }

    /** Charges the side on move; then, unless the game began with nothing on the clocks, rolls
        that back and refunds the side whose move is taken back. */
    method Refund(m: Timed, now: nat)
      requires Valid() && lastDecTime <= now && m.color != onMove
      modifies this`wTime, this`bTime, this`lastDecTime, this`lastMoveTime
      ensures Times(wTime, bTime) == Refunded(terms, old(Banked()), m, old(Spent(now)))
      ensures if terms.wInitTime > 0 then lastMoveTime == lastDecTime == now
              else lastMoveTime == old(lastMoveTime) && lastDecTime == lastMoveTime + old(Spent(now))
    {
      UpdateTime(now);
      if terms.wInitTime > 0 {
        if m.color == White {
          wTime := wTime + m.tookTime - terms.wIncrement;
          bTime := bTime + (lastDecTime - lastMoveTime);
        } else {
          bTime := bTime + m.tookTime - (if terms.bIncrement != 0 then terms.bIncrement else terms.wIncrement);
          wTime := wTime + (lastDecTime - lastMoveTime);
        }
        lastMoveTime, lastDecTime := now, now;
      }
    }

    /** The time part of taking a move back. */
    method Takeback(now: nat) returns (ok: bool)
      requires Valid() && lastDecTime <= now
      modifies this
      ensures Valid() && clockStopped == old(clockStopped) && ok == (old(moveList) != []) && lastDecTime <= now
      ensures !ok ==>
        && turns == old(turns) && Times(wTime, bTime) == old(Times(wTime, bTime)) && Banked() == old(Banked())
        && Spent(now) == old(Spent(now)) && (old(Accounted()) ==> Accounted())
      ensures ok ==>
        var k := old(|moveList|) - 1;
        && moveList == old(moveList)[..k] && turns == old(turns)[..k] && moveNum == old(turns)[k].moveNum
        && Times(wTime, bTime) == Refunded(terms, old(Banked()), old(moveList)[k], old(Spent(now)))
        && (terms.wInitTime > 0 || old(Spent(now)) == 0 ==> Spent(now) == 0)
      ensures ok && old(Accounted()) ==>
        var k := old(|moveList|) - 1; var before := old(turns)[k].before;
        var fine := Refundable(terms, old(moveList)[k], moveNum, old(Spent(now)));
        && (Times(wTime, bTime) == before <==> fine)
        && (fine ==> Accounted() && Banked() == before)
    {
      ok := moveList != [];
      if ok {
        TakeLast(now);
      }
    }

    method TakeLast(now: nat)
      requires Valid() && lastDecTime <= now && moveList != []
      modifies this
      ensures Valid() && clockStopped == old(clockStopped) && lastDecTime <= now
      ensures var k := old(|moveList|) - 1;
        && moveList == old(moveList)[..k] && turns == old(turns)[..k] && moveNum == old(turns)[k].moveNum
        && Times(wTime, bTime) == Refunded(terms, old(Banked()), old(moveList)[k], old(Spent(now)))
        && (terms.wInitTime > 0 || old(Spent(now)) == 0 ==> Spent(now) == 0)
      ensures old(Accounted()) ==>
        var k := old(|moveList|) - 1; var before := old(turns)[k].before;
        var fine := Refundable(terms, old(moveList)[k], moveNum, old(Spent(now)));
        && (Times(wTime, bTime) == before <==> fine)
        && (fine ==> Accounted() && Banked() == before)
    {
      var k := |moveList| - 1;
      var m := moveList[k];
      ghost var all := turns + [Now()];
      RefundIsExact(terms, turns[k].before, m, turns[k].moveNum, Spent(now));
      assert Leads(all[k], m, all[k + 1]) && all[k] == turns[k];
      BeforeLast(all);
      Refund(m, now);
      TurnBack();
      SameTurns(terms, all[..k + 1], turns + [Now()], moveList);
    }

    /** The turns without the present one. */
    lemma {:induction false} BeforeLast(all: seq<Turn>)
      requires all == turns + [Now()] && Ordered(all, moveList) && moveList != []
      ensures var k := |moveList| - 1;
        && all[..k + 1] == turns == turns[..k] + [turns[k]]
        && Ordered(turns, moveList[..k])
        && (Balanced(terms, all, moveList) ==>
              Balanced(terms, turns, moveList[..k])
                  && Now().before == Charged(terms, turns[k].before, moveList[k], turns[k].moveNum))
    {
      var k := |moveList| - 1;
      TurnsDropped(terms, all, moveList, k);
      assert all[k] == turns[k] && all[k + 1] == Now();
      assert Balanced(terms, all, moveList)
          ==> all[k + 1].before == Charged(terms, all[k].before, moveList[k], all[k].moveNum);
    }

    /** The turn goes back to the side that made the last move. */
    method TurnBack()
      requires |turns| == |moveList| > 0 && Leads(turns[|moveList| - 1], moveList[|moveList| - 1], Now())
      modifies this`onMove, this`moveNum, this`moveList, this`turns
      ensures var k := old(|moveList|) - 1;
        && moveList == old(moveList)[..k] && turns == old(turns)[..k]
        && onMove == old(turns)[k].color && moveNum == old(turns)[k].moveNum
    {
      if onMove == Black {
        onMove := White;
      } else {
        onMove, moveNum := Black, moveNum - 1;
      }
      moveList, turns := moveList[..|moveList| - 1], turns[..|turns| - 1];
    }

    /** Takes back up to n moves. */
    method TakebackMany(n: nat, now: nat) returns (done: nat)
      requires Valid() && Accounted() && lastDecTime <= now
      modifies this
      ensures Valid() && done == (if n <= old(|moveList|) then n else old(|moveList|))
      ensures moveList == old(moveList)[..old(|moveList|) - done]
      ensures var k := old(|moveList|) - done;
        (forall i :: k <= i < old(|moveList|) ==>
          Refundable(terms, old(moveList)[i], old(turns)[i].moveNum, old(Spent(now))))
        ==> Accounted() && Banked() == old(turns + [Now()])[k].before
    {
      done := 0;
      ghost var all, spent := turns + [Now()], Spent(now);
      while done < n
        invariant Valid() && lastDecTime <= now && done <= n && done <= old(|moveList|)
        invariant moveList == old(moveList)[..old(|moveList|) - done]
        invariant turns == old(turns)[..old(|moveList|) - done]
        invariant done == 0 ==> Spent(now) == spent
        invariant done > 0 && (terms.wInitTime > 0 || spent == 0) ==> Spent(now) == 0
        invariant var k := old(|moveList|) - done;
          (forall i :: k <= i < old(|moveList|) ==> Refundable(terms, old(moveList)[i], old(turns)[i].moveNum, spent))
          ==> Accounted() && Banked() == all[k].before
      {
        var ok := Takeback(now);
        if !ok {
          return;
        }
        done := done + 1;
      }
    }
  }
}
