/** The list of pending offers: linked nodes, newest first, and for every player a count of
    the offers from and to that player, by which searches are cut short. */
module Pending {
  import opened Offers

  class Node {
    const offer: Offer
    var next: Node?

    constructor (offer: Offer, next: Node?)
      ensures this.offer == offer && this.next == next
    {
      this.offer, this.next := offer, next;
    }
  }

  class PendingList {
    var head: Node?
    /** For each player the number of offers from and to that player. */
    var numFrom: seq<nat>
    var numTo: seq<nat>
    /** For each player the bughouse partner, or -1. */
    var partner: seq<int>
    ghost var nodes: seq<Node>
    /** Every node that ever was in the list. */
    ghost var repr: set<Node>

    ghost function Offered(): (s: seq<Offer>)
      reads this
      ensures |s| == |nodes|
    {
      seq(|nodes|, i requires 0 <= i < |nodes| reads this => nodes[i].offer)
    }

    /** The i-th node, or none behind the last. */
    ghost function At(i: nat): Node?
      reads this
    {
      if i < |nodes| then nodes[i] else null
    }

    ghost predicate Linked()
      reads this, repr
    {
      && head == At(0) && (forall i :: 0 <= i < |nodes| ==> nodes[i] in repr)
      && (forall i: nat {:trigger nodes[i].next} :: i < |nodes| ==> nodes[i].next == At(i + 1))
    }

    /** The counts agree with the list. */
    ghost predicate Counted()
      reads this
    {
      && |numFrom| == |numTo| == |partner|
      && (forall o :: o in Offered() ==> o.whofrom < |numFrom| && o.whoto < |numFrom|)
      && forall p: nat :: p < |numFrom| ==> numFrom[p] == CountFrom(Offered(), p) && numTo[p] == CountTo(Offered(), p)
    }

    ghost predicate Valid()
      reads this, repr
    {
      Linked() && Counted()
    }

    constructor (players: nat)
      ensures Valid() && Offered() == [] && |numFrom| == players
    {
      head, nodes, repr := null, [], {};
      numFrom, numTo, partner := seq(players, _ => 0), seq(players, _ => 0), seq(players, _ => -1);
    }

    method AddPending(whofrom: nat, whoto: nat, kind: int, bughouse: bool) returns (added: Node)
      requires Valid() && whofrom < |numFrom| && whoto < |numFrom|
      modifies this
      ensures Valid() && fresh(added) && repr == old(repr) + {added} && |numFrom| == old(|numFrom|)
      ensures nodes == [added] + old(nodes) && Offered() == [Offer(whofrom, whoto, kind, bughouse)] + old(Offered())
    {
      ghost var before := Offered();
      added := new Node(Offer(whofrom, whoto, kind, bughouse), head);
      numFrom := numFrom[whofrom := numFrom[whofrom] + 1];
      numTo := numTo[whoto := numTo[whoto] + 1];
      head, nodes, repr := added, [added] + nodes, repr + {added};
      assert Offered() == [added.offer] + before;
      forall p: int
        ensures CountFrom(Offered(), p) == CountFrom(before, p) + (if whofrom == p then 1 else 0)
        ensures CountTo(Offered(), p) == CountTo(before, p) + (if whoto == p then 1 else 0)
      {
        assert ([added.offer] + before)[1..] == before;
      }
    }

    /** The counts go down with the offer taken out. */
    method Discount(o: Offer, ghost before: seq<Offer>, ghost i: nat)
      requires i < |before| && before[i] == o && |numFrom| == |numTo| && o.whofrom < |numFrom| && o.whoto < |numFrom|
      requires forall p: nat :: p < |numFrom| ==> numFrom[p] == CountFrom(before, p) && numTo[p] == CountTo(before, p)
      modifies this`numFrom, this`numTo
      ensures |numFrom| == |numTo| == old(|numFrom|)
      ensures var after := before[..i] + before[i + 1..];
        forall p: nat :: p < |numFrom| ==> numFrom[p] == CountFrom(after, p) && numTo[p] == CountTo(after, p)
    {
      forall p: int
        ensures CountFrom(before, p) == CountFrom(before[..i] + before[i + 1..], p) + (if o.whofrom == p then 1 else 0)
        ensures CountTo(before, p) == CountTo(before[..i] + before[i + 1..], p) + (if o.whoto == p then 1 else 0)
      {
        CountRemoved(before, i, p);
      }
      numFrom := numFrom[o.whofrom := numFrom[o.whofrom] - 1];
      numTo := numTo[o.whoto := numTo[o.whoto] - 1];
    }

    /** No node is in the list twice. */
    lemma {:induction false} Distinct(i: nat, j: nat)
      requires Linked() && i < j < |nodes|
      ensures nodes[i] != nodes[j]
      decreases |nodes| - j
    {
      assert nodes[i].next == At(i + 1) && nodes[j].next == At(j + 1);
      if j + 1 < |nodes| {
        Distinct(i + 1, j + 1);
      }
    }

    /** The node before the i-th. */
    method FindBefore(current: Node, ghost i: nat) returns (p: Node)
      requires Linked() && 0 < i < |nodes| && nodes[i] == current
      ensures p == nodes[i - 1]
    {
      p := head;
      ghost var j := 0;
      while p.next != current
        invariant j < i && p == nodes[j]
        decreases i - j
      {
        assert nodes[j].next == At(j + 1);
        p, j := p.next, j + 1;
      }
      assert nodes[j].next == At(j + 1);
      if j + 1 < i {
        Distinct(j + 1, i);
      }
    }

    /** Takes the first node out of the list. */
    method UnlinkFirst()
      requires Linked() && nodes != []
      modifies this`head, this`nodes
      ensures Linked() && nodes == old(nodes[1..])
    {
      assert nodes[0].next == At(1);
      head, nodes := head.next, nodes[1..];
      forall k: nat | k < |nodes|
        ensures nodes[k].next == At(k + 1)
      {
        assert nodes[k] == old(nodes)[k + 1];
      }
    }

    /** Takes the i-th node out of the list. */
    method Unlink(current: Node, ghost i: nat) returns (next: Node?)
      requires Linked() && i < |nodes| && nodes[i] == current
      modifies this`head, this`nodes, repr
      ensures Linked() && nodes == old(nodes[..i] + nodes[i + 1..]) && next == At(i)
    {
      assert nodes[i].next == At(i + 1);
      if i > 0 {
        Distinct(0, i);
      }
      if current == head {
        UnlinkFirst();
        next := head;
      } else {
        next := UnlinkLater(current, i);
      }
    }

    /** Takes a later node out of the list. */
    method UnlinkLater(current: Node, ghost i: nat) returns (next: Node?)
      requires Linked() && 0 < i < |nodes| && nodes[i] == current
      modifies this`nodes, repr
      ensures Linked() && nodes == old(nodes[..i] + nodes[i + 1..]) && next == At(i)
    {
      var p := FindBefore(current, i);
      assert nodes[i].next == At(i + 1);
      next := current.next;
      forall k: nat | k < |nodes| && k != i - 1
        ensures nodes[k] != p
      {
        Distinct(if k < i then k else i - 1, if k < i then i - 1 else k);
      }
      p.next := next;
      ghost var was := nodes;
      nodes := nodes[..i] + nodes[i + 1..];
      forall k: nat | k < |nodes|
        ensures nodes[k].next == At(k + 1)
      {
        ghost var j := if k < i then k else k + 1;
        assert nodes[k] == was[j] && (j != i - 1 ==> was[j] != p);
      }
    }

    /** Deletes the i-th offer; what comes behind it is returned. */
    method DeletePending(current: Node, ghost i: nat) returns (next: Node?)
      requires Valid() && i < |nodes| && nodes[i] == current
      modifies this`head, this`numFrom, this`numTo, this`nodes, repr
      ensures Valid() && |numFrom| == old(|numFrom|) && repr == old(repr)
      ensures nodes == old(nodes[..i] + nodes[i + 1..]) && next == At(i)
      ensures Offered() == old(Offered()[..i] + Offered()[i + 1..])
    {
      ghost var before := Offered();
      assert before[i] in before;
      Discount(current.offer, before, i);
      next := Unlink(current, i);
      assert Offered() == before[..i] + before[i + 1..];
      forall o | o in Offered()
        ensures o in before
      {
      }
    }

    predicate Known(p: int)
      reads this
    {
      p == -1 || 0 <= p < |numFrom|
    }

    /** By the counts alone, nothing can be from p or to p1. */
    predicate Pointless(p: int, p1: int)
      requires |numFrom| == |numTo| && Known(p) && Known(p1)
      reads this
    {
      (p != -1 && numFrom[p] == 0) || (p1 != -1 && numTo[p1] == 0)
    }

    lemma {:induction false} PointlessIsRight(p: int, p1: int, kind: int, k: nat)
      requires Valid() && Known(p) && Known(p1) && k < |nodes|
      ensures Pointless(p, p1) ==> !Matches(Offered()[k], p, p1, kind)
    {
      NoOffersNoMention(Offered(), p, k);
      NoOffersNoMention(Offered(), p1, k);
    }

    /** The first offer from p to p1 of the type. */
    method FindPend(p: int, p1: int, kind: int) returns (current: Node?)
      requires Valid() && Known(p) && Known(p1)
      ensures current == At(FirstMatch(Offered(), p, p1, kind))
    {
      forall k: nat | k < |nodes|
        ensures Pointless(p, p1) ==> !Matches(Offered()[k], p, p1, kind)
      {
        PointlessIsRight(p, p1, kind, k);
      }
      if (p != -1 && numFrom[p] == 0) || (p1 != -1 && numTo[p1] == 0) {
        FirstMatchAt(Offered(), p, p1, kind, |nodes|);
        return null;
      }
      ghost var i := 0;
      current := head;
      while current != null
        invariant i <= |nodes| && current == At(i)
        invariant forall k :: 0 <= k < i ==> !Matches(Offered()[k], p, p1, kind)
        decreases |nodes| - i
      {
        if Matches(current.offer, p, p1, kind) {
          FirstMatchAt(Offered(), p, p1, kind, i);
          return;
        }
        assert nodes[i].next == At(i + 1);
        current, i := current.next, i + 1;
      }
      FirstMatchAt(Offered(), p, p1, kind, i);
    }

    /** Makes an offer unless there is such a one. */
    method AddRequest(p: nat, p1: nat, kind: int, bughouse: bool) returns (offer: Node)
      requires Valid() && p < |numFrom| && p1 < |numFrom|
      modifies this
      ensures Valid() && |numFrom| == old(|numFrom|) && fresh(repr - old(repr))
      ensures var i := FirstMatch(old(Offered()), p, p1, kind);
        if i < old(|nodes|) then offer == old(nodes[i]) && Offered() == old(Offered()) && nodes == old(nodes)
        else offer == At(0) && Offered() == [Offer(p, p1, kind, bughouse)] + old(Offered())
    {
      ghost var i := FirstMatch(Offered(), p, p1, kind);
      FirstMatchIsFirst(Offered(), p, p1, kind);
      if numFrom[p] != 0 && numTo[p1] != 0 {
        var found := FindPend(p, p1, kind);
        if found != null {
          return found;
        }
      } else if i < |nodes| {
        PointlessIsRight(p, p1, kind, i);
      }
      offer := AddPending(p, p1, kind, bughouse);
    }

    /** A pass is under way: `current` is the next offer to look at, the k-th of `before`. */
    ghost predicate Passing(before: seq<Offer>, k: nat, test: Offer -> bool, current: Node?)
      reads this, repr
    {
      && Valid() && k <= |before| && Offered() == Midway(before, k, test)
      && current == At(|Without(before[..k], test)|) && (current == null <==> k == |before|)
    }

    /** The offer looked at stays. */
    method PassOver(current: Node, ghost before: seq<Offer>, ghost k: nat, ghost test: Offer -> bool)
        returns (next: Node?)
      requires Passing(before, k, test, current) && k < |before| && !test(before[k])
      ensures Passing(before, k + 1, test, next)
    {
      MidwayKeeps(before, k, test);
      assert nodes[|Without(before[..k], test)|].next == At(|Without(before[..k], test)| + 1);
      next := current.next;
    }

    /** The offer looked at goes. */
    method TakeOut(current: Node, ghost before: seq<Offer>, ghost k: nat, ghost test: Offer -> bool)
        returns (next: Node?)
      requires Passing(before, k, test, current) && k < |before| && test(before[k])
      modifies this`head, this`numFrom, this`numTo, this`nodes, repr
      ensures Passing(before, k + 1, test, next) && |numFrom| == old(|numFrom|) && repr == old(repr)
    {
      MidwayDrops(before, k, test);
      next := DeletePending(current, |Without(before[..k], test)|);
    }

    /** Looks at one offer. */
    method SweepOne(current: Node, ghost before: seq<Offer>, ghost k: nat, test: Offer -> bool) returns (next: Node?)
      requires Passing(before, k, test, current) && k < |before|
      modifies this`head, this`numFrom, this`numTo, this`nodes, repr
      ensures Passing(before, k + 1, test, next) && |numFrom| == old(|numFrom|) && repr == old(repr)
    {
      LookedAt(before, k, test, current);
      if test(current.offer) {
        next := TakeOut(current, before, k, test);
      } else {
        next := PassOver(current, before, k, test);
      }
    }

    /** Looks at every offer and deletes those for which the test holds. */
    method Sweep(test: Offer -> bool)
      requires Valid()
      modifies this`head, this`numFrom, this`numTo, this`nodes, repr
      ensures Valid() && |numFrom| == old(|numFrom|) && repr == old(repr)
      ensures Offered() == Without(old(Offered()), test)
    {
      ghost var before, k := Offered(), 0;
      PassBegins(test);
      var current := head;
      while current != null
        invariant k <= |before| && (current == null <==> k == |before|)
        invariant Passing(before, k, test, current) && |numFrom| == old(|numFrom|) && repr == old(repr)
        decreases |before| - k
      {
        current := SweepOne(current, before, k, test);
        k := k + 1;
        PassEnds(before, k, test, current);
      }
      PassEnds(before, k, test, current);
    }

    lemma {:induction false} PassBegins(test: Offer -> bool)
      requires Valid()
      ensures Passing(Offered(), 0, test, head)
    {
      MidwayEnds(Offered(), test);
    }

    lemma {:induction false} PassEnds(before: seq<Offer>, k: nat, test: Offer -> bool, current: Node?)
      requires Passing(before, k, test, current)
      ensures k <= |before| && (current == null <==> k == |before|)
      ensures k == |before| ==> Valid() && Offered() == Without(before, test)
    {
      MidwayEnds(before, test);
    }

    /** The offer looked at is the k-th there was. */
    lemma {:induction false} LookedAt(before: seq<Offer>, k: nat, test: Offer -> bool, current: Node)
      requires Passing(before, k, test, current)
      ensures k < |before| && current.offer == before[k]
    {
      var i := |Without(before[..k], test)|;
      assert Offered()[i] == Midway(before, k, test)[i];
    }

    /** Removes all offers from p to p1 of the type. */
    method RemoveRequest(p: int, p1: int, kind: int)
      requires Valid() && Known(p) && Known(p1)
      modifies this`head, this`numFrom, this`numTo, this`nodes, repr
      ensures Valid() && |numFrom| == old(|numFrom|) && repr == old(repr)
      ensures Offered() == Without(old(Offered()), o => Matches(o, p, p1, kind))
    {
      Sweep(o => Matches(o, p, p1, kind));
    }

    /** By the counts alone, nothing of p's can be declined or withdrawn. */
    predicate NothingToDo(p: int, p1: int, decline: bool, withdraw: bool)
      requires |numFrom| == |numTo| && Known(p) && Known(p1)
      reads this
    {
      if decline && withdraw then
        (p != -1 && numTo[p] == 0 && numFrom[p] == 0) || (p1 != -1 && numTo[p1] == 0 && numFrom[p1] == 0)
      else if decline then Pointless(p1, p)
      else withdraw && Pointless(p, p1)
    }

    lemma {:induction false} NothingToDoIsRight(p: int, p1: int, kind: int, partners: bool, decline: bool,
        withdraw: bool, k: nat)
      requires Valid() && Known(p) && Known(p1) && NothingToDo(p, p1, decline, withdraw) && k < |nodes|
      ensures !Affected(Offered()[k], p, p1, kind, partners, decline, withdraw)
    {
      NoOffersNoMention(Offered(), p, k);
      NoOffersNoMention(Offered(), p1, k);
    }

    /** Declines offers to p and withdraws offers from p, those between p and p1. */
    method DoDeclineWithdrawOffers(p: int, p1: int, kind: int, partners: bool, decline: bool, withdraw: bool)
      requires Valid() && Known(p) && Known(p1)
      modifies this`head, this`numFrom, this`numTo, this`nodes, repr
      ensures Valid() && |numFrom| == old(|numFrom|) && repr == old(repr)
      ensures Offered() == Without(old(Offered()), o => Affected(o, p, p1, kind, partners, decline, withdraw))
    {
      var test := o => Affected(o, p, p1, kind, partners, decline, withdraw);
      if NothingToDo(p, p1, decline, withdraw) {
        forall k: nat | k < |nodes|
          ensures !test(Offered()[k])
        {
          NothingToDoIsRight(p, p1, kind, partners, decline, withdraw, k);
        }
        NoneToRemove(Offered(), test);
        return;
      }
      Sweep(test);
    }

    method DeclineWithdrawOffers(p: nat, p1: int, kind: int, decline: bool, withdraw: bool)
      requires Valid() && p < |partner| && Known(p1)
      requires forall q :: 0 <= q < |partner| ==> Known(partner[q])
      modifies this`head, this`numFrom, this`numTo, this`nodes, repr
      ensures Valid() && |numFrom| == old(|numFrom|) && repr == old(repr)
      ensures Offered() == Cleared(old(Offered()), partner, p, p1, kind, decline, withdraw)
    {
      if HasPartner(partner, p, kind) {
        DoDeclineWithdrawOffers(partner[p], if p1 == -1 then -1 else partner[p1], MATCH, true, decline, withdraw);
      }
      DoDeclineWithdrawOffers(p, p1, kind, false, decline, withdraw);
    }

    /** Ends a partnership. */
    method Unpair(i: nat)
      requires Valid() && i < |partner|
      modifies this`partner
      ensures Valid() && partner == old(partner)[i := -1] && Offered() == old(Offered())
    {
      ghost var before := Offered();
      partner := partner[i := -1];
      assert Offered() == before;
    }

    /** What a player's leaving does to offers and partnerships. */
    method PlayerRemove(p: nat, present: seq<bool>)
      requires Valid() && p < |partner| == |present|
      requires forall q :: 0 <= q < |partner| ==> Known(partner[q])
      modifies this`head, this`numFrom, this`numTo, this`nodes, this`partner, repr
      ensures Valid() && |partner| == old(|partner|) && Unmentioned(Offered(), p)
      ensures forall q :: 0 <= q < |partner| ==>
        partner[q] == if present[q] && old(partner)[q] == p then -1 else old(partner)[q]
    {
      ClearedOfAll(Offered(), partner, p);
      DeclineWithdrawOffers(p, -1, ALL, true, true);
      var i := 0;
      while i < |partner|
        invariant Valid() && |partner| == old(|partner|) && i <= |partner| && repr == old(repr)
        invariant Unmentioned(Offered(), p)
        invariant forall q :: 0 <= q < |partner| ==> Known(partner[q])
        invariant forall q :: 0 <= q < |partner| ==>
          partner[q] == if q < i && present[q] && old(partner)[q] == p then -1 else old(partner)[q]
      {
        if present[i] && partner[i] == p {
          ClearedUnmentioned(Offered(), partner, i, -1, BUGHOUSE, true, true, p);
          DeclineWithdrawOffers(i, -1, BUGHOUSE, true, true);
          Unpair(i);
        }
        i := i + 1;
      }
    }

    /** The n-th offer to p, counting from 1. */
    method FindNthPendTo(p: nat, n: nat) returns (current: Node, ghost i: nat)
      requires Valid() && p < |numFrom| && 1 <= n <= numTo[p]
      ensures i < |nodes| && current == nodes[i] && current.offer.whoto == p && CountTo(Offered()[..i], p) == n - 1
    {
      var num, at := n, head;
      i := 0;
      assert Offered()[0..] == Offered() && Offered()[..0] == [];
      while num > 0
        invariant i < |nodes| && at == nodes[i]
        invariant num > 0 ==> CountTo(Offered()[..i], p) == n - num && CountTo(Offered()[i..], p) >= num
        invariant num == 0 ==> at.offer.whoto == p && CountTo(Offered()[..i], p) == n - 1
        decreases num + |nodes| - i
      {
        CountAt(Offered(), i, p);
        if Matches(at.offer, -1, p, ALL) {
          num := num - 1;
        }
        if num > 0 {
          assert at.next == nodes[i].next == At(i + 1);
          at, i := at.next, i + 1;
        }
      }
      current := at;
    }

    /** The n-th offer from p, counting from 1. */
    method FindNthPendFrom(p: nat, n: nat) returns (current: Node, ghost i: nat)
      requires Valid() && p < |numFrom| && 1 <= n <= numFrom[p]
      ensures i < |nodes| && current == nodes[i] && current.offer.whofrom == p && CountFrom(Offered()[..i], p) == n - 1
    {
      var num, at := n, head;
      i := 0;
      assert Offered()[0..] == Offered() && Offered()[..0] == [];
      while num > 0
        invariant i < |nodes| && at == nodes[i]
        invariant num > 0 ==> CountFrom(Offered()[..i], p) == n - num && CountFrom(Offered()[i..], p) >= num
        invariant num == 0 ==> at.offer.whofrom == p && CountFrom(Offered()[..i], p) == n - 1
        decreases num + |nodes| - i
      {
        CountAt(Offered(), i, p);
        if Matches(at.offer, p, -1, ALL) {
          num := num - 1;
        }
        if num > 0 {
          assert at.next == nodes[i].next == At(i + 1);
          at, i := at.next, i + 1;
        }
      }
      current := at;
    }

    /** Two players have joined a match: all offers from and to them go, but for partnership. */
    method PendJoinMatch(p: nat, p1: nat)
      requires Valid() && p < |numFrom| && p1 < |numFrom|
      modifies this`head, this`numFrom, this`numTo, this`nodes, repr
      ensures Valid() && |numFrom| == old(|numFrom|) && repr == old(repr)
      ensures Offered() == Without(old(Offered()), o => Joined(o, p, p1))
    {
      var test := o =>
        Matches(o, p, -1, -PARTNER) || Matches(o, p1, -1, -PARTNER) || Matches(o, -1, p, -PARTNER)
            || Matches(o, -1, p1, -PARTNER);
      SameTest(Offered(), test, o => Joined(o, p, p1));
      if numFrom[p] == 0 && numTo[p] == 0 && numFrom[p1] == 0 && numTo[p1] == 0 {
        forall k: nat | k < |nodes|
          ensures !test(Offered()[k])
        {
          NoOffersNoMention(Offered(), p, k);
          NoOffersNoMention(Offered(), p1, k);
        }
        NoneToRemove(Offered(), test);
        return;
      }
      Sweep(test);
    }
  }
}
