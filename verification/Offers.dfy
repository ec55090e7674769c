/** Offers between players, as a list, and which of them a search is after. */
module Offers {
  const MATCH := 0
  const PARTNER := 8
  const BUGHOUSE := 9
  const ALL := -1

  datatype Offer = Offer(whofrom: nat, whoto: nat, kind: int, bughouse: bool)

  /** The offer is from p to p1 and of the type; -1 stands for anyone and for every type, and
      any other negative type for all but one. */
  predicate Matches(o: Offer, p: int, p1: int, kind: int) {
    && (p == -1 || o.whofrom == p) && (p1 == -1 || o.whoto == p1)
    && (kind == ALL || o.kind == kind || (kind < 0 && o.kind != -kind))
  }

  predicate Mentions(o: Offer, p: int) { o.whofrom == p || o.whoto == p }

  predicate Unmentioned(s: seq<Offer>, p: int) { forall o :: o in s ==> !Mentions(o, p) }

  function CountFrom(s: seq<Offer>, p: int): nat {
    if s == [] then 0 else (if s[0].whofrom == p then 1 else 0) + CountFrom(s[1..], p)
  }

  function CountTo(s: seq<Offer>, p: int): nat {
    if s == [] then 0 else (if s[0].whoto == p then 1 else 0) + CountTo(s[1..], p)
  }

  /** The offers for which the test fails, in order. */
  function Without(s: seq<Offer>, test: Offer -> bool): (r: seq<Offer>)
    ensures |r| <= |s|
  {
    if s == [] then []
    else if test(s[0]) then Without(s[1..], test)
    else [s[0]] + Without(s[1..], test)
  }

  lemma {:induction false} CountJoins(a: seq<Offer>, b: seq<Offer>, p: int)
    ensures CountFrom(a + b, p) == CountFrom(a, p) + CountFrom(b, p)
    ensures CountTo(a + b, p) == CountTo(a, p) + CountTo(b, p)
    decreases |a|
  {
    if a == [] {
      assert a + b == b;
    } else {
      assert (a + b)[1..] == a[1..] + b;
      CountJoins(a[1..], b, p);
    }
  }

  lemma {:induction false} CountRemoved(s: seq<Offer>, i: nat, p: int)
    requires i < |s|
    ensures CountFrom(s, p) == CountFrom(s[..i] + s[i + 1..], p) + (if s[i].whofrom == p then 1 else 0)
    ensures CountTo(s, p) == CountTo(s[..i] + s[i + 1..], p) + (if s[i].whoto == p then 1 else 0)
  {
    assert s == s[..i] + s[i..] && s[i..][1..] == s[i + 1..];
    CountJoins(s[..i], s[i..], p);
    CountJoins(s[..i], s[i + 1..], p);
  }

  /** Counting up to the i-th offer, and from it on. */
  lemma {:induction false} CountAt(s: seq<Offer>, i: nat, p: int)
    requires i < |s|
    ensures CountFrom(s[..i + 1], p) == CountFrom(s[..i], p) + (if s[i].whofrom == p then 1 else 0)
    ensures CountTo(s[..i + 1], p) == CountTo(s[..i], p) + (if s[i].whoto == p then 1 else 0)
    ensures CountFrom(s[i..], p) == CountFrom(s[i + 1..], p) + (if s[i].whofrom == p then 1 else 0)
    ensures CountTo(s[i..], p) == CountTo(s[i + 1..], p) + (if s[i].whoto == p then 1 else 0)
    ensures i + 1 == |s| ==> CountFrom(s[i + 1..], p) == CountTo(s[i + 1..], p) == 0
  {
    assert s[..i + 1] == s[..i] + [s[i]] && s[i..][1..] == s[i + 1..] && [s[i]][1..] == [];
    CountJoins(s[..i], [s[i]], p);
  }

  /** A count is positive exactly if there is something to find. */
  lemma {:induction false} CountFinds(s: seq<Offer>, p: int)
    ensures CountFrom(s, p) > 0 <==> exists i :: 0 <= i < |s| && s[i].whofrom == p
    ensures CountTo(s, p) > 0 <==> exists i :: 0 <= i < |s| && s[i].whoto == p
    decreases |s|
  {
    if s != [] {
      CountFinds(s[1..], p);
      forall i | 0 < i < |s|
        ensures s[1..][i - 1] == s[i]
      {
      }
    }
  }

  lemma {:induction false} WithoutJoins(a: seq<Offer>, b: seq<Offer>, test: Offer -> bool)
    ensures Without(a + b, test) == Without(a, test) + Without(b, test)
    decreases |a|
  {
    if a == [] {
      assert a + b == b;
    } else {
      assert (a + b)[1..] == a[1..] + b;
      WithoutJoins(a[1..], b, test);
    }
  }

  /** The offers that are left are exactly those for which the test fails. */
  lemma {:induction false} WithoutIsExact(s: seq<Offer>, test: Offer -> bool, o: Offer)
    ensures o in Without(s, test) <==> o in s && !test(o)
    decreases |s|
  {
    if s != [] {
      WithoutIsExact(s[1..], test, o);
      assert o in s <==> o == s[0] || o in s[1..];
    }
  }

  lemma {:induction false} NoneToRemove(s: seq<Offer>, test: Offer -> bool)
    requires forall i :: 0 <= i < |s| ==> !test(s[i])
    ensures Without(s, test) == s
    decreases |s|
  {
    if s != [] {
      NoneToRemove(s[1..], test);
      assert s == [s[0]] + s[1..];
    }
  }

  /** One more offer looked at: it stays or goes. */
  lemma {:induction false} WithoutNext(s: seq<Offer>, k: nat, test: Offer -> bool)
    requires k < |s|
    ensures Without(s[..k + 1], test) == Without(s[..k], test) + (if test(s[k]) then [] else [s[k]])
  {
    assert s[..k + 1] == s[..k] + [s[k]];
    WithoutJoins(s[..k], [s[k]], test);
    assert [s[k]][1..] == [];
  }

  /** What a pass over the list has made of it when k offers have been looked at. */
  function Midway(s: seq<Offer>, k: nat, test: Offer -> bool): seq<Offer>
    requires k <= |s|
  {
    Without(s[..k], test) + s[k..]
  }

  lemma {:induction false} MidwayEnds(s: seq<Offer>, test: Offer -> bool)
    ensures Midway(s, 0, test) == s && Midway(s, |s|, test) == Without(s, test)
  {
    assert s[..0] == [] && s[..|s|] == s;
  }

  /** The next offer stays. */
  lemma {:induction false} MidwayKeeps(s: seq<Offer>, k: nat, test: Offer -> bool)
    requires k < |s| && !test(s[k])
    ensures Midway(s, k + 1, test) == Midway(s, k, test) && |Without(s[..k + 1], test)| == |Without(s[..k], test)| + 1
  {
    WithoutNext(s, k, test);
    assert s[k..] == [s[k]] + s[k + 1..];
  }

  /** The next offer goes. */
  lemma {:induction false} MidwayDrops(s: seq<Offer>, k: nat, test: Offer -> bool)
    requires k < |s| && test(s[k])
    ensures var m, i := Midway(s, k, test), |Without(s[..k], test)|;
      && i < |m| && m[i] == s[k] && Midway(s, k + 1, test) == m[..i] + m[i + 1..]
      && |Without(s[..k + 1], test)| == i
  {
    WithoutNext(s, k, test);
    assert s[k..] == [s[k]] + s[k + 1..];
  }

  /** The first offer a search is after, or the end of the list. */
  function FirstMatch(s: seq<Offer>, p: int, p1: int, kind: int): (i: nat)
    ensures i <= |s|
  {
    if s == [] || Matches(s[0], p, p1, kind) then 0 else 1 + FirstMatch(s[1..], p, p1, kind)
  }

  lemma {:induction false} FirstMatchAt(s: seq<Offer>, p: int, p1: int, kind: int, i: nat)
    requires i <= |s| && (i < |s| ==> Matches(s[i], p, p1, kind))
    requires forall k :: 0 <= k < i ==> !Matches(s[k], p, p1, kind)
    ensures FirstMatch(s, p, p1, kind) == i
    decreases |s|
  {
    if i > 0 {
      forall k | 0 <= k < i - 1
        ensures !Matches(s[1..][k], p, p1, kind)
      {
        assert s[1..][k] == s[k + 1];
      }
      FirstMatchAt(s[1..], p, p1, kind, i - 1);
    }
  }

  /** It is one the search is after, and none before it is. */
  lemma {:induction false} FirstMatchIsFirst(s: seq<Offer>, p: int, p1: int, kind: int)
    ensures var i := FirstMatch(s, p, p1, kind);
      (i < |s| ==> Matches(s[i], p, p1, kind)) && forall k :: 0 <= k < i ==> !Matches(s[k], p, p1, kind)
    decreases |s|
  {
    if s != [] && !Matches(s[0], p, p1, kind) {
      FirstMatchIsFirst(s[1..], p, p1, kind);
      forall k | 0 < k < FirstMatch(s, p, p1, kind)
        ensures !Matches(s[k], p, p1, kind)
      {
        assert s[1..][k - 1] == s[k];
      }
    }
  }

  /** Which offers declining and withdrawing takes away, those of `p` to or from `p1`. */
  predicate Affected(o: Offer, p: int, p1: int, kind: int, partners: bool, decline: bool, withdraw: bool) {
    && ((decline && Matches(o, p1, p, kind)) || (withdraw && Matches(o, p, p1, kind)))
    && (o.kind == MATCH && partners ==> o.bughouse)
  }

  /** Which offers joining a match takes away. */
  predicate Joined(o: Offer, p: int, p1: int) { (Mentions(o, p) || Mentions(o, p1)) && o.kind != PARTNER }

  /** A player without offers takes part in none. */
  lemma {:induction false} NoOffersNoMention(s: seq<Offer>, p: int, k: nat)
    requires k < |s|
    ensures CountFrom(s, p) == 0 ==> s[k].whofrom != p
    ensures CountTo(s, p) == 0 ==> s[k].whoto != p
  {
    CountFinds(s, p);
  }

  /** Partners' match offers are affected too. */
  predicate HasPartner(partner: seq<int>, p: nat, kind: int)
    requires p < |partner|
  {
    (kind == MATCH || kind == ALL) && 0 <= partner[p] < |partner| && partner[partner[p]] == p
  }

  /** What declining and withdrawing leaves, those of a partner taken out first. */
  function Cleared(s: seq<Offer>, partner: seq<int>, p: nat, p1: int, kind: int, decline: bool,
      withdraw: bool): seq<Offer>
    requires p < |partner| && (p1 == -1 || 0 <= p1 < |partner|)
  {
    var q, q1 := partner[p], if p1 == -1 then -1 else partner[p1];
    var t := if HasPartner(partner, p, kind) then Without(s, o => Affected(o, q, q1, MATCH, true, decline, withdraw))
        else s;
    Without(t, o => Affected(o, p, p1, kind, false, decline, withdraw))
  }

  /** Taking out more offers brings none back. */
  lemma {:induction false} StillUnmentioned(s: seq<Offer>, test: Offer -> bool, p: int)
    requires Unmentioned(s, p)
    ensures Unmentioned(Without(s, test), p)
  {
    forall o | o in Without(s, test)
      ensures !Mentions(o, p)
    {
      WithoutIsExact(s, test, o);
    }
  }

  lemma {:induction false} ClearedUnmentioned(s: seq<Offer>, partner: seq<int>, p: nat, p1: int, kind: int,
      decline: bool, withdraw: bool, r: int)
    requires p < |partner| && (p1 == -1 || 0 <= p1 < |partner|) && Unmentioned(s, r)
    ensures Unmentioned(Cleared(s, partner, p, p1, kind, decline, withdraw), r)
  {
    var q, q1 := partner[p], if p1 == -1 then -1 else partner[p1];
    var t := if HasPartner(partner, p, kind) then Without(s, o => Affected(o, q, q1, MATCH, true, decline, withdraw))
        else s;
    StillUnmentioned(s, o => Affected(o, q, q1, MATCH, true, decline, withdraw), r);
    StillUnmentioned(t, o => Affected(o, p, p1, kind, false, decline, withdraw), r);
  }

  /** Declining and withdrawing everything leaves nothing that mentions the player. */
  lemma {:induction false} ClearedOfAll(s: seq<Offer>, partner: seq<int>, p: nat)
    requires p < |partner|
    ensures Unmentioned(Cleared(s, partner, p, -1, ALL, true, true), p)
  {
    var q, q1 := partner[p], -1;
    var t := if HasPartner(partner, p, ALL) then Without(s, o => Affected(o, q, q1, MATCH, true, true, true)) else s;
    forall o | o in Cleared(s, partner, p, -1, ALL, true, true)
      ensures !Mentions(o, p)
    {
      WithoutIsExact(t, o => Affected(o, p, -1, ALL, false, true, true), o);
    }
  }

  lemma {:induction false} SameTest(s: seq<Offer>, test: Offer -> bool, other: Offer -> bool)
    requires forall o :: test(o) == other(o)
    ensures Without(s, test) == Without(s, other)
    decreases |s|
  {
    if s != [] {
      SameTest(s[1..], test, other);
    }
  }

  /** Declining and withdrawing offers of one kind, or of all but one, or of one side only, takes exactly these:
      an offer to the player is declined, and one of his is withdrawn. */
  lemma {:induction false} ClearedExactly(s: seq<Offer>, partner: seq<int>, p: nat, p1: int, kind: int, decline: bool,
      withdraw: bool, o: Offer)
    requires p < |partner| && (p1 == -1 || 0 <= p1 < |partner|) && kind != 0 && kind != -1
    ensures o in Cleared(s, partner, p, p1, kind, decline, withdraw) <==>
      o in s && !((if kind > 0 then o.kind == kind else o.kind != -kind)
                  && ((decline && o.whoto == p && (p1 == -1 || o.whofrom == p1))
                      || (withdraw && o.whofrom == p && (p1 == -1 || o.whoto == p1))))
  {
    WithoutIsExact(s, x => Affected(x, p, p1, kind, false, decline, withdraw), o);
  }

  /** For match offers, whose number is 0, and for all offers, those of a partner's bughouse match go too. */
  lemma {:induction false} ClearedWithPartner(s: seq<Offer>, partner: seq<int>, p: nat, p1: int, kind: int,
      decline: bool, withdraw: bool, o: Offer)
    requires p < |partner| && (p1 == -1 || 0 <= p1 < |partner|) && (kind == 0 || kind == -1)
    ensures var q, q1 := partner[p], if p1 == -1 then -1 else partner[p1];
      var own := (kind == -1 || o.kind == 0)
        && ((decline && o.whoto == p && (p1 == -1 || o.whofrom == p1))
            || (withdraw && o.whofrom == p && (p1 == -1 || o.whoto == p1)));
      var partners := 0 <= q < |partner| && partner[q] == p && o.kind == 0 && o.bughouse
        && ((decline && o.whoto == q && (q1 == -1 || o.whofrom == q1))
            || (withdraw && o.whofrom == q && (q1 == -1 || o.whoto == q1)));
      o in Cleared(s, partner, p, p1, kind, decline, withdraw) <==> o in s && !own && !partners
  {
    var q, q1 := partner[p], if p1 == -1 then -1 else partner[p1];
    var t := if HasPartner(partner, p, kind) then Without(s, x => Affected(x, q, q1, MATCH, true, decline, withdraw))
        else s;
    WithoutIsExact(s, x => Affected(x, q, q1, MATCH, true, decline, withdraw), o);
    WithoutIsExact(t, x => Affected(x, p, p1, kind, false, decline, withdraw), o);
  }

  /** A request is found among the offers exactly if there is one from the one player to the other of the kind. */
  lemma {:induction false} RequestIsKnown(s: seq<Offer>, p: nat, p1: nat, kind: nat)
    ensures FirstMatch(s, p, p1, kind) < |s|
      <==> exists k :: 0 <= k < |s| && s[k].whofrom == p && s[k].whoto == p1 && s[k].kind == kind
  {
    FirstMatchIsFirst(s, p, p1, kind);
  }

  /** Joining a match leaves exactly what is an offer of partnership, whose number is 8, or mentions neither
      player. */
  lemma {:induction false} JoinedExactly(s: seq<Offer>, p: int, p1: int, o: Offer)
    ensures o in Without(s, x => Joined(x, p, p1)) <==>
      o in s && (o.kind == 8 || (o.whofrom != p && o.whofrom != p1 && o.whoto != p && o.whoto != p1))
  {
    WithoutIsExact(s, x => Joined(x, p, p1), o);
  }
}
