/** Directory listings: file names are kept in a search tree, and a search for a prefix
    leaves out the branches that cannot hold it. */
module Directory {
  /** The order of strcmp. */
  predicate Less(a: string, b: string)
    decreases |a|
  {
    b != "" && (a == "" || a[0] < b[0] || (a[0] == b[0] && Less(a[1..], b[1..])))
  }

  /** The first k characters of both are the same, and then one is at its end or has the smaller character. */
  predicate DiffersAt(a: string, b: string, k: nat) {
    k <= |a| && k < |b| && a[..k] == b[..k] && (k == |a| || a[k] < b[k])
  }

  /** The order is the one of dictionaries: what is less is a prefix, or smaller at the first difference. */
  lemma {:induction false} LessIsLexicographic(a: string, b: string)
    ensures Less(a, b) <==> exists k: nat :: DiffersAt(a, b, k)
    decreases |a|
  {
    if a != "" && b != "" && a[0] == b[0] {
      LessIsLexicographic(a[1..], b[1..]);
      if k: nat :| DiffersAt(a[1..], b[1..], k) {
        assert a[..k + 1] == [a[0]] + a[1..][..k] && b[..k + 1] == [b[0]] + b[1..][..k];
        assert DiffersAt(a, b, k + 1);
      }
      if k: nat :| DiffersAt(a, b, k) {
        if k > 0 {
          assert a[1..][..k - 1] == a[..k][1..] && b[1..][..k - 1] == b[..k][1..];
          assert DiffersAt(a[1..], b[1..], k - 1);
        }
      }
    } else if b != "" {
      assert Less(a, b) ==> DiffersAt(a, b, 0);
      if k: nat :| DiffersAt(a, b, k) {
        assert k > 0 ==> a[..k][0] == b[..k][0];
      }
    }
  }

  /** The sign of strncmp with the length of the text wanted. */
  function Compare(want: string, name: string): (sign: int)
    ensures -1 <= sign <= 1
    decreases |want|
  {
    if want == "" then 0
    else if name == "" || name[0] < want[0] then 1
    else if want[0] < name[0] then -1
    else Compare(want[1..], name[1..])
  }

  predicate InOrder(s: seq<string>, i: nat, j: nat)
    requires i < |s| && j < |s|
  {
    !Less(s[j], s[i])
  }

  ghost predicate Sorted(s: seq<string>) { forall i: nat, j: nat :: i < j < |s| ==> InOrder(s, i, j) }

  /** The names that begin with the text wanted, in order. */
  function Matching(want: string, s: seq<string>): (r: seq<string>)
    ensures |r| <= |s|
  {
    if s == [] then []
    else if want <= s[0] then [s[0]] + Matching(want, s[1..])
    else Matching(want, s[1..])
  }

  function Take(s: seq<string>, n: nat): seq<string> { if n <= |s| then s[..n] else s }

  lemma {:induction false} LessIsAsymmetric(a: string, b: string)
    requires Less(a, b)
    ensures !Less(b, a)
    decreases |a|
  {
    if a != "" && a[0] == b[0] {
      LessIsAsymmetric(a[1..], b[1..]);
    }
  }

  lemma {:induction false} OrderIsTransitive(a: string, b: string, c: string)
    requires !Less(b, a) && !Less(c, b)
    ensures !Less(c, a)
    decreases |a|
  {
    if a != "" && b != "" && c != "" && a[0] == b[0] == c[0] {
      OrderIsTransitive(a[1..], b[1..], c[1..]);
    }
  }

  lemma {:induction false} CompareFindsPrefix(want: string, name: string)
    ensures Compare(want, name) == 0 <==> want <= name
    decreases |want|
  {
    if want != "" && name != "" && want[0] == name[0] {
      CompareFindsPrefix(want[1..], name[1..]);
      assert want == [want[0]] + want[1..] && name == [name[0]] + name[1..];
    }
  }

  /** What is wanted compares with a later name as with an earlier one, or lower. */
  lemma {:induction false} CompareFalls(want: string, a: string, b: string)
    requires !Less(b, a)
    ensures Compare(want, b) <= Compare(want, a)
    decreases |want|
  {
    if want != "" && a != "" && b != "" && a[0] == b[0] {
      CompareFalls(want[1..], a[1..], b[1..]);
    }
  }

  lemma {:induction false} MatchingJoins(want: string, a: seq<string>, b: seq<string>)
    ensures Matching(want, a + b) == Matching(want, a) + Matching(want, b)
    decreases |a|
  {
    if a == [] {
      assert a + b == b;
    } else {
      assert (a + b)[1..] == a[1..] + b;
      MatchingJoins(want, a[1..], b);
    }
  }

  lemma {:induction false} NothingMatches(want: string, s: seq<string>)
    requires forall i :: 0 <= i < |s| ==> Compare(want, s[i]) != 0
    ensures Matching(want, s) == []
    decreases |s|
  {
    if s != [] {
      CompareFindsPrefix(want, s[0]);
      forall i | 0 <= i < |s[1..]|
        ensures Compare(want, s[1..][i]) != 0
      {
        assert s[1..][i] == s[i + 1];
      }
      NothingMatches(want, s[1..]);
    }
  }

  /** Which names there are of a prefix does not depend on whether they are sorted out first. */
  lemma {:induction false} MatchingIsExact(want: string, s: seq<string>, name: string)
    ensures name in Matching(want, s) <==> name in s && want <= name
    decreases |s|
  {
    if s != [] {
      MatchingIsExact(want, s[1..], name);
      assert name in s <==> name == s[0] || name in s[1..];
    }
  }

  /** The branch before a name that lies behind what is wanted holds nothing of it, and so does
      the branch behind a name that lies before. */
  lemma {:induction false} BranchesPruned(want: string, left: seq<string>, name: string, right: seq<string>)
    requires Sorted(left + [name] + right)
    ensures Compare(want, name) > 0 ==> Matching(want, left) == []
    ensures Compare(want, name) < 0 ==> Matching(want, right) == []
  {
    var all, n := left + [name] + right, |left|;
    if Compare(want, name) > 0 {
      forall i | 0 <= i < |left|
        ensures Compare(want, left[i]) != 0
      {
        assert InOrder(all, i, n) && all[i] == left[i] && all[n] == name;
        CompareFalls(want, left[i], name);
      }
      NothingMatches(want, left);
    }
    if Compare(want, name) < 0 {
      forall i | 0 <= i < |right|
        ensures Compare(want, right[i]) != 0
      {
        assert InOrder(all, n, n + 1 + i) && all[n + 1 + i] == right[i] && all[n] == name;
        CompareFalls(want, name, right[i]);
      }
      NothingMatches(want, right);
    }
  }

  /** Matches in order: those of the left branch, of the name, of the right branch. */
  lemma {:induction false} MatchingParts(want: string, left: seq<string>, name: string, right: seq<string>)
    ensures Matching(want, left + [name] + right)
         == Matching(want, left) + (if want <= name then [name] else []) + Matching(want, right)
  {
    MatchingJoins(want, left + [name], right);
    MatchingJoins(want, left, [name]);
    assert [name][1..] == [];
  }

  /** Where a name belongs: behind those that are not after it. */
  ghost predicate Belongs(s: seq<string>, k: nat, x: string) {
    && k <= |s| && (forall i :: 0 <= i < k ==> !Less(x, s[i]))
    && (forall i :: k <= i < |s| ==> Less(x, s[i]))
  }

  function Inserted(s: seq<string>, k: nat, x: string): (r: seq<string>)
    requires k <= |s|
  {
    s[..k] + [x] + s[k..]
  }

  lemma {:induction false} LessBefore(x: string, a: string, b: string)
    requires Less(x, a) && !Less(b, a)
    ensures Less(x, b)
  {
    if !Less(x, b) {
      OrderIsTransitive(a, b, x);
    }
  }

  lemma {:induction false} InsertedSorted(s: seq<string>, k: nat, x: string)
    requires Sorted(s) && Belongs(s, k, x)
    ensures Sorted(Inserted(s, k, x))
  {
    var t := Inserted(s, k, x);
    forall i: nat, j: nat | i < j < |t|
      ensures InOrder(t, i, j)
    {
      if i == k {
        assert t[j] == s[j - 1];
        LessIsAsymmetric(x, s[j - 1]);
      } else if j != k {
        assert InOrder(s, if i < k then i else i - 1, if j < k then j else j - 1);
      }
    }
  }

  /** A name that belongs into the branch before a name, belongs there among all. */
  lemma {:induction false} BelongsLeft(ls: seq<string>, name: string, rs: seq<string>, k: nat, x: string)
    requires Sorted(ls + [name] + rs) && Less(x, name) && Belongs(ls, k, x)
    ensures var all := ls + [name] + rs; Belongs(all, k, x) && Inserted(ls, k, x) + [name] + rs == Inserted(all, k, x)
  {
    var all, n := ls + [name] + rs, |ls|;
    forall i | k <= i < |all|
      ensures Less(x, all[i])
    {
      if i > n {
        assert all[n] == name && InOrder(all, n, i);
        LessBefore(x, name, all[i]);
      }
    }
  }

  lemma {:induction false} BelongsRight(ls: seq<string>, name: string, rs: seq<string>, k: nat, x: string)
    requires Sorted(ls + [name] + rs) && !Less(x, name) && Belongs(rs, k, x)
    ensures var all, n := ls + [name] + rs, |ls| + 1;
      Belongs(all, n + k, x) && ls + [name] + Inserted(rs, k, x) == Inserted(all, n + k, x)
  {
    var all, n := ls + [name] + rs, |ls| + 1;
    forall i | 0 <= i < n + k
      ensures !Less(x, all[i])
    {
      if i < n - 1 {
        assert all[n - 1] == name && InOrder(all, i, n - 1);
        OrderIsTransitive(all[i], name, x);
      } else if i >= n {
        assert all[i] == rs[i - n];
      }
    }
    forall i | n + k <= i < |all|
      ensures Less(x, all[i])
    {
      assert all[i] == rs[i - n];
    }
    InsertedRight(ls + [name], rs, k, x);
  }

  lemma {:induction false} InsertedRight(before: seq<string>, s: seq<string>, k: nat, x: string)
    requires k <= |s|
    ensures before + Inserted(s, k, x) == Inserted(before + s, |before| + k, x)
  {
  }

  /** The sorted names with one more. */
  function Put(s: seq<string>, x: string): (r: seq<string>)
    ensures |r| == |s| + 1
  {
    if s == [] then [x] else if Less(x, s[0]) then [x] + s else [s[0]] + Put(s[1..], x)
  }

  lemma {:induction false} PutIsInserted(s: seq<string>, k: nat, x: string)
    requires Belongs(s, k, x)
    ensures Inserted(s, k, x) == Put(s, x)
    decreases |s|
  {
    if s == [] {
      assert Inserted(s, k, x) == [x];
    } else if k == 0 {
      assert Inserted(s, 0, x) == [x] + s;
    } else {
      assert !Less(x, s[0]);
      forall i | 0 <= i < |s[1..]|
        ensures s[1..][i] == s[i + 1]
      {
      }
      PutIsInserted(s[1..], k - 1, x);
      assert Inserted(s, k, x) == [s[0]] + Inserted(s[1..], k - 1, x);
    }
  }

  lemma {:induction false} PutBelongs(s: seq<string>, x: string) returns (k: nat)
    requires Sorted(s)
    ensures Belongs(s, k, x)
    decreases |s|
  {
    if s == [] {
      k := 0;
    } else if Less(x, s[0]) {
      k := 0;
      forall i | 0 < i < |s|
        ensures Less(x, s[i])
      {
        assert InOrder(s, 0, i);
        LessBefore(x, s[0], s[i]);
      }
    } else {
      RestIsSorted(s);
      var j := PutBelongs(s[1..], x);
      k := j + 1;
      forall i | 0 < i < |s|
        ensures s[i] == s[1..][i - 1]
      {
      }
    }
  }

  /** A name put into one branch is put into the whole, and the whole stays sorted. */
  lemma {:induction false} PutBefore(ls: seq<string>, name: string, rs: seq<string>, x: string)
    requires Sorted(ls + [name] + rs) && Sorted(ls) && Less(x, name)
    ensures Put(ls, x) + [name] + rs == Put(ls + [name] + rs, x) && Sorted(Put(ls, x) + [name] + rs)
  {
    var k := PutBelongs(ls, x);
    BelongsLeft(ls, name, rs, k, x);
    PutIsInserted(ls, k, x);
    PutIsInserted(ls + [name] + rs, k, x);
    InsertedSorted(ls + [name] + rs, k, x);
  }

  lemma {:induction false} PutBehind(ls: seq<string>, name: string, rs: seq<string>, x: string)
    requires Sorted(ls + [name] + rs) && Sorted(rs) && !Less(x, name)
    ensures ls + [name] + Put(rs, x) == Put(ls + [name] + rs, x) && Sorted(ls + [name] + Put(rs, x))
  {
    var k := PutBelongs(rs, x);
    BelongsRight(ls, name, rs, k, x);
    PutIsInserted(rs, k, x);
    PutIsInserted(ls + [name] + rs, |ls| + 1 + k, x);
    InsertedSorted(ls + [name] + rs, |ls| + 1 + k, x);
  }

  class Node {
    const name: string
    var left: Node?
    var right: Node?
    /** The names of the branch in order, and its nodes. */
    ghost var names: seq<string>
    ghost var repr: set<Node>

    ghost predicate Valid()
      reads this, repr
      decreases repr
    {
      && this in repr
      && (left != null ==> left in repr && left.repr <= repr && this !in left.repr && left.Valid())
      && (right != null ==> right in repr && right.repr <= repr && this !in right.repr && right.Valid())
      && (left != null && right != null ==> left.repr !! right.repr)
      && names == Names(left) + [name] + Names(right)
      && Sorted(names)
    }

    constructor (name: string)
      ensures Valid() && fresh(repr) && names == [name] && this.name == name
    {
      this.name, left, right := name, null, null;
      names, repr := [name], {this};
    }

    /** Goes down to where the name belongs, and hangs a new leaf there. */
    method Insert(x: string)
      requires Valid()
      modifies repr
      ensures Valid() && fresh(repr - old(repr)) && names == Put(old(names), x)
      decreases repr, 1
    {
      if Less(x, name) {
        InsertLeft(x);
      } else {
        InsertRight(x);
      }
    }

    /** Into a branch, which may be empty. */
    static method Grow(t: Node?, x: string) returns (tree: Node)
      requires t != null ==> t.Valid()
      modifies if t == null then {} else t.repr
      ensures tree.Valid() && fresh(tree.repr - if t == null then {} else old(t.repr))
      ensures tree.names == Put(old(Names(t)), x)
      decreases if t == null then {} else t.repr, 2
    {
      if t == null {
        tree := new Node(x);
      } else {
        t.Insert(x);
        tree := t;
      }
    }

    method InsertLeft(x: string)
      requires Valid() && Less(x, name)
      modifies repr
      ensures Valid() && fresh(repr - old(repr)) && names == Put(old(names), x)
      decreases repr, 0
    {
      PutBefore(Names(left), name, Names(right), x);
      var tree := Grow(left, x);
      Adopt(tree, right);
    }

    method InsertRight(x: string)
      requires Valid() && !Less(x, name)
      modifies repr
      ensures Valid() && fresh(repr - old(repr)) && names == Put(old(names), x)
      decreases repr, 0
    {
      PutBehind(Names(left), name, Names(right), x);
      var tree := Grow(right, x);
      Adopt(left, tree);
    }

    /** Two trees become the branches. */
    method Adopt(l: Node?, r: Node?)
      requires (l != null ==> l.Valid() && this !in l.repr) && (r != null ==> r.Valid() && this !in r.repr)
      requires l != null && r != null ==> l.repr !! r.repr
      requires Sorted(Names(l) + [name] + Names(r))
      modifies this
      ensures Valid() && names == Names(l) + [name] + Names(r)
      ensures repr == {this} + (if l == null then {} else l.repr) + (if r == null then {} else r.repr)
    {
      left, right := l, r;
      names := Names(l) + [name] + Names(r);
      repr := {this} + (if l == null then {} else l.repr) + (if r == null then {} else r.repr);
    }
  }

  ghost function Names(t: Node?): seq<string>
    reads t
  {
    if t == null then [] else t.names
  }

  lemma {:induction false} InsertedCounts(s: seq<string>, k: nat, x: string)
    requires k <= |s|
    ensures multiset(Inserted(s, k, x)) == multiset(s) + multiset{x}
  {
    assert s == s[..k] + s[k..];
  }

  /** Taking the first n of two parts. */
  lemma {:induction false} TakeJoins(a: seq<string>, b: seq<string>, n: nat)
    ensures Take(a + b, n) == Take(a, n) + Take(b, n - |Take(a, n)|)
  {
  }

  /** Names beginning with a dot are not listed. */
  predicate IsVisible(name: string) { name == "" || name[0] != '.' }

  function Visible(entries: seq<string>): seq<string> {
    if entries == [] then []
    else Visible(entries[..|entries| - 1])
         + if IsVisible(entries[|entries| - 1]) then [entries[|entries| - 1]] else []
  }

  /** What a directory lists, in order. */
  function Listing(entries: seq<string>): seq<string> {
    if entries == [] then []
    else
      var before, last := Listing(entries[..|entries| - 1]), entries[|entries| - 1];
      if IsVisible(last) then Put(before, last) else before
  }

  /** The listing is sorted, and has every visible entry as often as the directory. */
  lemma {:induction false} ListingIsExact(entries: seq<string>)
    ensures Sorted(Listing(entries)) && multiset(Listing(entries)) == multiset(Visible(entries))
    decreases |entries|
  {
    if entries != [] {
      var last := entries[|entries| - 1];
      ListingIsExact(entries[..|entries| - 1]);
      var before := Listing(entries[..|entries| - 1]);
      if IsVisible(last) {
        var k := PutBelongs(before, last);
        PutIsInserted(before, k, last);
        InsertedSorted(before, k, last);
        InsertedCounts(before, k, last);
      }
    }
  }

  /** The first of a sorted listing is before whatever else is in it. */
  lemma {:induction false} FirstIsLeast(s: seq<string>, x: string)
    requires Sorted(s) && x in multiset(s)
    ensures s != [] && !Less(x, s[0])
  {
    NotBeforeItself(x);
    var i :| 0 <= i < |s| && s[i] == x;
    if i > 0 {
      assert InOrder(s, 0, i);
    }
  }

  lemma {:induction false} RestIsSorted(s: seq<string>)
    requires Sorted(s) && s != []
    ensures Sorted(s[1..]) && multiset(s[1..]) == multiset(s) - multiset{s[0]}
  {
    forall i: nat, j: nat | i < j < |s[1..]|
      ensures InOrder(s[1..], i, j)
    {
      assert InOrder(s, i + 1, j + 1);
    }
    assert s == [s[0]] + s[1..];
  }

  /** A sorted listing is determined by what is in it. */
  lemma {:induction false} ListingIsUnique(a: seq<string>, b: seq<string>)
    requires Sorted(a) && Sorted(b) && multiset(a) == multiset(b)
    ensures a == b
    decreases |a|
  {
    assert |multiset(a)| == |a| && |multiset(b)| == |b|;
    if a != [] {
      assert a[0] in multiset(a) && b[0] in multiset(b);
      FirstIsLeast(a, b[0]);
      FirstIsLeast(b, a[0]);
      OrderIsTotal(a[0], b[0]);
      RestIsSorted(a);
      RestIsSorted(b);
      ListingIsUnique(a[1..], b[1..]);
      assert a == [a[0]] + a[1..] && b == [b[0]] + b[1..];
    }
  }

  lemma {:induction false} NotBeforeItself(a: string)
    ensures !Less(a, a)
  {
    if Less(a, a) {
      LessIsAsymmetric(a, a);
    }
  }

  lemma {:induction false} OrderIsTotal(a: string, b: string)
    requires !Less(a, b) && !Less(b, a)
    ensures a == b
    decreases |a|
  {
    if a != "" && b != "" {
      OrderIsTotal(a[1..], b[1..]);
      assert a == [a[0]] + a[1..] && b == [b[0]] + b[1..];
    }
  }

  /** Makes the tree for a directory. */
  method MakeTree(entries: seq<string>) returns (files: Node?)
    ensures files != null ==> files.Valid() && fresh(files.repr)
    ensures Names(files) == Listing(entries)
  {
    files := null;
    for i := 0 to |entries|
      invariant files != null ==> files.Valid() && fresh(files.repr)
      invariant Names(files) == Listing(entries[..i])
    {
      assert entries[..i + 1][..i] == entries[..i];
      if IsVisible(entries[i]) {
        files := Node.Grow(files, entries[i]);
      }
    }
    assert entries[..|entries|] == entries;
  }

  /** The first n names of those wanted. */
  function Hits(want: string, s: seq<string>, n: nat): (r: seq<string>)
    ensures |r| <= n
  {
    if s == [] || n == 0 then []
    else if want <= s[0] then [s[0]] + Hits(want, s[1..], n - 1)
    else Hits(want, s[1..], n)
  }

  lemma {:induction false} HitsAreFirstMatches(want: string, s: seq<string>, n: nat)
    ensures Hits(want, s, n) == Take(Matching(want, s), n)
    decreases |s|
  {
    if s != [] && n > 0 {
      if want <= s[0] {
        HitsAreFirstMatches(want, s[1..], n - 1);
        assert Take([s[0]] + Matching(want, s[1..]), n) == [s[0]] + Take(Matching(want, s[1..]), n - 1);
      } else {
        HitsAreFirstMatches(want, s[1..], n);
      }
    }
  }

  /** What a search adds, part by part. */
  lemma {:induction false} SearchSplits(want: string, left: seq<string>, name: string, right: seq<string>, n: nat)
    requires Sorted(left + [name] + right)
    ensures var a := Hits(want, left, n);
      var b := if Compare(want, name) == 0 && |a| < n then [name] else [];
      var c := Hits(want, right, n - |a| - |b|);
      && Hits(want, left + [name] + right, n) == a + b + c
      && (Compare(want, name) > 0 ==> a == []) && (Compare(want, name) < 0 ==> c == [])
  {
    var l, m, r := Matching(want, left), if want <= name then [name] else [], Matching(want, right);
    CompareFindsPrefix(want, name);
    HitsAreFirstMatches(want, left, n);
    assert Hits(want, left + [name] + right, n) == Take(l + m + r, n) by {
      HitsAreFirstMatches(want, left + [name] + right, n);
      MatchingParts(want, left, name, right);
    }
    HitsAreFirstMatches(want, right, n - |Take(l, n)| - if want <= name && |Take(l, n)| < n then 1 else 0);
    TakeOfThree(l, m, r, n);
    assert (Compare(want, name) > 0 ==> l == []) && (Compare(want, name) < 0 ==> r == []) by {
      BranchesPruned(want, left, name, right);
    }
  }

  lemma {:induction false} TakeOfThree(l: seq<string>, m: seq<string>, r: seq<string>, n: nat)
    requires |m| <= 1
    ensures var a := Take(l, n); var b := if m != [] && |a| < n then m else [];
      |a| + |b| <= n && Take(l + m + r, n) == a + b + Take(r, n - |a| - |b|)
  {
    TakeJoins(l + m, r, n);
    TakeJoins(l, m, n);
  }

  /** A search under way: what was found, and how much more fits. */
  class Search {
    var buffer: seq<string>
    var room: nat

    constructor (size: nat)
      ensures buffer == [] && room == size
    {
      buffer, room := [], size;
    }

    method Add(name: string)
      requires room > 0
      modifies this
      ensures buffer == old(buffer) + [name] && room == old(room) - 1
    {
      buffer, room := buffer + [name], room - 1;
    }

    /** Adds what begins with the text wanted, as far as there is room. */
    method SearchTree(want: string, t: Node?)
      requires t != null ==> t.Valid()
      modifies this
      ensures var hits := Hits(want, Names(t), old(room)); buffer == old(buffer) + hits && room == old(room) - |hits|
      decreases if t == null then {} else t.repr, 1
    {
      if t == null {
        return;
      }
      ghost var from, n := buffer, room;
      SearchSplits(want, Names(t.left), t.name, Names(t.right), n);
      var cmp := Compare(want, t.name);
      ghost var begun := SearchBegin(want, t, cmp);
      ghost var rest := Hits(want, Names(t.right), room);
      if cmp >= 0 {
        SearchTree(want, t.right);
      }
      assert buffer == from + begun + rest;
      Regroup(from, begun, rest);
    }

    /** Looks left, if what is wanted may be there, and at the node itself. */
    method SearchBegin(want: string, t: Node, cmp: int) returns (ghost begun: seq<string>)
      requires t.Valid() && cmp == Compare(want, t.name) && (cmp > 0 ==> Hits(want, Names(t.left), room) == [])
      modifies this
      ensures begun == Hits(want, Names(t.left), old(room))
                       + if cmp == 0 && |Hits(want, Names(t.left), old(room))| < old(room) then [t.name] else []
      ensures buffer == old(buffer) + begun && room == old(room) - |begun|
      decreases t.repr, 0
    {
      begun := Hits(want, Names(t.left), room);
      if cmp <= 0 {
        SearchTree(want, t.left);
      }
      if room > 0 && cmp == 0 {
        Add(t.name);
        Regroup(old(buffer), begun, [t.name]);
        begun := begun + [t.name];
      }
    }
  }

  lemma {:induction false} Regroup(a: seq<string>, b: seq<string>, c: seq<string>)
    ensures a + b + c == a + (b + c)
  {
  }

  /** The files kept for one directory, and how old they are. */
  class Index {
    var files: Node?
    var mtime: int
    ghost var entries: seq<string>
    ghost var tree: set<object>

    ghost predicate Valid()
      reads this, tree
    {
      files != null ==> files in tree && files.repr <= tree && files.Valid() && Names(files) == Listing(entries)
    }

    constructor ()
      ensures Valid() && files == null && tree == {}
    {
      files, mtime, entries, tree := null, 0, [], {};
    }

    /** What is kept agrees with what the directory holds now, if it is as old. */
    ghost predicate UpToDate(now: seq<string>, time: int)
      reads this
    {
      files != null && mtime == time ==> entries == now
    }

    /** Lists the first `size` names with a prefix, reading the directory again only when it
        has changed: `now` is what it holds, and it is the same as long as its time is. */
    method SearchDirectory(want: string, size: nat, now: seq<string>, time: int) returns (found: seq<string>)
      requires Valid() && UpToDate(now, time)
      modifies this
      ensures Valid() && UpToDate(now, time) && mtime == time && fresh(tree - old(tree))
      ensures found == Take(Matching(want, Listing(now)), size)
    {
      Refresh(now, time);
      var search := new Search(size);
      search.SearchTree(want, files);
      HitsAreFirstMatches(want, Names(files), size);
      found := search.buffer;
    }

    /** Reads the directory again if it has changed. */
    method Refresh(now: seq<string>, time: int)
      requires Valid() && UpToDate(now, time)
      modifies this
      ensures Valid() && UpToDate(now, time) && mtime == time && fresh(tree - old(tree))
      ensures Names(files) == Listing(now)
    {
      if files != null && mtime != time {
        files := null;
      }
      if files == null {
        mtime, entries := time, now;
        files := MakeTree(now);
        if files != null {
          tree := files.repr;
        }
      }
    }
  }

  /** The files kept for all directories asked for so far. */
  class Directories {
    var kept: map<string, Index>
    ghost var trees: set<object>

    /** Each directory has an index of its own. No index is part of a tree. */
    ghost predicate Valid()
      reads this, kept.Values, trees
    {
      && kept.Values !! trees
      && (forall d <- kept.Keys :: kept[d].tree <= trees && kept[d].Valid())
      && forall d, e | d in kept && e in kept && d != e :: kept[d] != kept[e]
    }

    constructor ()
      ensures Valid() && kept == map[]
    {
      kept, trees := map[], {};
    }

    /** What is kept for a directory agrees with what it holds now. */
    ghost predicate UpToDate(dir: string, now: seq<string>, time: int)
      reads this, kept.Values
    {
      dir in kept ==> kept[dir].UpToDate(now, time)
    }

    /** Takes up a directory that is asked for the first time. */
    method TakeUp(dir: string)
      requires Valid()
      modifies this`kept
      ensures Valid() && kept.Keys == old(kept.Keys) + {dir} && trees == old(trees)
      ensures forall d <- old(kept.Keys) :: kept[d] == old(kept[d])
      ensures dir !in old(kept) ==> fresh(kept[dir]) && kept[dir].files == null
    {
      if dir !in kept {
        var index := new Index();
        kept := kept[dir := index];
      }
    }

    /** Searches a directory; what is kept for other directories stays. */
    method SearchDirectory(dir: string, want: string, size: nat, now: seq<string>, time: int)
        returns (found: seq<string>)
      requires Valid() && UpToDate(dir, now, time)
      modifies this, kept.Values
      ensures Valid() && UpToDate(dir, now, time) && kept.Keys == old(kept.Keys) + {dir}
      ensures found == Take(Matching(want, Listing(now)), size)
      ensures forall d, held: seq<string>, t | d in old(kept) && d != dir
              && old(UpToDate(d, held, t)) :: UpToDate(d, held, t)
    {
      TakeUp(dir);
      var index := kept[dir];
      found := index.SearchDirectory(want, size, now, time);
      trees := trees + index.tree;
      forall d | d in kept
        ensures kept[d].tree <= trees && kept[d].Valid()
      {
        assert d != dir ==> kept[d] != index;
      }
    }
  }
}
