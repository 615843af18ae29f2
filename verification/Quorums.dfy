/** Majorities: how many votes win, what index a majority has reached, and why two
    majorities of the same membership share a member. */
module Quorums {

  /** The size of a majority of `n` members. */
  function Quorum(n: nat): nat {
    n / 2 + 1
  }

  /** A quorum is the least number of members of which any two sets must meet. */
  lemma QuorumFits(n: nat)
    requires n >= 1
    ensures 0 < Quorum(n) <= n && 2 * (Quorum(n) - 1) <= n < 2 * Quorum(n)
  {
  }

  lemma {:induction false} SubsetSize<T>(a: set<T>, b: set<T>)
    requires a <= b
    ensures |a| <= |b|
    decreases a
  {
    if a != {} {
      var x :| x in a;
      SubsetSize(a - {x}, b - {x});
    }
  }

  /** Two quorums of the same members have a member in common. */
  lemma QuorumsIntersect<T>(members: set<T>, a: set<T>, b: set<T>) returns (x: T)
    requires a <= members && b <= members
    requires |a| >= Quorum(|members|) && |b| >= Quorum(|members|)
    ensures x in a && x in b
  {
    if a * b == {} {
      assert |a + b| == |a| + |b|;
      SubsetSize(a + b, members);
      assert false;
    }
    x :| x in a * b;
  }

  // ---------- sorting ----------

  predicate Descending(s: seq<nat>) {
    forall i | 0 < i < |s| :: s[i - 1] >= s[i]
  }

  predicate Ascending(s: seq<nat>) {
    forall i | 0 < i < |s| :: s[i - 1] <= s[i]
  }

  predicate Permutation(s: seq<nat>, t: seq<nat>) {
    |s| == |t| && multiset(s) == multiset(t)
  }

  function Insert(x: nat, s: seq<nat>): (r: seq<nat>)
    ensures |r| == |s| + 1
    ensures r[0] == x || (s != [] && r[0] == s[0] && s[0] > x)
  {
    if s == [] || x >= s[0] then [x] + s else [s[0]] + Insert(x, s[1..])
  }

  lemma {:induction false} InsertSpec(x: nat, s: seq<nat>)
    requires Descending(s)
    ensures Descending(Insert(x, s)) && multiset(Insert(x, s)) == multiset([x] + s)
  {
    if s != [] && x < s[0] {
      InsertSpec(x, s[1..]);
      assert s == [s[0]] + s[1..];
    }
  }

  function SortDesc(v: seq<nat>): (r: seq<nat>)
    ensures |r| == |v|
  {
    if v == [] then [] else Insert(v[0], SortDesc(v[1..]))
  }

  lemma {:induction false} SortDescSpec(v: seq<nat>)
    ensures Descending(SortDesc(v)) && Permutation(SortDesc(v), v)
  {
    if v != [] {
      SortDescSpec(v[1..]);
      InsertSpec(v[0], SortDesc(v[1..]));
      assert v == [v[0]] + v[1..];
    }
  }

  // ---------- counting ----------

  /** How many of `v` are at least `x`. */
  function Count(v: seq<nat>, x: nat): nat {
    if v == [] then 0 else (if v[0] >= x then 1 else 0) + Count(v[1..], x)
  }

  /** The count does not depend on the order. */
  lemma {:induction false} CountSplit(v: seq<nat>, i: nat, x: nat)
    requires i < |v|
    ensures Count(v, x) == (if v[i] >= x then 1 else 0) + Count(v[..i] + v[i + 1..], x)
  {
    if i == 0 {
      assert v[..0] + v[1..] == v[1..];
    } else {
      CountSplit(v[1..], i - 1, x);
      assert v[1..][..i - 1] + v[1..][i..] == (v[..i] + v[i + 1..])[1..];
    }
  }

  lemma {:induction false} CountPermutation(v: seq<nat>, w: seq<nat>, x: nat)
    requires Permutation(v, w)
    ensures Count(v, x) == Count(w, x)
    decreases |v|
  {
    if v != [] {
      var i := Find(v, w);
      var rest := w[..i] + w[i + 1..];
      CountPermutation(v[1..], rest, x);
      CountSplit(w, i, x);
    }
  }

  /** The first element of `v` occurs in its permutation `w`, and taking it out of both
      leaves permutations. */
  lemma Find(v: seq<nat>, w: seq<nat>) returns (i: nat)
    requires Permutation(v, w) && v != []
    ensures i < |w| && w[i] == v[0] && Permutation(v[1..], w[..i] + w[i + 1..])
  {
    assert v == [v[0]] + v[1..];
    assert v[0] in multiset(w);
    i :| 0 <= i < |w| && w[i] == v[0];
    var rest := w[..i] + w[i + 1..];
    assert w == (w[..i] + [w[i]]) + w[i + 1..];
    assert multiset(w) == multiset(rest) + multiset{v[0]};
    assert multiset(v) == multiset(v[1..]) + multiset{v[0]};
    assert multiset(v[1..]) == multiset(v) - multiset{v[0]};
    assert multiset(rest) == multiset(w) - multiset{v[0]};
  }

  /** In a descending sequence the values that reach `x` are its first ones. */
  lemma {:induction false} CountDescending(s: seq<nat>, k: nat, x: nat)
    requires Descending(s) && 0 < k <= |s|
    ensures Count(s, x) >= k <==> s[k - 1] >= x
  {
    if s[0] < x {
      CountNone(s, x);
      BelowFirst(s, k - 1);
    } else if k > 1 {
      CountDescending(s[1..], k - 1, x);
    }
  }

  lemma {:induction false} BelowFirst(s: seq<nat>, i: nat)
    requires Descending(s) && i < |s|
    ensures s[i] <= s[0]
  {
    if i > 0 {
      BelowFirst(s, i - 1);
    }
  }

  lemma {:induction false} CountNone(s: seq<nat>, x: nat)
    requires Descending(s) && (s != [] ==> s[0] < x)
    ensures Count(s, x) == 0
  {
    if s != [] {
      CountNone(s[1..], x);
    }
  }

  lemma SortedAt(s: seq<nat>, d: seq<nat>, k: nat)
    requires Descending(s) && Descending(d) && Permutation(s, d) && k < |s|
    ensures s[k] >= d[k]
  {
    CountPermutation(s, d, d[k]);
    CountDescending(s, k + 1, d[k]);
    CountDescending(d, k + 1, d[k]);
  }

  /** Sorting is determined: every descending arrangement of `v` is `SortDesc(v)`. */
  lemma SortUnique(v: seq<nat>, s: seq<nat>)
    requires Descending(s) && Permutation(s, v)
    ensures s == SortDesc(v)
  {
    SortDescSpec(v);
    var d := SortDesc(v);
    forall k | 0 <= k < |s| ensures s[k] == d[k] {
      SortedAt(s, d, k);
      SortedAt(d, s, k);
    }
  }

  // ---------- the commit pick ----------

  /** The value at position `q - 1` of the descending arrangement. */
  function Pick(v: seq<nat>, q: nat): nat
    requires 0 < q <= |v|
  {
    SortDesc(v)[q - 1]
  }

  /** The pick is the greatest value that at least `q` of `v` have reached: exactly the
      values up to it are reached by that many. */
  lemma PickSpec(v: seq<nat>, q: nat, x: nat)
    requires 0 < q <= |v|
    ensures Count(v, x) >= q <==> x <= Pick(v, q)
  {
    SortDescSpec(v);
    CountPermutation(v, SortDesc(v), x);
    CountDescending(SortDesc(v), q, x);
  }

  /** For every membership: a quorum has reached the pick, fewer than a quorum are
      beyond it, and it is itself one of the values. */
  lemma QuorumPick(v: seq<nat>, q: nat)
    requires |v| >= 1 && q == Quorum(|v|)
    ensures 0 < q <= |v|
    ensures Pick(v, q) in v && Count(v, Pick(v, q)) >= q && Count(v, Pick(v, q) + 1) < q
  {
    PickIsExtreme(v, q);
  }

  lemma PickIsExtreme(v: seq<nat>, q: nat)
    requires 0 < q <= |v|
    ensures Pick(v, q) in v && Count(v, Pick(v, q)) >= q && Count(v, Pick(v, q) + 1) < q
  {
    PickSpec(v, q, Pick(v, q));
    PickSpec(v, q, Pick(v, q) + 1);
    PickIsValue(v, q);
  }

  lemma PickIsValue(v: seq<nat>, q: nat)
    requires 0 < q <= |v|
    ensures Pick(v, q) in v
  {
    SortDescSpec(v);
    SameValues(SortDesc(v), v, q - 1);
  }

  lemma SameValues(s: seq<nat>, v: seq<nat>, i: nat)
    requires multiset(s) == multiset(v) && i < |s|
    ensures s[i] in v
  {
    assert s[i] in multiset(s);
  }

  /** The older commit rule sorts ascending and takes position h - 1, where h is n/2.  For
      every n >= 2 and every values: that is the descending rank n - h, so for even n it is
      the quorum pick, for odd n the next lower rank; it is never greater than the quorum
      pick and is held by a quorum. */
  lemma OlderPickSound(v: seq<nat>, s: seq<nat>, h: nat, q: nat)
    requires Ascending(s) && Permutation(s, v)
    requires 0 < h && (|v| == 2 * h || |v| == 2 * h + 1) && q == h + 1
    ensures var p := s[h - 1];
      && p == SortDesc(v)[|v| - h]
      && (|v| == 2 * h ==> p == Pick(v, q))
      && (|v| == 2 * h + 1 ==> q < |v| && p == SortDesc(v)[q])
      && p <= Pick(v, q)
      && Count(v, p) >= q
  {
    OlderRank(v, s, h);
    RankHeld(v, |v| - h, q);
  }

  /** The value at a rank is held by as many as the rank says, and lower ranks are greater. */
  lemma RankHeld(v: seq<nat>, k: nat, q: nat)
    requires k < |v| && 0 < q <= k + 1
    ensures Count(v, SortDesc(v)[k]) >= k + 1 && SortDesc(v)[k] <= Pick(v, q)
  {
    PickSpec(v, k + 1, SortDesc(v)[k]);
    PickSpec(v, q, SortDesc(v)[k]);
  }

  lemma OlderRank(v: seq<nat>, s: seq<nat>, h: nat)
    requires Ascending(s) && Permutation(s, v) && 0 < h < |v|
    ensures s[h - 1] == SortDesc(v)[|v| - h]
  {
    SortUnique(v, Reverse(s));
    assert Reverse(s)[|v| - h] == s[|v| - 1 - (|v| - h)];
  }

  function Reverse(s: seq<nat>): (r: seq<nat>)
    ensures Permutation(r, s)
    ensures forall i | 0 <= i < |s| :: r[i] == s[|s| - 1 - i]
  {
    if s == [] then []
    else
      assert s == [s[0]] + s[1..];
      Reverse(s[1..]) + [s[0]]
  }

  lemma Halves(n: nat, h: nat, q: nat)
    requires h == n / 2 && q == Quorum(n)
    ensures (n == 2 * h || n == 2 * h + 1) && q == h + 1
  {
  }

  /** The older rule counts the local slot as greatest: the other members that hold the
      picked index make a quorum together with the local one. */
  lemma OlderPickHeldByOthers(v: seq<nat>, me: nat, s: seq<nat>, h: nat, q: nat)
    requires |v| >= 2 && me < |v| && Ascending(s) && Permutation(s, v) && h == |v| / 2 && q == Quorum(|v|)
    requires forall i | 0 <= i < |v| :: v[i] <= v[me]
    ensures 1 + Count(v[..me] + v[me + 1..], s[h - 1]) >= q
  {
    Halves(|v|, h, q);
    OlderPickSound(v, s, h, q);
    CountSplit(v, me, s[h - 1]);
  }

  // ---------- from counting to sets of members ----------

  predicate Distinct<T(==)>(ids: seq<T>) {
    forall i, j | 0 <= i < j < |ids| :: ids[i] != ids[j]
  }

  function Members<T>(ids: seq<T>): set<T> {
    set id | id in ids
  }

  lemma {:induction false} MembersSize<T>(ids: seq<T>)
    requires Distinct(ids)
    ensures |Members(ids)| == |ids|
  {
    if ids != [] {
      MembersSize(ids[1..]);
      assert Members(ids) == {ids[0]} + Members(ids[1..]);
      assert ids[0] !in ids[1..];
    }
  }

  /** The values of `f` over the members in their order. */
  function Values(ids: seq<nat>, f: map<nat, nat>): (v: seq<nat>)
    requires forall id | id in ids :: id in f
    ensures |v| == |ids| && forall i | 0 <= i < |ids| :: v[i] == f[ids[i]]
  {
    seq(|ids|, i requires 0 <= i < |ids| => f[ids[i]])
  }

  /** The members whose value reached `x`. */
  function Reached(ids: seq<nat>, f: map<nat, nat>, x: nat): set<nat>
    requires forall id | id in ids :: id in f
  {
    set id | id in ids && f[id] >= x
  }

  /** Counting values is counting the members that reached `x`. */
  lemma {:induction false} CountIsMembers(ids: seq<nat>, f: map<nat, nat>, x: nat)
    requires Distinct(ids) && forall id | id in ids :: id in f
    ensures Count(Values(ids, f), x) == |Reached(ids, f, x)|
  {
    if ids == [] {
      assert Reached(ids, f, x) == {};
    } else {
      var rest := ids[1..];
      CountIsMembers(rest, f, x);
      assert Values(ids, f)[1..] == Values(rest, f);
      ReachedStep(ids, f, x);
    }
  }

  lemma ReachedStep(ids: seq<nat>, f: map<nat, nat>, x: nat)
    requires Distinct(ids) && ids != [] && forall id | id in ids :: id in f
    ensures |Reached(ids, f, x)| == (if f[ids[0]] >= x then 1 else 0) + |Reached(ids[1..], f, x)|
  {
    assert ids == [ids[0]] + ids[1..];
    assert ids[0] !in ids[1..];
    var first := if f[ids[0]] >= x then {ids[0]} else {};
    assert Reached(ids, f, x) == first + Reached(ids[1..], f, x);
  }

  /** The members that have reached the quorum pick form a quorum. */
  lemma PickedByQuorum(ids: seq<nat>, f: map<nat, nat>)
    requires Distinct(ids) && |ids| >= 1 && forall id | id in ids :: id in f
    ensures Quorum(|ids|) <= |ids|
    ensures |Reached(ids, f, Pick(Values(ids, f), Quorum(|ids|)))| >= Quorum(|ids|)
  {
    QuorumPick(Values(ids, f), Quorum(|ids|));
    CountIsMembers(ids, f, Pick(Values(ids, f), Quorum(|ids|)));
  }
}
