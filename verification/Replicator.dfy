/** The older node's replication: backing off a follower that rejects, picking the commit
    index from the sorted match indexes, and running the callbacks of what is committed. */
module Replicators {
  import opened LogModel
  import opened Quorums
  import opened RaftNode

  // ---------- backing off ----------

  datatype FollowerContext = FollowerContext(nextIndex: nat, matchIndex: nat) {

    predicate Valid() {
      matchIndex <= nextIndex && 1 <= nextIndex
    }

    function Rejected(): FollowerContext {
      if nextIndex > matchIndex && nextIndex > 1 then this.(nextIndex := nextIndex - 1) else this
    }
  }

  /** The follower's previous-entry test for a request that begins at `next`. */
  predicate Accepts(leader: Log, follower: Log, next: nat)
    requires next > 0
  {
    follower.MatchTerm(next - 1, leader.Term(next - 1))
  }

  /** Whatever rejection comes, the match index does not pass the next index, and never
      lies beyond the previous entry when it did not before. */
  lemma RejectedKeeps(c: FollowerContext)
    requires c.Valid()
    ensures var r := c.Rejected();
      && r.Valid() && r.matchIndex == c.matchIndex && r.nextIndex <= c.nextIndex
      && (r.nextIndex == c.nextIndex <==> c.nextIndex == c.matchIndex || c.nextIndex == 1)
  {
  }

  /** When the follower has what the leader believes it has, a rejection is genuine only
      above that, so it lowers the next index and stays above the match index. */
  lemma GenuineLowers(leader: Log, follower: Log, c: FollowerContext)
    requires c.Valid() && c.matchIndex < c.nextIndex
    requires Accepts(leader, follower, c.matchIndex + 1) && !Accepts(leader, follower, c.nextIndex)
    ensures c.Rejected() == c.(nextIndex := c.nextIndex - 1)
    ensures c.matchIndex < c.Rejected().nextIndex
  {
  }

  /** Rejections in a row end after at most `nextIndex - matchIndex - 1`; they end at the
      greatest point below the first request where the logs have the same term, and by log
      matching the logs are equal up to there. */
  method Probe(leader: Log, follower: Log, context: FollowerContext) returns (found: FollowerContext, rejections: nat)
    requires context.Valid() && context.matchIndex < context.nextIndex
    requires Accepts(leader, follower, context.matchIndex + 1)
    ensures found.Valid() && found.matchIndex == context.matchIndex < found.nextIndex <= context.nextIndex
    ensures Accepts(leader, follower, found.nextIndex)
    ensures forall i | found.nextIndex < i <= context.nextIndex :: !Accepts(leader, follower, i)
    ensures rejections == context.nextIndex - found.nextIndex <= context.nextIndex - context.matchIndex - 1
    ensures LogsMatch(follower, leader) && leader.Term(found.nextIndex - 1) > 0 ==>
              AgreeUpTo(follower, leader, found.nextIndex - 1)
  {
    found, rejections := context, 0;
    while !Accepts(leader, follower, found.nextIndex)
      invariant found.Valid() && found.matchIndex == context.matchIndex < found.nextIndex <= context.nextIndex
      invariant forall i | found.nextIndex < i <= context.nextIndex :: !Accepts(leader, follower, i)
      invariant rejections == context.nextIndex - found.nextIndex
      decreases found.nextIndex
    {
      GenuineLowers(leader, follower, found);
      found, rejections := found.Rejected(), rejections + 1;
    }
  }

  // ---------- applying ----------

  /** What is committed, what is applied, the callbacks that wait for an index, and those
      that have been called. */
  datatype Applier<C> = Applier(commit: nat, applied: nat, callbacks: map<nat, C>, invoked: seq<(nat, C)>)

  /** The calls for the indexes above `lo` up to `hi`, in ascending order. */
  function Calls<C>(callbacks: map<nat, C>, lo: nat, hi: nat): seq<(nat, C)>
    decreases hi
  {
    if hi <= lo then []
    else Calls(callbacks, lo, hi - 1) + if hi in callbacks then [(hi, callbacks[hi])] else []
  }

  function Outside<C>(callbacks: map<nat, C>, lo: nat, hi: nat): map<nat, C> {
    map i | i in callbacks && !(lo < i <= hi) :: callbacks[i]
  }

  function Advanced<C>(a: Applier<C>, pick: nat): Applier<C> {
    if pick <= a.commit then a
    else Applier(pick, if a.applied < pick then pick else a.applied,
                 Outside(a.callbacks, a.applied, pick), a.invoked + Calls(a.callbacks, a.applied, pick))
  }

  datatype Op<C> = Register(index: nat, callback: C) | Advance(pick: nat)

  function Did<C>(a: Applier<C>, op: Op<C>): Applier<C> {
    match op
    case Register(i, c) => a.(callbacks := a.callbacks[i := c])
    case Advance(p) => Advanced(a, p)
  }

  function Ran<C>(ops: seq<Op<C>>): Applier<C> {
    if ops == [] then Applier(0, 0, map[], []) else Did(Ran(ops[..|ops| - 1]), ops[|ops| - 1])
  }

  /** The greatest index any of the operations commits. */
  function Highest<C>(ops: seq<Op<C>>): nat {
    if ops == [] then 0
    else
      var h, op := Highest(ops[..|ops| - 1]), ops[|ops| - 1];
      if op.Advance? && op.pick > h then op.pick else h
  }

  /** The callback registered last for `i` while `i` was not yet committed. */
  function InTime<C>(ops: seq<Op<C>>, i: nat): Option<C> {
    if ops == [] then None
    else
      var before, op := ops[..|ops| - 1], ops[|ops| - 1];
      if op.Register? && op.index == i && Highest(before) < i then Some(op.callback) else InTime(before, i)
  }

  /** The callback registered last for `i` when `i` was committed already: it is never called. */
  function TooLate<C>(ops: seq<Op<C>>, i: nat): Option<C> {
    if ops == [] then None
    else
      var before, op := ops[..|ops| - 1], ops[|ops| - 1];
      if op.Register? && op.index == i && i <= Highest(before) then Some(op.callback) else TooLate(before, i)
  }

  /** What is still registered up to the commit index came too late; what was called is gone. */
  ghost predicate Forgotten<C>(callbacks: map<nat, C>, ops: seq<Op<C>>, h: nat) {
    forall i: nat {:trigger i in callbacks} {:trigger TooLate(ops, i)} | i <= h ::
      TooLate(ops, i) == if i in callbacks then Some(callbacks[i]) else None
  }

  /** Before `i` is committed nothing is too late for it. */
  lemma {:induction false} NoneTooLate<C>(ops: seq<Op<C>>, i: nat)
    requires i > Highest(ops)
    ensures TooLate(ops, i) == None
  {
    if ops != [] {
      NoneTooLate(ops[..|ops| - 1], i);
    }
  }

  /** The calls a run owes, index by index, however its commits were batched. */
  function Owed<C>(ops: seq<Op<C>>, k: nat): seq<(nat, C)> {
    if k == 0 then []
    else Owed(ops, k - 1) + match InTime(ops, k) case Some(c) => [(k, c)] case None => []
  }

  /** What is registered for an index above the commit index is what was registered in time. */
  ghost predicate Waiting<C>(callbacks: map<nat, C>, ops: seq<Op<C>>, h: nat) {
    forall i: nat {:trigger i in callbacks} {:trigger InTime(ops, i)} | i > h ::
      InTime(ops, i) == if i in callbacks then Some(callbacks[i]) else None
  }

  /** Over every run of registrations and commit advances: everything committed is applied,
      and the callbacks invoked are exactly those registered before their index was
      committed, in ascending order of index, each index once, none beyond the commit; those
      are forgotten, and what is left waits for a later index or came too late. */
  lemma {:induction false} AppliedExactly<C>(ops: seq<Op<C>>)
    ensures var a, h := Ran(ops), Highest(ops);
      && a.commit == h && a.applied == h
      && a.invoked == Owed(ops, h)
      && Waiting(a.callbacks, ops, h) && Forgotten(a.callbacks, ops, h)
    decreases |ops|
  {
    if ops != [] {
      var before, op := ops[..|ops| - 1], ops[|ops| - 1];
      AppliedExactly(before);
      var h := Highest(before);
      OwedSame(before, ops, h);
      if op.Advance? && op.pick > h {
        AdvanceOwed(Ran(before).callbacks, ops, h, op.pick);
        forall i: nat | h < i <= op.pick ensures TooLate(ops, i) == None {
          NoneTooLate(before, i);
        }
      }
    }
  }

  /** What is owed up to a committed index is settled. */
  lemma {:induction false} OwedSame<C>(before: seq<Op<C>>, ops: seq<Op<C>>, k: nat)
    requires ops != [] && before == ops[..|ops| - 1] && k <= Highest(before)
    ensures Owed(ops, k) == Owed(before, k)
  {
    if k > 0 {
      OwedSame(before, ops, k - 1);
    }
  }

  lemma {:induction false} AdvanceOwed<C>(callbacks: map<nat, C>, ops: seq<Op<C>>, h: nat, k: nat)
    requires Waiting(callbacks, ops, h) && h <= k
    ensures Owed(ops, k) == Owed(ops, h) + Calls(callbacks, h, k)
  {
    if h < k {
      AdvanceOwed(callbacks, ops, h, k - 1);
      assert k in callbacks || InTime(ops, k) == None;
    }
  }

  /** The calls owed up to `k` are for ascending indexes between 1 and `k`, and index `i`
      is among them exactly when something was registered for it in time. */
  lemma {:induction false} OwedSpec<C>(ops: seq<Op<C>>, k: nat)
    ensures forall x, y | 0 <= x < y < |Owed(ops, k)| :: Owed(ops, k)[x].0 < Owed(ops, k)[y].0
    ensures forall x | 0 <= x < |Owed(ops, k)| :: 0 < Owed(ops, k)[x].0 <= k
    ensures forall i: nat, c | 0 < i <= k :: (i, c) in Owed(ops, k) <==> InTime(ops, i) == Some(c)
  {
    if k > 0 {
      OwedSpec(ops, k - 1);
      forall i: nat, c | 0 < i <= k ensures (i, c) in Owed(ops, k) <==> InTime(ops, i) == Some(c) {
        assert (k, c) !in Owed(ops, k - 1);
        assert i < k ==> ((i, c) in Owed(ops, k - 1) <==> InTime(ops, i) == Some(c));
      }
    }
  }

  // ---------- picking ----------

  /** Where the local node sorts: behind every real match index. */
  const PINNED: nat := 0x1000_0000_0000_0000

  /** The match indexes, with the local node's slot pinned. */
  function MatchIndexes(nodes: seq<string>, local: string, contexts: seq<FollowerContext>): (v: seq<nat>)
    requires |nodes| == |contexts|
    ensures |v| == |nodes|
    ensures forall i | 0 <= i < |v| :: v[i] == if nodes[i] == local then PINNED else contexts[i].matchIndex
  {
    seq(|nodes|, i requires 0 <= i < |nodes| => if nodes[i] == local then PINNED else contexts[i].matchIndex)
  }

  /** The middle of the ascending arrangement, the lower one when there are two. */
  function OlderPick(v: seq<nat>): nat
    requires |v| >= 2
  {
    Reverse(SortDesc(v))[|v| / 2 - 1]
  }

  lemma {:induction false} AscendingReverse(s: seq<nat>)
    requires Descending(s)
    ensures Ascending(Reverse(s))
  {
  }

  /** The index the older node commits is some follower's match index, and the followers
      that hold it make a quorum together with the local node; it is the greatest index that
      half the membership's number of followers hold, rounded up. */
  lemma OlderPickHeld(nodes: seq<string>, local: string, contexts: seq<FollowerContext>, me: nat)
    requires |nodes| == |contexts| >= 2 && Distinct(nodes) && me < |nodes| && nodes[me] == local
    requires forall i | 0 <= i < |contexts| :: contexts[i].matchIndex < PINNED
    ensures var v := MatchIndexes(nodes, local, contexts);
            var p := OlderPick(v);
      && 1 + Count(v[..me] + v[me + 1..], p) >= Quorum(|nodes|)
      && (exists i :: 0 <= i < |contexts| && i != me && p == contexts[i].matchIndex)
      && forall x: nat | x < PINNED :: x <= p <==> HeldByHalf(v, me, x)
  {
    var v := MatchIndexes(nodes, local, contexts);
    SortDescSpec(v);
    AscendingReverse(SortDesc(v));
    OlderPickHeldByOthers(v, me, Reverse(SortDesc(v)), |v| / 2, Quorum(|v|));
    var i := OlderPickIsReal(v, me);
    assert OlderPick(v) == contexts[i].matchIndex;
    forall x: nat | x < PINNED ensures x <= OlderPick(v) <==> HeldByHalf(v, me, x) {
      OlderPickRank(v, me, x);
    }
  }

  /** Half the membership's number, rounded up, of the others hold `x`. */
  predicate HeldByHalf(v: seq<nat>, me: nat, x: nat)
    requires me < |v|
  {
    Count(v[..me] + v[me + 1..], x) >= |v| - |v| / 2
  }

  lemma OlderPickRank(v: seq<nat>, me: nat, x: nat)
    requires |v| >= 2 && me < |v| && v[me] == PINNED && x < PINNED
    ensures x <= OlderPick(v) <==> HeldByHalf(v, me, x)
  {
    SortDescSpec(v);
    AscendingReverse(SortDesc(v));
    OlderRank(v, Reverse(SortDesc(v)), |v| / 2);
    PickSpec(v, |v| - |v| / 2 + 1, x);
    CountSplit(v, me, x);
  }

  lemma OlderPickIsReal(v: seq<nat>, me: nat) returns (i: nat)
    requires |v| >= 2 && me < |v| && v[me] == PINNED && forall i | 0 <= i < |v| && i != me :: v[i] < PINNED
    ensures i < |v| && i != me && v[i] == OlderPick(v)
  {
    var k := |v| - |v| / 2;
    SortDescSpec(v);
    AscendingReverse(SortDesc(v));
    OlderRank(v, Reverse(SortDesc(v)), |v| / 2);
    PinnedOnce(v, me);
    PickSpec(v, k + 1, PINNED);
    PickIsValue(v, k + 1);
    i :| 0 <= i < |v| && v[i] == Pick(v, k + 1);
  }

  lemma PinnedOnce(v: seq<nat>, me: nat)
    requires me < |v| && v[me] == PINNED && forall i | 0 <= i < |v| && i != me :: v[i] < PINNED
    ensures Count(v, PINNED) == 1
  {
    CountSplit(v, me, PINNED);
    NoneReach(v[..me] + v[me + 1..], PINNED);
  }

  lemma {:induction false} NoneReach(v: seq<nat>, x: nat)
    requires forall i | 0 <= i < |v| :: v[i] < x
    ensures Count(v, x) == 0
  {
    if v != [] {
      NoneReach(v[1..], x);
    }
  }

  // ---------- standing for election ----------

  datatype Candidacy = Candidacy(term: nat, votedFor: string, role: Role, votes: set<string>)

  /** The votes gathered so far stay. */
  function Stands(c: Candidacy, me: string): Candidacy {
    if c.role == StateLeader then c else Candidacy(c.term + 1, me, StateCandidate, c.votes)
  }

  function Heard(c: Candidacy, quorum: nat, term: nat, granted: bool, voter: string): Candidacy {
    var a := if term > c.term then Candidacy(term, "", StateFollower, c.votes) else c;
    if term != a.term || !granted || a.role == StateLeader then a
    else
      var votes := a.votes + {voter};
      a.(votes := votes, role := if |votes| >= quorum then StateLeader else a.role)
  }

  datatype Reply = Reply(term: nat, granted: bool, voter: string)

  function HeardAll(c: Candidacy, quorum: nat, replies: seq<Reply>): Candidacy {
    if replies == [] then c
    else
      var r := replies[|replies| - 1];
      Heard(HeardAll(c, quorum, replies[..|replies| - 1]), quorum, r.term, r.granted, r.voter)
  }

  /** Who granted in term `t`. */
  function Granted(replies: seq<Reply>, t: nat): set<string> {
    set r | r in replies && r.granted && r.term == t :: r.voter
  }

  ghost predicate UpTo(replies: seq<Reply>, t: nat) {
    forall r | r in replies :: r.term <= t
  }

  /** After replies that granted `g` in its term, `d` is what became of `c`: once it leads
      nothing is counted. */
  ghost predicate Tallied(c: Candidacy, quorum: nat, g: set<string>, d: Candidacy) {
    && d.term == c.term && d.votedFor == c.votedFor && c.votes <= d.votes <= c.votes + g
    && (c.role == StateLeader ==> d == c)
    && (c.role != StateLeader ==>
          && (d.role == StateLeader <==> g != {} && |c.votes + g| >= quorum)
          && (d.role == StateLeader ==> |d.votes| >= quorum)
          && (d.role != StateLeader ==> d.role == c.role && d.votes == c.votes + g))
  }

  lemma GrantedStep(replies: seq<Reply>, t: nat)
    requires replies != []
    ensures var r := replies[|replies| - 1];
      Granted(replies, t) == Granted(replies[..|replies| - 1], t) + if r.granted && r.term == t then {r.voter} else {}
  {
    assert replies == replies[..|replies| - 1] + [replies[|replies| - 1]];
  }

  lemma TalliedStep(c: Candidacy, quorum: nat, g: set<string>, d: Candidacy, r: Reply)
    requires Tallied(c, quorum, g, d) && r.term <= c.term
    ensures Tallied(c, quorum, g + if r.granted && r.term == c.term then {r.voter} else {},
                    Heard(d, quorum, r.term, r.granted, r.voter))
  {
    if r.granted && r.term == c.term {
      var g' := g + {r.voter};
      assert c.votes + g' == (c.votes + g) + {r.voter};
      SubsetSize(c.votes + g, c.votes + g');
    } else {
      assert g + {} == g;
    }
  }

  /** With replies of no later term a node keeps its term and its vote; it leads exactly when
      it did or the grants of its term, with the tally it had before, are enough; and until
      then its tally is these together. */
  lemma {:induction false} TallyIs(c: Candidacy, quorum: nat, replies: seq<Reply>)
    requires UpTo(replies, c.term)
    ensures Tallied(c, quorum, Granted(replies, c.term), HeardAll(c, quorum, replies))
  {
    if replies == [] {
      assert c.votes + Granted(replies, c.term) == c.votes;
    } else {
      var n := |replies| - 1;
      TallyIs(c, quorum, replies[..n]);
      GrantedStep(replies, c.term);
      TalliedStep(c, quorum, Granted(replies[..n], c.term), HeardAll(c, quorum, replies[..n]), replies[n]);
    }
  }

  /** The greatest term of the node and the replies. */
  function Latest(t: nat, replies: seq<Reply>): nat {
    if replies == [] then t
    else
      var before, r := Latest(t, replies[..|replies| - 1]), replies[|replies| - 1];
      if r.term > before then r.term else before
  }

  lemma {:induction false} LatestSpec(t: nat, replies: seq<Reply>)
    ensures t <= Latest(t, replies) && UpTo(replies, Latest(t, replies))
    ensures Latest(t, replies) == t || exists r :: r in replies && r.term == Latest(t, replies)
  {
    if replies != [] {
      var n := |replies| - 1;
      LatestSpec(t, replies[..n]);
      assert replies == replies[..n] + [replies[n]];
      assert replies[n] in replies;
      if r :| r in replies[..n] && r.term == Latest(t, replies[..n]) {
        assert r in replies;
      }
    }
  }

  /** A reply of a later term makes the node a follower of that term without a vote, whatever
      it was; it keeps the tally it had, to which a grant in that reply is added at once. */
  lemma LaterReply(c: Candidacy, quorum: nat, r: Reply)
    requires r.term > c.term
    ensures var d := Heard(c, quorum, r.term, r.granted, r.voter);
      && d.term == r.term && d.votedFor == ""
      && d.votes == c.votes + (if r.granted then {r.voter} else {})
      && d.role == if r.granted && |d.votes| >= quorum then StateLeader else StateFollower
  {
  }

  /** The replies from the first of the latest term on, when that is later than `t`. */
  lemma {:induction false} FirstOfLatest(t: nat, replies: seq<Reply>) returns (k: nat)
    requires Latest(t, replies) > t
    ensures k < |replies| && replies[k].term == Latest(t, replies) && Latest(t, replies[..k]) < Latest(t, replies)
  {
    var n := |replies| - 1;
    if replies[n].term > Latest(t, replies[..n]) {
      k := n;
    } else {
      k := FirstOfLatest(t, replies[..n]);
      assert replies[..n][..k] == replies[..k];
    }
  }

  lemma {:induction false} HeardInParts(c: Candidacy, quorum: nat, a: seq<Reply>, b: seq<Reply>)
    ensures HeardAll(c, quorum, a + b) == HeardAll(HeardAll(c, quorum, a), quorum, b)
  {
    if b == [] {
      assert a + b == a;
    } else {
      HeardInParts(c, quorum, a, b[..|b| - 1]);
      assert (a + b)[..|a + b| - 1] == a + b[..|b| - 1];
    }
  }

  /** Whatever replies come, the node ends in the latest term of all. */
  lemma {:induction false} TermIsLatest(c: Candidacy, quorum: nat, replies: seq<Reply>)
    ensures HeardAll(c, quorum, replies).term == Latest(c.term, replies)
  {
    if replies != [] {
      TermIsLatest(c, quorum, replies[..|replies| - 1]);
    }
  }

  /** When that is a later term than its own, the node has no vote in it and is its follower
      or its leader; it leads exactly when the grants of that term complete the tally it had
      when the term began, which nothing cleared, and until then its tally is these together. */
  lemma LaterTerm(c: Candidacy, quorum: nat, replies: seq<Reply>) returns (k: nat)
    requires Latest(c.term, replies) > c.term
    ensures k < |replies| && replies[k].term == Latest(c.term, replies)
    ensures Latest(c.term, replies[..k]) < Latest(c.term, replies)
    ensures var t, had, d := Latest(c.term, replies), HeardAll(c, quorum, replies[..k]), HeardAll(c, quorum, replies);
      && d.term == t && d.votedFor == ""
      && Tallied(Candidacy(t, "", StateFollower, had.votes), quorum, Granted(replies, t), d)
  {
    k := FirstOfLatest(c.term, replies);
    var t, had := Latest(c.term, replies), HeardAll(c, quorum, replies[..k]);
    var begun := Candidacy(t, "", StateFollower, had.votes);
    TermIsLatest(c, quorum, replies[..k]);
    FromAdoption(had, quorum, replies[k..], begun);
    LatestSpec(c.term, replies);
    assert replies == replies[..k] + replies[k..];
    HeardInParts(c, quorum, replies[..k], replies[k..]);
    assert UpTo(replies[k..], t);
    TallyIs(begun, quorum, replies[k..]);
    GrantedLate(c.term, replies, k);
  }

  /** With the first reply of a later term the node goes on as a follower who began with it. */
  lemma {:induction false} FromAdoption(had: Candidacy, quorum: nat, replies: seq<Reply>, begun: Candidacy)
    requires replies != [] && replies[0].term > had.term
    requires begun == Candidacy(replies[0].term, "", StateFollower, had.votes)
    ensures HeardAll(had, quorum, replies) == HeardAll(begun, quorum, replies)
  {
    if |replies| > 1 {
      FromAdoption(had, quorum, replies[..|replies| - 1], begun);
    } else {
      assert replies[..0] == [];
    }
  }

  /** No reply before its first is of the latest term. */
  lemma GrantedLate(t: nat, replies: seq<Reply>, k: nat)
    requires k < |replies| && Latest(t, replies[..k]) < Latest(t, replies)
    ensures Granted(replies[k..], Latest(t, replies)) == Granted(replies, Latest(t, replies))
  {
    LatestSpec(t, replies[..k]);
    assert replies == replies[..k] + replies[k..];
  }

  /** Whoever wins has a majority of grants in its own term, whatever replies come, exactly
      when no vote was left from earlier terms. */
  lemma HonestIffCleared(c: Candidacy, nodes: set<string>)
    requires c.role != StateLeader && c.votes <= nodes && |nodes| >= 2
    ensures c.votes == {} <==>
            forall replies {:trigger Granted(replies, c.term)} | UpTo(replies, c.term) ::
              HeardAll(c, Quorum(|nodes|), replies).role == StateLeader ==>
                |Granted(replies, c.term)| >= Quorum(|nodes|)
  {
    var q := Quorum(|nodes|);
    if c.votes == {} {
      forall replies | UpTo(replies, c.term) && HeardAll(c, q, replies).role == StateLeader
        ensures |Granted(replies, c.term)| >= q
      {
        TallyIs(c, q, replies);
        assert c.votes + Granted(replies, c.term) == Granted(replies, c.term);
      }
    } else {
      var replies := DishonestWin(c, nodes);
      assert UpTo(replies, c.term);
    }
  }

  /** A leader does not stand; anyone else stands for the next term with a vote for itself,
      and a win in that term is backed by a majority of grants of it, whatever replies come,
      exactly when no vote was left over. */
  lemma NextCandidacy(c: Candidacy, me: string, nodes: set<string>)
    requires c.votes <= nodes && |nodes| >= 2
    ensures var s := Stands(c, me);
      && (c.role == StateLeader ==> s == c)
      && (c.role != StateLeader ==>
            && s.term == c.term + 1 && s.votedFor == me && s.role == StateCandidate
            && (c.votes == {} <==>
                  forall replies {:trigger Granted(replies, c.term + 1)} | UpTo(replies, c.term + 1) ::
                    HeardAll(s, Quorum(|nodes|), replies).role == StateLeader ==>
                      |Granted(replies, c.term + 1)| >= Quorum(|nodes|)))
  {
    if c.role != StateLeader {
      HonestIffCleared(Stands(c, me), nodes);
    }
  }

  /** A win with too few grants: all but one of the majority's, next to one left over. */
  lemma DishonestWin(c: Candidacy, nodes: set<string>) returns (replies: seq<Reply>)
    requires c.role != StateLeader && c.votes <= nodes && |nodes| >= 2 && c.votes != {}
    ensures UpTo(replies, c.term) && HeardAll(c, Quorum(|nodes|), replies).role == StateLeader
    ensures |Granted(replies, c.term)| < Quorum(|nodes|)
  {
    var q := Quorum(|nodes|);
    var left :| left in c.votes;
    var some := SomeOf(nodes - {left}, q - 1);
    replies := Grants(some, c.term);
    TallyIs(c, q, replies);
    SubsetSize(some + {left}, c.votes + Granted(replies, c.term));
  }

  lemma {:induction false} SomeOf(s: set<string>, k: nat) returns (some: set<string>)
    requires k <= |s|
    ensures some <= s && |some| == k
  {
    if k == 0 {
      some := {};
    } else {
      var x :| x in s;
      some := SomeOf(s - {x}, k - 1);
      some := some + {x};
    }
  }

  lemma {:induction false} Grants(voters: set<string>, t: nat) returns (replies: seq<Reply>)
    ensures UpTo(replies, t) && Granted(replies, t) == voters
    decreases voters
  {
    replies := [];
    if voters != {} {
      var v :| v in voters;
      var rest := Grants(voters - {v}, t);
      replies := rest + [Reply(t, true, v)];
      assert Granted(replies, t) == Granted(rest, t) + {v} by {
        assert Reply(t, true, v) in replies;
        assert forall r | r in rest :: r in replies;
      }
    }
  }

  // ---------- the node ----------

  class Replicator<C(==)> {
    const nodes: seq<string>
    const localAddr: string
    var currentTerm: nat
    var votedFor: string
    var role: Role
    var leader: string
    var votes: set<string>
    var contexts: seq<FollowerContext>
    var commitIndex: nat
    var lastApplied: nat
    var applyCallbacks: map<nat, C>
    ghost var invoked: seq<(nat, C)>

    ghost predicate Valid()
      reads this
    {
      && |contexts| == |nodes| >= 2
      && (forall i | 0 <= i < |contexts| :: contexts[i].Valid())
    }

    ghost function Standing(): Candidacy
      reads this
    {
      Candidacy(currentTerm, votedFor, role, votes)
    }

    ghost function Applying(): Applier<C>
      reads this
    {
      Applier(commitIndex, lastApplied, applyCallbacks, invoked)
    }

    /** A higher term is adopted, without a vote in it and as a follower. */
    method CheckTerm(term: nat) returns (ok: bool)
      modifies this`currentTerm, this`votedFor, this`role
      ensures ok <==> term <= old(currentTerm)
      ensures ok ==> currentTerm == old(currentTerm) && votedFor == old(votedFor) && role == old(role)
      ensures !ok ==> currentTerm == term && votedFor == "" && role == StateFollower
    {
      if term > currentTerm {
        currentTerm := term;
        votedFor := "";
        role := StateFollower;
        return false;
      }
      return true;
    }

    // ---------- elections ----------

    /** Stands for election in the next term; the votes gathered so far stay. */
    method Election()
      modifies this`currentTerm, this`role, this`votedFor
      ensures Standing() == Stands(old(Standing()), localAddr)
    {
      if role == StateLeader {
        return;
      }
      currentTerm := currentTerm + 1;
      role := StateCandidate;
      votedFor := localAddr;
    }

    /** Counts a vote of the current term, and leads once a majority is counted.  Replies are
        looked at only when the call is reported as failed without an error. */
    method ElectionCallback(failed: bool, error: int, term: nat, granted: bool, voter: string)
      modifies this`currentTerm, this`role, this`votedFor, this`votes, this`leader
      ensures Standing() == if failed && error == 0 then Heard(old(Standing()), Quorum(|nodes|), term, granted, voter)
                            else old(Standing())
      ensures leader == old(leader) || leader == localAddr
      ensures role == StateLeader && old(role) != StateLeader ==> leader == localAddr
    {
      if !failed || error != 0 {
        return;
      }
      var adopted := CheckTerm(term);
      if term != currentTerm || !granted || role == StateLeader {
        return;
      }
      votes := votes + {voter};
      if |votes| >= Quorum(|nodes|) {
        role := StateLeader;
        leader := localAddr;
      }
    }

    // ---------- replication ----------

    method Register(index: nat, callback: C)
      modifies this`applyCallbacks
      ensures Applying() == Did(old(Applying()), Op<C>.Register(index, callback))
    {
      applyCallbacks := applyCallbacks[index := callback];
    }

    /** The reply of follower `i` to a request that carried `sent`: a later term is adopted,
        a rejection backs off, and an acceptance that ends in the current term may commit. */
    method HandleReply(i: nat, sent: seq<LogEntry>, term: nat, success: bool)
      requires Valid() && i < |contexts|
      modifies this
      ensures Valid()
      ensures term > old(currentTerm) ==> currentTerm == term && votedFor == "" && role == StateFollower
      ensures term <= old(currentTerm) ==>
                currentTerm == old(currentTerm) && votedFor == old(votedFor) && role == old(role)
      ensures contexts == if term <= old(currentTerm) && !success
                          then old(contexts)[i := old(contexts)[i].Rejected()] else old(contexts)
      ensures Applying() ==
              if term <= old(currentTerm) && success && sent != [] && sent[|sent| - 1].term == old(currentTerm)
              then Advanced(old(Applying()), OlderPick(MatchIndexes(nodes, localAddr, old(contexts))))
              else old(Applying())
    {
      var ok := CheckTerm(term);
      if !ok {
        return;
      }
      if !success {
        RejectedKeeps(contexts[i]);
        contexts := contexts[i := contexts[i].Rejected()];
        return;
      }
      if sent == [] || sent[|sent| - 1].term != currentTerm {
        return;
      }
      CommitMatched();
    }

    method CommitMatched()
      requires Valid()
      modifies this`commitIndex, this`lastApplied, this`applyCallbacks, this`invoked
      ensures Applying() == Advanced(old(Applying()), OlderPick(MatchIndexes(nodes, localAddr, contexts)))
    {
      var matches: seq<nat> := [];
      for k := 0 to |contexts|
        invariant matches == MatchIndexes(nodes, localAddr, contexts)[..k]
      {
        matches := matches + [if nodes[k] == localAddr then PINNED else contexts[k].matchIndex];
      }
      assert matches == MatchIndexes(nodes, localAddr, contexts);
      var pick := Reverse(SortDesc(matches))[|nodes| / 2 - 1];
      if pick > commitIndex {
        commitIndex := pick;
        ApplyTo(pick);
      }
    }

    /** Calls what waits for each index up to `commit` in turn, and forgets it. */
    method ApplyTo(commit: nat)
      modifies this`lastApplied, this`applyCallbacks, this`invoked
      ensures lastApplied == if old(lastApplied) < commit then commit else old(lastApplied)
      ensures applyCallbacks == Outside(old(applyCallbacks), old(lastApplied), commit)
      ensures invoked == old(invoked) + Calls(old(applyCallbacks), old(lastApplied), commit)
    {
      while lastApplied < commit
        invariant lastApplied == old(lastApplied) || old(lastApplied) < lastApplied <= commit
        invariant applyCallbacks == Outside(old(applyCallbacks), old(lastApplied), lastApplied)
        invariant invoked == old(invoked) + Calls(old(applyCallbacks), old(lastApplied), lastApplied)
        decreases commit - lastApplied
      {
        lastApplied := lastApplied + 1;
        if lastApplied in applyCallbacks {
          var callback := applyCallbacks[lastApplied];
          applyCallbacks := applyCallbacks - {lastApplied};
          invoked := invoked + [(lastApplied, callback)];
        }
      }
    }
  }
}
