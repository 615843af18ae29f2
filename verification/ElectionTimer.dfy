/** When a node campaigns: one that hears nothing, and one that hears from its leader. */
module ElectionTimer {
  import opened RaftNode
  import opened Paths

  /** The node after a tick for each of `rnds`, and whether one of them campaigned. */
  ghost function Ticked(cfg: Config, n: Node, rnds: seq<nat>): (Node, bool)
    requires WellFormed(cfg, n) && forall r | r in rnds :: RandomFor(cfg, r)
    decreases |rnds|
  {
    if rnds == [] || n.role == StateLeader then (n, false)
    else
      var t := TickElection(cfg, n, rnds[0]).node;
      TickWellFormed(cfg, n, rnds[0]);
      var rest := Ticked(cfg, t, rnds[1..]);
      (rest.0, t.term != n.term || rest.1)
  }

  lemma TickWellFormed(cfg: Config, n: Node, rnd: nat)
    requires WellFormed(cfg, n) && RandomFor(cfg, rnd) && n.role != StateLeader
    ensures WellFormed(cfg, TickElection(cfg, n, rnd).node)
  {
    TickIs(cfg, n, rnd);
    if n.elapsed + 1 >= n.timeout {
      CampaignWellFormed(cfg, n.(elapsed := 0), rnd);
    }
  }

  lemma CampaignWellFormed(cfg: Config, n: Node, rnd: nat)
    requires WellFormed(cfg, n) && RandomFor(cfg, rnd) && n.role != StateLeader
    ensures WellFormed(cfg, Campaign(cfg, n, rnd).node)
    ensures Campaign(cfg, n, rnd).node.term == n.term + 1 && Campaign(cfg, n, rnd).node.elapsed == 0
  {
    var c := BecomeCandidate(cfg, n, rnd);
    ResetWellFormed(cfg, n, n.term + 1, rnd);
    var p := Poll(c, c.id, true);
    ResetWellFormed(cfg, p, p.term, rnd);
  }

  lemma {:induction false} CampaignsAt(cfg: Config, n: Node, rnds: seq<nat>)
    requires WellFormed(cfg, n) && n.role != StateLeader && n.elapsed < n.timeout
    requires forall r | r in rnds :: RandomFor(cfg, r)
    ensures Ticked(cfg, n, rnds).1 <==> n.elapsed + |rnds| >= n.timeout
    ensures n.elapsed + |rnds| == n.timeout ==>
              Ticked(cfg, n, rnds).0 == Campaign(cfg, n.(elapsed := 0), rnds[|rnds| - 1]).node
    decreases |rnds|
  {
    if rnds != [] {
      TickIs(cfg, n, rnds[0]);
      TickWellFormed(cfg, n, rnds[0]);
      if n.elapsed + 1 >= n.timeout {
        CampaignWellFormed(cfg, n.(elapsed := 0), rnds[0]);
      } else {
        var t := n.(elapsed := n.elapsed + 1);
        CampaignsAt(cfg, t, rnds[1..]);
        assert t.(elapsed := 0) == n.(elapsed := 0);
        assert |rnds| > 1 ==> rnds[1..][|rnds| - 2] == rnds[|rnds| - 1];
      }
    }
  }

  /** A node that is not leader and hears nothing, its timer at zero: whatever the random
      draws, it has campaigned after some ticks exactly when they are as many as its
      timeout, which is at least the configured timeout and less than twice that.  The
      campaign is for the next term, with the timer at zero again. */
  lemma CampaignsInTime(cfg: Config, n: Node, rnds: seq<nat>)
    requires WellFormed(cfg, n) && n.role != StateLeader && n.elapsed == 0
    requires forall r | r in rnds :: RandomFor(cfg, r)
    ensures cfg.electionTimeout <= n.timeout <= 2 * cfg.electionTimeout - 1
    ensures Ticked(cfg, n, rnds).1 <==> |rnds| >= n.timeout
    ensures |rnds| == n.timeout ==>
              && Ticked(cfg, n, rnds).0 == Campaign(cfg, n, rnds[|rnds| - 1]).node
              && Ticked(cfg, n, rnds).0.term == n.term + 1
              && Ticked(cfg, n, rnds).0.elapsed == 0
              && WellFormed(cfg, Ticked(cfg, n, rnds).0)
  {
    CampaignsAt(cfg, n, rnds);
    if |rnds| == n.timeout {
      assert n.(elapsed := 0) == n;
      CampaignWellFormed(cfg, n, rnds[|rnds| - 1]);
    }
  }

  // ---------- with a leader ----------

  /** What happens to a node: a tick, or a message. */
  datatype Event = Passes(rnd: nat) | Hears(m: Message, rnd: nat)

  ghost predicate Lives(cfg: Config, n: Node, e: Event, d: Node) {
    match e
    case Passes(rnd) =>
      WellFormed(cfg, n) && RandomFor(cfg, rnd) && n.role != StateLeader && d == TickElection(cfg, n, rnd).node
    case Hears(m, rnd) => StepPre(cfg, n, m, rnd) && d == Step(cfg, n, m, rnd).node
  }

  ghost function Life(cfg: Config): (Node, Event, Node) -> bool {
    (n, e, d) => Lives(cfg, n, e, d)
  }

  /** No call to campaign, and nothing of a later term. */
  predicate Ordinary(e: Event, term: nat) {
    e.Hears? ==> e.m.mtype != MsgHup && e.m.term <= term
  }

  /** The leader is heard from: an append request of the term. */
  predicate FromLeader(n: Node, e: Event) {
    e.Hears? && e.m.mtype == MsgApp && e.m.term in {0, n.term}
  }

  /** The node gives its vote in the term. */
  predicate GivesVote(cfg: Config, n: Node, e: Event) {
    && e.Hears? && e.m.mtype == MsgVote && e.m.term in {0, n.term}
    && n.vote in {0, e.m.from} && n.rl.log.IsUpToDate(e.m.index, e.m.logTerm, cfg.strictTie)
  }

  /** How many ticks have passed, `k` events on, since the leader was heard from or a vote given. */
  function Quiet(cfg: Config, ns: seq<Node>, es: seq<Event>, k: nat): nat
    requires k <= |es| < |ns|
  {
    if k == 0 then ns[0].elapsed
    else if es[k - 1].Passes? then Quiet(cfg, ns, es, k - 1) + 1
    else if FromLeader(ns[k - 1], es[k - 1]) || GivesVote(cfg, ns[k - 1], es[k - 1]) then 0
    else Quiet(cfg, ns, es, k - 1)
  }

  /** Who was heard from last as leader. */
  function Followed(ns: seq<Node>, es: seq<Event>, k: nat): nat
    requires k <= |es| < |ns|
  {
    if k == 0 then ns[0].lead
    else if FromLeader(ns[k - 1], es[k - 1]) then es[k - 1].m.from
    else Followed(ns, es, k - 1)
  }

  ghost predicate QuietBelow(cfg: Config, ns: seq<Node>, es: seq<Event>, k: nat, bound: nat)
    requires k <= |es| < |ns|
  {
    forall j: nat | j <= k :: Quiet(cfg, ns, es, j) < bound
  }

  /** A follower of `n`'s term whose timer and leader are these. */
  predicate Follows(d: Node, n: Node, elapsed: nat, lead: nat) {
    && d.id == n.id && d.role == StateFollower && d.term == n.term && d.timeout == n.timeout
    && d.elapsed == elapsed && d.lead == lead
  }

  lemma MessageFollows(cfg: Config, n: Node, m: Message, rnd: nat, d: Node)
    requires Lives(cfg, n, Hears(m, rnd), d) && n.role == StateFollower && Ordinary(Hears(m, rnd), n.term)
    ensures var e := Hears(m, rnd);
            Follows(d, n, if FromLeader(n, e) || GivesVote(cfg, n, e) then 0 else n.elapsed,
                    if FromLeader(n, e) then m.from else n.lead)
  {
  }

  lemma TickFollows(cfg: Config, n: Node, rnd: nat, d: Node)
    requires Lives(cfg, n, Passes(rnd), d) && n.role == StateFollower
    ensures n.elapsed + 1 < n.timeout ==> Follows(d, n, n.elapsed + 1, n.lead)
    ensures n.elapsed + 1 >= n.timeout ==> Campaigned(cfg, n, d, rnd)
  {
    TickIs(cfg, n, rnd);
    if n.elapsed + 1 >= n.timeout {
      CampaignWellFormed(cfg, n.(elapsed := 0), rnd);
    }
  }

  /** `d` is `n` after it has begun to stand for the next term. */
  ghost predicate Campaigned(cfg: Config, n: Node, d: Node, rnd: nat) {
    && n.role != StateLeader && d == Campaign(cfg, n.(elapsed := 0), rnd).node
    && d.term == n.term + 1 && d.elapsed == 0 && d.role != StateFollower
  }

  /** Until it has been quiet for its timeout a follower stays one, and follows whoever it
      heard from last. */
  lemma {:induction false} FollowsWhileHeard(cfg: Config, ns: seq<Node>, es: seq<Event>, k: nat)
    requires AllSteps(Life(cfg), ns, es) && k <= |es|
    requires ns[0].role == StateFollower && forall e | e in es :: Ordinary(e, ns[0].term)
    requires QuietBelow(cfg, ns, es, k, ns[0].timeout)
    ensures Follows(ns[k], ns[0], Quiet(cfg, ns, es, k), Followed(ns, es, k))
  {
    if k > 0 {
      FollowsWhileHeard(cfg, ns, es, k - 1);
      assert Life(cfg)(ns[k - 1], es[k - 1], ns[k - 1 + 1]) && es[k - 1] in es;
      assert Quiet(cfg, ns, es, k) < ns[0].timeout;
      match es[k - 1]
      case Passes(rnd) => TickFollows(cfg, ns[k - 1], rnd, ns[k]);
      case Hears(m, rnd) => MessageFollows(cfg, ns[k - 1], m, rnd, ns[k]);
    }
  }

  /** At the first point where it has been quiet that long it stands for the next term. */
  lemma StandsWhenQuiet(cfg: Config, ns: seq<Node>, es: seq<Event>, k: nat)
    requires AllSteps(Life(cfg), ns, es) && 0 < k <= |es|
    requires ns[0].role == StateFollower && forall e | e in es :: Ordinary(e, ns[0].term)
    requires QuietBelow(cfg, ns, es, k - 1, ns[0].timeout) && Quiet(cfg, ns, es, k) >= ns[0].timeout
    ensures es[k - 1].Passes? && Campaigned(cfg, ns[k - 1], ns[k], es[k - 1].rnd)
    ensures ns[k].term == ns[0].term + 1
  {
    TicksOver(cfg, ns, es, k);
    FollowsThen(cfg, ns, es, k - 1);
    LastTick(cfg, ns[0], ns[k - 1], es[k - 1], ns[k]);
  }

  lemma FollowsThen(cfg: Config, ns: seq<Node>, es: seq<Event>, k: nat)
    requires AllSteps(Life(cfg), ns, es) && k < |es|
    requires ns[0].role == StateFollower && forall e | e in es :: Ordinary(e, ns[0].term)
    requires QuietBelow(cfg, ns, es, k, ns[0].timeout)
    ensures Follows(ns[k], ns[0], Quiet(cfg, ns, es, k), Followed(ns, es, k)) && Lives(cfg, ns[k], es[k], ns[k + 1])
  {
    FollowsWhileHeard(cfg, ns, es, k);
    assert Life(cfg)(ns[k], es[k], ns[k + 1]);
  }

  lemma TicksOver(cfg: Config, ns: seq<Node>, es: seq<Event>, k: nat)
    requires 0 < k <= |es| < |ns|
    requires QuietBelow(cfg, ns, es, k - 1, ns[0].timeout) && Quiet(cfg, ns, es, k) >= ns[0].timeout > 0
    ensures es[k - 1].Passes? && Quiet(cfg, ns, es, k - 1) + 1 >= ns[0].timeout
  {
    assert Quiet(cfg, ns, es, k - 1) < ns[0].timeout;
  }

  lemma LastTick(cfg: Config, first: Node, n: Node, e: Event, d: Node)
    requires e.Passes? && Lives(cfg, n, e, d) && n.role == StateFollower && n.term == first.term
    requires n.elapsed + 1 >= n.timeout
    ensures Campaigned(cfg, n, d, e.rnd) && d.term == first.term + 1
  {
    TickFollows(cfg, n, e.rnd, d);
  }

  /** Over any sequence of ticks and messages, none of a later term, a follower begins to stand
      for the next term exactly when it has ticked its whole timeout since it last heard from
      the leader or gave its vote; and until then it follows the sender of the last append
      request of its term. */
  lemma CampaignsWhenQuiet(cfg: Config, ns: seq<Node>, es: seq<Event>)
    requires AllSteps(Life(cfg), ns, es)
    requires ns[0].role == StateFollower && ns[0].elapsed < ns[0].timeout
    requires forall e | e in es :: Ordinary(e, ns[0].term)
    ensures (exists k: nat :: k <= |es| && ns[k].term != ns[0].term) <==>
            (exists k: nat :: k <= |es| && Quiet(cfg, ns, es, k) >= ns[0].timeout)
    ensures forall k: nat | k <= |es| && QuietBelow(cfg, ns, es, k, ns[0].timeout) ::
              Follows(ns[k], ns[0], Quiet(cfg, ns, es, k), Followed(ns, es, k))
    ensures forall k: nat | 0 < k <= |es| && QuietBelow(cfg, ns, es, k - 1, ns[0].timeout)
                            && Quiet(cfg, ns, es, k) >= ns[0].timeout ::
              es[k - 1].Passes? && Campaigned(cfg, ns[k - 1], ns[k], es[k - 1].rnd)
  {
    forall k: nat | k <= |es| && QuietBelow(cfg, ns, es, k, ns[0].timeout)
      ensures Follows(ns[k], ns[0], Quiet(cfg, ns, es, k), Followed(ns, es, k))
    {
      FollowsWhileHeard(cfg, ns, es, k);
    }
    forall k: nat | 0 < k <= |es| && QuietBelow(cfg, ns, es, k - 1, ns[0].timeout)
                    && Quiet(cfg, ns, es, k) >= ns[0].timeout
      ensures es[k - 1].Passes? && Campaigned(cfg, ns[k - 1], ns[k], es[k - 1].rnd)
    {
      StandsWhenQuiet(cfg, ns, es, k);
    }
    if q: nat :| q <= |es| && Quiet(cfg, ns, es, q) >= ns[0].timeout {
      var k := FirstQuiet(cfg, ns, es, q, ns[0].timeout);
      StandsWhenQuiet(cfg, ns, es, k);
      assert ns[k].term != ns[0].term;
    }
  }

  lemma {:induction false} FirstQuiet(cfg: Config, ns: seq<Node>, es: seq<Event>, q: nat, bound: nat) returns (k: nat)
    requires q <= |es| < |ns| && Quiet(cfg, ns, es, 0) < bound <= Quiet(cfg, ns, es, q)
    ensures 0 < k <= q && QuietBelow(cfg, ns, es, k - 1, bound) && Quiet(cfg, ns, es, k) >= bound
  {
    if j: nat :| j < q && Quiet(cfg, ns, es, j) >= bound {
      k := FirstQuiet(cfg, ns, es, j, bound);
    } else {
      k := q;
    }
  }
}
