/** What every run achieves: leaders commit all they may, and somebody can always be elected. */
module Headway {
  import opened LogModel
  import opened Quorums
  import opened RaftNode
  import opened Cluster
  import opened History
  import opened LeaderCompleteness
  import opened Elections
  import opened Preservation
  import opened Safety
  import opened Exchanges

  // ---------- one node ----------

  /** A leader has committed every index of its own term that a quorum has matched. */
  ghost predicate Settled(cfg: Config, n: Node) {
    n.role == StateLeader ==>
      forall i: nat | QuorumHas(cfg, n, i) && n.rl.log.Term(i) == n.term :: i <= n.rl.committed
  }

  /** What `CommitsGreatest` asks of a node. */
  ghost predicate Ready(cfg: Config, n: Node) {
    && WellFormed(cfg, n) && Ascends(n.rl.log) && n.rl.log.LastTerm() <= n.term
    && forall id | id in n.prs :: n.prs[id].matched <= n.LastIndex()
  }

  lemma CommitSettles(cfg: Config, n: Node)
    requires Ready(cfg, n)
    ensures Settled(cfg, MaybeCommit(cfg, n).0)
  {
    CommitsGreatest(cfg, n);
    SameCounts(cfg, n, MaybeCommit(cfg, n).0);
  }

  lemma SameCounts(cfg: Config, n: Node, d: Node)
    requires forall id | id in cfg.ids :: id in n.prs && id in d.prs && n.prs[id].matched == d.prs[id].matched
    ensures forall i: nat :: QuorumHas(cfg, n, i) <==> QuorumHas(cfg, d, i)
  {
    forall i: nat ensures QuorumHas(cfg, n, i) <==> QuorumHas(cfg, d, i) {
      assert (set id | id in cfg.ids && id in n.prs && n.prs[id].matched >= i) ==
             (set id | id in cfg.ids && id in d.prs && d.prs[id].matched >= i);
    }
  }

  /** A node that counts, has committed and knows the same is as settled. */
  lemma SettledSame(cfg: Config, n: Node, d: Node)
    requires Settled(cfg, n) && (d.role == StateLeader ==> n.role == StateLeader)
    requires d.term == n.term && d.rl.log == n.rl.log && d.rl.committed == n.rl.committed
    requires forall id | id in cfg.ids :: id in n.prs && id in d.prs && n.prs[id].matched == d.prs[id].matched
    ensures Settled(cfg, d)
  {
    SameCounts(cfg, n, d);
  }

  lemma LeaderReady(cfg: Config, h: History, n: Node)
    requires Good(cfg, h, n) && n.role == StateLeader
    ensures Ready(cfg, n)
  {
    LogAscends(cfg, h, n);
    forall id | id in n.prs ensures n.prs[id].matched <= n.LastIndex() {
      assert n.prs[id].matched <= Acc(h, id, n.term);
    }
  }

  lemma LogAscends(cfg: Config, h: History, n: Node)
    requires Good(cfg, h, n)
    ensures Ascends(n.rl.log) && n.rl.log.LastTerm() <= n.term
  {
    EntsAscend(h, Ents(n));
    if Ents(n) != [] {
      assert Ents(n)[|Ents(n)| - 1].term <= n.term;
    }
  }

  lemma EntsAscend(h: History, s: seq<LogEntry>)
    requires LogsOk(h) && Covered(h, s)
    ensures Ascends(Log(0, 0, s))
  {
    var l := Log(0, 0, s);
    forall i, j | 0 <= i <= j <= |s| ensures l.Term(i) <= l.Term(j) {
      if i > 0 {
        TermsAscend(h, s, i - 1, j - 1);
      }
    }
  }

  // ---------- a leader's handlers ----------

  lemma ReplySettles(cfg: Config, h: History, n: Node, m: Message)
    requires Good(cfg, h, n) && n.role == StateLeader && Settled(cfg, n) && m.from in n.prs
    requires m.reject || m.index <= Acc(h, m.from, n.term)
    ensures Settled(cfg, HandleAppResp(cfg, n, m).node)
  {
    if !m.reject {
      LeaderReady(cfg, h, n);
      ReplyWithin(cfg, h, n, m);
      ProgressedReady(cfg, n, m);
      CommitSettles(cfg, Progressed(n, m));
    }
  }

  lemma ReplyWithin(cfg: Config, h: History, n: Node, m: Message)
    requires Good(cfg, h, n) && n.role == StateLeader && m.index <= Acc(h, m.from, n.term)
    ensures m.index <= n.LastIndex()
  {
    assert Acc(h, m.from, n.term) > 0 ==> Acc(h, m.from, n.term) <= |h.logs[n.term]|;
  }

  lemma ProgressedReady(cfg: Config, n: Node, m: Message)
    requires Ready(cfg, n) && m.from in n.prs && m.index <= n.LastIndex()
    ensures Ready(cfg, Progressed(n, m))
  {
    var p := Progressed(n, m);
    assert p.prs.Keys == n.prs.Keys && p.rl == n.rl;
  }

  lemma ProposalSettles(cfg: Config, n: Node, es: seq<LogEntry>)
    requires Ready(cfg, n)
    ensures Settled(cfg, AppendEntry(cfg, n, es))
  {
    ExtendedReady(cfg, n, es);
    CommitSettles(cfg, Extended(cfg, n, es));
  }

  lemma ExtendedReady(cfg: Config, n: Node, es: seq<LogEntry>)
    requires Ready(cfg, n)
    ensures Ready(cfg, Extended(cfg, n, es))
  {
    ExtendedWellFormed(cfg, n, es);
    ExtendedAscends(n.rl.log, Extended(cfg, n, es).rl.log, NumberEntries(es, n.term, n.LastIndex() + 1), n.term);
  }

  lemma ExtendedAscends(l: Log, r: Log, num: seq<LogEntry>, term: nat)
    requires Ascends(l) && l.LastTerm() <= term && r == Log(l.base, l.baseTerm, l.ents + num)
    requires forall i | 0 <= i < |num| :: num[i].term == term
    ensures Ascends(r) && r.LastTerm() <= term
  {
    forall i, j | r.base <= i <= j <= r.LastIndex() ensures r.Term(i) <= r.Term(j) {
      assert l.base <= i <= l.LastIndex() ==> r.Term(i) == l.Term(i) <= l.Term(l.LastIndex());
      assert l.base <= j <= l.LastIndex() ==> r.Term(j) == l.Term(j);
      assert i > l.LastIndex() ==> r.Term(i) == term;
      assert j > l.LastIndex() ==> r.Term(j) == term;
    }
  }

  /** A new leader has no entry of its term yet. */
  lemma NewLeaderSettled(cfg: Config, l: Node)
    requires forall i: nat :: l.rl.log.Term(i) != l.term
    ensures Settled(cfg, l)
  {
  }

  lemma WinnerHasNone(cfg: Config, h: History, n: Node)
    requires Good(cfg, h, n) && Wins(cfg, n)
    ensures forall i: nat :: n.rl.log.Term(i) != n.term
  {
    NotYetWon(cfg, h, n);
    forall i: nat ensures n.rl.log.Term(i) != n.term {
      if 0 < i <= |Ents(n)| {
        assert FromLeader(h, Ents(n), i - 1);
      }
    }
  }

  // ---------- every step ----------

  lemma StepSettles(cfg: Config, h: History, n: Node, m: Message, rnd: nat)
    requires Good(cfg, h, n) && MessageOk(cfg, h, m) && m.to == n.id
    requires StepPre(cfg, n, m, rnd) && Settled(cfg, n)
    ensures Settled(cfg, Step(cfg, n, m, rnd).node)
  {
    NeverLocal(cfg, h, m);
    if m.term == n.term {
      CurrentSettles(cfg, h, n, m, rnd);
    } else if m.term > n.term {
      AdoptedSettles(cfg, n, m, rnd);
    }
  }

  lemma NeverLocal(cfg: Config, h: History, m: Message)
    requires MessageOk(cfg, h, m)
    ensures m.term > 0 && m.mtype != MsgHup && m.mtype != MsgProp
  {
  }

  lemma AdoptedSettles(cfg: Config, n: Node, m: Message, rnd: nat)
    requires StepPre(cfg, n, m, rnd) && m.term > n.term && m.mtype != MsgHup
    ensures Settled(cfg, Step(cfg, n, m, rnd).node)
  {
    ResetWellFormed(cfg, n, m.term, rnd);
    LaterSettles(cfg, Adopt(cfg, n, m, rnd), m, rnd);
  }

  /** Who has just adopted a term is no leader after this message. */
  lemma LaterSettles(cfg: Config, a: Node, m: Message, rnd: nat)
    requires WellFormed(cfg, a) && a.role == StateFollower && CurrentPre(a, m) && m.mtype != MsgHup
    ensures StepCurrent(cfg, a, m, rnd).node.role == StateFollower
  {
  }

  lemma CurrentSettles(cfg: Config, h: History, n: Node, m: Message, rnd: nat)
    requires Good(cfg, h, n) && MessageOk(cfg, h, m) && m.term == n.term && m.to == n.id
    requires Settled(cfg, n) && RandomFor(cfg, rnd) && CurrentPre(n, m)
    ensures Settled(cfg, StepCurrent(cfg, n, m, rnd).node)
  {
    NeverLocal(cfg, h, m);
    if m.mtype == MsgVote {
      VoteSettles(cfg, n, m);
    } else if n.role == StateFollower {
      LaterSettles(cfg, n, m, rnd);
    } else if n.role == StateCandidate {
      CandidateSettles(cfg, h, n, m, rnd);
    } else if m.mtype == MsgAppResp {
      ReplySettles(cfg, h, n, m);
    }
  }

  lemma VoteSettles(cfg: Config, n: Node, m: Message)
    requires WellFormed(cfg, n) && Settled(cfg, n)
    ensures Settled(cfg, HandleVote(cfg, n, m).node)
  {
    SettledSame(cfg, n, HandleVote(cfg, n, m).node);
  }

  lemma CandidateSettles(cfg: Config, h: History, n: Node, m: Message, rnd: nat)
    requires Good(cfg, h, n) && MessageOk(cfg, h, m) && m.term == n.term && m.to == n.id
    requires n.role == StateCandidate && RandomFor(cfg, rnd)
    ensures Settled(cfg, StepCandidate(cfg, n, m, rnd).node)
  {
    if m.mtype == MsgVoteResp {
      VoteRespSettles(cfg, h, n, m, rnd);
    }
  }

  lemma VoteRespSettles(cfg: Config, h: History, n: Node, m: Message, rnd: nat)
    requires Good(cfg, h, n) && MessageOk(cfg, h, m) && m.mtype == MsgVoteResp && m.term == n.term && m.to == n.id
    requires n.role == StateCandidate && RandomFor(cfg, rnd)
    ensures Settled(cfg, HandleVoteResp(cfg, n, m, rnd).node)
  {
    var p := Poll(n, m.from, !m.reject);
    if |p.Grants()| >= cfg.win {
      PollKeeps(cfg, h, n, m);
      WinSettles(cfg, h, n, m, p, rnd);
    } else {
      NoWinSettles(cfg, n, m, p, rnd);
    }
  }

  lemma NoWinSettles(cfg: Config, n: Node, m: Message, p: Node, rnd: nat)
    requires WellFormed(cfg, n) && n.role == StateCandidate && RandomFor(cfg, rnd)
    requires p == Poll(n, m.from, !m.reject) && |p.Grants()| < cfg.win
    ensures Settled(cfg, HandleVoteResp(cfg, n, m, rnd).node)
  {
    Polled(n, m);
    VoteWaits(cfg, n, m, rnd);
  }

  lemma WinSettles(cfg: Config, h: History, n: Node, m: Message, p: Node, rnd: nat)
    requires WellFormed(cfg, n) && n.role == StateCandidate && RandomFor(cfg, rnd) && p == Poll(n, m.from, !m.reject)
    requires Good(cfg, h, p) && Wins(cfg, p)
    ensures Settled(cfg, HandleVoteResp(cfg, n, m, rnd).node)
  {
    WinnerHasNone(cfg, h, p);
    VoteWins(cfg, n, m, rnd, p);
    NewLeaderSettled(cfg, BecomeLeader(cfg, p, rnd));
  }

  lemma TickSettles(cfg: Config, h: History, n: Node, rnd: nat)
    requires Good(cfg, h, n) && n.role != StateLeader && RandomFor(cfg, rnd)
    ensures Settled(cfg, TickElection(cfg, n, rnd).node)
  {
    TickIs(cfg, n, rnd);
    LogAscends(cfg, h, n);
    if n.elapsed + 1 >= n.timeout {
      Stands(cfg, n.(elapsed := 0), rnd);
      NothingLater(n.rl.log, n.term + 1);
      NewLeaderSettled(cfg, TickElection(cfg, n, rnd).node);
    }
  }

  lemma NothingLater(l: Log, term: nat)
    requires Ascends(l) && l.LastTerm() < term
    ensures forall i: nat :: l.Term(i) != term
  {
    forall i: nat ensures l.Term(i) != term {
      if l.base <= i <= l.LastIndex() {
        assert l.Term(i) <= l.Term(l.LastIndex());
      }
    }
  }

  ghost predicate AllSettled(cfg: Config, c: Cluster) {
    forall id | id in c.nodes :: Settled(cfg, c.nodes[id])
  }

  lemma AfterSettles(cfg: Config, c: Cluster, id: nat, o: Outcome)
    requires AllSettled(cfg, c) && Settled(cfg, o.node)
    ensures AllSettled(cfg, After(c, id, o))
  {
  }

  lemma NextSettles(cfg: Config, h: History, c: Cluster, a: Action)
    requires Invariant(cfg, h, c) && Enabled(cfg, c, a) && Safe(cfg, c, a) && AllSettled(cfg, c)
    ensures AllSettled(cfg, Next(cfg, c, a))
  {
    if a.Tick? || a.Deliver? || a.Propose? {
      HandlingSettles(cfg, h, c, a);
    } else if a.Resend? {
      ResendSettles(cfg, h, c, a.id, a.to);
    } else {
      UpkeepSettles(cfg, h, c, a);
    }
  }

  lemma HandlingSettles(cfg: Config, h: History, c: Cluster, a: Action)
    requires Invariant(cfg, h, c) && Enabled(cfg, c, a) && Safe(cfg, c, a) && AllSettled(cfg, c)
    requires a.Tick? || a.Deliver? || a.Propose?
    ensures AllSettled(cfg, Next(cfg, c, a))
  {
    match a
    case Tick(id, rnd) => TickActionSettles(cfg, h, c, id, rnd);
    case Deliver(m, rnd) => DeliverSettles(cfg, h, c, m, rnd);
    case Propose(id, es) => ProposeSettles(cfg, h, c, id, es);
  }

  lemma UpkeepSettles(cfg: Config, h: History, c: Cluster, a: Action)
    requires Invariant(cfg, h, c) && Enabled(cfg, c, a) && Safe(cfg, c, a) && AllSettled(cfg, c)
    requires a.Pace? || a.Apply?
    ensures AllSettled(cfg, Next(cfg, c, a))
  {
    match a
    case Pace(id, to, pr) => PaceSettles(cfg, h, c, id, to, pr);
    case Apply(id, k) => ApplySettles(cfg, h, c, id, k);
  }

  lemma TickActionSettles(cfg: Config, h: History, c: Cluster, id: nat, rnd: nat)
    requires Invariant(cfg, h, c) && Enabled(cfg, c, Tick(id, rnd)) && AllSettled(cfg, c)
    ensures WellFormed(cfg, c.nodes[id]) && AllSettled(cfg, Next(cfg, c, Tick(id, rnd)))
  {
    assert NodeOk(cfg, h, c.nodes[id]);
    TickSettles(cfg, h, c.nodes[id], rnd);
    AfterSettles(cfg, c, id, TickElection(cfg, c.nodes[id], rnd));
  }

  lemma DeliverSettles(cfg: Config, h: History, c: Cluster, m: Message, rnd: nat)
    requires Invariant(cfg, h, c) && Enabled(cfg, c, Deliver(m, rnd)) && Safe(cfg, c, Deliver(m, rnd))
    requires AllSettled(cfg, c)
    ensures AllSettled(cfg, Next(cfg, c, Deliver(m, rnd)))
  {
    assert NodeOk(cfg, h, c.nodes[m.to]) && Settled(cfg, c.nodes[m.to]);
    StepSettles(cfg, h, c.nodes[m.to], m, rnd);
    AfterSettles(cfg, c, m.to, Step(cfg, c.nodes[m.to], m, rnd));
  }

  lemma ProposeSettles(cfg: Config, h: History, c: Cluster, id: nat, es: seq<LogEntry>)
    requires Invariant(cfg, h, c) && Enabled(cfg, c, Propose(id, es)) && Safe(cfg, c, Propose(id, es))
    requires AllSettled(cfg, c)
    ensures AllSettled(cfg, Next(cfg, c, Propose(id, es)))
  {
    assert NodeOk(cfg, h, c.nodes[id]) && c.nodes[id].id == id && Settled(cfg, c.nodes[id]);
    ProposedSettles(cfg, h, c.nodes[id], es);
    AfterSettles(cfg, c, id, Step(cfg, c.nodes[id], Prop(id, es), 0));
  }

  lemma ProposedSettles(cfg: Config, h: History, n: Node, es: seq<LogEntry>)
    requires Good(cfg, h, n) && Settled(cfg, n) && es != []
    ensures StepPre(cfg, n, Prop(n.id, es), 0) && Settled(cfg, Step(cfg, n, Prop(n.id, es), 0).node)
  {
    ProposeIs(cfg, n, es);
    if n.role == StateLeader {
      LeaderReady(cfg, h, n);
      ProposalSettles(cfg, n, es);
    }
  }

  lemma ResendSettles(cfg: Config, h: History, c: Cluster, id: nat, to: nat)
    requires Invariant(cfg, h, c) && Enabled(cfg, c, Resend(id, to)) && Safe(cfg, c, Resend(id, to))
    requires AllSettled(cfg, c)
    ensures AllSettled(cfg, Next(cfg, c, Resend(id, to)))
  {
    AfterSettles(cfg, c, id, Outcome(c.nodes[id], SendAppend(c.nodes[id], to)));
  }

  lemma PaceSettles(cfg: Config, h: History, c: Cluster, id: nat, to: nat, pr: Progress)
    requires Invariant(cfg, h, c) && Enabled(cfg, c, Pace(id, to, pr)) && AllSettled(cfg, c)
    ensures AllSettled(cfg, Next(cfg, c, Pace(id, to, pr)))
  {
    assert NodeOk(cfg, h, c.nodes[id]) && Settled(cfg, c.nodes[id]);
    PacedSettled(cfg, c.nodes[id], to, pr);
    AfterSettles(cfg, c, id, Outcome(Paced(c.nodes[id], to, pr), []));
  }

  lemma PacedSettled(cfg: Config, n: Node, to: nat, pr: Progress)
    requires WellFormed(cfg, n) && CanPace(n, to, pr) && Settled(cfg, n)
    ensures Settled(cfg, Paced(n, to, pr))
  {
    SettledSame(cfg, n, Paced(n, to, pr));
  }

  lemma ApplySettles(cfg: Config, h: History, c: Cluster, id: nat, k: nat)
    requires Invariant(cfg, h, c) && Enabled(cfg, c, Apply(id, k)) && AllSettled(cfg, c)
    ensures AllSettled(cfg, Next(cfg, c, Apply(id, k)))
  {
    var n := c.nodes[id];
    assert NodeOk(cfg, h, n) && Settled(cfg, n);
    SettledSame(cfg, n, n.(rl := n.rl.(applied := k)));
    AfterSettles(cfg, c, id, Outcome(n.(rl := n.rl.(applied := k)), []));
  }

  // ---------- the theorems ----------

  /** In every run, at every point, a leader has committed each index of its own term that its
      progress says a quorum has. */
  lemma {:induction false} LeadersCommitAll(cfg: Config, peers: seq<Peer>, r: Run, k: nat)
    requires IsRun(cfg, peers, r) && k < |r.states|
    ensures AllSettled(cfg, r.states[k])
  {
    if k > 0 {
      LeadersCommitAll(cfg, peers, r, k - 1);
      RunSettles(cfg, peers, r, k - 1);
    } else {
      NoLeaderAtStart(cfg, peers, r);
    }
  }

  lemma NoLeaderAtStart(cfg: Config, peers: seq<Peer>, r: Run)
    requires IsRun(cfg, peers, r)
    ensures AllSettled(cfg, r.states[0])
  {
    assert Init(cfg, peers, r.states[0]);
  }

  lemma RunSettles(cfg: Config, peers: seq<Peer>, r: Run, k: nat)
    requires IsRun(cfg, peers, r) && k < |r.actions| && AllSettled(cfg, r.states[k])
    ensures AllSettled(cfg, r.states[k + 1])
  {
    var h, g := Ordered(cfg, peers, r, k, k);
    RunStep(cfg, peers, r, k);
    StepSettled(cfg, h, r.states[k], r.actions[k], r.states[k + 1]);
  }

  lemma RunStep(cfg: Config, peers: seq<Peer>, r: Run, k: nat)
    requires IsRun(cfg, peers, r) && k < |r.actions|
    ensures IsStep(cfg, r.states[k], r.actions[k], r.states[k + 1])
  {
  }

  lemma StepSettled(cfg: Config, h: History, c: Cluster, a: Action, d: Cluster)
    requires Invariant(cfg, h, c) && IsStep(cfg, c, a, d) && AllSettled(cfg, c)
    ensures AllSettled(cfg, d)
  {
    NextSettles(cfg, h, c, a);
  }

  /** In every run the terms of a log never decrease and are at most the node's own. */
  lemma TermsRise(cfg: Config, peers: seq<Peer>, r: Run, k: nat, a: nat)
    requires IsRun(cfg, peers, r) && NodeAt(r, k, a)
    ensures var n := r.states[k].nodes[a]; Ascends(n.rl.log) && n.rl.log.LastTerm() <= n.term
  {
    var h, g := Ordered(cfg, peers, r, k, k);
    assert NodeOk(cfg, h, r.states[k].nodes[a]);
    LogAscends(cfg, h, r.states[k].nodes[a]);
  }

  /** In every run, at every point, some member's log is good enough for every member. */
  lemma SomeoneElectable(cfg: Config, peers: seq<Peer>, r: Run, k: nat) returns (best: nat)
    requires IsRun(cfg, peers, r) && k < |r.states|
    ensures NodeAt(r, k, best)
    ensures forall v | NodeAt(r, k, v) ::
              var b := r.states[k].nodes[best];
              r.states[k].nodes[v].rl.log.IsUpToDate(b.LastIndex(), b.rl.log.LastTerm(), false)
  {
    MembersAt(cfg, peers, r, k);
    forall v | v in r.states[k].nodes ensures Whole(r.states[k].nodes[v]) {
      NothingCompacted(cfg, peers, r, k, v);
    }
    best := BestMember(cfg.ids, r.states[k].nodes);
    GoodForAll(r.states[k].nodes, best);
  }

  ghost predicate Whole(n: Node) {
    n.rl.log.base == 0 && n.rl.log.baseTerm == 0
  }

  lemma MembersAt(cfg: Config, peers: seq<Peer>, r: Run, k: nat)
    requires IsRun(cfg, peers, r) && k < |r.states|
    ensures cfg.Valid() && r.states[k].nodes.Keys == Members(cfg.ids)
  {
    var h, g := Ordered(cfg, peers, r, k, k);
  }

  lemma GoodForAll(nodes: map<nat, Node>, best: nat)
    requires best in nodes && forall v | v in nodes :: Whole(nodes[v]) && UpToDate(Ents(nodes[best]), Ents(nodes[v]))
    ensures forall v | v in nodes ::
              nodes[v].rl.log.IsUpToDate(nodes[best].LastIndex(), nodes[best].rl.log.LastTerm(), false)
  {
    forall v | v in nodes
      ensures nodes[v].rl.log.IsUpToDate(nodes[best].LastIndex(), nodes[best].rl.log.LastTerm(), false)
    {
      GoodFor(nodes[v], nodes[best]);
    }
  }

  lemma GoodFor(v: Node, b: Node)
    requires Whole(v) && Whole(b) && UpToDate(Ents(b), Ents(v))
    ensures v.rl.log.IsUpToDate(b.LastIndex(), b.rl.log.LastTerm(), false)
  {
    ComparisonRight(Ents(v), Ents(b), false);
  }

  lemma BestMember(ids: seq<nat>, nodes: map<nat, Node>) returns (best: nat)
    requires ids != [] && nodes.Keys == Members(ids)
    ensures best in nodes && forall v | v in nodes :: UpToDate(Ents(nodes[best]), Ents(nodes[v]))
  {
    var logs := seq(|ids|, i requires 0 <= i < |ids| => Ents(nodes[ids[i]]));
    var j := BestOf(logs);
    best := ids[j];
    forall v | v in nodes ensures UpToDate(Ents(nodes[best]), Ents(nodes[v])) {
      var i :| 0 <= i < |ids| && ids[i] == v;
      assert UpToDate(logs[j], logs[i]);
    }
  }
}
