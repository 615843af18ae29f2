/** Every action keeps the invariant, and none meets a panic. */
module Preservation {
  import opened LogModel
  import opened Quorums
  import opened RaftNode
  import opened Cluster
  import opened History
  import opened LeaderCompleteness
  import opened Elections
  import opened Replication
  import opened Acceptance

  // ---------- append requests ----------

  /** A request behind the commit index is answered with the commit index: by leader
      completeness the sender's log has all of it. */
  lemma BehindKeeps(cfg: Config, h: History, n: Node, m: Message) returns (g: History)
    requires Good(cfg, h, n) && n.role == StateFollower && Request(cfg, h, n, m) && m.index < n.rl.committed
    ensures AppendPre(n, m) && Keeps(cfg, h, g, n.id, HandleAppendEntries(n, m))
  {
    LeaderHas(cfg, h, Ents(n), n.rl.committed, n.term, n.term);
    BehindNodeOk(cfg, h, n);
    BehindReply(cfg, h, n, m);
    g := Accepting(cfg, h, n, n.rl.committed, HandleAppendEntries(n, m));
  }

  lemma MatchNodeOk(cfg: Config, h: History, n: Node, m: Message, k: nat, o: Node)
    requires LogsOk(h) && AcceptedOk(h) && NodeOk(cfg, h, n) && n.role == StateFollower
    requires Request(cfg, h, n, m) && AppendPre(n, m)
    requires m.index >= n.rl.committed && n.rl.log.MatchTerm(m.index, m.logTerm)
    requires k == m.index + |m.entries| && o == HandleAppendEntries(n, m).node
    ensures o.id == n.id && NodeOk(cfg, Accepted(h, n.id, n.term, k), o)
  {
    MatchLogOk(cfg, h, n, m, k, o);
    MatchShape(n, m, o);
    FollowerNodeOk(cfg, h, n, k, o);
  }

  lemma MatchKeeps(cfg: Config, h: History, n: Node, m: Message) returns (g: History)
    requires Good(cfg, h, n) && n.role == StateFollower && Request(cfg, h, n, m) && AppendPre(n, m)
    requires m.index >= n.rl.committed && n.rl.log.MatchTerm(m.index, m.logTerm)
    ensures Keeps(cfg, h, g, n.id, HandleAppendEntries(n, m))
  {
    var k, o := m.index + |m.entries|, HandleAppendEntries(n, m);
    RequestFits(cfg, h, n, m);
    MatchReply(cfg, h, n, m, k, o);
    MatchNodeOk(cfg, h, n, m, k, o.node);
    g := Accepting(cfg, h, n, k, o);
  }

  lemma RejectIs(n: Node, m: Message)
    requires n.rl.Valid() && AppendPre(n, m)
    requires m.index >= n.rl.committed && !n.rl.log.MatchTerm(m.index, m.logTerm)
    ensures HandleAppendEntries(n, m) == Outcome(n, [AppendReject(n, m.from, m.index)])
  {
  }

  lemma RejectKeeps(cfg: Config, h: History, n: Node, m: Message, o: Outcome)
    requires Good(cfg, h, n) && m.from in cfg.ids && o == Outcome(n, [AppendReject(n, m.from, m.index)])
    ensures Keeps(cfg, h, h, n.id, o)
  {
    ExtendsReflexive(h, n.id);
  }

  lemma AppendKeeps(cfg: Config, h: History, n: Node, m: Message) returns (g: History)
    requires Good(cfg, h, n) && n.role == StateFollower && Request(cfg, h, n, m)
    ensures AppendPre(n, m) && Keeps(cfg, h, g, n.id, HandleAppendEntries(n, m))
  {
    AppendSafe(cfg, h, n, m);
    if m.index < n.rl.committed {
      g := BehindKeeps(cfg, h, n, m);
    } else if n.rl.log.MatchTerm(m.index, m.logTerm) {
      g := MatchKeeps(cfg, h, n, m);
    } else {
      g := h;
      RejectIs(n, m);
      RejectKeeps(cfg, h, n, m, HandleAppendEntries(n, m));
    }
  }

  // ---------- the other messages ----------

  lemma Unchanged(cfg: Config, h: History, n: Node)
    requires Good(cfg, h, n)
    ensures Keeps(cfg, h, h, n.id, Outcome(n, []))
  {
    ExtendsReflexive(h, n.id);
  }

  lemma VoteKeeps(cfg: Config, h: History, n: Node, m: Message) returns (g: History)
    requires Good(cfg, h, n) && MessageOk(cfg, h, m) && m.mtype == MsgVote && m.term == n.term
    ensures Keeps(cfg, h, g, n.id, HandleVote(cfg, n, m))
  {
    if Grantable(cfg, n, m) {
      g := GrantKeeps(cfg, h, n, m);
    } else {
      g := h;
      Unchanged(cfg, h, n);
    }
  }

  lemma VoteRespKeeps(cfg: Config, h: History, n: Node, m: Message, rnd: nat) returns (g: History)
    requires Good(cfg, h, n) && n.role == StateCandidate && RandomFor(cfg, rnd)
    requires MessageOk(cfg, h, m) && m.mtype == MsgVoteResp && m.term == n.term && m.to == n.id
    ensures Keeps(cfg, h, g, n.id, HandleVoteResp(cfg, n, m, rnd))
  {
    PollKeeps(cfg, h, n, m);
    var p := Poll(n, m.from, !m.reject);
    if |p.Grants()| >= cfg.win {
      g := WonKeeps(cfg, h, p, rnd, BecomeLeader(cfg, p, rnd));
    } else if cfg.stepDown {
      g := h;
      GivenUpKeeps(cfg, h, p, rnd);
    } else {
      g := h;
      Unchanged(cfg, h, p);
    }
  }

  lemma WonKeeps(cfg: Config, h: History, p: Node, rnd: nat, l: Node) returns (g: History)
    requires Good(cfg, h, p) && p.role == StateCandidate && RandomFor(cfg, rnd) && |p.Grants()| >= cfg.win
    requires l == BecomeLeader(cfg, p, rnd)
    ensures Good(cfg, g, l) && Keeps(cfg, h, g, p.id, Outcome(l, Broadcast(l, cfg.ids)))
  {
    g := WinKeeps(cfg, h, p, rnd);
    BroadcastOk(cfg, g, l, cfg.ids);
  }

  lemma GivenUpKeeps(cfg: Config, h: History, p: Node, rnd: nat)
    requires Good(cfg, h, p) && RandomFor(cfg, rnd)
    ensures Keeps(cfg, h, h, p.id, Outcome(BecomeFollower(cfg, p, p.term, 0, rnd), []))
  {
    FollowerKeeps(cfg, h, p, p.term, 0, rnd);
    ExtendsReflexive(h, p.id);
  }

  lemma AppRespKeeps(cfg: Config, h: History, n: Node, m: Message)
    requires Good(cfg, h, n) && n.role == StateLeader
    requires MessageOk(cfg, h, m) && m.mtype == MsgAppResp && m.term == n.term
    ensures m.from in n.prs && Keeps(cfg, h, h, n.id, HandleAppResp(cfg, n, m))
  {
    if m.reject {
      Unchanged(cfg, h, n);
    } else {
      ProgressedKeeps(cfg, h, n, m);
      CommittedKeeps(cfg, h, Progressed(n, m), MaybeCommit(cfg, Progressed(n, m)));
    }
  }

  lemma CommittedKeeps(cfg: Config, h: History, p: Node, c: (Node, bool))
    requires Good(cfg, h, p) && p.role == StateLeader && c == MaybeCommit(cfg, p)
    ensures Good(cfg, h, c.0)
    ensures Keeps(cfg, h, h, p.id, Outcome(c.0, if c.1 then Broadcast(c.0, cfg.ids) else []))
  {
    ExtendsReflexive(h, p.id);
    CommitKeeps(cfg, h, p);
    BroadcastOk(cfg, h, c.0, cfg.ids);
  }

  lemma PropKeeps(cfg: Config, h: History, n: Node, m: Message) returns (g: History)
    requires Good(cfg, h, n) && n.role == StateLeader
    ensures Keeps(cfg, h, g, n.id, HandleProp(cfg, n, m))
  {
    g := AppendEntryKeeps(cfg, h, n, m.entries);
    BroadcastOk(cfg, g, AppendEntry(cfg, n, m.entries), cfg.ids);
  }

  lemma CampaignKeeps(cfg: Config, h: History, n: Node, rnd: nat) returns (g: History)
    requires Good(cfg, h, n) && n.role != StateLeader && RandomFor(cfg, rnd)
    ensures Keeps(cfg, h, g, n.id, Campaign(cfg, n, rnd))
  {
    var k := CandidateKeeps(cfg, h, n, rnd);
    g := StandingKeeps(cfg, h, k, Candidate(cfg, n, rnd), rnd, Campaign(cfg, n, rnd));
  }

  lemma StandingKeeps(cfg: Config, h: History, k: History, c: Node, rnd: nat, o: Outcome) returns (g: History)
    requires Extends(h, k, c.id) && Good(cfg, k, c) && c.role == StateCandidate && RandomFor(cfg, rnd)
    requires o == if |c.Grants()| >= cfg.win then Outcome(BecomeLeader(cfg, c, rnd), [])
                  else Outcome(c, VoteRequests(c, cfg.ids))
    ensures Keeps(cfg, h, g, c.id, o)
  {
    if |c.Grants()| >= cfg.win {
      g := ElectedKeeps(cfg, h, k, c, rnd);
    } else {
      g := k;
      RequestsOk(cfg, k, c, cfg.ids);
    }
  }

  lemma ElectedKeeps(cfg: Config, h: History, k: History, c: Node, rnd: nat) returns (g: History)
    requires Extends(h, k, c.id) && Good(cfg, k, c) && Wins(cfg, c) && RandomFor(cfg, rnd)
    ensures Keeps(cfg, h, g, c.id, Outcome(BecomeLeader(cfg, c, rnd), []))
  {
    g := WinKeeps(cfg, k, c, rnd);
    ExtendsTransitive(h, k, g, c.id);
  }

  // ---------- one step of one node ----------

  lemma FollowerStepKeeps(cfg: Config, h: History, n: Node, m: Message) returns (g: History)
    requires Good(cfg, h, n) && n.role == StateFollower && MessageOk(cfg, h, m) && m.term == n.term
    ensures FollowerPre(n, m) && Keeps(cfg, h, g, n.id, StepFollower(cfg, n, m))
  {
    if m.mtype == MsgApp {
      var f := n.(elapsed := 0, lead := m.from);
      TimersOk(cfg, h, n, f);
      g := AppendKeeps(cfg, h, f, m);
    } else {
      g := h;
      Unchanged(cfg, h, n);
    }
  }

  lemma CandidateStepKeeps(cfg: Config, h: History, n: Node, m: Message, rnd: nat) returns (g: History)
    requires Good(cfg, h, n) && n.role == StateCandidate && MessageOk(cfg, h, m) && m.term == n.term
    requires m.to == n.id && RandomFor(cfg, rnd)
    ensures Keeps(cfg, h, g, n.id, StepCandidate(cfg, n, m, rnd))
  {
    if m.mtype == MsgVoteResp {
      g := VoteRespKeeps(cfg, h, n, m, rnd);
    } else {
      g := h;
      Unchanged(cfg, h, n);
    }
  }

  lemma LeaderStepKeeps(cfg: Config, h: History, n: Node, m: Message) returns (g: History)
    requires Good(cfg, h, n) && n.role == StateLeader && MessageOk(cfg, h, m) && m.term == n.term
    ensures LeaderPre(m) && Keeps(cfg, h, g, n.id, StepLeader(cfg, n, m))
  {
    if m.mtype == MsgAppResp {
      g := h;
      AppRespKeeps(cfg, h, n, m);
    } else {
      g := h;
      Unchanged(cfg, h, n);
    }
  }

  lemma CurrentSafe(cfg: Config, h: History, n: Node, m: Message)
    requires LogsOk(h) && NodeOk(cfg, h, n) && MessageOk(cfg, h, m) && m.term == n.term
    ensures CurrentPre(n, m)
  {
    if m.mtype == MsgApp {
      AppendSafe(cfg, h, n, m);
    }
  }

  lemma CurrentKeeps(cfg: Config, h: History, n: Node, m: Message, rnd: nat) returns (g: History)
    requires Good(cfg, h, n) && MessageOk(cfg, h, m) && m.to == n.id && m.term == n.term && RandomFor(cfg, rnd)
    requires CurrentPre(n, m)
    ensures Keeps(cfg, h, g, n.id, StepCurrent(cfg, n, m, rnd))
  {
    var o := StepCurrent(cfg, n, m, rnd);
    if m.mtype == MsgVote {
      g := VoteKeeps(cfg, h, n, m);
    } else {
      g := RoleKeeps(cfg, h, n, m, rnd, o);
    }
  }

  lemma RoleKeeps(cfg: Config, h: History, n: Node, m: Message, rnd: nat, o: Outcome) returns (g: History)
    requires Good(cfg, h, n) && MessageOk(cfg, h, m) && m.to == n.id && m.term == n.term && RandomFor(cfg, rnd)
    requires CurrentPre(n, m)
    requires match n.role
             case StateFollower => o == StepFollower(cfg, n, m)
             case StateCandidate => o == StepCandidate(cfg, n, m, rnd)
             case StateLeader => o == StepLeader(cfg, n, m)
    ensures Keeps(cfg, h, g, n.id, o)
  {
    match n.role
    case StateFollower => g := FollowerStepKeeps(cfg, h, n, m);
    case StateCandidate => g := CandidateStepKeeps(cfg, h, n, m, rnd);
    case StateLeader => g := LeaderStepKeeps(cfg, h, n, m);
  }

  /** Any message of the network, delivered to its receiver, meets no panic and keeps the
      invariant, whenever and however often it arrives. */
  lemma StepKeeps(cfg: Config, h: History, n: Node, m: Message, rnd: nat) returns (g: History)
    requires Good(cfg, h, n) && MessageOk(cfg, h, m) && m.to == n.id && RandomFor(cfg, rnd)
    ensures StepPre(cfg, n, m, rnd) && Keeps(cfg, h, g, n.id, Step(cfg, n, m, rnd))
  {
    if Stale(n, m) {
      g := h;
      Unchanged(cfg, h, n);
    } else {
      var a := Adopt(cfg, n, m, rnd);
      if m.term > n.term {
        FollowerKeeps(cfg, h, n, m.term, 0, rnd);
      }
      CurrentSafe(cfg, h, a, m);
      g := CurrentKeeps(cfg, h, a, m, rnd);
    }
  }

  lemma ProposeIs(cfg: Config, n: Node, es: seq<LogEntry>)
    requires WellFormed(cfg, n) && es != []
    ensures StepPre(cfg, n, Prop(n.id, es), 0)
    ensures Step(cfg, n, Prop(n.id, es), 0) ==
            if n.role == StateLeader then HandleProp(cfg, n, Prop(n.id, es)) else Outcome(n, [])
  {
    StepLocal(cfg, n, Prop(n.id, es), 0);
  }

  lemma ProposeKeeps(cfg: Config, h: History, n: Node, es: seq<LogEntry>, o: Outcome) returns (g: History)
    requires Good(cfg, h, n)
    requires o == if n.role == StateLeader then HandleProp(cfg, n, Prop(n.id, es)) else Outcome(n, [])
    ensures Keeps(cfg, h, g, n.id, o)
  {
    if n.role == StateLeader {
      g := PropKeeps(cfg, h, n, Prop(n.id, es));
    } else {
      g := h;
      Unchanged(cfg, h, n);
    }
  }

  lemma TickKeeps(cfg: Config, h: History, n: Node, rnd: nat) returns (g: History)
    requires Good(cfg, h, n) && n.role != StateLeader && RandomFor(cfg, rnd)
    ensures Keeps(cfg, h, g, n.id, TickElection(cfg, n, rnd))
  {
    TickIs(cfg, n, rnd);
    if n.elapsed + 1 >= n.timeout {
      g := CampaignTickKeeps(cfg, h, n, n.(elapsed := 0), rnd);
    } else {
      g := h;
      QuietTickKeeps(cfg, h, n, n.(elapsed := n.elapsed + 1));
    }
  }

  lemma CampaignTickKeeps(cfg: Config, h: History, n: Node, f: Node, rnd: nat) returns (g: History)
    requires Good(cfg, h, n) && n.role != StateLeader && RandomFor(cfg, rnd) && f == n.(elapsed := 0)
    ensures Keeps(cfg, h, g, n.id, Campaign(cfg, f, rnd))
  {
    TimersOk(cfg, h, n, f);
    g := CampaignKeeps(cfg, h, f, rnd);
  }

  lemma QuietTickKeeps(cfg: Config, h: History, n: Node, f: Node)
    requires Good(cfg, h, n) && f == n.(elapsed := n.elapsed + 1)
    ensures Keeps(cfg, h, h, n.id, Outcome(f, []))
  {
    TimersOk(cfg, h, n, f);
    Unchanged(cfg, h, f);
  }

  lemma ResendKeeps(cfg: Config, h: History, n: Node, to: nat)
    requires Good(cfg, h, n) && n.role == StateLeader && to in cfg.ids
    ensures Keeps(cfg, h, h, n.id, Outcome(n, SendAppend(n, to)))
  {
    ExtendsReflexive(h, n.id);
    SendAppendOk(cfg, h, n, to);
  }

  lemma PaceKeeps(cfg: Config, h: History, n: Node, to: nat, pr: Progress)
    requires Good(cfg, h, n) && n.role == StateLeader && CanPace(n, to, pr)
    ensures Keeps(cfg, h, h, n.id, Outcome(Paced(n, to, pr), []))
  {
    PacedOk(cfg, h, n, to, pr);
    Unchanged(cfg, h, Paced(n, to, pr));
  }

  lemma PacedOk(cfg: Config, h: History, n: Node, to: nat, pr: Progress)
    requires NodeOk(cfg, h, n) && n.role == StateLeader && CanPace(n, to, pr)
    ensures NodeOk(cfg, h, Paced(n, to, pr))
  {
    assert Paced(n, to, pr).prs.Keys == n.prs.Keys;
  }

  lemma ApplyKeeps(cfg: Config, h: History, n: Node, k: nat)
    requires Good(cfg, h, n) && n.rl.applied <= k <= n.rl.committed
    ensures Keeps(cfg, h, h, n.id, Outcome(n.(rl := n.rl.(applied := k)), []))
  {
    var o := n.(rl := n.rl.(applied := k));
    TimersOk(cfg, h, n, o);
    Unchanged(cfg, h, o);
  }

  // ---------- one step of the cluster ----------

  lemma AfterKeeps(cfg: Config, h: History, g: History, c: Cluster, id: nat, o: Outcome)
    requires Invariant(cfg, h, c) && id in c.nodes && Keeps(cfg, h, g, id, o)
    ensures Invariant(cfg, g, After(c, id, o))
  {
    NodesKeep(cfg, h, g, c.nodes, id, o.node);
    NetKeeps(cfg, h, g, c.net, id, o.out);
  }

  lemma NodesKeep(cfg: Config, h: History, g: History, nodes: map<nat, Node>, id: nat, n: Node)
    requires AcceptedOk(h) && Extends(h, g, id) && NodesOk(cfg, h, nodes) && id in nodes
    requires n.id == id && NodeOk(cfg, g, n)
    ensures NodesOk(cfg, g, nodes[id := n])
  {
    OthersKeep(cfg, h, g, nodes, id);
    NodeReplaced(cfg, g, nodes, id, n, nodes[id := n]);
  }

  lemma NodeReplaced(cfg: Config, g: History, nodes: map<nat, Node>, id: nat, n: Node, after: map<nat, Node>)
    requires nodes.Keys == Members(cfg.ids) && id in nodes && n.id == id && NodeOk(cfg, g, n) && after == nodes[id := n]
    requires forall i | i in nodes :: nodes[i].id == i
    requires forall i | i in nodes && i != id :: NodeOk(cfg, g, nodes[i])
    ensures NodesOk(cfg, g, after)
  {
    assert after.Keys == nodes.Keys;
    forall i | i in after ensures after[i].id == i && NodeOk(cfg, g, after[i]) {
      SameNode(cfg, g, if i == id then n else nodes[i], after[i]);
    }
  }

  lemma SameNode(cfg: Config, g: History, a: Node, b: Node)
    requires a == b && NodeOk(cfg, g, a)
    ensures NodeOk(cfg, g, b)
  {
  }

  lemma OthersKeep(cfg: Config, h: History, g: History, nodes: map<nat, Node>, id: nat)
    requires AcceptedOk(h) && Extends(h, g, id) && NodesOk(cfg, h, nodes)
    ensures forall i | i in nodes && i != id :: NodeOk(cfg, g, nodes[i])
  {
    forall i | i in nodes && i != id ensures NodeOk(cfg, g, nodes[i]) {
      NodeGrows(cfg, h, g, id, nodes[i]);
    }
  }

  lemma NetKeeps(cfg: Config, h: History, g: History, net: set<Message>, id: nat, out: seq<Message>)
    requires Extends(h, g, id) && NetOk(cfg, h, net) && forall m | m in out :: MessageOk(cfg, g, m)
    ensures NetOk(cfg, g, net + Sent(out))
  {
    forall m | m in net ensures MessageOk(cfg, g, m) {
      MessageGrows(cfg, h, g, id, m);
    }
  }

  /** Every action that is enabled is safe and keeps the invariant. */
  lemma ActionKeeps(cfg: Config, h: History, c: Cluster, a: Action) returns (g: History, id: nat)
    requires Invariant(cfg, h, c) && Enabled(cfg, c, a)
    ensures Safe(cfg, c, a) && Invariant(cfg, g, Next(cfg, c, a)) && Extends(h, g, id)
  {
    g, id := ActionPreserves(cfg, h, c, a);
  }

  lemma ActionPreserves(cfg: Config, h: History, c: Cluster, a: Action) returns (g: History, id: nat)
    requires Invariant(cfg, h, c) && Enabled(cfg, c, a)
    ensures Preserves(cfg, h, c, a, g, id)
  {
    if a.Tick? || a.Deliver? || a.Propose? {
      g, id := HandlingPreserves(cfg, h, c, a);
    } else {
      g := h;
      id := UpkeepPreserves(cfg, h, c, a);
    }
  }

  /** What the handlers do. */
  lemma HandlingPreserves(cfg: Config, h: History, c: Cluster, a: Action) returns (g: History, id: nat)
    requires Invariant(cfg, h, c) && Enabled(cfg, c, a) && (a.Tick? || a.Deliver? || a.Propose?)
    ensures Preserves(cfg, h, c, a, g, id)
  {
    match a
    case Tick(i, rnd) =>
      id := i;
      g := TickActionKeeps(cfg, h, c, i, rnd, a);
    case Deliver(m, rnd) =>
      id := m.to;
      g := DeliverKeeps(cfg, h, c, m, rnd, a);
    case Propose(i, es) =>
      id := i;
      g := ProposalKeeps(cfg, h, c, i, es, a);
  }

  /** What adds nothing to the history. */
  lemma UpkeepPreserves(cfg: Config, h: History, c: Cluster, a: Action) returns (id: nat)
    requires Invariant(cfg, h, c) && Enabled(cfg, c, a) && (a.Resend? || a.Pace? || a.Apply?)
    ensures Preserves(cfg, h, c, a, h, id)
  {
    match a
    case Resend(i, to) =>
      id := i;
      ResendActionKeeps(cfg, h, c, i, to, a);
    case Pace(i, to, pr) =>
      id := i;
      PaceActionKeeps(cfg, h, c, i, to, pr, a);
    case Apply(i, k) =>
      id := i;
      ApplyActionKeeps(cfg, h, c, i, k, a);
  }

  /** The action is safe and keeps the invariant, with `g` to record what node `id` did. */
  ghost predicate Preserves(cfg: Config, h: History, c: Cluster, a: Action, g: History, id: nat)
    requires Enabled(cfg, c, a)
  {
    Safe(cfg, c, a) && Invariant(cfg, g, Next(cfg, c, a)) && Extends(h, g, id)
  }

  lemma TickActionKeeps(cfg: Config, h: History, c: Cluster, i: nat, rnd: nat, a: Action) returns (g: History)
    requires Invariant(cfg, h, c) && a == Tick(i, rnd) && Enabled(cfg, c, a)
    ensures Preserves(cfg, h, c, a, g, i)
  {
    g := TickKeeps(cfg, h, c.nodes[i], rnd);
    AfterKeeps(cfg, h, g, c, i, TickElection(cfg, c.nodes[i], rnd));
  }

  lemma DeliverKeeps(cfg: Config, h: History, c: Cluster, m: Message, rnd: nat, a: Action) returns (g: History)
    requires Invariant(cfg, h, c) && a == Deliver(m, rnd) && Enabled(cfg, c, a)
    ensures Preserves(cfg, h, c, a, g, m.to)
  {
    g := StepKeeps(cfg, h, c.nodes[m.to], m, rnd);
    AfterKeeps(cfg, h, g, c, m.to, Step(cfg, c.nodes[m.to], m, rnd));
  }

  lemma ProposalKeeps(cfg: Config, h: History, c: Cluster, i: nat, es: seq<LogEntry>, a: Action) returns (g: History)
    requires Invariant(cfg, h, c) && a == Propose(i, es) && Enabled(cfg, c, a)
    ensures Preserves(cfg, h, c, a, g, i)
  {
    ProposeIs(cfg, c.nodes[i], es);
    g := ProposeKeeps(cfg, h, c.nodes[i], es, Step(cfg, c.nodes[i], Prop(i, es), 0));
    AfterKeeps(cfg, h, g, c, i, Step(cfg, c.nodes[i], Prop(i, es), 0));
  }

  lemma ResendActionKeeps(cfg: Config, h: History, c: Cluster, i: nat, to: nat, a: Action)
    requires Invariant(cfg, h, c) && a == Resend(i, to) && Enabled(cfg, c, a)
    ensures Preserves(cfg, h, c, a, h, i)
  {
    ResendKeeps(cfg, h, c.nodes[i], to);
    AfterKeeps(cfg, h, h, c, i, Outcome(c.nodes[i], SendAppend(c.nodes[i], to)));
  }

  lemma PaceActionKeeps(cfg: Config, h: History, c: Cluster, i: nat, to: nat, pr: Progress, a: Action)
    requires Invariant(cfg, h, c) && a == Pace(i, to, pr) && Enabled(cfg, c, a)
    ensures Preserves(cfg, h, c, a, h, i)
  {
    PaceKeeps(cfg, h, c.nodes[i], to, pr);
    AfterKeeps(cfg, h, h, c, i, Outcome(Paced(c.nodes[i], to, pr), []));
  }

  lemma ApplyActionKeeps(cfg: Config, h: History, c: Cluster, i: nat, k: nat, a: Action)
    requires Invariant(cfg, h, c) && a == Apply(i, k) && Enabled(cfg, c, a)
    ensures Preserves(cfg, h, c, a, h, i)
  {
    ApplyKeeps(cfg, h, c.nodes[i], k);
    AfterKeeps(cfg, h, h, c, i, Outcome(c.nodes[i].(rl := c.nodes[i].rl.(applied := k)), []));
  }
}
