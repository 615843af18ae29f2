/** Which rules ever elect a leader.  The winning number of grants, giving up after a short
    reply, and refusing a candidate whose log is no longer than the voter's are safe in
    every combination; here is exactly when a cluster that runs with them can elect. */
module Electability {
  import opened LogModel
  import opened Quorums
  import opened RaftNode
  import opened Cluster
  import opened Paths
  import opened Safety

  /** A single node elects itself.  Otherwise equal logs must be good enough, the grants
      must exist, and a candidate that gives up must be able to win on its first reply. */
  predicate Electable(cfg: Config) {
    || cfg.win == 1
    || (!cfg.strictTie && cfg.win <= |cfg.ids| && (!cfg.stepDown || cfg.win <= 2))
  }

  ghost predicate Leads(r: Run, k: nat, id: nat) {
    NodeAt(r, k, id) && r.states[k].nodes[id].role == StateLeader
  }

  // ---------- rules that never elect ----------

  /** Who a candidate may have heard from. */
  function Heard(cfg: Config, id: nat): set<nat> {
    if cfg.strictTie || (cfg.stepDown && cfg.win > 2) then {id} else Members(cfg.ids)
  }

  ghost predicate IdleNode(cfg: Config, boot: seq<LogEntry>, n: Node) {
    && n.id in cfg.ids && n.role != StateLeader && n.rl.log == Log(0, 0, boot)
    && (n.role == StateCandidate ==> n.votes.Keys <= Heard(cfg, n.id))
  }

  ghost predicate IdleMessage(cfg: Config, boot: seq<LogEntry>, m: Message) {
    || (m.mtype == MsgVote && (m.logTerm, m.index) == (1, |boot|))
    || (m.mtype == MsgVoteResp && !cfg.strictTie && m.from in cfg.ids)
  }

  ghost predicate Idle(cfg: Config, boot: seq<LogEntry>, c: Cluster) {
    && (forall id | id in c.nodes :: IdleNode(cfg, boot, c.nodes[id]))
    && (forall m | m in c.net :: IdleMessage(cfg, boot, m))
  }

  ghost predicate IdleOutcome(cfg: Config, boot: seq<LogEntry>, o: Outcome) {
    IdleNode(cfg, boot, o.node) && forall m | m in o.out :: IdleMessage(cfg, boot, m)
  }

  ghost predicate Hopeless(cfg: Config, boot: seq<LogEntry>) {
    cfg.Valid() && !Electable(cfg) && boot != [] && boot[|boot| - 1].term == 1
  }

  /** However the replies come, they are short of a win. */
  lemma TooFew(cfg: Config, n: Node, m: Message)
    requires cfg.Valid() && !Electable(cfg) && n.id in cfg.ids && m.from in cfg.ids && !cfg.strictTie
    requires n.votes.Keys <= Heard(cfg, n.id)
    ensures var p := Poll(n, m.from, !m.reject);
      |p.Grants()| < cfg.win && (!cfg.stepDown ==> p.votes.Keys <= Heard(cfg, n.id))
  {
    var p := Poll(n, m.from, !m.reject);
    MembersSize(cfg.ids);
    if cfg.stepDown && cfg.win > 2 {
      SubsetSize(p.Grants(), {n.id, m.from});
    } else {
      SubsetSize(p.Grants(), Members(cfg.ids));
    }
  }

  lemma {:induction false} RequestsIdle(cfg: Config, boot: seq<LogEntry>, n: Node, ids: seq<nat>)
    requires n.rl.log == Log(0, 0, boot) && boot != [] && boot[|boot| - 1].term == 1
    ensures forall m | m in VoteRequests(n, ids) :: IdleMessage(cfg, boot, m)
  {
    if ids != [] {
      RequestsIdle(cfg, boot, n, ids[..|ids| - 1]);
    }
  }

  lemma CampaignIdle(cfg: Config, boot: seq<LogEntry>, n: Node, rnd: nat)
    requires Hopeless(cfg, boot) && IdleNode(cfg, boot, n)
    ensures IdleOutcome(cfg, boot, Campaign(cfg, n, rnd))
  {
    var p := Poll(BecomeCandidate(cfg, n, rnd), n.id, true);
    assert p.Grants() == {n.id};
    RequestsIdle(cfg, boot, p, cfg.ids);
  }

  lemma VoteIdle(cfg: Config, boot: seq<LogEntry>, n: Node, m: Message)
    requires Hopeless(cfg, boot) && IdleNode(cfg, boot, n) && IdleMessage(cfg, boot, m) && m.mtype == MsgVote
    ensures IdleOutcome(cfg, boot, HandleVote(cfg, n, m))
  {
  }

  lemma StepIdle(cfg: Config, boot: seq<LogEntry>, n: Node, m: Message, rnd: nat)
    requires Hopeless(cfg, boot) && IdleNode(cfg, boot, n) && StepPre(cfg, n, m, rnd)
    requires IdleMessage(cfg, boot, m) || m.mtype == MsgProp
    ensures IdleOutcome(cfg, boot, Step(cfg, n, m, rnd))
  {
    var a := Adopt(cfg, n, m, rnd);
    assert IdleNode(cfg, boot, a);
    if !Stale(n, m) {
      if m.mtype == MsgVote {
        VoteIdle(cfg, boot, a, m);
      } else if a.role == StateCandidate && m.mtype == MsgVoteResp {
        TooFew(cfg, a, m);
      }
    }
  }

  lemma NextIdle(cfg: Config, boot: seq<LogEntry>, c: Cluster, a: Action)
    requires Hopeless(cfg, boot) && Idle(cfg, boot, c) && Enabled(cfg, c, a) && Safe(cfg, c, a)
    ensures Idle(cfg, boot, Next(cfg, c, a))
  {
    match a
    case Tick(id, rnd) =>
      TickIs(cfg, c.nodes[id], rnd);
      CampaignIdle(cfg, boot, c.nodes[id].(elapsed := 0), rnd);
    case Deliver(m, rnd) =>
      StepIdle(cfg, boot, c.nodes[m.to], m, rnd);
    case Propose(id, es) =>
      StepIdle(cfg, boot, c.nodes[id], Prop(id, es), 0);
    case Resend(id, to) =>
    case Pace(id, to, pr) =>
    case Apply(id, k) =>
  }

  lemma StepKeepsIdle(cfg: Config, boot: seq<LogEntry>, c: Cluster, a: Action, d: Cluster)
    requires Hopeless(cfg, boot) && Idle(cfg, boot, c) && IsStep(cfg, c, a, d)
    ensures Idle(cfg, boot, d)
  {
    NextIdle(cfg, boot, c, a);
  }

  lemma StartIdle(cfg: Config, peers: seq<Peer>, c: Cluster)
    requires Init(cfg, peers, c)
    ensures Idle(cfg, BootEntries(peers), c)
  {
  }

  lemma RunIdle(cfg: Config, peers: seq<Peer>, r: Run, k: nat)
    requires IsRun(cfg, peers, r) && k < |r.states| && Hopeless(cfg, BootEntries(peers))
    ensures Idle(cfg, BootEntries(peers), r.states[k])
  {
    var R := c => Idle(cfg, BootEntries(peers), c);
    StartIdle(cfg, peers, r.states[0]);
    forall c, a, d | R(c) && Steps(cfg)(c, a, d) ensures R(d) {
      StepKeepsIdle(cfg, BootEntries(peers), c, a, d);
    }
    AlwaysIn(R, Steps(cfg), r.states, r.actions, k);
  }

  // ---------- rules that elect ----------

  /** Some run ends in `c`. */
  ghost predicate Reachable(cfg: Config, peers: seq<Peer>, c: Cluster) {
    Arrives(Starts(cfg, peers), Steps(cfg), c)
  }

  /** What reachable states are known for: the start is one, every step keeps it, and no
      action that is enabled meets a panic. */
  ghost predicate Kept(R: Cluster -> bool, cfg: Config, peers: seq<Peer>) {
    && R(Fresh(cfg, peers))
    && Closed(R, Steps(cfg))
    && forall c, a {:trigger R(c), Enabled(cfg, c, a)} | R(c) && Enabled(cfg, c, a) :: Safe(cfg, c, a)
  }

  lemma Taken(R: Cluster -> bool, cfg: Config, peers: seq<Peer>, c: Cluster, a: Action)
    requires Kept(R, cfg, peers) && R(c) && Enabled(cfg, c, a)
    ensures Safe(cfg, c, a) && R(Next(cfg, c, a))
  {
    Goes(R, Steps(cfg), c, a, Next(cfg, c, a));
  }

  /** A tick before the timeout, as a step of the cluster. */
  lemma TickWaits(R: Cluster -> bool, cfg: Config, peers: seq<Peer>, c: Cluster, id: nat, n: Node) returns (d: Cluster)
    requires Kept(R, cfg, peers)
    requires R(c) && cfg.Valid()
    requires id in c.nodes && c.nodes[id] == n && n.role != StateLeader && n.elapsed + 1 < n.timeout
    ensures R(d) && d == After(c, id, Outcome(n.(elapsed := n.elapsed + 1), []))
  {
    Taken(R, cfg, peers, c, Tick(id, 0));
    TickIs(cfg, n, 0);
    d := Next(cfg, c, Tick(id, 0));
  }

  /** A tick at the timeout. */
  lemma TickCampaigns(R: Cluster -> bool, cfg: Config, peers: seq<Peer>, c: Cluster, id: nat, n: Node, o: Outcome)
    returns (d: Cluster)
    requires Kept(R, cfg, peers)
    requires R(c) && cfg.Valid()
    requires id in c.nodes && c.nodes[id] == n && n.role != StateLeader && n.elapsed + 1 >= n.timeout
    requires o == Campaign(cfg, n.(elapsed := 0), 0)
    ensures R(d) && d == After(c, id, o)
  {
    Taken(R, cfg, peers, c, Tick(id, 0));
    TickIs(cfg, n, 0);
    d := Next(cfg, c, Tick(id, 0));
  }

  /** Every member as bootstrap leaves it. */
  function Fresh(cfg: Config, peers: seq<Peer>): Cluster {
    Cluster(map id: nat | id in cfg.ids :: Started(cfg, id, peers, 0), {})
  }

  lemma FreshInit(cfg: Config, peers: seq<Peer>)
    requires cfg.Valid() && PeersOf(cfg, peers)
    ensures Init(cfg, peers, Fresh(cfg, peers))
  {
    var c := Fresh(cfg, peers);
    forall id | id in c.nodes ensures exists rnd :: RandomFor(cfg, rnd) && c.nodes[id] == Started(cfg, id, peers, rnd) {
      assert RandomFor(cfg, 0);
    }
    assert c.nodes.Keys == Members(cfg.ids);
  }

  /** The first member, `k` ticks after the start. */
  function Waited(cfg: Config, peers: seq<Peer>, k: nat): Node
    requires cfg.ids != []
  {
    Started(cfg, cfg.ids[0], peers, 0).(elapsed := k)
  }

  /** Every member as bootstrap leaves it, but for the ticks of the first. */
  function Waiting(cfg: Config, peers: seq<Peer>, k: nat): Cluster
    requires cfg.ids != []
  {
    Fresh(cfg, peers).(nodes := Fresh(cfg, peers).nodes[cfg.ids[0] := Waited(cfg, peers, k)])
  }

  lemma {:induction false} WaitReachable(R: Cluster -> bool, cfg: Config, peers: seq<Peer>, k: nat)
    requires Kept(R, cfg, peers)
    requires cfg.Valid() && PeersOf(cfg, peers) && k < cfg.electionTimeout
    ensures R(Waiting(cfg, peers, k))
  {
    if k == 0 {
      assert Waiting(cfg, peers, 0) == Fresh(cfg, peers);
    } else {
      WaitReachable(R, cfg, peers, k - 1);
      var d := TickWaits(R, cfg, peers, Waiting(cfg, peers, k - 1), cfg.ids[0], Waited(cfg, peers, k - 1));
      OneTickMore(cfg, peers, k);
    }
  }

  lemma OneTickMore(cfg: Config, peers: seq<Peer>, k: nat)
    requires cfg.ids != [] && k > 0
    ensures After(Waiting(cfg, peers, k - 1), cfg.ids[0], Outcome(Waited(cfg, peers, k), [])) == Waiting(cfg, peers, k)
  {
    assert Sent([]) == {};
  }

  /** The first member as candidate, with the votes of the first `j` members. */
  function Standing(cfg: Config, peers: seq<Peer>, j: nat): Node
    requires 0 < j <= |cfg.ids|
  {
    var prs := ResetProgress(InitialProgress(cfg, |peers|), cfg.ids[0], |peers|);
    var rl := LogState(Log(0, 0, BootEntries(peers)), |peers|, 0);
    var votes := FirstVotes(cfg.ids[..j]);
    Node(cfg.ids[0], 2, cfg.ids[0], StateCandidate, votes, prs, 0, rl, 0, cfg.electionTimeout)
  }

  /** The request the first member sends to `to`. */
  function Asked(cfg: Config, peers: seq<Peer>, to: nat): Message
    requires cfg.ids != []
  {
    Message(MsgVote, to, cfg.ids[0], 2, 1, |peers|, [], 0, false, 0)
  }

  /** The first member stands, every other member has been asked, and those from the
      `j`th on have not been reached. */
  ghost predicate Canvassed(R: Cluster -> bool, cfg: Config, peers: seq<Peer>, c: Cluster, j: nat)
    requires 0 < j <= |cfg.ids|
  {
    && R(c) && c.nodes.Keys == Members(cfg.ids)
    && c.nodes[cfg.ids[0]] == Standing(cfg, peers, j)
    && (forall i {:trigger cfg.ids[i]} | j <= i < |cfg.ids| ::
          c.nodes[cfg.ids[i]] == Started(cfg, cfg.ids[i], peers, 0) && Asked(cfg, peers, cfg.ids[i]) in c.net)
  }

  lemma {:induction false} AllAsked(cfg: Config, peers: seq<Peer>, n: Node, ids: seq<nat>, i: nat)
    requires cfg.ids != [] && peers != [] && n.id == cfg.ids[0] && n.term == 2
    requires n.rl.log == Log(0, 0, BootEntries(peers))
    requires i < |ids| && ids[i] != n.id
    ensures Asked(cfg, peers, ids[i]) in VoteRequests(n, ids)
  {
    if i < |ids| - 1 {
      AllAsked(cfg, peers, n, ids[..|ids| - 1], i);
    }
  }

  /** At its timeout the first member stands and asks the others for their votes. */
  lemma Canvasses(R: Cluster -> bool, cfg: Config, peers: seq<Peer>, k: nat) returns (c: Cluster)
    requires Kept(R, cfg, peers)
    requires cfg.Valid() && PeersOf(cfg, peers) && k + 1 == cfg.electionTimeout && cfg.win > 1
    ensures Canvassed(R, cfg, peers, c, 1) && cfg.ids[0] in c.nodes
  {
    var o;
    c, o := StandsUp(R, cfg, peers, k);
    AllCanvassed(R, cfg, peers, k, c, o);
  }

  /** Or it leads at once, when its own vote is enough. */
  lemma LeadsAlone(R: Cluster -> bool, cfg: Config, peers: seq<Peer>, k: nat) returns (c: Cluster)
    requires Kept(R, cfg, peers)
    requires cfg.Valid() && PeersOf(cfg, peers) && k + 1 == cfg.electionTimeout && cfg.win == 1
    ensures R(c) && cfg.ids[0] in c.nodes && c.nodes[cfg.ids[0]].role == StateLeader
  {
    var o;
    c, o := StandsUp(R, cfg, peers, k);
  }

  lemma StandsUp(R: Cluster -> bool, cfg: Config, peers: seq<Peer>, k: nat) returns (c: Cluster, o: Outcome)
    requires Kept(R, cfg, peers)
    requires cfg.Valid() && PeersOf(cfg, peers) && k + 1 == cfg.electionTimeout
    ensures R(c) && c == After(Waiting(cfg, peers, k), cfg.ids[0], o)
    ensures cfg.win == 1 ==> o.node.role == StateLeader
    ensures cfg.win > 1 ==> o.node == Standing(cfg, peers, 1)
    ensures cfg.win > 1 ==>
              forall i {:trigger cfg.ids[i]} | 1 <= i < |cfg.ids| :: Asked(cfg, peers, cfg.ids[i]) in o.out
  {
    o := CampaignStands(cfg, peers, Waited(cfg, peers, 0));
    c := StandStep(R, cfg, peers, k, o);
  }

  lemma StandStep(R: Cluster -> bool, cfg: Config, peers: seq<Peer>, k: nat, o: Outcome) returns (c: Cluster)
    requires Kept(R, cfg, peers)
    requires cfg.Valid() && PeersOf(cfg, peers) && k + 1 == cfg.electionTimeout
    requires o == Campaign(cfg, Waited(cfg, peers, 0), 0)
    ensures R(c) && c == After(Waiting(cfg, peers, k), cfg.ids[0], o)
  {
    WaitReachable(R, cfg, peers, k);
    assert Waited(cfg, peers, k).(elapsed := 0) == Waited(cfg, peers, 0);
    c := TickCampaigns(R, cfg, peers, Waiting(cfg, peers, k), cfg.ids[0], Waited(cfg, peers, k), o);
  }

  lemma AllCanvassed(R: Cluster -> bool, cfg: Config, peers: seq<Peer>, k: nat, c: Cluster, o: Outcome)
    requires cfg.Valid() && R(c) && c == After(Waiting(cfg, peers, k), cfg.ids[0], o)
    requires o.node == Standing(cfg, peers, 1)
    requires forall i {:trigger cfg.ids[i]} | 1 <= i < |cfg.ids| :: Asked(cfg, peers, cfg.ids[i]) in o.out
    ensures Canvassed(R, cfg, peers, c, 1)
  {
  }

  lemma CampaignStands(cfg: Config, peers: seq<Peer>, n: Node) returns (o: Outcome)
    requires cfg.Valid() && peers != [] && n == Waited(cfg, peers, 0)
    ensures o == Campaign(cfg, n, 0)
    ensures cfg.win == 1 ==> o.node.role == StateLeader
    ensures cfg.win > 1 ==> o.node == Standing(cfg, peers, 1)
    ensures cfg.win > 1 ==>
              forall i {:trigger cfg.ids[i]} | 1 <= i < |cfg.ids| :: Asked(cfg, peers, cfg.ids[i]) in o.out
  {
    o := Campaign(cfg, n, 0);
    var p := Poll(BecomeCandidate(cfg, n, 0), n.id, true);
    assert p.Grants() == {n.id};
    assert p.votes == Standing(cfg, peers, 1).votes;
    if cfg.win > 1 {
      forall i | 1 <= i < |cfg.ids| ensures Asked(cfg, peers, cfg.ids[i]) in VoteRequests(p, cfg.ids) {
        AllAsked(cfg, peers, p, cfg.ids, i);
      }
    }
  }

  /** A member that has not been reached grants its vote. */
  lemma FreshGrants(cfg: Config, peers: seq<Peer>, b: nat)
    requires cfg.Valid() && peers != [] && !cfg.strictTie && b in cfg.ids
    requires StepPre(cfg, Started(cfg, b, peers, 0), Asked(cfg, peers, b), 0)
    ensures Step(cfg, Started(cfg, b, peers, 0), Asked(cfg, peers, b), 0).out == [Granted(cfg, b)]
  {
    var m := Asked(cfg, peers, b);
    var a := Adopt(cfg, Started(cfg, b, peers, 0), m, 0);
    assert Grantable(cfg, a, m);
  }

  function Granted(cfg: Config, b: nat): Message
    requires cfg.ids != []
  {
    Message(MsgVoteResp, cfg.ids[0], b, 2, 0, 0, [], 0, false, 0)
  }

  /** The next member grants its vote. */
  lemma Grant(R: Cluster -> bool, cfg: Config, peers: seq<Peer>, c: Cluster, j: nat) returns (d: Cluster)
    requires Kept(R, cfg, peers)
    requires cfg.Valid() && PeersOf(cfg, peers) && !cfg.strictTie && 0 < j < |cfg.ids| && Canvassed(R, cfg, peers, c, j)
    ensures R(d) && d.nodes.Keys == c.nodes.Keys && c.net <= d.net
    ensures Granted(cfg, cfg.ids[j]) in d.net
    ensures forall i {:trigger cfg.ids[i]} | 0 <= i < |cfg.ids| && i != j :: d.nodes[cfg.ids[i]] == c.nodes[cfg.ids[i]]
  {
    var b := cfg.ids[j];
    var o;
    d, o := GrantStep(R, cfg, peers, c, b);
    assert Granted(cfg, b) in o.out;
  }

  lemma GrantStep(R: Cluster -> bool, cfg: Config, peers: seq<Peer>, c: Cluster, b: nat)
    returns (d: Cluster, o: Outcome)
    requires Kept(R, cfg, peers)
    requires cfg.Valid() && peers != [] && !cfg.strictTie && b in cfg.ids && R(c)
    requires b in c.nodes && c.nodes[b] == Started(cfg, b, peers, 0) && Asked(cfg, peers, b) in c.net
    ensures R(d) && d == After(c, b, o) && o.out == [Granted(cfg, b)]
  {
    var m := Asked(cfg, peers, b);
    Taken(R, cfg, peers, c, Deliver(m, 0));
    FreshGrants(cfg, peers, b);
    o := Step(cfg, c.nodes[b], m, 0);
    d := Next(cfg, c, Deliver(m, 0));
  }

  /** The grant of the next member either wins or is added to the tally. */
  lemma GrantCounts(cfg: Config, peers: seq<Peer>, j: nat)
    requires cfg.Valid() && Electable(cfg) && 0 < j < cfg.win && j < |cfg.ids|
    requires StepPre(cfg, Standing(cfg, peers, j), Granted(cfg, cfg.ids[j]), 0)
    ensures var n := Step(cfg, Standing(cfg, peers, j), Granted(cfg, cfg.ids[j]), 0).node;
      && (j + 1 == cfg.win ==> n.role == StateLeader)
      && (j + 1 < cfg.win ==> n == Standing(cfg, peers, j + 1))
  {
    Tallied(cfg, peers, j);
  }

  /** With the votes of the first `j` members in hand, the next one wins or adds to them. */
  lemma NextVote(R: Cluster -> bool, cfg: Config, peers: seq<Peer>, c: Cluster, j: nat) returns (d: Cluster)
    requires Kept(R, cfg, peers)
    requires cfg.Valid() && PeersOf(cfg, peers) && Electable(cfg) && 0 < j < cfg.win && Canvassed(R, cfg, peers, c, j)
    requires j < |cfg.ids|
    ensures R(d) && cfg.ids[0] in d.nodes
    ensures j + 1 == cfg.win ==> d.nodes[cfg.ids[0]].role == StateLeader
    ensures j + 1 < cfg.win ==> Canvassed(R, cfg, peers, d, j + 1)
  {
    var e := Grant(R, cfg, peers, c, j);
    assert e.nodes[cfg.ids[0]] == Standing(cfg, peers, j);
    var o;
    d, o := CountStep(R, cfg, peers, e, j);
    if j + 1 < cfg.win {
      OneFewer(R, cfg, peers, c, e, d, j, o);
    }
  }

  lemma OneFewer(R: Cluster -> bool, cfg: Config, peers: seq<Peer>, c: Cluster, e: Cluster, d: Cluster, j: nat,
                 o: Outcome)
    requires cfg.Valid() && 0 < j < |cfg.ids| && Canvassed(R, cfg, peers, c, j) && R(d)
    requires e.nodes.Keys == c.nodes.Keys && c.net <= e.net
    requires forall i {:trigger cfg.ids[i]} | 0 <= i < |cfg.ids| && i != j :: e.nodes[cfg.ids[i]] == c.nodes[cfg.ids[i]]
    requires d == After(e, cfg.ids[0], o) && o.node == Standing(cfg, peers, j + 1)
    ensures Canvassed(R, cfg, peers, d, j + 1)
  {
  }

  lemma CountStep(R: Cluster -> bool, cfg: Config, peers: seq<Peer>, c: Cluster, j: nat)
    returns (d: Cluster, o: Outcome)
    requires Kept(R, cfg, peers)
    requires cfg.Valid() && Electable(cfg) && 0 < j < cfg.win && j < |cfg.ids| && R(c)
    requires cfg.ids[0] in c.nodes && c.nodes[cfg.ids[0]] == Standing(cfg, peers, j)
    requires Granted(cfg, cfg.ids[j]) in c.net
    ensures R(d) && d == After(c, cfg.ids[0], o)
    ensures j + 1 == cfg.win ==> o.node.role == StateLeader
    ensures j + 1 < cfg.win ==> o.node == Standing(cfg, peers, j + 1)
  {
    var m := Granted(cfg, cfg.ids[j]);
    Taken(R, cfg, peers, c, Deliver(m, 0));
    GrantCounts(cfg, peers, j);
    o := Step(cfg, c.nodes[cfg.ids[0]], m, 0);
    d := Next(cfg, c, Deliver(m, 0));
  }

  lemma Tallied(cfg: Config, peers: seq<Peer>, j: nat)
    requires cfg.Valid() && 0 < j < |cfg.ids|
    ensures Poll(Standing(cfg, peers, j), cfg.ids[j], true) == Standing(cfg, peers, j + 1)
    ensures |Standing(cfg, peers, j + 1).Grants()| == j + 1
  {
    OneMoreVote(cfg.ids, j);
    GrantsOfFirst(Standing(cfg, peers, j + 1), cfg.ids[..j + 1]);
  }

  /** The votes of the first `j` members. */
  function FirstVotes(ids: seq<nat>): map<nat, bool> {
    map id | id in ids :: true
  }

  lemma OneMoreVote(ids: seq<nat>, j: nat)
    requires Distinct(ids) && j < |ids|
    ensures ids[j] !in FirstVotes(ids[..j]) && FirstVotes(ids[..j])[ids[j] := true] == FirstVotes(ids[..j + 1])
  {
    assert ids[..j + 1] == ids[..j] + [ids[j]];
  }

  lemma GrantsOfFirst(n: Node, first: seq<nat>)
    requires Distinct(first) && n.votes == FirstVotes(first)
    ensures |n.Grants()| == |first|
  {
    MembersSize(first);
    assert n.Grants() == Members(first);
  }

  lemma {:induction false} Elect(R: Cluster -> bool, cfg: Config, peers: seq<Peer>, c: Cluster, j: nat)
    returns (d: Cluster)
    requires Kept(R, cfg, peers)
    requires cfg.Valid() && PeersOf(cfg, peers) && Electable(cfg) && 0 < j < cfg.win && Canvassed(R, cfg, peers, c, j)
    requires cfg.win <= |cfg.ids|
    ensures R(d) && cfg.ids[0] in d.nodes && d.nodes[cfg.ids[0]].role == StateLeader
    decreases cfg.win - j
  {
    d := NextVote(R, cfg, peers, c, j);
    if j + 1 < cfg.win {
      d := Elect(R, cfg, peers, d, j + 1);
    }
  }

  lemma ReachableKept(cfg: Config, peers: seq<Peer>)
    requires cfg.Valid() && PeersOf(cfg, peers)
    ensures Kept(c => Reachable(cfg, peers, c), cfg, peers)
  {
    FreshInit(cfg, peers);
    ArrivesAtStart(Starts(cfg, peers), Steps(cfg), Fresh(cfg, peers));
    var R := (c: Cluster) => Reachable(cfg, peers, c);
    forall c, a, d | R(c) && Steps(cfg)(c, a, d) ensures R(d) {
      ArrivesFurther(Starts(cfg, peers), Steps(cfg), c, a, d);
    }
    forall c, a | R(c) && Enabled(cfg, c, a) ensures Safe(cfg, c, a) {
      var r := RunTo(cfg, peers, c);
      NoPanic(cfg, peers, r, |r.actions|, a);
    }
    assert Kept(R, cfg, peers);
  }

  lemma RunTo(cfg: Config, peers: seq<Peer>, c: Cluster) returns (r: Run)
    requires Reachable(cfg, peers, c)
    ensures IsRun(cfg, peers, r) && r.states[|r.actions|] == c
  {
    var states, actions: seq<Action> :|
      AllSteps(Steps(cfg), states, actions) && Init(cfg, peers, states[0]) && states[|actions|] == c;
    r := Run(states, actions);
  }

  lemma Elected(cfg: Config, peers: seq<Peer>) returns (c: Cluster)
    requires cfg.Valid() && PeersOf(cfg, peers) && Electable(cfg)
    ensures Reachable(cfg, peers, c) && cfg.ids[0] in c.nodes && c.nodes[cfg.ids[0]].role == StateLeader
  {
    ReachableKept(cfg, peers);
    var R := (c: Cluster) => Reachable(cfg, peers, c);
    if cfg.win > 1 {
      c := Canvasses(R, cfg, peers, cfg.electionTimeout - 1);
      c := Elect(R, cfg, peers, c, 1);
    } else {
      c := LeadsAlone(R, cfg, peers, cfg.electionTimeout - 1);
    }
  }

  // ---------- the theorem ----------

  /** Some run of a cluster has a leader exactly when its rules are electable. */
  lemma ElectsIffElectable(cfg: Config, peers: seq<Peer>)
    requires cfg.Valid() && PeersOf(cfg, peers)
    ensures Electable(cfg) <==> exists r, k, id :: IsRun(cfg, peers, r) && Leads(r, k, id)
  {
    if Electable(cfg) {
      var c := Elected(cfg, peers);
      var r := RunTo(cfg, peers, c);
      assert Leads(r, |r.actions|, cfg.ids[0]);
    } else {
      forall r, k: nat, id | IsRun(cfg, peers, r) && NodeAt(r, k, id) ensures !Leads(r, k, id) {
        RunIdle(cfg, peers, r, k);
      }
    }
  }

  /** The rules as the code has them: one grant more than a quorum, giving up after any
      reply that is short of it, and no vote for a log that is merely as good. */
  function CodeRules(ids: seq<nat>, electionTimeout: nat): Config {
    Config(ids, Quorum(|ids|) + 1, true, true, electionTimeout)
  }

  /** The rules as its comments have them. */
  function StatedRules(ids: seq<nat>, electionTimeout: nat): Config {
    Config(ids, Quorum(|ids|), false, false, electionTimeout)
  }

  /** With the code's rules no run ever has a leader, whatever the membership; with the
      stated rules every membership can elect. */
  lemma CodeNeverElects(ids: seq<nat>, electionTimeout: nat, peers: seq<Peer>)
    requires CodeRules(ids, electionTimeout).Valid() && PeersOf(CodeRules(ids, electionTimeout), peers)
    ensures !exists r, k, id :: IsRun(CodeRules(ids, electionTimeout), peers, r) && Leads(r, k, id)
    ensures exists r, k, id :: IsRun(StatedRules(ids, electionTimeout), peers, r) && Leads(r, k, id)
  {
    ElectsIffElectable(CodeRules(ids, electionTimeout), peers);
    ElectsIffElectable(StatedRules(ids, electionTimeout), peers);
  }
}
