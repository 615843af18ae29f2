/** The cluster: a fixed membership, a network that only grows, and one step at a time.
    A message in the network may be delivered never, late, again, or out of order. */
module Cluster {
  import opened LogModel
  import opened Quorums
  import opened RaftNode
  import opened Paths

  datatype Cluster = Cluster(nodes: map<nat, Node>, net: set<Message>)

  datatype Action =
    | Tick(id: nat, rnd: nat)
    | Deliver(m: Message, rnd: nat)
    | Propose(id: nat, entries: seq<LogEntry>)
    | Resend(id: nat, to: nat)
    | Pace(id: nat, to: nat, pr: Progress)
    | Apply(id: nat, upTo: nat)

  // ---------- start ----------

  datatype Peer = Peer(id: nat, context: string)

  /** The configuration entries a node starts with: one for each peer, all of term 1. */
  function BootEntries(peers: seq<Peer>): (es: seq<LogEntry>)
    ensures |es| == |peers|
    ensures forall i | 0 <= i < |peers| :: es[i] == LogEntry(1, i + 1, peers[i].context, EntryConfChange)
  {
    seq(|peers|, i requires 0 <= i < |peers| => LogEntry(1, i + 1, peers[i].context, EntryConfChange))
  }

  predicate PeersOf(cfg: Config, peers: seq<Peer>) {
    peers != [] && Members(cfg.ids) == set i | 0 <= i < |peers| :: peers[i].id
  }

  /** A follower of term 1 whose bootstrap entries count as committed. */
  function Started(cfg: Config, id: nat, peers: seq<Peer>, rnd: nat): Node {
    var rl := LogState(Log(0, 0, BootEntries(peers)), |peers|, 0);
    Node(id, 1, 0, StateFollower, map[], InitialProgress(cfg, |peers|), 0, rl, 0, cfg.electionTimeout + rnd)
  }

  ghost predicate Init(cfg: Config, peers: seq<Peer>, c: Cluster) {
    && cfg.Valid() && PeersOf(cfg, peers)
    && c.nodes.Keys == Members(cfg.ids)
    && (forall id | id in c.nodes :: exists rnd :: RandomFor(cfg, rnd) && c.nodes[id] == Started(cfg, id, peers, rnd))
    && c.net == {}
  }

  // ---------- steps ----------

  function Sent(out: seq<Message>): set<Message> {
    set m | m in out
  }

  function After(c: Cluster, id: nat, o: Outcome): Cluster {
    Cluster(c.nodes[id := o.node], c.net + Sent(o.out))
  }

  function Prop(id: nat, es: seq<LogEntry>): Message {
    Message(MsgProp, 0, id, 0, 0, 0, es, 0, false, 0)
  }

  /** A leader may send to a member from anywhere in its log, at any pace: every way of
      backing off, probing or holding back.  Only the match index is not its to choose. */
  predicate CanPace(n: Node, to: nat, pr: Progress) {
    to in n.prs && pr.matched == n.prs[to].matched && 0 < pr.next <= n.LastIndex() + 1
  }

  function Paced(n: Node, to: nat, pr: Progress): Node {
    n.(prs := n.prs[to := pr])
  }

  predicate Enabled(cfg: Config, c: Cluster, a: Action) {
    match a
    case Tick(id, rnd) => id in c.nodes && RandomFor(cfg, rnd) && c.nodes[id].role != StateLeader
    case Deliver(m, rnd) => m in c.net && m.to in c.nodes && RandomFor(cfg, rnd)
    case Propose(id, es) => id in c.nodes && es != []
    case Resend(id, to) => id in c.nodes && to in cfg.ids && to != id && c.nodes[id].role == StateLeader
    case Pace(id, to, pr) => id in c.nodes && c.nodes[id].role == StateLeader && CanPace(c.nodes[id], to, pr)
    case Apply(id, k) => id in c.nodes && c.nodes[id].rl.applied <= k <= c.nodes[id].rl.committed
  }

  /** The handler the action runs meets none of the source's panics. */
  ghost predicate Safe(cfg: Config, c: Cluster, a: Action)
    requires Enabled(cfg, c, a)
  {
    match a
    case Tick(id, rnd) => WellFormed(cfg, c.nodes[id])
    case Deliver(m, rnd) => StepPre(cfg, c.nodes[m.to], m, rnd)
    case Propose(id, es) => StepPre(cfg, c.nodes[id], Prop(id, es), 0)
    case Resend(id, to) => WellFormed(cfg, c.nodes[id])
    case Pace(id, to, pr) => true
    case Apply(id, k) => true
  }

  ghost function Next(cfg: Config, c: Cluster, a: Action): Cluster
    requires Enabled(cfg, c, a) && Safe(cfg, c, a)
  {
    match a
    case Tick(id, rnd) => After(c, id, TickElection(cfg, c.nodes[id], rnd))
    case Deliver(m, rnd) => After(c, m.to, Step(cfg, c.nodes[m.to], m, rnd))
    case Propose(id, es) => After(c, id, Step(cfg, c.nodes[id], Prop(id, es), 0))
    case Resend(id, to) => After(c, id, Outcome(c.nodes[id], SendAppend(c.nodes[id], to)))
    case Pace(id, to, pr) => After(c, id, Outcome(Paced(c.nodes[id], to, pr), []))
    case Apply(id, k) => After(c, id, Outcome(c.nodes[id].(rl := c.nodes[id].rl.(applied := k)), []))
  }

  // ---------- runs ----------

  datatype Run = Run(states: seq<Cluster>, actions: seq<Action>)

  ghost predicate IsRun(cfg: Config, peers: seq<Peer>, r: Run) {
    AllSteps(Steps(cfg), r.states, r.actions) && Init(cfg, peers, r.states[0])
  }

  ghost function Steps(cfg: Config): (Cluster, Action, Cluster) -> bool {
    (c, a, d) => IsStep(cfg, c, a, d)
  }

  ghost function Starts(cfg: Config, peers: seq<Peer>): Cluster -> bool {
    c => Init(cfg, peers, c)
  }

  ghost predicate IsStep(cfg: Config, c: Cluster, a: Action, d: Cluster) {
    Enabled(cfg, c, a) && Safe(cfg, c, a) && d == Next(cfg, c, a)
  }

  /** A run goes on with any step from where it is. */
  lemma RunExtended(cfg: Config, peers: seq<Peer>, r: Run, a: Action, d: Cluster) returns (s: Run)
    requires IsRun(cfg, peers, r) && IsStep(cfg, r.states[|r.actions|], a, d)
    ensures IsRun(cfg, peers, s) && s.states == r.states + [d] && s.actions == r.actions + [a]
  {
    s := Run(r.states + [d], r.actions + [a]);
    assert s.states[0] == r.states[0];
    AllStepsExtended(Steps(cfg), r.states, r.actions, a, d);
  }

  /** The entries of a node's log; nothing is compacted in the cluster. */
  function Ents(n: Node): seq<LogEntry> {
    n.rl.log.ents
  }
}
