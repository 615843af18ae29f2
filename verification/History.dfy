/** What a run leaves behind, recorded beside it for the proofs: the log of every term's
    leader, the elections with their voters' logs, and how far each node has accepted
    each term's log.  No handler reads it. */
module History {
  import opened LogModel
  import opened Quorums
  import opened RaftNode
  import opened Cluster

  /** A vote: for whom, and the voter's log at the time. */
  datatype Ballot = Ballot(cand: nat, log: seq<LogEntry>)

  datatype History = History(
    logs: map<nat, seq<LogEntry>>,             // term -> its leader's log so far
    elected: map<nat, seq<LogEntry>>,          // term -> its leader's log when elected
    winner: map<nat, nat>,
    voters: map<nat, set<nat>>,
    camps: map<(nat, nat), seq<LogEntry>>,     // (candidate, term) -> the candidate's log
    ballots: map<(nat, nat), Ballot>,          // (voter, term)
    accepted: map<(nat, nat), nat>)            // (node, term) -> length it has accepted

  function Acc(h: History, id: nat, t: nat): nat {
    if (id, t) in h.accepted then h.accepted[(id, t)] else 0
  }

  // ---------- logs ----------

  /** The first `n` entries are there in both and equal. */
  ghost predicate Same(a: seq<LogEntry>, b: seq<LogEntry>, n: nat) {
    n <= |a| && n <= |b| && forall k {:trigger a[k]} {:trigger b[k]} | 0 <= k < n :: a[k] == b[k]
  }

  predicate UpToDate(a: seq<LogEntry>, b: seq<LogEntry>) {
    LastTermOf(a) > LastTermOf(b) || (LastTermOf(a) == LastTermOf(b) && |a| >= |b|)
  }

  /** Each entry, with everything before it, comes from the log of its term's leader. */
  ghost predicate Covered(h: History, s: seq<LogEntry>) {
    forall k {:trigger s[k]} | 0 <= k < |s| :: FromLeader(h, s, k)
  }

  ghost predicate FromLeader(h: History, s: seq<LogEntry>, k: nat)
    requires k < |s|
  {
    s[k].term in h.logs && Same(s, h.logs[s[k].term], k + 1)
  }

  ghost predicate TermsUpTo(s: seq<LogEntry>, t: nat) {
    forall k {:trigger s[k]} | 0 <= k < |s| :: s[k].term <= t
  }

  // ---------- what acceptance means ----------

  /** Some term after `t`, up to `bound`, elected a leader without the first `i` entries
      of term `t`'s log. */
  ghost predicate Lost(h: History, t: nat, i: nat, bound: nat) {
    exists u :: t < u <= bound && Missing(h, u, t, i)
  }

  ghost predicate Missing(h: History, u: nat, t: nat, i: nat) {
    u in h.elected && t in h.logs && !Same(h.elected[u], h.logs[t], i)
  }

  /** `log` still has the first `i` entries of term `t`'s log, unless a leader without
      them came in between. */
  ghost predicate Kept(h: History, log: seq<LogEntry>, t: nat, i: nat, bound: nat) {
    t in h.logs && (Same(log, h.logs[t], i) || Lost(h, t, i, bound))
  }

  /** What node `id` accepted in terms before `before` is kept in `log`. */
  ghost predicate KeptAll(h: History, id: nat, log: seq<LogEntry>, before: nat, bound: nat) {
    forall t: nat, i: nat {:trigger Kept(h, log, t, i, bound)} | t < before && 0 < i <= Acc(h, id, t) ::
      Kept(h, log, t, i, bound)
  }

  // ---------- commitment ----------

  function Acceptors(cfg: Config, h: History, t: nat, i: nat): set<nat> {
    set id | id in cfg.ids && Acc(h, id, t) >= i
  }

  /** A quorum accepted the first `i` entries of term `t`'s log, the last of which was
      made in term `t`. */
  ghost predicate CommittedAt(cfg: Config, h: History, t: nat, i: nat) {
    && t in h.logs && 0 < i <= |h.logs[t]| && h.logs[t][i - 1].term == t
    && |Acceptors(cfg, h, t, i)| >= Quorum(|cfg.ids|)
  }

  /** The first `c` entries of `s` are part of what was committed in some term up to `bound`. */
  ghost predicate Committed(cfg: Config, h: History, s: seq<LogEntry>, c: nat, bound: nat) {
    exists t, i :: CommitPoint(cfg, h, s, c, bound, t, i)
  }

  ghost predicate CommitPoint(cfg: Config, h: History, s: seq<LogEntry>, c: nat, bound: nat, t: nat, i: nat) {
    t <= bound && c <= i && CommittedAt(cfg, h, t, i) && Same(s, h.logs[t], c)
  }

  // ---------- the invariant ----------

  ghost predicate Keys(h: History) {
    && h.elected.Keys == h.logs.Keys
    && h.voters.Keys == h.winner.Keys
    && h.logs.Keys == h.winner.Keys + {1}
    && 1 !in h.winner && 0 !in h.winner
  }

  ghost predicate LeaderLog(h: History, t: nat)
    requires Keys(h) && t in h.logs
  {
    var l, e := h.logs[t], h.elected[t];
    && Numbered(l, 1) && Covered(h, l) && Same(e, l, |e|)
    && (forall k {:trigger l[k]} | 0 <= k < |e| :: l[k].term < t)
    && (forall k {:trigger l[k]} | |e| <= k < |l| :: l[k].term == t)
    && (t == 1 ==> e == [])
  }

  ghost predicate Election(cfg: Config, h: History, t: nat)
    requires Keys(h) && t in h.winner
  {
    && h.voters[t] <= Members(cfg.ids) && |h.voters[t]| >= Quorum(|cfg.ids|)
    && forall v | v in h.voters[t] :: VotedIn(h, t, v)
  }

  ghost predicate VotedIn(h: History, t: nat, v: nat)
    requires Keys(h) && t in h.winner
  {
    && (v, t) in h.ballots
    && h.ballots[(v, t)].cand == h.winner[t]
    && UpToDate(h.elected[t], h.ballots[(v, t)].log)
    && KeptAll(h, v, h.ballots[(v, t)].log, t, t - 1)
  }

  ghost predicate BallotOk(h: History, v: nat, t: nat)
    requires (v, t) in h.ballots
  {
    var b := h.ballots[(v, t)];
    && b.cand != 0 && Covered(h, b.log)
    && (b.cand, t) in h.camps && UpToDate(h.camps[(b.cand, t)], b.log)
    && KeptAll(h, v, b.log, t, t)
  }

  ghost predicate LogsOk(h: History) {
    Keys(h) && forall t | t in h.logs :: LeaderLog(h, t)
  }

  ghost predicate ElectionsOk(cfg: Config, h: History) {
    Keys(h) && forall t | t in h.winner :: Election(cfg, h, t)
  }

  ghost predicate BallotsOk(h: History) {
    && (forall v, t | (v, t) in h.ballots :: BallotOk(h, v, t))
    && (forall v, t | (v, t) in h.camps :: t > 1)
  }

  ghost predicate HistoryOk(cfg: Config, h: History) {
    cfg.Valid() && LogsOk(h) && ElectionsOk(cfg, h) && BallotsOk(h) && AcceptedOk(h)
  }

  ghost predicate AcceptedOk(h: History) {
    forall v, t {:trigger Acc(h, v, t)} | Acc(h, v, t) > 0 :: t in h.logs && Acc(h, v, t) <= |h.logs[t]|
  }

  /** Nothing is recorded for a node in terms it has not reached. */
  ghost predicate Fresh(h: History, id: nat, term: nat) {
    && (forall t | t > term :: (id, t) !in h.camps)
    && (forall t | t > term :: (id, t) !in h.ballots)
    && (forall t {:trigger Acc(h, id, t)} | t > term :: Acc(h, id, t) == 0)
    && (forall t | t > term && t in h.winner :: h.winner[t] != id)
  }

  ghost predicate LogOk(cfg: Config, h: History, n: Node) {
    && n.rl.log.base == 0 && n.rl.log.baseTerm == 0
    && Numbered(Ents(n), 1) && Covered(h, Ents(n)) && TermsUpTo(Ents(n), n.term)
    && KeptAll(h, n.id, Ents(n), n.term + 1, n.term)
    && Committed(cfg, h, Ents(n), n.rl.committed, n.term)
  }

  ghost predicate VoteOk(h: History, n: Node) {
    && (n.vote != 0 <==> (n.id, n.term) in h.ballots)
    && (n.vote != 0 ==> h.ballots[(n.id, n.term)].cand == n.vote)
  }

  ghost predicate CandidateOk(h: History, n: Node) {
    n.role == StateCandidate ==>
      && (n.id, n.term) in h.camps && h.camps[(n.id, n.term)] == Ents(n)
      && (n.term in h.winner ==> h.winner[n.term] != n.id)
      && forall v | v in n.votes && n.votes[v] :: (v, n.term) in h.ballots && h.ballots[(v, n.term)].cand == n.id
  }

  ghost predicate LeaderOk(h: History, n: Node) {
    n.role == StateLeader ==>
      && n.term in h.winner && n.term in h.logs && h.winner[n.term] == n.id && h.logs[n.term] == Ents(n)
      && Acc(h, n.id, n.term) == |Ents(n)|
      && forall id | id in n.prs :: n.prs[id].matched <= Acc(h, id, n.term) && n.prs[id].next <= |Ents(n)| + 1
  }

  ghost predicate NodeOk(cfg: Config, h: History, n: Node) {
    && WellFormed(cfg, n) && n.votes.Keys <= Members(cfg.ids)
    && LogOk(cfg, h, n) && VoteOk(h, n) && CandidateOk(h, n) && LeaderOk(h, n) && Fresh(h, n.id, n.term)
  }

  ghost predicate AppOk(cfg: Config, h: History, m: Message) {
    && m.term in h.winner && m.term in h.logs && m.from == h.winner[m.term]
    && var l := h.logs[m.term];
    && m.index + |m.entries| <= |l|
    && (forall k {:trigger m.entries[k]} | 0 <= k < |m.entries| :: m.entries[k] == l[m.index + k])
    && m.logTerm == (if m.index == 0 then 0 else l[m.index - 1].term)
    && Committed(cfg, h, l, m.commit, m.term)
  }

  ghost predicate MessageOk(cfg: Config, h: History, m: Message) {
    && m.to in cfg.ids && m.from in cfg.ids && m.term > 0
    && match m.mtype
       case MsgApp => AppOk(cfg, h, m)
       case MsgAppResp => m.reject || m.index <= Acc(h, m.from, m.term)
       case MsgVote => (m.from, m.term) in h.camps && m.index == |h.camps[(m.from, m.term)]|
                       && m.logTerm == LastTermOf(h.camps[(m.from, m.term)])
       case MsgVoteResp => m.reject || ((m.from, m.term) in h.ballots && h.ballots[(m.from, m.term)].cand == m.to)
       case MsgHup => false
       case MsgProp => false
  }

  ghost predicate NodesOk(cfg: Config, h: History, nodes: map<nat, Node>) {
    nodes.Keys == Members(cfg.ids) && forall id | id in nodes :: nodes[id].id == id && NodeOk(cfg, h, nodes[id])
  }

  ghost predicate NetOk(cfg: Config, h: History, net: set<Message>) {
    forall m | m in net :: MessageOk(cfg, h, m)
  }

  ghost predicate Invariant(cfg: Config, h: History, c: Cluster) {
    HistoryOk(cfg, h) && NodesOk(cfg, h, c.nodes) && NetOk(cfg, h, c.net)
  }

  // ---------- growth ----------

  ghost predicate LogGrows(h: History, g: History, t: nat)
    requires Keys(h) && Keys(g) && t in h.logs
  {
    t in g.logs && Same(h.logs[t], g.logs[t], |h.logs[t]|) && g.elected[t] == h.elected[t]
  }

  /** `g` records what `h` does and more. */
  ghost predicate Later(h: History, g: History) {
    && Keys(h) && Keys(g)
    && (forall t {:trigger t in h.logs} | t in h.logs :: LogGrows(h, g, t))
    && (forall t | t in h.winner :: t in g.winner && g.winner[t] == h.winner[t])
    && (forall k | k in h.ballots :: k in g.ballots && g.ballots[k] == h.ballots[k])
    && (forall v, t {:trigger Acc(h, v, t)} {:trigger Acc(g, v, t)} :: Acc(g, v, t) >= Acc(h, v, t))
  }

  /** `b` has what `a` has, and besides only records of node `id`. */
  ghost predicate Adds<V>(a: map<(nat, nat), V>, b: map<(nat, nat), V>, id: nat) {
    && (forall k | k in a :: k in b && b[k] == a[k])
    && (forall k | k in b && k !in a :: k.0 == id)
  }

  /** The additions are node `id`'s doing. */
  ghost predicate Extends(h: History, g: History, id: nat) {
    && Later(h, g)
    && OthersLogs(h, g, id)
    && Adds(h.camps, g.camps, id) && Adds(h.ballots, g.ballots, id)
    && (forall v, t {:trigger Acc(h, v, t)} {:trigger Acc(g, v, t)} | v != id :: Acc(g, v, t) == Acc(h, v, t))
  }

  /** Only the logs of terms that `id` leads may grow, and only `id` may have won since. */
  ghost predicate OthersLogs(h: History, g: History, id: nat)
    requires Later(h, g)
  {
    && (forall t | t in h.logs :: (t in h.winner && h.winner[t] == id) || g.logs[t] == h.logs[t])
    && (forall t | t in g.winner && t !in h.winner :: g.winner[t] == id)
  }

  lemma ExtendsReflexive(h: History, id: nat)
    requires Keys(h)
    ensures Extends(h, h, id)
  {
  }

  lemma ExtendsTransitive(a: History, b: History, c: History, id: nat)
    requires Extends(a, b, id) && Extends(b, c, id)
    ensures Extends(a, c, id)
  {
    LaterTransitive(a, b, c);
    OthersLogsTransitive(a, b, c, id);
    AddsTransitive(a.camps, b.camps, c.camps, id);
    AddsTransitive(a.ballots, b.ballots, c.ballots, id);
  }

  lemma OthersLogsTransitive(a: History, b: History, c: History, id: nat)
    requires Later(a, b) && Later(b, c) && Later(a, c) && OthersLogs(a, b, id) && OthersLogs(b, c, id)
    ensures OthersLogs(a, c, id)
  {
    forall t | t in a.logs ensures (t in a.winner && a.winner[t] == id) || c.logs[t] == a.logs[t] {
      OtherLogSame(a, b, c, id, t);
    }
    forall t | t in c.winner && t !in a.winner ensures c.winner[t] == id {
    }
  }

  lemma OtherLogSame(a: History, b: History, c: History, id: nat, t: nat)
    requires Keys(a) && Keys(b) && Keys(c) && t in a.logs && t in b.logs && t in c.logs
    requires (t in a.winner && a.winner[t] == id) || b.logs[t] == a.logs[t]
    requires (t in b.winner && b.winner[t] == id) || c.logs[t] == b.logs[t]
    requires t in a.winner ==> t in b.winner && b.winner[t] == a.winner[t]
    ensures (t in a.winner && a.winner[t] == id) || c.logs[t] == a.logs[t]
  {
  }

  lemma AddsTransitive<V>(a: map<(nat, nat), V>, b: map<(nat, nat), V>, c: map<(nat, nat), V>, id: nat)
    requires Adds(a, b, id) && Adds(b, c, id)
    ensures Adds(a, c, id)
  {
  }

  lemma LaterTransitive(a: History, b: History, c: History)
    requires Later(a, b) && Later(b, c)
    ensures Later(a, c)
  {
    forall t | t in a.logs ensures LogGrows(a, c, t) {
      assert LogGrows(a, b, t) && LogGrows(b, c, t);
    }
  }

  lemma CoveredGrows(h: History, g: History, s: seq<LogEntry>)
    requires Later(h, g) && Covered(h, s)
    ensures Covered(g, s)
  {
    forall k | 0 <= k < |s| ensures FromLeader(g, s, k) {
      assert FromLeader(h, s, k) && LogGrows(h, g, s[k].term);
    }
  }

  lemma SameGrows(h: History, g: History, s: seq<LogEntry>, t: nat, i: nat)
    requires Later(h, g) && t in h.logs && i <= |h.logs[t]|
    ensures t in g.logs && (Same(s, g.logs[t], i) <==> Same(s, h.logs[t], i))
  {
    assert LogGrows(h, g, t);
  }

  lemma KeptGrows(h: History, g: History, s: seq<LogEntry>, t: nat, i: nat, bound: nat)
    requires Later(h, g) && t in h.logs && i <= |h.logs[t]| && Kept(h, s, t, i, bound)
    ensures Kept(g, s, t, i, bound)
  {
    SameGrows(h, g, s, t, i);
    if Lost(h, t, i, bound) {
      var u :| t < u <= bound && Missing(h, u, t, i);
      assert LogGrows(h, g, u);
      SameGrows(h, g, h.elected[u], t, i);
      assert Missing(g, u, t, i);
    }
  }

  /** What was accepted before stays kept, when the node accepted nothing more in those
      terms meanwhile. */
  lemma KeptAllGrows(h: History, g: History, v: nat, s: seq<LogEntry>, before: nat, bound: nat)
    requires AcceptedOk(h) && Later(h, g) && KeptAll(h, v, s, before, bound)
    requires forall t: nat {:trigger Acc(g, v, t)} | t < before :: Acc(g, v, t) == Acc(h, v, t)
    ensures KeptAll(g, v, s, before, bound)
  {
    forall t: nat, i: nat | t < before && 0 < i <= Acc(g, v, t) ensures Kept(g, s, t, i, bound) {
      assert Acc(h, v, t) == Acc(g, v, t);
      assert Kept(h, s, t, i, bound);
      KeptGrows(h, g, s, t, i, bound);
    }
  }

  lemma CommittedAtGrows(cfg: Config, h: History, g: History, t: nat, i: nat)
    requires Later(h, g) && CommittedAt(cfg, h, t, i)
    ensures CommittedAt(cfg, g, t, i)
  {
    assert LogGrows(h, g, t);
    assert Acceptors(cfg, h, t, i) <= Acceptors(cfg, g, t, i);
    SubsetSize(Acceptors(cfg, h, t, i), Acceptors(cfg, g, t, i));
  }

  lemma CommittedGrows(cfg: Config, h: History, g: History, s: seq<LogEntry>, c: nat, bound: nat)
    requires Later(h, g) && Committed(cfg, h, s, c, bound)
    ensures Committed(cfg, g, s, c, bound)
  {
    var t, i :| CommitPoint(cfg, h, s, c, bound, t, i);
    CommittedAtGrows(cfg, h, g, t, i);
    SameGrows(h, g, s, t, c);
    assert CommitPoint(cfg, g, s, c, bound, t, i);
  }

  /** The other nodes are as well off with the longer history. */
  lemma NodeGrows(cfg: Config, h: History, g: History, id: nat, n: Node)
    requires AcceptedOk(h) && Extends(h, g, id) && NodeOk(cfg, h, n) && n.id != id
    ensures NodeOk(cfg, g, n)
  {
    CoveredGrows(h, g, Ents(n));
    KeptAllGrows(h, g, n.id, Ents(n), n.term + 1, n.term);
    CommittedGrows(cfg, h, g, Ents(n), n.rl.committed, n.term);
    LeaderGrows(h, g, id, n);
    FreshGrows(h, g, id, n.id, n.term);
  }

  lemma LeaderGrows(h: History, g: History, id: nat, n: Node)
    requires Extends(h, g, id) && LeaderOk(h, n) && n.id != id
    ensures LeaderOk(g, n)
  {
    if n.role == StateLeader {
      assert LogGrows(h, g, n.term);
      assert Acc(g, n.id, n.term) == Acc(h, n.id, n.term);
      forall p | p in n.prs ensures n.prs[p].matched <= Acc(g, p, n.term) {
        assert n.prs[p].matched <= Acc(h, p, n.term);
      }
    }
  }

  lemma FreshGrows(h: History, g: History, id: nat, v: nat, term: nat)
    requires Extends(h, g, id) && Fresh(h, v, term) && v != id
    ensures Fresh(g, v, term)
  {
  }

  lemma AppGrows(cfg: Config, h: History, g: History, m: Message)
    requires Later(h, g) && AppOk(cfg, h, m)
    ensures AppOk(cfg, g, m)
  {
    assert LogGrows(h, g, m.term);
    var l := h.logs[m.term];
    CommittedGrows(cfg, h, g, l, m.commit, m.term);
    CommittedSame(cfg, h, l, m.commit, m.term);
    CommittedInLonger(cfg, g, l, g.logs[m.term], m.commit, m.term);
  }

  lemma MessageGrows(cfg: Config, h: History, g: History, id: nat, m: Message)
    requires Extends(h, g, id) && MessageOk(cfg, h, m)
    ensures MessageOk(cfg, g, m)
  {
    match m.mtype
    case MsgApp => AppGrows(cfg, h, g, m);
    case MsgAppResp => assert Acc(g, m.from, m.term) >= Acc(h, m.from, m.term);
    case MsgVote =>
    case MsgVoteResp =>
    case MsgHup =>
    case MsgProp =>
  }

  lemma CommittedSame(cfg: Config, h: History, s: seq<LogEntry>, c: nat, bound: nat)
    requires Committed(cfg, h, s, c, bound)
    ensures c <= |s|
  {
  }

  lemma CommittedInLonger(cfg: Config, h: History, s: seq<LogEntry>, l: seq<LogEntry>, c: nat, bound: nat)
    requires Committed(cfg, h, s, c, bound) && Same(s, l, c)
    ensures Committed(cfg, h, l, c, bound)
  {
    var t, i :| CommitPoint(cfg, h, s, c, bound, t, i);
    assert CommitPoint(cfg, h, l, c, bound, t, i);
  }
}
