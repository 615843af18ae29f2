/** The safety of every run.  Each theorem is about the states of a run alone; the history
    that accompanies the run is found by induction along it. */
module Safety {
  import opened LogModel
  import opened Quorums
  import opened RaftNode
  import opened Cluster
  import opened History
  import opened LeaderCompleteness
  import opened Preservation

  // ---------- the start ----------

  function StartHistory(cfg: Config, peers: seq<Peer>): History {
    var boot := BootEntries(peers);
    History(map[1 := boot], map[1 := []], map[], map[], map[], map[],
            map id | id in cfg.ids :: (id, 1) := |boot|)
  }

  lemma StartAcc(cfg: Config, peers: seq<Peer>)
    ensures forall id: nat, t: nat {:trigger Acc(StartHistory(cfg, peers), id, t)} ::
              Acc(StartHistory(cfg, peers), id, t) == if id in cfg.ids && t == 1 then |peers| else 0
  {
  }

  /** The bootstrap entries are held, and so committed, by everyone. */
  lemma StartCommitted(cfg: Config, peers: seq<Peer>)
    requires cfg.Valid() && PeersOf(cfg, peers)
    ensures Committed(cfg, StartHistory(cfg, peers), BootEntries(peers), |peers|, 1)
  {
    var h := StartHistory(cfg, peers);
    StartAcc(cfg, peers);
    assert Acceptors(cfg, h, 1, |peers|) == Members(cfg.ids);
    MembersSize(cfg.ids);
    assert CommitPoint(cfg, h, BootEntries(peers), |peers|, 1, 1, |peers|);
  }

  lemma StartHistoryOk(cfg: Config, peers: seq<Peer>)
    requires cfg.Valid() && PeersOf(cfg, peers)
    ensures HistoryOk(cfg, StartHistory(cfg, peers)) && Covered(StartHistory(cfg, peers), BootEntries(peers))
  {
    var h, boot := StartHistory(cfg, peers), BootEntries(peers);
    StartAcc(cfg, peers);
    forall k | 0 <= k < |boot| ensures FromLeader(h, boot, k) {
      assert boot[k].term == 1;
    }
    assert LeaderLog(h, 1);
  }

  lemma StartLogOk(cfg: Config, peers: seq<Peer>, n: Node)
    requires cfg.Valid() && PeersOf(cfg, peers) && n.id in cfg.ids && n.term == 1
    requires n.rl == LogState(Log(0, 0, BootEntries(peers)), |peers|, 0)
    ensures LogOk(cfg, StartHistory(cfg, peers), n)
  {
    var h := StartHistory(cfg, peers);
    StartHistoryOk(cfg, peers);
    StartCommitted(cfg, peers);
    StartAcc(cfg, peers);
    forall t: nat, i: nat | t < 2 && 0 < i <= Acc(h, n.id, t) ensures Kept(h, Ents(n), t, i, 1) {
      assert Same(Ents(n), h.logs[t], i);
    }
  }

  lemma StartNodeOk(cfg: Config, peers: seq<Peer>, id: nat, rnd: nat)
    requires cfg.Valid() && PeersOf(cfg, peers) && id in cfg.ids && RandomFor(cfg, rnd)
    ensures NodeOk(cfg, StartHistory(cfg, peers), Started(cfg, id, peers, rnd))
  {
    StartLogOk(cfg, peers, Started(cfg, id, peers, rnd));
    StartAcc(cfg, peers);
  }

  lemma StartInvariant(cfg: Config, peers: seq<Peer>, c: Cluster)
    requires Init(cfg, peers, c)
    ensures Invariant(cfg, StartHistory(cfg, peers), c)
  {
    StartHistoryOk(cfg, peers);
    forall id | id in c.nodes ensures c.nodes[id].id == id && NodeOk(cfg, StartHistory(cfg, peers), c.nodes[id]) {
      var rnd :| RandomFor(cfg, rnd) && c.nodes[id] == Started(cfg, id, peers, rnd);
      StartNodeOk(cfg, peers, id, rnd);
    }
  }

  // ---------- along a run ----------

  lemma SelfLater(cfg: Config, h: History, c: Cluster)
    requires Invariant(cfg, h, c)
    ensures HistoryOk(cfg, h) && Later(h, h)
  {
    ExtendsReflexive(h, 0);
  }

  lemma StepForward(cfg: Config, c: Cluster, a: Action, d: Cluster, h: History, b: History) returns (g: History)
    requires IsStep(cfg, c, a, d) && Invariant(cfg, b, c) && Later(h, b)
    ensures Invariant(cfg, g, d) && Later(h, g)
  {
    var id;
    g, id := ActionKeeps(cfg, b, c, a);
    LaterTransitive(h, b, g);
  }

  /** Whatever fits at point `i` and is later than something has a successor of the kind. */
  ghost predicate Forward(inv: (History, nat) -> bool, i: nat) {
    forall h, b {:trigger inv(b, i), Later(h, b)} | inv(b, i) && Later(h, b) :: exists g :: inv(g, i + 1) && Later(h, g)
  }

  lemma {:induction false} Follow(inv: (History, nat) -> bool, j: nat, h: History, k: nat) returns (g: History)
    requires inv(h, j) && Later(h, h) && j <= k && forall i: nat | j <= i < k :: Forward(inv, i)
    ensures inv(g, k) && Later(h, g)
    decreases k - j
  {
    g := h;
    if j < k {
      var b := Follow(inv, j, h, k - 1);
      assert Forward(inv, k - 1);
      g :| inv(g, k - 1 + 1) && Later(h, g);
    }
  }

  lemma RunForward(cfg: Config, r: Run, inv: (History, nat) -> bool, i: nat)
    requires |r.states| == |r.actions| + 1 && i < |r.actions|
    requires IsStep(cfg, r.states[i], r.actions[i], r.states[i + 1])
    requires forall h, k: nat {:trigger inv(h, k)} | k < |r.states| :: inv(h, k) == Invariant(cfg, h, r.states[k])
    ensures Forward(inv, i)
  {
    forall h, b | inv(b, i) && Later(h, b) ensures exists g :: inv(g, i + 1) && Later(h, g) {
      var g := StepForward(cfg, r.states[i], r.actions[i], r.states[i + 1], h, b);
      assert inv(g, i + 1);
    }
  }

  /** From any point of a run on the history only grows, and fits. */
  lemma Onward(cfg: Config, peers: seq<Peer>, r: Run, j: nat, h: History, k: nat) returns (g: History)
    requires IsRun(cfg, peers, r) && j <= k < |r.states| && Invariant(cfg, h, r.states[j])
    ensures Invariant(cfg, g, r.states[k]) && Later(h, g)
  {
    var inv := (h, i: nat) => i < |r.states| && Invariant(cfg, h, r.states[i]);
    forall i: nat | j <= i < k ensures Forward(inv, i) {
      assert IsStep(cfg, r.states[i], r.actions[i], r.states[i + 1]);
      RunForward(cfg, r, inv, i);
    }
    SelfLater(cfg, h, r.states[j]);
    g := Follow(inv, j, h, k);
  }

  /** A history for each of two points of a run, the later one recording more. */
  lemma Ordered(cfg: Config, peers: seq<Peer>, r: Run, j: nat, k: nat) returns (hj: History, hk: History)
    requires IsRun(cfg, peers, r) && j <= k < |r.states|
    ensures Invariant(cfg, hj, r.states[j]) && Invariant(cfg, hk, r.states[k]) && Later(hj, hk)
  {
    StartInvariant(cfg, peers, r.states[0]);
    hj := Onward(cfg, peers, r, 0, StartHistory(cfg, peers), j);
    hk := Onward(cfg, peers, r, j, hj, k);
  }

  /** For facts about two points, a history that records more than either's. */
  lemma Latest(cfg: Config, peers: seq<Peer>, r: Run, j: nat, k: nat) returns (hj: History, hk: History, top: History)
    requires IsRun(cfg, peers, r) && j < |r.states| && k < |r.states|
    ensures Invariant(cfg, hj, r.states[j]) && Invariant(cfg, hk, r.states[k]) && HistoryOk(cfg, top)
    ensures Later(hj, top) && Later(hk, top)
  {
    if j <= k {
      hj, hk := Ordered(cfg, peers, r, j, k);
      top := hk;
      SelfLater(cfg, hk, r.states[k]);
    } else {
      hk, hj := Ordered(cfg, peers, r, k, j);
      top := hj;
      SelfLater(cfg, hj, r.states[j]);
    }
  }

  // ---------- the theorems ----------

  ghost predicate NodeAt(r: Run, k: nat, id: nat) {
    k < |r.states| && id in r.states[k].nodes
  }

  /** In every run, an action that is enabled meets none of the panics of the source. */
  lemma NoPanic(cfg: Config, peers: seq<Peer>, r: Run, k: nat, a: Action)
    requires IsRun(cfg, peers, r) && k < |r.states| && Enabled(cfg, r.states[k], a)
    ensures Safe(cfg, r.states[k], a)
  {
    var h, h' := Ordered(cfg, peers, r, k, k);
    var g, id := ActionKeeps(cfg, h, r.states[k], a);
  }

  /** Election safety: over a whole run, a term has at most one leader. */
  lemma ElectionSafety(cfg: Config, peers: seq<Peer>, r: Run, j: nat, a: nat, k: nat, b: nat)
    requires IsRun(cfg, peers, r) && NodeAt(r, j, a) && NodeAt(r, k, b)
    requires r.states[j].nodes[a].role == StateLeader && r.states[k].nodes[b].role == StateLeader
    requires r.states[j].nodes[a].term == r.states[k].nodes[b].term
    ensures a == b
  {
    var hj, hk, top := Latest(cfg, peers, r, j, k);
    LeaderWon(cfg, hj, r.states[j], a);
    LeaderWon(cfg, hk, r.states[k], b);
  }

  lemma LeaderWon(cfg: Config, h: History, c: Cluster, id: nat)
    requires Invariant(cfg, h, c) && id in c.nodes && c.nodes[id].role == StateLeader
    ensures var n := c.nodes[id];
      && n.id == id && n.term in h.winner && h.winner[n.term] == id
      && n.term in h.logs && h.logs[n.term] == Ents(n)
  {
    assert NodeOk(cfg, h, c.nodes[id]);
  }

  /** Log matching: logs with the same term at an index, wherever and whenever they are in
      the run, are equal up to there. */
  lemma LogMatching(cfg: Config, peers: seq<Peer>, r: Run, j: nat, a: nat, k: nat, b: nat, i: nat)
    requires IsRun(cfg, peers, r) && NodeAt(r, j, a) && NodeAt(r, k, b)
    requires 0 < i <= |Ents(r.states[j].nodes[a])| && i <= |Ents(r.states[k].nodes[b])|
    requires Ents(r.states[j].nodes[a])[i - 1].term == Ents(r.states[k].nodes[b])[i - 1].term
    ensures Ents(r.states[j].nodes[a])[..i] == Ents(r.states[k].nodes[b])[..i]
  {
    var hj, hk, top := Latest(cfg, peers, r, j, k);
    NodeCovered(cfg, hj, top, r.states[j], a);
    NodeCovered(cfg, hk, top, r.states[k], b);
    Matching(top, Ents(r.states[j].nodes[a]), Ents(r.states[k].nodes[b]), i);
    SamePrefix(Ents(r.states[j].nodes[a]), Ents(r.states[k].nodes[b]), i);
  }

  lemma NodeCovered(cfg: Config, h: History, top: History, c: Cluster, id: nat)
    requires Invariant(cfg, h, c) && id in c.nodes && Later(h, top)
    ensures Covered(top, Ents(c.nodes[id]))
  {
    assert NodeOk(cfg, h, c.nodes[id]);
    CoveredGrows(h, top, Ents(c.nodes[id]));
  }

  lemma SamePrefix(a: seq<LogEntry>, b: seq<LogEntry>, i: nat)
    requires Same(a, b, i)
    ensures a[..i] == b[..i]
  {
  }

  /** What a node holds as committed, seen from a later history. */
  lemma NodeCommitted(cfg: Config, h: History, top: History, c: Cluster, id: nat)
    requires Invariant(cfg, h, c) && id in c.nodes && Later(h, top)
    ensures var n := c.nodes[id];
      n.rl.committed <= |Ents(n)| && Committed(cfg, top, Ents(n), n.rl.committed, n.term)
  {
    assert NodeOk(cfg, h, c.nodes[id]);
    CommittedGrows(cfg, h, top, Ents(c.nodes[id]), c.nodes[id].rl.committed, c.nodes[id].term);
    CommittedSame(cfg, top, Ents(c.nodes[id]), c.nodes[id].rl.committed, c.nodes[id].term);
  }

  /** Leader completeness: whatever any node held as committed in a term is in the log of
      every leader of a later term, at any two points of the run; and of the leader of the
      same term from then on. */
  lemma LeaderHasCommitted(cfg: Config, peers: seq<Peer>, r: Run, j: nat, a: nat, k: nat, b: nat)
    requires IsRun(cfg, peers, r) && NodeAt(r, j, a) && NodeAt(r, k, b)
    requires r.states[k].nodes[b].role == StateLeader
    requires var s, t := r.states[j].nodes[a].term, r.states[k].nodes[b].term;
             s < t || (s == t && j <= k)
    ensures var n, l := r.states[j].nodes[a], r.states[k].nodes[b];
      && n.rl.committed <= |Ents(n)| && n.rl.committed <= |Ents(l)|
      && Ents(n)[..n.rl.committed] == Ents(l)[..n.rl.committed]
  {
    var n, l := r.states[j].nodes[a], r.states[k].nodes[b];
    if n.term < l.term {
      var hj, hk, top := Latest(cfg, peers, r, j, k);
      NodeCommitted(cfg, hj, top, r.states[j], a);
      LeaderWon(cfg, hk, r.states[k], b);
      assert LogGrows(hk, top, l.term);
      ElectedHas(cfg, top, Ents(n), n.rl.committed, n.term, l.term);
      ElectedIsPrefix(cfg, hk, l.term);
    } else {
      var hj, hk := Ordered(cfg, peers, r, j, k);
      NodeCommitted(cfg, hj, hk, r.states[j], a);
      LeaderWon(cfg, hk, r.states[k], b);
      LeaderHas(cfg, hk, Ents(n), n.rl.committed, n.term, l.term);
    }
    SamePrefix(Ents(n), Ents(l), n.rl.committed);
  }

  lemma ElectedIsPrefix(cfg: Config, h: History, t: nat)
    requires HistoryOk(cfg, h) && t in h.logs
    ensures Same(h.elected[t], h.logs[t], |h.elected[t]|)
  {
    assert LeaderLog(h, t);
  }

  /** State machine safety: what any two nodes hold as committed, at any two points of the
      run, is equal as far as both reach. */
  lemma CommittedNeverDiffers(cfg: Config, peers: seq<Peer>, r: Run, j: nat, a: nat, k: nat, b: nat)
    requires IsRun(cfg, peers, r) && NodeAt(r, j, a) && NodeAt(r, k, b)
    ensures var n, l := r.states[j].nodes[a], r.states[k].nodes[b];
            var c := Min(n.rl.committed, l.rl.committed);
      c <= |Ents(n)| && c <= |Ents(l)| && Ents(n)[..c] == Ents(l)[..c]
  {
    var n, l := r.states[j].nodes[a], r.states[k].nodes[b];
    var hj, hk, top := Latest(cfg, peers, r, j, k);
    NodeCommitted(cfg, hj, top, r.states[j], a);
    NodeCommitted(cfg, hk, top, r.states[k], b);
    CommittedAgree(cfg, top, Ents(n), n.rl.committed, n.term, Ents(l), l.rl.committed, l.term);
    SamePrefix(Ents(n), Ents(l), Min(n.rl.committed, l.rl.committed));
  }

  /** Match soundness: when a leader's progress says a member has matched up to `m`, that
      member's log agrees with the leader's up to `m`, then and for as long as the member
      stays in the term; and it has reached the term. */
  lemma MatchIsHeld(cfg: Config, peers: seq<Peer>, r: Run, j: nat, a: nat, k: nat, b: nat)
    requires IsRun(cfg, peers, r) && NodeAt(r, j, a) && NodeAt(r, k, b) && j <= k
    requires r.states[j].nodes[a].role == StateLeader && b in r.states[j].nodes[a].prs
    ensures var l, n := r.states[j].nodes[a], r.states[k].nodes[b];
            var m := l.prs[b].matched;
      && m <= |Ents(l)|
      && (m > 0 ==> n.term >= l.term)
      && (n.term == l.term ==> m <= |Ents(n)| && Ents(n)[..m] == Ents(l)[..m])
  {
    var h, g := Ordered(cfg, peers, r, j, k);
    var l, n := r.states[j].nodes[a], r.states[k].nodes[b];
    MatchAccepted(cfg, h, r.states[j], a, b);
    AcceptsMore(h, g, b, l.term);
    assert n.id == b && NodeOk(cfg, g, n);
    HeldWhileInTerm(cfg, h, g, n, l.term, l.prs[b].matched);
  }

  lemma HeldWhileInTerm(cfg: Config, h: History, g: History, n: Node, t: nat, m: nat)
    requires NodeOk(cfg, g, n) && Later(h, g) && m <= Acc(g, n.id, t)
    requires t in h.logs && t in g.logs && m <= |h.logs[t]|
    ensures m > 0 ==> n.term >= t
    ensures n.term == t ==> m <= |Ents(n)| && Ents(n)[..m] == h.logs[t][..m]
  {
    if m > 0 {
      AcceptedIsHeld(cfg, g, n, t, m);
      SameAsEarlier(h, g, n, t, m);
    }
  }

  lemma AcceptsMore(h: History, g: History, b: nat, t: nat)
    requires Later(h, g) && t in h.logs
    ensures Acc(g, b, t) >= Acc(h, b, t) && t in g.logs
  {
    assert LogGrows(h, g, t);
  }

  lemma SameAsEarlier(h: History, g: History, n: Node, t: nat, m: nat)
    requires Later(h, g) && t in h.logs && t in g.logs && m <= |h.logs[t]|
    requires n.term == t ==> Same(Ents(n), g.logs[t], m)
    ensures n.term == t ==> m <= |Ents(n)| && Ents(n)[..m] == h.logs[t][..m]
  {
    assert LogGrows(h, g, t);
  }

  lemma MatchAccepted(cfg: Config, h: History, c: Cluster, a: nat, b: nat)
    requires Invariant(cfg, h, c) && a in c.nodes && c.nodes[a].role == StateLeader && b in c.nodes[a].prs
    ensures var l := c.nodes[a];
      && l.prs[b].matched <= Acc(h, b, l.term) && l.prs[b].matched <= |Ents(l)|
      && l.term in h.logs && h.logs[l.term] == Ents(l)
  {
    assert NodeOk(cfg, h, c.nodes[a]);
    assert c.nodes[a].prs[b].matched <= Acc(h, b, c.nodes[a].term);
  }

  lemma AcceptedIsHeld(cfg: Config, h: History, n: Node, t: nat, m: nat)
    requires NodeOk(cfg, h, n) && 0 < m <= Acc(h, n.id, t) && t in h.logs
    ensures n.term >= t
    ensures n.term == t ==> Same(Ents(n), h.logs[t], m)
  {
    assert Acc(h, n.id, t) > 0;
    if n.term == t {
      assert Kept(h, Ents(n), t, m, t);
    }
  }

  /** A leader only ever appends to its log within its term. */
  lemma LeaderAppendsOnly(cfg: Config, peers: seq<Peer>, r: Run, j: nat, k: nat, a: nat)
    requires IsRun(cfg, peers, r) && NodeAt(r, j, a) && NodeAt(r, k, a) && j <= k
    requires r.states[j].nodes[a].role == StateLeader && r.states[k].nodes[a].role == StateLeader
    requires r.states[j].nodes[a].term == r.states[k].nodes[a].term
    ensures Ents(r.states[j].nodes[a]) <= Ents(r.states[k].nodes[a])
  {
    var h, g := Ordered(cfg, peers, r, j, k);
    LeaderWon(cfg, h, r.states[j], a);
    LeaderWon(cfg, g, r.states[k], a);
    assert LogGrows(h, g, r.states[j].nodes[a].term);
  }

  /** One vote per term: over a whole run, the votes of a node in a term are for one candidate. */
  lemma OneVotePerTerm(cfg: Config, peers: seq<Peer>, r: Run, j: nat, k: nat, a: nat)
    requires IsRun(cfg, peers, r) && NodeAt(r, j, a) && NodeAt(r, k, a)
    requires r.states[j].nodes[a].term == r.states[k].nodes[a].term
    requires r.states[j].nodes[a].vote != 0 && r.states[k].nodes[a].vote != 0
    ensures r.states[j].nodes[a].vote == r.states[k].nodes[a].vote
  {
    var hj, hk, top := Latest(cfg, peers, r, j, k);
    assert NodeOk(cfg, hj, r.states[j].nodes[a]) && NodeOk(cfg, hk, r.states[k].nodes[a]);
  }

  /** The tally is honest: whoever it counts as a grant has voted for the candidate in its
      term, whatever was delivered again. */
  lemma GrantsAreVotes(cfg: Config, peers: seq<Peer>, r: Run, k: nat, a: nat, v: nat)
    requires IsRun(cfg, peers, r) && NodeAt(r, k, a)
    requires r.states[k].nodes[a].role == StateCandidate && v in r.states[k].nodes[a].Grants()
    ensures v in r.states[k].nodes
    ensures var n, w := r.states[k].nodes[a], r.states[k].nodes[v];
      w.term > n.term || (w.term == n.term && w.vote == a)
  {
    var h, g := Ordered(cfg, peers, r, k, k);
    GrantIsBallot(cfg, h, r.states[k], a, v);
    BallotIsVote(cfg, h, r.states[k], v, r.states[k].nodes[a].term);
  }

  lemma GrantIsBallot(cfg: Config, h: History, c: Cluster, a: nat, v: nat)
    requires Invariant(cfg, h, c) && a in c.nodes && c.nodes[a].role == StateCandidate && v in c.nodes[a].Grants()
    ensures v in c.nodes && (v, c.nodes[a].term) in h.ballots && h.ballots[(v, c.nodes[a].term)].cand == a
  {
    assert NodeOk(cfg, h, c.nodes[a]);
  }

  lemma BallotIsVote(cfg: Config, h: History, c: Cluster, v: nat, t: nat)
    requires Invariant(cfg, h, c) && v in c.nodes && (v, t) in h.ballots
    ensures var w := c.nodes[v]; w.term > t || (w.term == t && w.vote == h.ballots[(v, t)].cand)
  {
    assert NodeOk(cfg, h, c.nodes[v]);
  }

  // ---------- what never goes back ----------

  ghost predicate NotBehind(n: Node, m: Node) {
    n.term <= m.term && n.rl.committed <= m.rl.committed && n.rl.applied <= m.rl.applied
  }

  lemma NextNotBehind(cfg: Config, c: Cluster, a: Action, id: nat)
    requires Enabled(cfg, c, a) && Safe(cfg, c, a) && id in c.nodes
    ensures id in Next(cfg, c, a).nodes && NotBehind(c.nodes[id], Next(cfg, c, a).nodes[id])
  {
    match a
    case Tick(i, rnd) => TickIs(cfg, c.nodes[i], rnd);
    case Deliver(m, rnd) => StepNotBehind(cfg, c.nodes[m.to], m, rnd);
    case Propose(i, es) => StepNotBehind(cfg, c.nodes[i], Prop(i, es), 0);
    case Resend(i, to) =>
    case Pace(i, to, pr) =>
    case Apply(i, k) =>
  }

  lemma StepNotBehind(cfg: Config, n: Node, m: Message, rnd: nat)
    requires StepPre(cfg, n, m, rnd)
    ensures NotBehind(n, Step(cfg, n, m, rnd).node)
  {
    if !Stale(n, m) {
      CurrentNotBehind(cfg, Adopt(cfg, n, m, rnd), m, rnd);
    }
  }

  lemma CurrentNotBehind(cfg: Config, n: Node, m: Message, rnd: nat)
    requires WellFormed(cfg, n) && CurrentPre(n, m)
    ensures NotBehind(n, StepCurrent(cfg, n, m, rnd).node)
  {
    if m.mtype != MsgHup && m.mtype != MsgVote {
      match n.role
      case StateFollower => FollowerNotBehind(cfg, n, m);
      case StateCandidate => CandidateNotBehind(cfg, n, m, rnd);
      case StateLeader => LeaderNotBehind(cfg, n, m);
    }
  }

  lemma FollowerNotBehind(cfg: Config, n: Node, m: Message)
    requires WellFormed(cfg, n) && FollowerPre(n, m)
    ensures NotBehind(n, StepFollower(cfg, n, m).node)
  {
  }

  lemma CandidateNotBehind(cfg: Config, n: Node, m: Message, rnd: nat)
    requires WellFormed(cfg, n) && n.role == StateCandidate
    ensures NotBehind(n, StepCandidate(cfg, n, m, rnd).node)
  {
  }

  lemma LeaderNotBehind(cfg: Config, n: Node, m: Message)
    requires WellFormed(cfg, n) && LeaderPre(m)
    ensures NotBehind(n, StepLeader(cfg, n, m).node)
  {
  }

  lemma StepAt(cfg: Config, peers: seq<Peer>, r: Run, k: nat, a: nat)
    requires IsRun(cfg, peers, r) && k < |r.actions| && a in r.states[k].nodes
    ensures a in r.states[k + 1].nodes && NotBehind(r.states[k].nodes[a], r.states[k + 1].nodes[a])
  {
    assert IsStep(cfg, r.states[k], r.actions[k], r.states[k + 1]);
    NextNotBehind(cfg, r.states[k], r.actions[k], a);
  }

  ghost predicate Advances(c: Cluster, d: Cluster, a: nat) {
    a in c.nodes ==> a in d.nodes && NotBehind(c.nodes[a], d.nodes[a])
  }

  lemma LaterNotBehind(cfg: Config, peers: seq<Peer>, r: Run, j: nat, k: nat, a: nat)
    requires IsRun(cfg, peers, r) && NodeAt(r, j, a) && j <= k < |r.states|
    ensures NodeAt(r, k, a) && NotBehind(r.states[j].nodes[a], r.states[k].nodes[a])
  {
    forall i: nat | j <= i < k ensures Advances(r.states[i], r.states[i + 1], a) {
      if a in r.states[i].nodes {
        StepAt(cfg, peers, r, i, a);
      }
    }
    AdvancesOn(r.states, j, k, a);
  }

  lemma {:induction false} AdvancesOn(states: seq<Cluster>, j: nat, k: nat, a: nat)
    requires j <= k < |states| && a in states[j].nodes
    requires forall i: nat {:trigger states[i]} | j <= i < k :: Advances(states[i], states[i + 1], a)
    ensures a in states[k].nodes && NotBehind(states[j].nodes[a], states[k].nodes[a])
    decreases k - j
  {
    if j < k {
      AdvancesOn(states, j, k - 1, a);
      assert Advances(states[k - 1], states[k - 1 + 1], a);
    }
  }

  /** Over every run a node's term, commit index and applied index never decrease, and it
      never applies beyond its commit index nor commits beyond its log. */
  lemma NeverBack(cfg: Config, peers: seq<Peer>, r: Run, j: nat, k: nat, a: nat)
    requires IsRun(cfg, peers, r) && NodeAt(r, j, a) && j <= k < |r.states|
    ensures NodeAt(r, k, a)
    ensures NotBehind(r.states[j].nodes[a], r.states[k].nodes[a])
    ensures var n := r.states[k].nodes[a]; n.rl.applied <= n.rl.committed <= n.LastIndex()
  {
    LaterNotBehind(cfg, peers, r, j, k, a);
    RunWellFormed(cfg, peers, r, k, a);
  }

  lemma RunWellFormed(cfg: Config, peers: seq<Peer>, r: Run, k: nat, a: nat)
    requires IsRun(cfg, peers, r) && NodeAt(r, k, a)
    ensures WellFormed(cfg, r.states[k].nodes[a])
  {
    var h, g := Ordered(cfg, peers, r, k, k);
    assert NodeOk(cfg, h, r.states[k].nodes[a]);
  }

  lemma NothingCompacted(cfg: Config, peers: seq<Peer>, r: Run, k: nat, a: nat)
    requires IsRun(cfg, peers, r) && NodeAt(r, k, a)
    ensures r.states[k].nodes[a].rl.log.base == 0 && r.states[k].nodes[a].rl.log.baseTerm == 0
  {
    var h, g := Ordered(cfg, peers, r, k, k);
    assert NodeOk(cfg, h, r.states[k].nodes[a]);
  }
}
