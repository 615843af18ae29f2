/** The election handlers keep the invariant. */
module Elections {
  import opened LogModel
  import opened Quorums
  import opened RaftNode
  import opened Cluster
  import opened History

  /** The part of the invariant a handler of `n` works with. */
  ghost predicate Good(cfg: Config, h: History, n: Node) {
    HistoryOk(cfg, h) && NodeOk(cfg, h, n)
  }

  /** A handler's outcome is recorded in `g` and keeps the invariant. */
  ghost predicate Keeps(cfg: Config, h: History, g: History, id: nat, o: Outcome) {
    && Extends(h, g, id) && Good(cfg, g, o.node) && o.node.id == id
    && forall m | m in o.out :: MessageOk(cfg, g, m)
  }

  lemma KeptBound(h: History, s: seq<LogEntry>, t: nat, i: nat, a: nat, b: nat)
    requires Kept(h, s, t, i, a) && a <= b
    ensures Kept(h, s, t, i, b)
  {
    if Lost(h, t, i, a) {
      var u :| t < u <= a && Missing(h, u, t, i);
      assert t < u <= b && Missing(h, u, t, i);
    }
  }

  lemma CommittedBound(cfg: Config, h: History, s: seq<LogEntry>, c: nat, a: nat, b: nat)
    requires Committed(cfg, h, s, c, a) && a <= b
    ensures Committed(cfg, h, s, c, b)
  {
    var t: nat, i: nat :| CommitPoint(cfg, h, s, c, a, t, i);
    assert CommitPoint(cfg, h, s, c, b, t, i);
  }

  lemma LogOkLaterTerm(cfg: Config, h: History, n: Node, m: Node)
    requires LogOk(cfg, h, n) && Fresh(h, n.id, n.term)
    requires m.id == n.id && m.rl == n.rl && m.term >= n.term
    ensures LogOk(cfg, h, m)
  {
    CommittedBound(cfg, h, Ents(n), n.rl.committed, n.term, m.term);
    forall t: nat, i: nat | t < m.term + 1 && 0 < i <= Acc(h, m.id, t) ensures Kept(h, Ents(m), t, i, m.term) {
      assert t <= n.term;
      KeptBound(h, Ents(n), t, i, n.term, m.term);
    }
  }

  /** Becoming a follower in the same or a later term. */
  lemma FollowerKeeps(cfg: Config, h: History, n: Node, term: nat, lead: nat, rnd: nat)
    requires NodeOk(cfg, h, n) && term >= n.term && RandomFor(cfg, rnd)
    ensures NodeOk(cfg, h, BecomeFollower(cfg, n, term, lead, rnd))
  {
    LogOkLaterTerm(cfg, h, n, BecomeFollower(cfg, n, term, lead, rnd));
  }

  /** Timers, the known leader and the applied index are no part of the argument. */
  lemma TimersOk(cfg: Config, h: History, n: Node, o: Node)
    requires NodeOk(cfg, h, n) && o.rl.Valid()
    requires o == n.(elapsed := o.elapsed, lead := o.lead, rl := n.rl.(applied := o.rl.applied))
    ensures NodeOk(cfg, h, o)
  {
    assert LogOk(cfg, h, o);
  }

  // ---------- campaign ----------

  function Campaigned(h: History, id: nat, term: nat, log: seq<LogEntry>): History {
    h.(camps := h.camps[(id, term) := log], ballots := h.ballots[(id, term) := Ballot(id, log)])
  }

  /** Additions of camps and ballots leave every other part of the history as it is. */
  lemma SameLogsKept(h: History, g: History, s: seq<LogEntry>, t: nat, i: nat, bound: nat)
    requires g.logs == h.logs && g.elected == h.elected
    ensures Kept(g, s, t, i, bound) == Kept(h, s, t, i, bound)
  {
    if Lost(h, t, i, bound) {
      var u :| t < u <= bound && Missing(h, u, t, i);
      assert Missing(g, u, t, i);
    }
    if Lost(g, t, i, bound) {
      var u :| t < u <= bound && Missing(g, u, t, i);
      assert Missing(h, u, t, i);
    }
  }

  lemma SameLogsKeptAll(h: History, g: History, id: nat, s: seq<LogEntry>, before: nat, bound: nat)
    requires g.logs == h.logs && g.elected == h.elected && g.accepted == h.accepted
    requires KeptAll(h, id, s, before, bound)
    ensures KeptAll(g, id, s, before, bound)
  {
    forall t: nat, i: nat | t < before && 0 < i <= Acc(g, id, t) ensures Kept(g, s, t, i, bound) {
      assert Kept(h, s, t, i, bound);
      SameLogsKept(h, g, s, t, i, bound);
    }
  }

  /** A new ballot: nothing else in the history changes but, perhaps, a new candidacy. */
  ghost predicate NewBallot(h: History, g: History, v: nat, t: nat, b: Ballot) {
    && g.logs == h.logs && g.elected == h.elected && g.accepted == h.accepted
    && g.winner == h.winner && g.voters == h.voters
    && (v, t) !in h.ballots && g.ballots == h.ballots[(v, t) := b]
    && (forall k | k in h.camps :: k in g.camps && g.camps[k] == h.camps[k])
    && (forall k | k in g.camps && k !in h.camps :: k == (v, t) && t > 1)
    && BallotOk(g, v, t)
  }

  lemma NewBallotHistoryOk(cfg: Config, h: History, g: History, v: nat, t: nat, b: Ballot)
    requires HistoryOk(cfg, h) && NewBallot(h, g, v, t, b)
    ensures HistoryOk(cfg, g)
  {
    SameLogsOk(h, g);
    assert ElectionsOk(cfg, g) by {
      forall s | s in g.winner ensures Election(cfg, g, s) {
        NewBallotElection(cfg, h, g, v, t, b, s);
      }
    }
    NewBallotsOk(h, g, v, t, b);
    assert forall w, s :: Acc(g, w, s) == Acc(h, w, s);
  }

  lemma NewBallotExtends(h: History, g: History, v: nat, t: nat, b: Ballot)
    requires Keys(h) && NewBallot(h, g, v, t, b)
    ensures Extends(h, g, v)
  {
    assert forall w, s :: Acc(g, w, s) == Acc(h, w, s);
  }

  lemma SameLogsOk(h: History, g: History)
    requires LogsOk(h) && g.logs == h.logs && g.elected == h.elected && g.winner == h.winner && g.voters == h.voters
    ensures LogsOk(g)
  {
    forall s | s in g.logs ensures LeaderLog(g, s) {
      assert LeaderLog(h, s);
      SameLogsCovered(h, g, h.logs[s]);
    }
  }

  lemma NewBallotsOk(h: History, g: History, v: nat, t: nat, b: Ballot)
    requires BallotsOk(h) && NewBallot(h, g, v, t, b)
    ensures BallotsOk(g)
  {
    forall w, s | (w, s) in g.ballots ensures BallotOk(g, w, s) {
      if (w, s) != (v, t) {
        NewBallotOthers(h, g, v, t, b, w, s);
      }
    }
  }

  lemma NewBallotElection(cfg: Config, h: History, g: History, v: nat, t: nat, b: Ballot, s: nat)
    requires Keys(h) && NewBallot(h, g, v, t, b) && s in h.winner && Election(cfg, h, s)
    ensures Election(cfg, g, s)
  {
    forall w | w in g.voters[s] ensures VotedIn(g, s, w) {
      assert VotedIn(h, s, w);
      SameLogsKeptAll(h, g, w, h.ballots[(w, s)].log, s, s - 1);
    }
  }

  lemma NewBallotOthers(h: History, g: History, v: nat, t: nat, b: Ballot, w: nat, s: nat)
    requires NewBallot(h, g, v, t, b) && (w, s) in h.ballots && BallotOk(h, w, s)
    ensures BallotOk(g, w, s)
  {
    SameLogsCovered(h, g, h.ballots[(w, s)].log);
    SameLogsKeptAll(h, g, w, h.ballots[(w, s)].log, s, s);
  }

  lemma SameLogsCovered(h: History, g: History, s: seq<LogEntry>)
    requires g.logs == h.logs && Covered(h, s)
    ensures Covered(g, s)
  {
    forall k | 0 <= k < |s| ensures FromLeader(g, s, k) {
      assert FromLeader(h, s, k);
    }
  }

  lemma SameLogsCommitted(cfg: Config, h: History, g: History, s: seq<LogEntry>, c: nat, bound: nat)
    requires g.logs == h.logs && g.accepted == h.accepted && Committed(cfg, h, s, c, bound)
    ensures Committed(cfg, g, s, c, bound)
  {
    var t: nat, i: nat :| CommitPoint(cfg, h, s, c, bound, t, i);
    assert Acceptors(cfg, g, t, i) == Acceptors(cfg, h, t, i);
    assert CommitPoint(cfg, g, s, c, bound, t, i);
  }

  lemma SameLogsLogOk(cfg: Config, h: History, g: History, n: Node)
    requires g.logs == h.logs && g.elected == h.elected && g.accepted == h.accepted && LogOk(cfg, h, n)
    ensures LogOk(cfg, g, n)
  {
    SameLogsCovered(h, g, Ents(n));
    SameLogsKeptAll(h, g, n.id, Ents(n), n.term + 1, n.term);
    SameLogsCommitted(cfg, h, g, Ents(n), n.rl.committed, n.term);
  }

  lemma LastTermIs(n: Node)
    requires n.rl.log.base == 0 && n.rl.log.baseTerm == 0
    ensures n.rl.log.LastTerm() == LastTermOf(Ents(n)) && n.LastIndex() == |Ents(n)|
  {
  }

  /** The candidate of the next term, with its own vote counted. */
  function Candidate(cfg: Config, n: Node, rnd: nat): Node
    requires n.role != StateLeader
  {
    Poll(BecomeCandidate(cfg, n, rnd), n.id, true)
  }

  lemma CandidateKeeps(cfg: Config, h: History, n: Node, rnd: nat) returns (g: History)
    requires Good(cfg, h, n) && n.role != StateLeader && RandomFor(cfg, rnd)
    ensures Extends(h, g, n.id) && Good(cfg, g, Candidate(cfg, n, rnd))
  {
    var c := Candidate(cfg, n, rnd);
    g := Campaigned(h, n.id, c.term, Ents(n));
    CandidateLogOk(cfg, h, n, rnd);
    NewBallotHistoryOk(cfg, h, g, n.id, c.term, Ballot(n.id, Ents(n)));
    NewBallotExtends(h, g, n.id, c.term, Ballot(n.id, Ents(n)));
    CandidateNodeOk(cfg, h, n, rnd);
  }

  lemma CandidateNodeOk(cfg: Config, h: History, n: Node, rnd: nat)
    requires NodeOk(cfg, h, n) && n.role != StateLeader && RandomFor(cfg, rnd)
    ensures var c := Candidate(cfg, n, rnd);
            NodeOk(cfg, Campaigned(h, n.id, c.term, Ents(n)), c)
  {
    var c := Candidate(cfg, n, rnd);
    CandidateLogOk(cfg, h, n, rnd);
    FreshCandidate(h, n.id, n.term, Ents(n));
    assert WellFormed(cfg, c);
  }

  lemma CandidateLogOk(cfg: Config, h: History, n: Node, rnd: nat)
    requires NodeOk(cfg, h, n) && n.role != StateLeader
    ensures var c := Candidate(cfg, n, rnd);
            var g := Campaigned(h, n.id, c.term, Ents(n));
            LogOk(cfg, g, c) && NewBallot(h, g, n.id, c.term, Ballot(n.id, Ents(n)))
  {
    var c := Candidate(cfg, n, rnd);
    var g := Campaigned(h, n.id, c.term, Ents(n));
    LogOkLaterTerm(cfg, h, n, c);
    SameLogsLogOk(cfg, h, g, c);
    assert BallotOk(g, n.id, c.term) by {
      assert KeptAll(g, c.id, Ents(n), c.term + 1, c.term);
    }
  }

  lemma FreshCandidate(h: History, id: nat, term: nat, log: seq<LogEntry>)
    requires Fresh(h, id, term)
    ensures Fresh(Campaigned(h, id, term + 1, log), id, term + 1)
  {
    var g := Campaigned(h, id, term + 1, log);
    forall t | t > term + 1 ensures (id, t) !in g.camps && (id, t) !in g.ballots && Acc(g, id, t) == 0 {
      assert Acc(h, id, t) == 0;
    }
  }

  lemma {:induction false} RequestsOk(cfg: Config, h: History, n: Node, ids: seq<nat>)
    requires NodeOk(cfg, h, n) && n.role == StateCandidate && forall id | id in ids :: id in cfg.ids
    ensures forall m | m in VoteRequests(n, ids) :: MessageOk(cfg, h, m)
  {
    if ids != [] {
      var k := |ids| - 1;
      assert forall id | id in ids[..k] :: id in ids;
      RequestsOk(cfg, h, n, ids[..k]);
      LastTermIs(n);
      assert MessageOk(cfg, h, VoteRequest(n, ids[k]));
    }
  }

  // ---------- voting ----------

  lemma GrantKeeps(cfg: Config, h: History, n: Node, m: Message) returns (g: History)
    requires Good(cfg, h, n) && MessageOk(cfg, h, m) && m.mtype == MsgVote && m.term == n.term
    requires Grantable(cfg, n, m)
    ensures Keeps(cfg, h, g, n.id, HandleVote(cfg, n, m))
  {
    var b := Ballot(m.from, Ents(n));
    if n.vote == m.from {
      g := h;
      ExtendsReflexive(h, n.id);
    } else {
      g := h.(ballots := h.ballots[(n.id, n.term) := b]);
      GrantedBallot(cfg, h, n, m);
      NewBallotHistoryOk(cfg, h, g, n.id, n.term, b);
      NewBallotExtends(h, g, n.id, n.term, b);
      SameLogsLogOk(cfg, h, g, n);
      FreshSame(h, g, n.id, n.term);
    }
    assert g.ballots[(n.id, n.term)].cand == m.from;
    GrantedNodeOk(cfg, g, h, n, m);
  }

  lemma GrantedBallot(cfg: Config, h: History, n: Node, m: Message)
    requires NodeOk(cfg, h, n) && MessageOk(cfg, h, m) && m.mtype == MsgVote && m.term == n.term
    requires n.vote == 0 && n.rl.log.IsUpToDate(m.index, m.logTerm, cfg.strictTie) && 0 !in cfg.ids
    ensures var b := Ballot(m.from, Ents(n));
            NewBallot(h, h.(ballots := h.ballots[(n.id, n.term) := b]), n.id, n.term, b)
  {
    var b := Ballot(m.from, Ents(n));
    var g := h.(ballots := h.ballots[(n.id, n.term) := b]);
    LastTermIs(n);
    SameLogsLogOk(cfg, h, g, n);
    assert KeptAll(g, n.id, Ents(n), n.term + 1, n.term);
  }

  lemma FreshSame(h: History, g: History, id: nat, term: nat)
    requires Fresh(h, id, term) && g.camps == h.camps && g.winner == h.winner && g.accepted == h.accepted
    requires forall k | k in g.ballots && k !in h.ballots :: k == (id, term)
    ensures Fresh(g, id, term)
  {
    forall t | t > term ensures Acc(g, id, t) == 0 {
      assert Acc(h, id, t) == 0;
    }
  }

  lemma GrantedNodeOk(cfg: Config, g: History, h: History, n: Node, m: Message)
    requires NodeOk(cfg, h, n) && LogOk(cfg, g, n) && Fresh(g, n.id, n.term)
    requires m.from in cfg.ids && 0 !in cfg.ids && m.term == n.term && Grantable(cfg, n, m)
    requires g.logs == h.logs && g.winner == h.winner && g.camps == h.camps && g.accepted == h.accepted
    requires (n.id, n.term) in g.ballots && g.ballots[(n.id, n.term)].cand == m.from
    requires forall k | k in h.ballots :: k in g.ballots && g.ballots[k] == h.ballots[k]
    ensures var o := HandleVote(cfg, n, m);
            NodeOk(cfg, g, o.node) && forall r | r in o.out :: MessageOk(cfg, g, r)
  {
    if n.role == StateLeader {
      assert forall id :: Acc(g, id, n.term) == Acc(h, id, n.term);
    }
  }

  lemma PollKeeps(cfg: Config, h: History, n: Node, m: Message)
    requires NodeOk(cfg, h, n) && MessageOk(cfg, h, m) && m.mtype == MsgVoteResp && m.term == n.term && m.to == n.id
    requires n.role == StateCandidate
    ensures NodeOk(cfg, h, Poll(n, m.from, !m.reject))
  {
  }

  // ---------- winning ----------

  function Won(h: History, n: Node): History {
    h.(logs := h.logs[n.term := Ents(n)], elected := h.elected[n.term := Ents(n)],
       winner := h.winner[n.term := n.id], voters := h.voters[n.term := n.Grants()],
       accepted := h.accepted[(n.id, n.term) := |Ents(n)|])
  }

  ghost predicate Wins(cfg: Config, n: Node) {
    n.role == StateCandidate && |n.Grants()| >= cfg.win
  }

  /** Who has a majority of a term's votes is the one recorded as its winner. */
  lemma SoleWinner(cfg: Config, h: History, t: nat, id: nat, votes: set<nat>)
    requires ElectionsOk(cfg, h) && Distinct(cfg.ids) && t in h.winner
    requires votes <= Members(cfg.ids) && |votes| >= Quorum(|cfg.ids|)
    requires forall v | v in votes :: (v, t) in h.ballots && h.ballots[(v, t)].cand == id
    ensures h.winner[t] == id
  {
    assert Election(cfg, h, t);
    MembersSize(cfg.ids);
    var v := QuorumsIntersect(Members(cfg.ids), h.voters[t], votes);
    assert VotedIn(h, t, v);
  }

  /** Nobody has won the candidate's term: the two majorities would share a voter. */
  lemma NotYetWon(cfg: Config, h: History, n: Node)
    requires Good(cfg, h, n) && Wins(cfg, n)
    ensures n.term !in h.winner && n.term > 1 && n.term !in h.logs
    ensures n.Grants() <= Members(cfg.ids) && |n.Grants()| >= Quorum(|cfg.ids|)
    ensures Acc(h, n.id, n.term) == 0
  {
    assert n.Grants() <= n.votes.Keys;
    if n.term in h.winner {
      SoleWinner(cfg, h, n.term, n.id, n.Grants());
    }
  }

  /** The only acceptance that changed is node `id`'s in `term`. */
  ghost predicate AcceptsOnly(h: History, g: History, id: nat, term: nat) {
    forall v: nat, t: nat {:trigger Acc(g, v, t)} | v != id || t != term :: Acc(g, v, t) == Acc(h, v, t)
  }

  /** `n` has no ballot for a later term, so what it accepts now is no concern of the
      ballots already cast. */
  lemma OldVoter(h: History, g: History, n: Node, t: nat, v: nat)
    requires AcceptedOk(h) && Extends(h, g, n.id) && AcceptsOnly(h, g, n.id, n.term)
    requires t in h.winner && t in g.winner && VotedIn(h, t, v) && Fresh(h, n.id, n.term)
    requires g.elected[t] == h.elected[t]
    ensures VotedIn(g, t, v)
  {
    AcceptedBefore(h, g, n, t, v);
    assert g.ballots[(v, t)] == h.ballots[(v, t)] && g.winner[t] == h.winner[t];
    KeptStill(h, g, v, h.ballots[(v, t)].log, t);
  }

  lemma KeptStill(h: History, g: History, v: nat, log: seq<LogEntry>, t: nat)
    requires AcceptedOk(h) && Later(h, g) && t > 0 && KeptAll(h, v, log, t, t - 1)
    requires forall u: nat {:trigger Acc(g, v, u)} | u < t :: Acc(g, v, u) == Acc(h, v, u)
    ensures KeptAll(g, v, log, t, t - 1)
  {
    KeptAllGrows(h, g, v, log, t, t - 1);
  }

  /** What a voter of term `t` accepted in earlier terms is what it had when it voted. */
  lemma AcceptedBefore(h: History, g: History, n: Node, t: nat, v: nat)
    requires AcceptsOnly(h, g, n.id, n.term) && Fresh(h, n.id, n.term) && (v, t) in h.ballots
    ensures forall u: nat {:trigger Acc(g, v, u)} | u < t :: Acc(g, v, u) == Acc(h, v, u)
  {
  }

  lemma OldElection(cfg: Config, h: History, g: History, n: Node, t: nat)
    requires AcceptedOk(h) && Extends(h, g, n.id) && AcceptsOnly(h, g, n.id, n.term)
    requires t in h.winner && Election(cfg, h, t) && Fresh(h, n.id, n.term) && t in g.winner
    requires g.elected[t] == h.elected[t] && g.voters[t] == h.voters[t]
    ensures Election(cfg, g, t)
  {
    forall v | v in g.voters[t] ensures VotedIn(g, t, v) {
      OldVoter(h, g, n, t, v);
    }
  }

  lemma OldBallot(h: History, g: History, n: Node, t: nat, v: nat)
    requires AcceptedOk(h) && Extends(h, g, n.id) && AcceptsOnly(h, g, n.id, n.term)
    requires (v, t) in h.ballots && BallotOk(h, v, t) && Fresh(h, n.id, n.term)
    ensures (v, t) in g.ballots && BallotOk(g, v, t)
  {
    CoveredGrows(h, g, h.ballots[(v, t)].log);
    KeptAllGrows(h, g, v, h.ballots[(v, t)].log, t, t);
  }

  lemma OldBallots(h: History, g: History, n: Node)
    requires AcceptedOk(h) && Extends(h, g, n.id) && AcceptsOnly(h, g, n.id, n.term)
    requires BallotsOk(h) && Fresh(h, n.id, n.term) && g.ballots == h.ballots && g.camps == h.camps
    ensures BallotsOk(g)
  {
    forall v, t | (v, t) in g.ballots ensures BallotOk(g, v, t) {
      OldBallot(h, g, n, t, v);
    }
  }

  lemma WonExtends(h: History, n: Node)
    requires Keys(h) && n.term !in h.logs && Acc(h, n.id, n.term) == 0 && n.term > 1
    ensures Extends(h, Won(h, n), n.id) && AcceptsOnly(h, Won(h, n), n.id, n.term)
  {
    WonAccepts(h, n);
    WonLater(h, n);
  }

  lemma WonAccepts(h: History, n: Node)
    ensures AcceptsOnly(h, Won(h, n), n.id, n.term) && Acc(Won(h, n), n.id, n.term) == |Ents(n)|
  {
  }

  lemma WonLater(h: History, n: Node)
    requires Keys(h) && n.term !in h.logs && n.term > 1 && AcceptsOnly(h, Won(h, n), n.id, n.term)
    requires Acc(h, n.id, n.term) == 0 && Acc(Won(h, n), n.id, n.term) == |Ents(n)|
    ensures Later(h, Won(h, n))
  {
    WonLogsGrow(h, n);
  }

  lemma WonLogsGrow(h: History, n: Node)
    requires Keys(h) && n.term !in h.logs && n.term > 1
    ensures Keys(Won(h, n)) && forall t {:trigger t in h.logs} | t in h.logs :: LogGrows(h, Won(h, n), t)
  {
    forall t | t in h.logs ensures LogGrows(h, Won(h, n), t) {
      assert t != n.term;
    }
  }

  lemma WonLogsOk(h: History, n: Node)
    requires LogsOk(h) && Extends(h, Won(h, n), n.id) && n.term !in h.logs && n.term > 1
    requires Covered(h, Ents(n)) && TermsUpTo(Ents(n), n.term) && Numbered(Ents(n), 1)
    ensures LogsOk(Won(h, n))
  {
    var g := Won(h, n);
    forall t | t in g.logs ensures LeaderLog(g, t) {
      if t == n.term {
        WonLog(h, n);
      } else {
        OldLeaderLog(h, g, n.id, t);
      }
    }
  }

  /** The winner's log is what it was elected with. */
  lemma WonLog(h: History, n: Node)
    requires Keys(h) && Extends(h, Won(h, n), n.id) && n.term !in h.logs && n.term > 1
    requires Covered(h, Ents(n)) && TermsUpTo(Ents(n), n.term) && Numbered(Ents(n), 1)
    ensures LeaderLog(Won(h, n), n.term)
  {
    CoveredGrows(h, Won(h, n), Ents(n));
    forall k | 0 <= k < |Ents(n)| ensures Ents(n)[k].term < n.term {
      assert FromLeader(h, Ents(n), k);
    }
  }

  lemma OldLeaderLog(h: History, g: History, id: nat, t: nat)
    requires Extends(h, g, id) && t in h.logs && LeaderLog(h, t) && t in g.logs
    requires g.logs[t] == h.logs[t] && g.elected[t] == h.elected[t]
    ensures LeaderLog(g, t)
  {
    CoveredGrows(h, g, h.logs[t]);
  }

  /** A grant is a vote for the winner by a voter whose log the winner's is up to date with. */
  lemma WonVoter(h: History, n: Node, v: nat)
    requires Keys(h) && AcceptedOk(h) && n.term !in h.logs && n.term > 1
    requires Extends(h, Won(h, n), n.id) && AcceptsOnly(h, Won(h, n), n.id, n.term)
    requires (v, n.term) in h.ballots && BallotOk(h, v, n.term) && h.ballots[(v, n.term)].cand == n.id
    requires (n.id, n.term) in h.camps && h.camps[(n.id, n.term)] == Ents(n)
    ensures Keys(Won(h, n)) && VotedIn(Won(h, n), n.term, v)
  {
    var g := Won(h, n);
    var log := h.ballots[(v, n.term)].log;
    assert KeptAll(h, v, log, n.term, n.term - 1) by {
      forall t: nat, i: nat {:trigger Kept(h, log, t, i, n.term - 1)} | t < n.term && 0 < i <= Acc(h, v, t)
        ensures Kept(h, log, t, i, n.term - 1)
      {
        assert Kept(h, log, t, i, n.term);
        NotLostByOwnTerm(h, log, t, i, n.term);
      }
    }
    KeptAllGrows(h, g, v, log, n.term, n.term - 1);
  }

  lemma NotLostByOwnTerm(h: History, log: seq<LogEntry>, t: nat, i: nat, term: nat)
    requires Kept(h, log, t, i, term) && term !in h.elected && term > 0
    ensures Kept(h, log, t, i, term - 1)
  {
    if Lost(h, t, i, term) {
      var u :| t < u <= term && Missing(h, u, t, i);
      assert t < u <= term - 1 && Missing(h, u, t, i);
    }
  }

  lemma WonElectionsOk(cfg: Config, h: History, n: Node)
    requires Good(cfg, h, n) && n.role == StateCandidate && n.term !in h.logs && n.term > 1
    requires Extends(h, Won(h, n), n.id) && AcceptsOnly(h, Won(h, n), n.id, n.term)
    requires n.Grants() <= Members(cfg.ids) && |n.Grants()| >= Quorum(|cfg.ids|)
    ensures ElectionsOk(cfg, Won(h, n))
  {
    var g := Won(h, n);
    forall t | t in g.winner ensures Election(cfg, g, t) {
      if t == n.term {
        forall v | v in n.Grants() ensures VotedIn(g, t, v) {
          WonVoter(h, n, v);
        }
      } else {
        OldElection(cfg, h, g, n, t);
      }
    }
  }

  lemma WonHistoryOk(cfg: Config, h: History, n: Node)
    requires Good(cfg, h, n) && Wins(cfg, n)
    ensures HistoryOk(cfg, Won(h, n)) && Extends(h, Won(h, n), n.id)
    ensures AcceptsOnly(h, Won(h, n), n.id, n.term) && n.term !in h.logs
  {
    NotYetWon(cfg, h, n);
    WonExtends(h, n);
    WonLogsOk(h, n);
    WonElectionsOk(cfg, h, n);
    OldBallots(h, Won(h, n), n);
    WonAcceptedOk(h, n);
  }

  lemma WonAcceptedOk(h: History, n: Node)
    requires AcceptedOk(h) && AcceptsOnly(h, Won(h, n), n.id, n.term) && n.term !in h.logs
    ensures AcceptedOk(Won(h, n))
  {
    var g := Won(h, n);
    forall v, t | Acc(g, v, t) > 0 ensures t in g.logs && Acc(g, v, t) <= |g.logs[t]| {
      if v != n.id || t != n.term {
        assert Acc(g, v, t) == Acc(h, v, t);
      }
    }
  }

  /** A candidate with enough grants becomes the one leader of its term. */
  lemma WinKeeps(cfg: Config, h: History, n: Node, rnd: nat) returns (g: History)
    requires Good(cfg, h, n) && Wins(cfg, n) && RandomFor(cfg, rnd)
    ensures Extends(h, g, n.id) && Good(cfg, g, BecomeLeader(cfg, n, rnd))
  {
    g := Won(h, n);
    WonHistoryOk(cfg, h, n);
    WonNodeOk(cfg, h, n, rnd);
  }

  lemma WonNodeOk(cfg: Config, h: History, n: Node, rnd: nat)
    requires NodeOk(cfg, h, n) && AcceptedOk(h) && n.term !in h.logs && AcceptsOnly(h, Won(h, n), n.id, n.term)
    requires Extends(h, Won(h, n), n.id) && n.role == StateCandidate && RandomFor(cfg, rnd)
    ensures NodeOk(cfg, Won(h, n), BecomeLeader(cfg, n, rnd))
  {
    WonLogOk(cfg, h, n);
    WonFresh(h, n);
    WonLeaderOk(cfg, h, n, rnd);
    LeaderWellFormed(cfg, n, rnd);
  }

  lemma LeaderWellFormed(cfg: Config, n: Node, rnd: nat)
    requires WellFormed(cfg, n) && n.role == StateCandidate && RandomFor(cfg, rnd)
    ensures WellFormed(cfg, BecomeLeader(cfg, n, rnd))
  {
  }

  lemma WonLeaderOk(cfg: Config, h: History, n: Node, rnd: nat)
    requires n.role == StateCandidate && Keys(Won(h, n)) && WellFormed(cfg, n) && n.rl.log.base == 0
    ensures LeaderOk(Won(h, n), BecomeLeader(cfg, n, rnd))
  {
    assert Acc(Won(h, n), n.id, n.term) == |Ents(n)|;
  }

  lemma WonFresh(h: History, n: Node)
    requires Fresh(h, n.id, n.term) && AcceptsOnly(h, Won(h, n), n.id, n.term)
    ensures Fresh(Won(h, n), n.id, n.term)
  {
    forall t: nat | t > n.term ensures Acc(Won(h, n), n.id, t) == 0 {
      assert Acc(h, n.id, t) == 0;
    }
  }

  lemma WonLogOk(cfg: Config, h: History, n: Node)
    requires NodeOk(cfg, h, n) && AcceptedOk(h) && n.term !in h.logs && AcceptsOnly(h, Won(h, n), n.id, n.term)
    requires Extends(h, Won(h, n), n.id)
    ensures LogOk(cfg, Won(h, n), n)
  {
    var g := Won(h, n);
    CoveredGrows(h, g, Ents(n));
    CommittedGrows(cfg, h, g, Ents(n), n.rl.committed, n.term);
    forall t: nat, i: nat | t < n.term + 1 && 0 < i <= Acc(g, n.id, t) ensures Kept(g, Ents(n), t, i, n.term) {
      if t == n.term {
        assert Same(Ents(n), g.logs[t], i);
      } else {
        assert Acc(g, n.id, t) == Acc(h, n.id, t);
        assert Kept(h, Ents(n), t, i, n.term);
        KeptGrows(h, g, Ents(n), t, i, n.term);
      }
    }
  }
}
