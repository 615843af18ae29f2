/** The node itself: an object whose handlers update its fields and its log in place and
    queue messages.  Each handler does to the node what its function in `RaftNode` says,
    and queues exactly the messages it lists. */
module Rafts {
  import opened LogModel
  import opened Quorums
  import opened RaftNode
  import opened RaftLogs

  class Raft {
    const cfg: Config
    const id: nat
    const raftlog: RaftLog
    var term: nat
    var vote: nat
    var state: Role
    var votes: map<nat, bool>
    var prs: map<nat, Progress>
    var lead: nat
    var electionElapsed: nat
    var randomizedElectionTimeout: nat
    var msgs: seq<Message>

    ghost function Abs(): Node
      reads this, raftlog, raftlog.storage, raftlog.unstable
      requires raftlog.Consistent()
    {
      Node(id, term, vote, state, votes, prs, lead, raftlog.State(), electionElapsed, randomizedElectionTimeout)
    }

    ghost predicate Valid()
      reads this, raftlog, raftlog.storage, raftlog.unstable
    {
      raftlog.Valid() && WellFormed(cfg, Abs())
    }

    /** The node does what `o` says and has queued its messages. */
    ghost predicate Did(o: Outcome, queued: seq<Message>)
      reads this, raftlog, raftlog.storage, raftlog.unstable
    {
      Valid() && Abs() == o.node && msgs == queued + o.out
    }

    /** A follower of term 1 on a log, with a progress for every member, as bootstrap leaves it. */
    constructor (cfg: Config, id: nat, raftlog: RaftLog, rnd: nat)
      requires cfg.Valid() && id in cfg.ids && raftlog.Valid() && RandomFor(cfg, rnd)
      ensures this.cfg == cfg && this.id == id && this.raftlog == raftlog
      ensures Valid() && term == 1 && vote == 0 && state == StateFollower && lead == 0 && msgs == []
      ensures prs == InitialProgress(cfg, raftlog.View().LastIndex()) && prs.Keys == Members(cfg.ids)
      ensures forall to | to in prs :: prs[to] == Progress(0, raftlog.View().LastIndex() + 1, Probe, false)
      ensures votes == map[] && electionElapsed == 0 && randomizedElectionTimeout == cfg.electionTimeout + rnd
    {
      var last := raftlog.LastIndex();
      this.cfg, this.id, this.raftlog := cfg, id, raftlog;
      term, vote, state, votes, lead := 1, 0, StateFollower, map[], 0;
      prs := InitialProgress(cfg, last);
      electionElapsed, randomizedElectionTimeout, msgs := 0, cfg.electionTimeout + rnd, [];
    }

    // ---------- changes of role ----------

    method Reset(newTerm: nat, rnd: nat)
      requires Valid() && newTerm > 0 && RandomFor(cfg, rnd)
      modifies this
      ensures Valid() && Abs() == RaftNode.Reset(cfg, old(Abs()), newTerm, rnd) && msgs == old(msgs)
    {
      ResetWellFormed(cfg, Abs(), newTerm, rnd);
      var last := raftlog.LastIndex();
      if term != newTerm {
        term := newTerm;
        vote := 0;
      }
      lead := 0;
      electionElapsed := 0;
      randomizedElectionTimeout := cfg.electionTimeout + rnd;
      votes := map[];
      prs := ResetProgress(prs, id, last);
    }

    method BecomeFollower(newTerm: nat, leader: nat, rnd: nat)
      requires Valid() && newTerm > 0 && RandomFor(cfg, rnd)
      modifies this
      ensures Valid() && Abs() == RaftNode.BecomeFollower(cfg, old(Abs()), newTerm, leader, rnd) && msgs == old(msgs)
    {
      Reset(newTerm, rnd);
      lead := leader;
      state := StateFollower;
    }

    method BecomeCandidate(rnd: nat)
      requires Valid() && state != StateLeader && RandomFor(cfg, rnd)
      modifies this
      ensures Valid() && Abs() == RaftNode.BecomeCandidate(cfg, old(Abs()), rnd) && msgs == old(msgs)
    {
      Reset(term + 1, rnd);
      vote := id;
      state := StateCandidate;
    }

    method BecomeLeader(rnd: nat)
      requires Valid() && state != StateFollower && RandomFor(cfg, rnd)
      modifies this
      ensures Valid() && Abs() == RaftNode.BecomeLeader(cfg, old(Abs()), rnd) && msgs == old(msgs)
    {
      Reset(term, rnd);
      lead := id;
      state := StateLeader;
    }

    method Send(m: Message)
      modifies this`msgs
      ensures msgs == old(msgs) + [m]
    {
      msgs := msgs + [m];
    }

    // ---------- elections ----------

    /** Records a reply unless the voter has been heard already, and counts the grants. */
    method Poll(from: nat, granted: bool) returns (grants: nat)
      requires Valid()
      modifies this`votes
      ensures Valid() && Abs() == RaftNode.Poll(old(Abs()), from, granted)
      ensures grants == |Abs().Grants()|
    {
      if from !in votes {
        votes := votes[from := granted];
      }
      grants := CountGrants(votes);
      assert Abs().Grants() == set i | i in votes && votes[i];
    }

    static method CountGrants(votes: map<nat, bool>) returns (grants: nat)
      ensures grants == |set i | i in votes && votes[i]|
    {
      grants := 0;
      var left := votes.Keys;
      ghost var counted: set<nat> := {};
      while left != {}
        invariant left <= votes.Keys
        invariant counted == set i | i in votes && votes[i] && i !in left
        invariant grants == |counted|
        decreases left
      {
        var i :| i in left;
        if votes[i] {
          grants := grants + 1;
          counted := counted + {i};
        }
        left := left - {i};
      }
      assert counted == set i | i in votes && votes[i];
    }

    method Campaign(rnd: nat)
      requires Valid() && state != StateLeader && RandomFor(cfg, rnd)
      modifies this
      ensures Did(RaftNode.Campaign(cfg, old(Abs()), rnd), old(msgs))
    {
      BecomeCandidate(rnd);
      var grants := Poll(id, true);
      if grants >= cfg.win {
        BecomeLeader(rnd);
        return;
      }
      RequestVotes();
    }

    method RequestVotes()
      requires Valid()
      modifies this`msgs
      ensures Valid() && Abs() == old(Abs()) && msgs == old(msgs) + VoteRequests(Abs(), cfg.ids)
    {
      ghost var n := Abs();
      var last := raftlog.LastIndex();
      var lastTerm := raftlog.LastTerm();
      for k := 0 to |cfg.ids|
        invariant Valid() && Abs() == n && msgs == old(msgs) + VoteRequests(n, cfg.ids[..k])
      {
        assert cfg.ids[..k + 1][..k] == cfg.ids[..k];
        if cfg.ids[k] != id {
          Send(Message(MsgVote, cfg.ids[k], id, term, lastTerm, last, [], 0, false, 0));
        }
      }
      assert cfg.ids[..|cfg.ids|] == cfg.ids;
    }

    method HandleVote(m: Message)
      requires Valid()
      modifies this
      ensures Did(RaftNode.HandleVote(cfg, old(Abs()), m), old(msgs))
    {
      var ok := raftlog.IsUpToDate(m.index, m.logTerm, cfg.strictTie);
      if (vote == 0 || vote == m.from) && ok {
        Send(Message(MsgVoteResp, m.from, id, term, 0, 0, [], 0, false, 0));
        vote := m.from;
        electionElapsed := 0;
      }
    }

    method HandleVoteResp(m: Message, rnd: nat)
      requires Valid() && state == StateCandidate && RandomFor(cfg, rnd)
      modifies this
      ensures Did(RaftNode.HandleVoteResp(cfg, old(Abs()), m, rnd), old(msgs))
    {
      var grants := Poll(m.from, !m.reject);
      if grants >= cfg.win {
        BecomeLeader(rnd);
        BcastAppend();
      } else if cfg.stepDown {
        BecomeFollower(term, 0, rnd);
      }
    }

    // ---------- replication, leader's side ----------

    /** A replicating follower is never paused, one waiting for a snapshot always. */
    method IsPaused(to: nat) returns (paused: bool)
      requires to in prs
      ensures paused == prs[to].IsPaused()
    {
      match prs[to].state
      case Probe => return prs[to].paused;
      case Replicate => return false;
      case Snapshot => return true;
    }

    /** What is known of follower `to`, brought up to date in place; whether it was news. */
    method MaybeUpdate(to: nat, n: nat) returns (updated: bool)
      requires to in prs
      modifies this`prs
      ensures prs == old(prs)[to := old(prs)[to].MaybeUpdate(n)]
      ensures updated <==> old(prs)[to].matched < n
    {
      updated := false;
      var pr := prs[to];
      if pr.matched < n {
        pr := pr.(matched := n);
        updated := true;
        pr := pr.(paused := false);
      }
      if pr.next < n + 1 {
        pr := pr.(next := n + 1);
      }
      prs := prs[to := pr];
    }

    method SendAppend(to: nat)
      requires Valid() && to in prs
      modifies this`msgs
      ensures Valid() && Abs() == old(Abs()) && msgs == old(msgs) + RaftNode.SendAppend(Abs(), to)
    {
      var pr := prs[to];
      var paused := IsPaused(to);
      if paused {
        return;
      }
      var e, logTerm := raftlog.Term(pr.next - 1);
      var err, es := raftlog.Entries(pr.next);
      if err == ErrNone {
        Send(Message(MsgApp, to, id, term, logTerm, pr.next - 1, es, raftlog.committed, false, 0));
      }
    }

    method BcastAppend()
      requires Valid()
      modifies this`msgs
      ensures Valid() && Abs() == old(Abs()) && msgs == old(msgs) + Broadcast(Abs(), cfg.ids)
    {
      ghost var n, was := Abs(), msgs;
      ghost var sent: seq<Message> := [];
      for k := 0 to |cfg.ids|
        invariant Valid() && Abs() == n && msgs == was + sent && sent == Broadcast(n, cfg.ids[..k])
      {
        BroadcastNext(n, cfg.ids, k);
        if cfg.ids[k] != id {
          SendAppend(cfg.ids[k]);
          sent := sent + RaftNode.SendAppend(n, cfg.ids[k]);
        }
      }
      assert cfg.ids[..|cfg.ids|] == cfg.ids;
    }

    /** Commits to the greatest index a quorum has matched, if it is of this term. */
    method MaybeCommit() returns (ok: bool)
      requires Valid()
      modifies raftlog`committed
      ensures Valid() && (Abs(), ok) == RaftNode.MaybeCommit(cfg, old(Abs())) && msgs == old(msgs)
    {
      var vp: seq<nat> := [];
      for k := 0 to |cfg.ids|
        invariant |vp| == k && forall i | 0 <= i < k :: vp[i] == prs[cfg.ids[i]].matched
      {
        vp := vp + [prs[cfg.ids[k]].matched];
      }
      assert vp == Values(cfg.ids, Abs().Matches());
      QuorumFits(|cfg.ids|);
      vp := SortDesc(vp);
      var index := vp[Quorum(|cfg.ids|) - 1];
      ok := raftlog.MaybeCommit(index, term);
    }

    method AppendEntry(es: seq<LogEntry>)
      requires Valid()
      modifies this`prs, raftlog`committed, raftlog.unstable
      ensures Valid() && Abs() == RaftNode.AppendEntry(cfg, old(Abs()), es) && msgs == old(msgs)
    {
      ExtendLog(es);
      var ok := MaybeCommit();
    }

    /** The proposal numbered and appended, and the leader's own progress with it. */
    method ExtendLog(es: seq<LogEntry>)
      requires Valid()
      modifies this`prs, raftlog.unstable
      ensures Valid() && Abs() == Extended(cfg, old(Abs()), es) && msgs == old(msgs)
    {
      ghost var n := Abs();
      var last := raftlog.LastIndex();
      var numbered := Number(es, term, last + 1);
      ghost var e := ExtendedIs(n, es, numbered);
      last := raftlog.Append(numbered);
      var updated := MaybeUpdate(id, last);
      assert raftlog.State() == e.rl && prs == e.prs;
      assert Abs() == e;
    }

    lemma ExtendedIs(n: Node, es: seq<LogEntry>, numbered: seq<LogEntry>) returns (e: Node)
      requires WellFormed(cfg, n) && numbered == NumberEntries(es, n.term, n.LastIndex() + 1)
      ensures e == Extended(cfg, n, es) && WellFormed(cfg, e) && n.rl.AppendPre(numbered)
      ensures e.rl == n.rl.Append(numbered) && e == n.(rl := e.rl, prs := e.prs)
      ensures n.id in n.prs && e.prs == n.prs[n.id := n.prs[n.id].MaybeUpdate(e.rl.log.LastIndex())]
    {
      ExtendedWellFormed(cfg, n, es);
      e := Extended(cfg, n, es);
    }

    static method Number(es: seq<LogEntry>, term: nat, first: nat) returns (numbered: seq<LogEntry>)
      ensures numbered == NumberEntries(es, term, first)
    {
      numbered := es;
      for k := 0 to |es|
        invariant |numbered| == |es|
        invariant forall i | 0 <= i < k :: numbered[i] == es[i].(term := term, index := first + i)
        invariant forall i | k <= i < |es| :: numbered[i] == es[i]
      {
        numbered := numbered[k := numbered[k].(term := term, index := first + k)];
      }
    }

    // ---------- replication, follower's side ----------

    method HandleAppendEntries(m: Message)
      requires Valid() && AppendPre(Abs(), m)
      modifies this`msgs, raftlog`committed, raftlog.unstable
      ensures Did(RaftNode.HandleAppendEntries(old(Abs()), m), old(msgs))
    {
      if m.index < raftlog.committed {
        Send(Message(MsgAppResp, m.from, id, term, 0, raftlog.committed, [], 0, false, 0));
        return;
      }
      var last, ok := raftlog.MaybeAppend(m.index, m.logTerm, m.commit, m.entries);
      if ok {
        Send(Message(MsgAppResp, m.from, id, term, 0, last, [], 0, false, 0));
      } else {
        var hint := raftlog.LastIndex();
        Send(Message(MsgAppResp, m.from, id, term, 0, m.index, [], 0, true, hint));
      }
    }

    // ---------- dispatch ----------

    method StepFollower(m: Message)
      requires Valid() && FollowerPre(Abs(), m)
      modifies this, raftlog`committed, raftlog.unstable
      ensures Did(RaftNode.StepFollower(cfg, old(Abs()), m), old(msgs))
    {
      if m.mtype == MsgApp {
        electionElapsed := 0;
        lead := m.from;
        HandleAppendEntries(m);
      }
    }

    method StepCandidate(m: Message, rnd: nat)
      requires Valid() && state == StateCandidate && RandomFor(cfg, rnd)
      modifies this
      ensures Did(RaftNode.StepCandidate(cfg, old(Abs()), m, rnd), old(msgs))
    {
      if m.mtype == MsgVoteResp {
        HandleVoteResp(m, rnd);
      }
    }

    method StepLeader(m: Message)
      requires Valid() && LeaderPre(m)
      modifies this, raftlog`committed, raftlog.unstable
      ensures Did(RaftNode.StepLeader(cfg, old(Abs()), m), old(msgs))
    {
      if m.mtype == MsgProp {
        AppendEntry(m.entries);
        BcastAppend();
      } else if m.mtype == MsgAppResp && m.from in prs {
        if !m.reject {
          var updated := MaybeUpdate(m.from, m.index);
          var ok := MaybeCommit();
          if ok {
            BcastAppend();
          }
        }
      }
    }

    method StepCurrent(m: Message, rnd: nat)
      requires Valid() && CurrentPre(Abs(), m) && RandomFor(cfg, rnd)
      modifies this, raftlog`committed, raftlog.unstable
      ensures Did(RaftNode.StepCurrent(cfg, old(Abs()), m, rnd), old(msgs))
    {
      if m.mtype == MsgHup {
        if state != StateLeader {
          Campaign(rnd);
        }
      } else if m.mtype == MsgVote {
        HandleVote(m);
      } else {
        match state
        case StateFollower => StepFollower(m);
        case StateCandidate => StepCandidate(m, rnd);
        case StateLeader => StepLeader(m);
      }
    }

    /** A message from the network or from the node itself. */
    method Step(m: Message, rnd: nat)
      requires raftlog.Valid() && StepPre(cfg, Abs(), m, rnd)
      modifies this, raftlog`committed, raftlog.unstable
      ensures Did(RaftNode.Step(cfg, old(Abs()), m, rnd), old(msgs))
    {
      if m.term == 0 {
        // local message
      } else if m.term > term {
        BecomeFollower(m.term, 0, rnd);
      } else if m.term < term {
        return;
      }
      StepCurrent(m, rnd);
    }

    method TickElection(rnd: nat)
      requires Valid() && state != StateLeader && RandomFor(cfg, rnd)
      modifies this, raftlog`committed, raftlog.unstable
      ensures Did(RaftNode.TickElection(cfg, old(Abs()), rnd), old(msgs))
    {
      electionElapsed := electionElapsed + 1;
      if id in prs && electionElapsed >= randomizedElectionTimeout {
        electionElapsed := 0;
        Step(Message(MsgHup, 0, id, 0, 0, 0, [], 0, false, 0), rnd);
      }
    }
  }
}
