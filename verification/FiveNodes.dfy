/** What the nodes of a cluster of five do with the stated election rules and the code's
    unlabelled replies, in the steps that the code has: a node wins an election, a leader
    appends, a follower takes what it is sent, a leader commits what it hears of. */
module FiveNodes {
  import opened LogModel
  import opened Quorums
  import opened RaftNode
  import opened Cluster
  import opened Paths
  import opened Replies

  function Five(): Config {
    Config([1, 2, 3, 4, 5], 3, false, false, 1)
  }

  /** What matters of a node that has committed its first `b` entries. */
  predicate Looks(n: Node, id: nat, term: nat, role: Role, ents: seq<LogEntry>, b: nat) {
    n.id == id && n.term == term && n.role == role && n.rl.log == Log(0, 0, ents) && n.rl.committed == b
  }

  ghost predicate Is(n: Node, id: nat, term: nat, role: Role, ents: seq<LogEntry>, b: nat) {
    WellFormed(Five(), n) && Looks(n, id, term, role, ents, b)
  }

  // ---------- one node ----------

  function Ask(id: nat, to: nat, term: nat, ents: seq<LogEntry>): Message {
    Message(MsgVote, to, id, term, LastTermOf(ents), |ents|, [], 0, false, 0)
  }

  function Ballot(id: nat, to: nat, term: nat): Message {
    Message(MsgVoteResp, to, id, term, 0, 0, [], 0, false, 0)
  }

  function Carry(id: nat, to: nat, term: nat, index: nat, logTerm: nat, es: seq<LogEntry>, b: nat): Message {
    Message(MsgApp, to, id, term, logTerm, index, es, b, false, 0)
  }

  function Ack(id: nat, to: nat, term: nat, index: nat): Message {
    Message(MsgAppResp, to, id, term, 0, index, [], 0, false, 0)
  }

  /** A new leader: all it knows is its own log. */
  ghost predicate Unheard(n: Node) {
    forall to | to in Five().ids ::
      to in n.prs && n.prs[to] == Progress(if to == n.id then n.LastIndex() else 0, n.LastIndex() + 1, Probe, false)
  }

  lemma {:induction false} RequestIn(n: Node, ids: seq<nat>, to: nat)
    requires to in ids && to != n.id
    ensures VoteRequest(n, to) in VoteRequests(n, ids)
  {
    var k := |ids| - 1;
    if ids[k] != to {
      assert ids == ids[..k] + [ids[k]];
      RequestIn(n, ids[..k], to);
    }
  }

  lemma {:induction false} AppendIn(n: Node, ids: seq<nat>, to: nat)
    requires forall id | id in ids :: id in n.prs && n.prs[id].next > 0
    requires to in ids && to != n.id
    ensures forall m | m in SendAppend(n, to) :: m in Broadcast(n, ids)
  {
    var k := |ids| - 1;
    if ids[k] != to {
      assert ids == ids[..k] + [ids[k]];
      AppendIn(n, ids[..k], to);
    }
  }

  lemma Campaigns(n: Node, id: nat, term: nat, role: Role, ents: seq<LogEntry>, b: nat) returns (o: Outcome)
    requires Is(n, id, term, role, ents, b) && role != StateLeader
    ensures o == TickElection(Five(), n, 0)
    ensures Is(o.node, id, term + 1, StateCandidate, ents, b) && o.node.votes == map[id := true]
    ensures forall to | to in Five().ids && to != id :: Ask(id, to, term + 1, ents) in o.out
  {
    TickIs(Five(), n, 0);
    o := TickElection(Five(), n, 0);
    var h := n.(elapsed := 0);
    var p := Poll(BecomeCandidate(Five(), h, 0), id, true);
    ResetWellFormed(Five(), h, term + 1, 0);
    assert p.Grants() == {id};
    forall to | to in Five().ids && to != id ensures Ask(id, to, term + 1, ents) in VoteRequests(p, Five().ids) {
      RequestIn(p, Five().ids, to);
      assert VoteRequest(p, to) == Ask(id, to, term + 1, ents);
    }
  }

  lemma Grants(n: Node, v: nat, term: nat, role: Role, ents: seq<LogEntry>, b: nat,
               id: nat, t: nat, theirs: seq<LogEntry>) returns (o: Outcome)
    requires Is(n, v, term, role, ents, b) && term < t && id != 0
    requires n.rl.log.IsUpToDate(|theirs|, LastTermOf(theirs), false)
    ensures StepPre(Five(), n, Ask(id, v, t, theirs), 0) && o == Step(Five(), n, Ask(id, v, t, theirs), 0)
    ensures Is(o.node, v, t, StateFollower, ents, b) && o.out == [Ballot(v, id, t)]
  {
    var m := Ask(id, v, t, theirs);
    ResetWellFormed(Five(), n, t, 0);
    var a := Adopt(Five(), n, m, 0);
    assert Grantable(Five(), a, m);
    o := Step(Five(), n, m, 0);
  }

  lemma BallotTaken(n: Node, id: nat, term: nat, ents: seq<LogEntry>, b: nat, v: nat)
    requires Is(n, id, term, StateCandidate, ents, b)
    ensures StepPre(Five(), n, Ballot(v, id, term), 0)
    ensures Step(Five(), n, Ballot(v, id, term), 0) == HandleVoteResp(Five(), n, Ballot(v, id, term), 0)
  {
  }

  lemma CountsOne(n: Node, id: nat, term: nat, ents: seq<LogEntry>, b: nat, v: nat) returns (o: Outcome)
    requires Is(n, id, term, StateCandidate, ents, b) && n.votes == map[id := true] && v != id
    ensures StepPre(Five(), n, Ballot(v, id, term), 0) && o == Step(Five(), n, Ballot(v, id, term), 0)
    ensures Is(o.node, id, term, StateCandidate, ents, b) && o.node.votes == map[id := true, v := true]
  {
    BallotTaken(n, id, term, ents, b, v);
    var p := Poll(n, v, true);
    assert p.Grants() == {id, v};
    o := HandleVoteResp(Five(), n, Ballot(v, id, term), 0);
  }

  lemma CountsTwo(n: Node, id: nat, term: nat, ents: seq<LogEntry>, b: nat, v: nat, w: nat) returns (o: Outcome)
    requires Is(n, id, term, StateCandidate, ents, b) && n.votes == map[id := true, v := true]
    requires v != id && w != id && w != v
    ensures StepPre(Five(), n, Ballot(w, id, term), 0) && o == Step(Five(), n, Ballot(w, id, term), 0)
    ensures Is(o.node, id, term, StateLeader, ents, b) && Unheard(o.node)
  {
    BallotTaken(n, id, term, ents, b, w);
    o := ThirdWins(n, id, term, ents, b, v, w);
  }

  lemma ThirdWins(n: Node, id: nat, term: nat, ents: seq<LogEntry>, b: nat, v: nat, w: nat) returns (o: Outcome)
    requires Is(n, id, term, StateCandidate, ents, b) && n.votes == map[id := true, v := true]
    requires v != id && w != id && w != v
    ensures o == HandleVoteResp(Five(), n, Ballot(w, id, term), 0)
    ensures Is(o.node, id, term, StateLeader, ents, b) && Unheard(o.node)
  {
    var p := Poll(n, w, true);
    assert p.Grants() == {id, v, w};
    NewLeader(p, id, term, ents, b);
    VoteWins(Five(), n, Ballot(w, id, term), 0, p);
    o := HandleVoteResp(Five(), n, Ballot(w, id, term), 0);
  }

  lemma NewLeader(p: Node, id: nat, term: nat, ents: seq<LogEntry>, b: nat)
    requires Is(p, id, term, StateCandidate, ents, b)
    ensures Is(BecomeLeader(Five(), p, 0), id, term, StateLeader, ents, b) && Unheard(BecomeLeader(Five(), p, 0))
  {
    ResetWellFormed(Five(), p, term, 0);
  }

  /** A leader that has heard of nobody appends without committing. */
  lemma Proposes(n: Node, id: nat, term: nat, ents: seq<LogEntry>, b: nat, es: seq<LogEntry>, num: seq<LogEntry>)
    returns (o: Outcome)
    requires Is(n, id, term, StateLeader, ents, b) && Unheard(n) && es != []
    requires num == NumberEntries(es, term, |ents| + 1)
    ensures StepPre(Five(), n, Prop(id, es), 0) && o == Step(Five(), n, Prop(id, es), 0)
    ensures Is(o.node, id, term, StateLeader, ents + num, b)
    ensures o.node.prs == n.prs[id := Progress(|ents + num|, |ents + num| + 1, Probe, false)]
    ensures forall to | to in Five().ids && to != id :: Carry(id, to, term, |ents|, LastTermOf(ents), num, b) in o.out
  {
    StepLocal(Five(), n, Prop(id, es), 0);
    o := Step(Five(), n, Prop(id, es), 0);
    var e := Extends(n, id, term, ents, b, es, num);
    NoCommit(e, id, id, b);
    AppendEntryWellFormed(Five(), n, es);
    forall to | to in Five().ids && to != id
      ensures Carry(id, to, term, |ents|, LastTermOf(ents), num, b) in Broadcast(e, Five().ids)
    {
      AppendIn(e, Five().ids, to);
      SendsTail(e, to, ents, num);
    }
  }

  lemma Extends(n: Node, id: nat, term: nat, ents: seq<LogEntry>, b: nat, es: seq<LogEntry>, num: seq<LogEntry>)
    returns (e: Node)
    requires Is(n, id, term, StateLeader, ents, b) && Unheard(n) && num == NumberEntries(es, term, |ents| + 1)
    ensures e == Extended(Five(), n, es) && Is(e, id, term, StateLeader, ents + num, b)
    ensures e.prs == n.prs[id := Progress(|ents + num|, |ents + num| + 1, Probe, false)]
  {
    ExtendedWellFormed(Five(), n, es);
    e := Extended(Five(), n, es);
    assert e.rl.log == Log(0, 0, ents + num);
  }

  /** Two members do not commit anything. */
  lemma NoCommit(e: Node, id: nat, other: nat, b: nat)
    requires WellFormed(Five(), e) && e.id == id && e.rl.committed == b
    requires forall to | to in Five().ids && to != id && to != other :: e.prs[to].matched == 0
    ensures MaybeCommit(Five(), e).0 == e
  {
    FewReach(Five(), e, {id, other}, b);
  }

  /** What fewer than a quorum have reached is not committed. */
  lemma FewReach(cfg: Config, e: Node, members: set<nat>, b: nat)
    requires WellFormed(cfg, e) && e.rl.committed == b && |members| < Quorum(|cfg.ids|)
    requires forall to | to in cfg.ids && to !in members :: e.prs[to].matched <= b
    ensures MaybeCommit(cfg, e).0 == e
  {
    var f, ids, q := e.Matches(), cfg.ids, Quorum(|cfg.ids|);
    CountIsMembers(ids, f, b + 1);
    SubsetSize(Reached(ids, f, b + 1), members);
    QuorumFits(|ids|);
    PickSpec(Values(ids, f), q, b + 1);
  }

  /** Three do, in the leader's term. */
  lemma Commits(e: Node, members: set<nat>, last: nat)
    requires WellFormed(Five(), e) && e.LastIndex() == last && e.rl.log.Term(last) == e.term
    requires |members| == 3 && forall to | to in members :: to in Five().ids && e.prs[to].matched == last
    requires forall to | to in Five().ids :: e.prs[to].matched <= last
    ensures MaybeCommit(Five(), e).0.rl.committed >= last
  {
    QuorumReach(Five(), e, members, last);
  }

  /** What a quorum has reached is committed, if it is the end of the log and of the term. */
  lemma QuorumReach(cfg: Config, e: Node, members: set<nat>, last: nat)
    requires WellFormed(cfg, e) && e.LastIndex() == last && e.rl.log.Term(last) == e.term
    requires |members| >= Quorum(|cfg.ids|) && forall to | to in members :: to in cfg.ids && e.prs[to].matched == last
    requires forall to | to in cfg.ids :: e.prs[to].matched <= last
    ensures MaybeCommit(cfg, e).0.rl.committed >= last
  {
    var f, ids, q := e.Matches(), cfg.ids, Quorum(|cfg.ids|);
    var v := Values(ids, f);
    CountIsMembers(ids, f, last);
    SubsetSize(members, Reached(ids, f, last));
    QuorumFits(|ids|);
    PickSpec(v, q, last);
    PickIsValue(v, q);
  }

  /** What a leader sends to a member whose next index is the first of `num`. */
  lemma SendsTail(e: Node, to: nat, ents: seq<LogEntry>, num: seq<LogEntry>)
    requires e.rl.Valid() && e.rl.log == Log(0, 0, ents + num) && num != [] && to in e.prs
    requires e.prs[to] == Progress(0, |ents| + 1, Probe, false)
    ensures Carry(e.id, to, e.term, |ents|, LastTermOf(ents), num, e.rl.committed) in SendAppend(e, to)
  {
    assert (ents + num)[|ents|..|ents + num|] == num;
    assert e.rl.log.Term(|ents|) == LastTermOf(ents);
  }

  /** Entries that begin with a conflict replace what the follower has from there on. */
  lemma Takes(n: Node, f: nat, term: nat, role: Role, ents: seq<LogEntry>, b: nat, m: Message) returns (o: Outcome)
    requires Is(n, f, term, role, ents, b) && (term < m.term || (term == m.term && role == StateFollower))
    requires Replaces(ents, b, m)
    ensures StepPre(Five(), n, m, 0) && o == Step(Five(), n, m, 0)
    ensures Is(o.node, f, m.term, StateFollower, ents[..m.index] + m.entries, b)
    ensures o.out == [Ack(f, m.from, m.term, m.index + |m.entries|)]
  {
    var a := Adopts(n, f, term, role, ents, b, m);
    o := TakesNow(a, ents, b, m);
    StepAdopted(Five(), n, m, 0, a);
  }

  /** The request's entries begin with a conflict or at the end of the log. */
  predicate Replaces(ents: seq<LogEntry>, b: nat, m: Message) {
    && m.mtype == MsgApp && m.commit == b && b <= m.index <= |ents|
    && Log(0, 0, ents).Term(m.index) == m.logTerm && m.entries != [] && Numbered(m.entries, m.index + 1)
    && (m.index < |ents| ==> ents[m.index].term != m.entries[0].term)
  }

  lemma Adopts(n: Node, f: nat, term: nat, role: Role, ents: seq<LogEntry>, b: nat, m: Message) returns (a: Node)
    requires Is(n, f, term, role, ents, b) && (term < m.term || (term == m.term && role == StateFollower))
    ensures a == Adopt(Five(), n, m, 0) && Is(a, f, m.term, StateFollower, ents, b) && !Stale(n, m)
  {
    if term < m.term {
      ResetWellFormed(Five(), n, m.term, 0);
    }
    a := Adopt(Five(), n, m, 0);
  }

  lemma TakesNow(a: Node, ents: seq<LogEntry>, b: nat, m: Message) returns (o: Outcome)
    requires Is(a, a.id, m.term, StateFollower, ents, b) && Replaces(ents, b, m)
    ensures CurrentPre(a, m) && o == StepCurrent(Five(), a, m, 0)
    ensures Is(o.node, a.id, m.term, StateFollower, ents[..m.index] + m.entries, b)
    ensures o.out == [Ack(a.id, m.from, m.term, m.index + |m.entries|)]
  {
    var g := a.(elapsed := 0, lead := m.from);
    ReplacedAt(a.rl.log, ents, m.index, m.entries);
    Accepted(g, m, ents, b);
    o := HandleAppendEntries(g, m);
  }

  lemma ReplacedAt(l: Log, ents: seq<LogEntry>, index: nat, es: seq<LogEntry>)
    requires l.Valid() && l == Log(0, 0, ents) && index <= |ents| && es != [] && Numbered(es, index + 1)
    requires index < |ents| ==> ents[index].term != es[0].term
    ensures l.FindConflict(es) == index + 1
    ensures l.Merge(index, es) == Log(0, 0, ents[..index] + es) && l.Merge(index, es).Valid()
  {
    assert es[0].index == index + 1;
    assert !l.MatchTerm(index + 1, es[0].term);
    MergeIsAppend(l, index, es, index + 1);
    assert es[0..] == es;
  }

  lemma Accepted(f: Node, m: Message, ents: seq<LogEntry>, b: nat)
    requires f.rl.Valid() && f.rl.log == Log(0, 0, ents) && f.rl.committed == b && m.commit == b
    requires b <= m.index <= |ents| && m.entries != [] && Numbered(m.entries, m.index + 1)
    requires f.rl.log.MatchTerm(m.index, m.logTerm) && f.rl.log.FindConflict(m.entries) == m.index + 1
    requires f.rl.log.Merge(m.index, m.entries) == Log(0, 0, ents[..m.index] + m.entries)
    requires f.rl.log.Merge(m.index, m.entries).Valid()
    ensures AppendPre(f, m)
    ensures HandleAppendEntries(f, m) ==
            Outcome(f.(rl := LogState(Log(0, 0, ents[..m.index] + m.entries), b, f.rl.applied)),
                    [AppendReply(f, m.from, m.index + |m.entries|)])
  {
  }

  /** A leader counts a reply without a term, whenever it was made. */
  lemma Heard(n: Node, id: nat, term: nat, ents: seq<LogEntry>, b: nat, from: nat, t: nat, index: nat)
    returns (o: Outcome)
    requires Is(n, id, term, StateLeader, ents, b) && from in Five().ids && from in n.prs
    ensures StepPre(Five(), n, Unlabelled(Ack(from, id, t, index)), 0)
    ensures o == Step(Five(), n, Unlabelled(Ack(from, id, t, index)), 0)
    ensures o.node == MaybeCommit(Five(), Progressed(n, Ack(from, id, t, index))).0
  {
    o := Step(Five(), n, Unlabelled(Ack(from, id, t, index)), 0);
    assert Progressed(n, Unlabelled(Ack(from, id, t, index))) == Progressed(n, Ack(from, id, t, index));
  }

  // ---------- one step of the cluster ----------

  /** A step of the code: replies arrive without their term, and a leader sends to a member
      only from where its progress says, and only when it broadcasts. */
  ghost predicate IsCodeStep(c: Cluster, a: Action, d: Cluster) {
    !a.Pace? && !a.Resend? && IsTextStep(Five(), c, a, d)
  }

  ghost function CodeSteps(): (Cluster, Action, Cluster) -> bool {
    (c, a, d) => IsCodeStep(c, a, d)
  }

  ghost predicate NodeIs(c: Cluster, id: nat, term: nat, role: Role, ents: seq<LogEntry>, b: nat) {
    id in c.nodes && Looks(c.nodes[id], id, term, role, ents, b)
  }

  /** A well-formed cluster with a property that every step of the code keeps, as being
      reachable is. */
  ghost predicate At(R: Cluster -> bool, c: Cluster) {
    && Closed(R, CodeSteps()) && R(c)
    && forall id {:trigger WellFormed(Five(), c.nodes[id])} | id in c.nodes :: WellFormed(Five(), c.nodes[id])
  }

  /** Only nodes `moved` have changed, and nothing sent is gone. */
  ghost predicate Moved(c: Cluster, d: Cluster, moved: set<nat>) {
    d.nodes.Keys == c.nodes.Keys && c.net <= d.net && forall i | i in c.nodes && i !in moved :: d.nodes[i] == c.nodes[i]
  }

  /** Node `id` has done `o`. */
  ghost predicate HasDone(c: Cluster, d: Cluster, id: nat, o: Outcome) {
    Moved(c, d, {id}) && id in d.nodes && d.nodes[id] == o.node && forall m | m in o.out :: m in d.net
  }

  lemma Does(R: Cluster -> bool, c: Cluster, a: Action, id: nat, o: Outcome) returns (d: Cluster)
    requires At(R, c) && id in c.nodes && WellFormed(Five(), o.node) && IsCodeStep(c, a, After(c, id, o))
    ensures At(R, d) && HasDone(c, d, id, o)
  {
    d := After(c, id, o);
    Goes(R, CodeSteps(), c, a, d);
  }

  lemma Ticks(R: Cluster -> bool, c: Cluster, id: nat, o: Outcome) returns (d: Cluster)
    requires At(R, c) && id in c.nodes && c.nodes[id].role != StateLeader
    requires WellFormed(Five(), c.nodes[id]) && WellFormed(Five(), o.node)
    requires o == TickElection(Five(), c.nodes[id], 0)
    ensures At(R, d) && HasDone(c, d, id, o)
  {
    d := Does(R, c, Tick(id, 0), id, o);
  }

  lemma Delivers(R: Cluster -> bool, c: Cluster, id: nat, m: Message, o: Outcome) returns (d: Cluster)
    requires At(R, c) && m in c.net && m.to == id && id in c.nodes && m.mtype != MsgAppResp
    requires StepPre(Five(), c.nodes[id], m, 0) && o == Step(Five(), c.nodes[id], m, 0) && WellFormed(Five(), o.node)
    ensures At(R, d) && HasDone(c, d, id, o)
  {
    d := Does(R, c, Deliver(m, 0), id, o);
  }

  lemma DeliversReply(R: Cluster -> bool, c: Cluster, id: nat, m: Message, o: Outcome) returns (d: Cluster)
    requires At(R, c) && m in c.net && m.to == id && id in c.nodes && m.mtype == MsgAppResp
    requires StepPre(Five(), c.nodes[id], Unlabelled(m), 0) && o == Step(Five(), c.nodes[id], Unlabelled(m), 0)
    requires WellFormed(Five(), o.node)
    ensures At(R, d) && HasDone(c, d, id, o)
  {
    d := Does(R, c, Deliver(m, 0), id, o);
  }

  lemma ProposeIsStep(c: Cluster, id: nat, es: seq<LogEntry>, o: Outcome)
    requires id in c.nodes && es != []
    requires StepPre(Five(), c.nodes[id], Prop(id, es), 0) && o == Step(Five(), c.nodes[id], Prop(id, es), 0)
    ensures IsCodeStep(c, Propose(id, es), After(c, id, o))
  {
  }

  lemma IsProposed(R: Cluster -> bool, c: Cluster, id: nat, es: seq<LogEntry>, o: Outcome) returns (d: Cluster)
    requires At(R, c) && id in c.nodes && es != []
    requires StepPre(Five(), c.nodes[id], Prop(id, es), 0) && o == Step(Five(), c.nodes[id], Prop(id, es), 0)
    requires WellFormed(Five(), o.node)
    ensures At(R, d) && HasDone(c, d, id, o)
  {
    ProposeIsStep(c, id, es, o);
    d := Does(R, c, Propose(id, es), id, o);
  }

  // ---------- an election ----------

  ghost predicate AskedAll(c: Cluster, id: nat, t: nat, ents: seq<LogEntry>) {
    forall to {:trigger Ask(id, to, t, ents)} | to in Five().ids && to != id :: Ask(id, to, t, ents) in c.net
  }

  /** Node `id` asks for votes in its next term. */
  lemma Stands(R: Cluster -> bool, c: Cluster, id: nat, term: nat, role: Role, ents: seq<LogEntry>, b: nat)
    returns (d: Cluster)
    requires At(R, c) && NodeIs(c, id, term, role, ents, b) && role != StateLeader
    ensures At(R, d) && Moved(c, d, {id})
    ensures NodeIs(d, id, term + 1, StateCandidate, ents, b) && d.nodes[id].votes == map[id := true]
    ensures AskedAll(d, id, term + 1, ents)
  {
    var o := Campaigns(c.nodes[id], id, term, role, ents, b);
    d := Ticks(R, c, id, o);
  }

  /** Node `v` grants its vote to `id`. */
  lemma Votes(R: Cluster -> bool, c: Cluster, v: nat, term: nat, role: Role, ents: seq<LogEntry>, b: nat,
              id: nat, t: nat, theirs: seq<LogEntry>)
    returns (d: Cluster)
    requires At(R, c) && NodeIs(c, v, term, role, ents, b) && term < t && id != 0
    requires c.nodes[v].rl.log.IsUpToDate(|theirs|, LastTermOf(theirs), false) && Ask(id, v, t, theirs) in c.net
    ensures At(R, d) && Moved(c, d, {v}) && NodeIs(d, v, t, StateFollower, ents, b) && Ballot(v, id, t) in d.net
  {
    var o := Grants(c.nodes[v], v, term, role, ents, b, id, t, theirs);
    d := Delivers(R, c, v, Ask(id, v, t, theirs), o);
    assert Ballot(v, id, t) in o.out;
  }

  /** Node `id` stands, and wins with the votes of `v` and `w`, whose logs are no better. */
  lemma Elects(R: Cluster -> bool, c: Cluster, id: nat, term: nat, role: Role, ents: seq<LogEntry>, b: nat,
               v: nat, vTerm: nat, vEnts: seq<LogEntry>, w: nat, wTerm: nat, wEnts: seq<LogEntry>)
    returns (d: Cluster)
    requires At(R, c) && id in c.nodes && v in c.nodes && w in c.nodes && id != v && id != w && v != w
    requires NodeIs(c, id, term, role, ents, b) && role != StateLeader
    requires NodeIs(c, v, vTerm, StateFollower, vEnts, b) && vTerm <= term
    requires NodeIs(c, w, wTerm, StateFollower, wEnts, b) && wTerm <= term
    requires c.nodes[v].rl.log.IsUpToDate(|ents|, LastTermOf(ents), false)
    requires c.nodes[w].rl.log.IsUpToDate(|ents|, LastTermOf(ents), false)
    ensures At(R, d) && Moved(c, d, {id, v, w})
    ensures NodeIs(d, id, term + 1, StateLeader, ents, b) && Unheard(d.nodes[id])
    ensures NodeIs(d, v, term + 1, StateFollower, vEnts, b)
    ensures NodeIs(d, w, term + 1, StateFollower, wEnts, b)
    ensures AskedAll(d, id, term + 1, ents)
  {
    assert WellFormed(Five(), c.nodes[id]) && WellFormed(Five(), c.nodes[v]) && WellFormed(Five(), c.nodes[w]);
    var c1 := Stands(R, c, id, term, role, ents, b);
    assert Ask(id, v, term + 1, ents) in c1.net && Ask(id, w, term + 1, ents) in c1.net;
    var c2 := BothVote(R, c1, id, term + 1, ents, b, v, vTerm, vEnts, w, wTerm, wEnts);
    d := Wins(R, c2, id, term + 1, ents, b, v, w);
  }

  lemma BothVote(R: Cluster -> bool, c: Cluster, id: nat, t: nat, ents: seq<LogEntry>, b: nat,
                 v: nat, vTerm: nat, vEnts: seq<LogEntry>, w: nat, wTerm: nat, wEnts: seq<LogEntry>)
    returns (d: Cluster)
    requires At(R, c) && v in c.nodes && w in c.nodes && v != w && id != 0
    requires NodeIs(c, v, vTerm, StateFollower, vEnts, b) && vTerm < t
    requires NodeIs(c, w, wTerm, StateFollower, wEnts, b) && wTerm < t
    requires c.nodes[v].rl.log.IsUpToDate(|ents|, LastTermOf(ents), false) && Ask(id, v, t, ents) in c.net
    requires c.nodes[w].rl.log.IsUpToDate(|ents|, LastTermOf(ents), false) && Ask(id, w, t, ents) in c.net
    ensures At(R, d) && Moved(c, d, {v, w}) && Ballot(v, id, t) in d.net && Ballot(w, id, t) in d.net
    ensures NodeIs(d, v, t, StateFollower, vEnts, b) && NodeIs(d, w, t, StateFollower, wEnts, b)
  {
    var c1 := Votes(R, c, v, vTerm, StateFollower, vEnts, b, id, t, ents);
    d := Votes(R, c1, w, wTerm, StateFollower, wEnts, b, id, t, ents);
  }

  /** Two ballots make a candidate leader. */
  lemma Wins(R: Cluster -> bool, c: Cluster, id: nat, t: nat, ents: seq<LogEntry>, b: nat, v: nat, w: nat)
    returns (d: Cluster)
    requires At(R, c) && id in c.nodes && id != v && id != w && v != w
    requires NodeIs(c, id, t, StateCandidate, ents, b) && c.nodes[id].votes == map[id := true]
    requires Ballot(v, id, t) in c.net && Ballot(w, id, t) in c.net
    ensures At(R, d) && Moved(c, d, {id}) && NodeIs(d, id, t, StateLeader, ents, b) && Unheard(d.nodes[id])
  {
    var o1 := CountsOne(c.nodes[id], id, t, ents, b, v);
    var c1 := Delivers(R, c, id, Ballot(v, id, t), o1);
    var o2 := CountsTwo(c1.nodes[id], id, t, ents, b, v, w);
    d := Delivers(R, c1, id, Ballot(w, id, t), o2);
  }

  // ---------- replication ----------

  /** Node `f` takes entries that begin with a conflict or at its log's end. */
  lemma Receives(R: Cluster -> bool, c: Cluster, f: nat, term: nat, role: Role, ents: seq<LogEntry>, b: nat,
                 id: nat, t: nat, index: nat, logTerm: nat, es: seq<LogEntry>, result: seq<LogEntry>)
    returns (d: Cluster)
    requires At(R, c) && NodeIs(c, f, term, role, ents, b)
    requires term < t || (term == t && role == StateFollower)
    requires b <= index <= |ents| && Log(0, 0, ents).Term(index) == logTerm
    requires es != [] && Numbered(es, index + 1) && (index < |ents| ==> ents[index].term != es[0].term)
    requires Carry(id, f, t, index, logTerm, es, b) in c.net && result == ents[..index] + es
    ensures At(R, d) && Moved(c, d, {f}) && NodeIs(d, f, t, StateFollower, result, b)
    ensures Ack(f, id, t, index + |es|) in d.net
  {
    var o;
    d, o := TakesSent(R, c, f, term, role, ents, b, Carry(id, f, t, index, logTerm, es, b));
    assert Ack(f, id, t, index + |es|) in o.out;
  }

  lemma TakesSent(R: Cluster -> bool, c: Cluster, f: nat, term: nat, role: Role, ents: seq<LogEntry>, b: nat,
                  m: Message)
    returns (d: Cluster, o: Outcome)
    requires At(R, c) && NodeIs(c, f, term, role, ents, b) && m in c.net && m.to == f
    requires (term < m.term || (term == m.term && role == StateFollower)) && Replaces(ents, b, m)
    ensures At(R, d) && HasDone(c, d, f, o) && o.out == [Ack(f, m.from, m.term, m.index + |m.entries|)]
    ensures Looks(o.node, f, m.term, StateFollower, ents[..m.index] + m.entries, b)
  {
    o := Takes(c.nodes[f], f, term, role, ents, b, m);
    d := Delivers(R, c, f, m, o);
  }

  /** The leader's progress says nothing of the others. */
  ghost predicate OnlyOwn(n: Node) {
    forall to | to in Five().ids :: to in n.prs && n.prs[to].matched == if to == n.id then n.LastIndex() else 0
  }

  /** Node `id` has log `ents` and has committed at least `k` entries. */
  ghost predicate HasCommitted(c: Cluster, id: nat, term: nat, ents: seq<LogEntry>, k: nat) {
    id in c.nodes && c.nodes[id].term == term && c.nodes[id].rl.log == Log(0, 0, ents) && c.nodes[id].rl.committed >= k
  }

  /** The leader's progress has member `v` at the end of the log and the others at nothing. */
  ghost predicate OwnAnd(n: Node, v: nat) {
    forall to | to in Five().ids ::
      to in n.prs && n.prs[to].matched == if to == n.id || to == v then n.LastIndex() else 0
  }

  lemma HearsOne(R: Cluster -> bool, c: Cluster, id: nat, term: nat, ents: seq<LogEntry>, b: nat, v: nat, t: nat)
    returns (d: Cluster)
    requires At(R, c) && NodeIs(c, id, term, StateLeader, ents, b) && OnlyOwn(c.nodes[id])
    requires v in Five().ids && v != id && Ack(v, id, t, |ents|) in c.net
    ensures At(R, d) && Moved(c, d, {id}) && NodeIs(d, id, term, StateLeader, ents, b) && OwnAnd(d.nodes[id], v)
  {
    var n, m := c.nodes[id], Ack(v, id, t, |ents|);
    var o := Heard(n, id, term, ents, b, v, t, |ents|);
    NoCommit(Progressed(n, m), id, v, b);
    d := DeliversReply(R, c, id, m, o);
  }

  lemma HearsTwo(R: Cluster -> bool, c: Cluster, id: nat, term: nat, ents: seq<LogEntry>, b: nat,
                 v: nat, w: nat, t: nat)
    returns (d: Cluster)
    requires At(R, c) && NodeIs(c, id, term, StateLeader, ents, b) && OwnAnd(c.nodes[id], v)
    requires v in Five().ids && w in Five().ids && v != id && w != id && v != w
    requires LastTermOf(ents) == term && Ack(w, id, t, |ents|) in c.net
    ensures At(R, d) && Moved(c, d, {id}) && HasCommitted(d, id, term, ents, |ents|)
  {
    var o := HeardTwice(c.nodes[id], id, term, ents, b, v, w, t);
    d := DeliversReply(R, c, id, Ack(w, id, t, |ents|), o);
  }

  lemma HeardTwice(n: Node, id: nat, term: nat, ents: seq<LogEntry>, b: nat, v: nat, w: nat, t: nat)
    returns (o: Outcome)
    requires Is(n, id, term, StateLeader, ents, b) && OwnAnd(n, v) && LastTermOf(ents) == term
    requires v in Five().ids && w in Five().ids && v != id && w != id && v != w
    ensures StepPre(Five(), n, Unlabelled(Ack(w, id, t, |ents|)), 0)
    ensures o == Step(Five(), n, Unlabelled(Ack(w, id, t, |ents|)), 0) && WellFormed(Five(), o.node)
    ensures o.node.term == term && o.node.rl.log == Log(0, 0, ents) && o.node.rl.committed >= |ents|
  {
    o := Heard(n, id, term, ents, b, w, t, |ents|);
    var p := Progressed(n, Ack(w, id, t, |ents|));
    AllMatched(n, p, id, ents, v, w, t);
    CommitsLog(p, id, term, ents, v, w);
  }

  lemma CommitsLog(p: Node, id: nat, term: nat, ents: seq<LogEntry>, v: nat, w: nat)
    requires WellFormed(Five(), p) && p.term == term && p.rl.log == Log(0, 0, ents) && LastTermOf(ents) == term
    requires forall to | to in Five().ids :: p.prs[to].matched <= |ents|
    requires id in Five().ids && v in Five().ids && w in Five().ids && v != id && w != id && v != w
    requires p.prs[id].matched == |ents| && p.prs[v].matched == |ents| && p.prs[w].matched == |ents|
    ensures var q := MaybeCommit(Five(), p).0;
      WellFormed(Five(), q) && q.term == term && q.rl.log == Log(0, 0, ents) && q.rl.committed >= |ents|
  {
    Commits(p, {id, v, w}, |ents|);
  }

  lemma AllMatched(n: Node, p: Node, id: nat, ents: seq<LogEntry>, v: nat, w: nat, t: nat)
    requires WellFormed(Five(), n) && n.id == id && n.rl.log == Log(0, 0, ents) && OwnAnd(n, v) && w in Five().ids
    requires p == Progressed(n, Ack(w, id, t, |ents|)) && v in Five().ids
    ensures WellFormed(Five(), p)
    ensures forall to | to in Five().ids :: p.prs[to].matched <= |ents|
    ensures p.prs[id].matched == |ents| && p.prs[v].matched == |ents| && p.prs[w].matched == |ents|
  {
    assert p.prs.Keys == n.prs.Keys;
  }
}
