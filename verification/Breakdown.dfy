/** A run of five nodes with the stated election rules and the code's unlabelled replies, at
    the end of which a leader lacks an entry that is committed.  Leader 1 of term 2 sends two
    entries, which only node 2 takes; leader 3 of term 3 replaces them at nodes 1, 2 and 4;
    node 1 leads again in term 4, and the reply to its old request makes it commit an entry
    that only nodes 1 and 4 hold; node 3 leads term 5 without it. */
module Breakdown {
  import opened FiveNodes
  import opened LogModel
  import opened Quorums
  import opened RaftNode
  import opened Cluster
  import opened Paths
  import opened Electability

  // ---------- the entries ----------

  function Proposal(data: string): LogEntry {
    LogEntry(0, 0, data, EntryNormal)
  }

  /** What leader 1 of term 2 appends after the first `b` entries, two of them. */
  function Early(b: nat): seq<LogEntry> {
    NumberEntries([Proposal("a"), Proposal("b")], 2, b + 1)
  }

  /** What leader 3 of term 3 appends. */
  function Between(b: nat): seq<LogEntry> {
    NumberEntries([Proposal("c")], 3, b + 1)
  }

  /** What leader 1 of term 4 appends after that. */
  function Late(b: nat): seq<LogEntry> {
    NumberEntries([Proposal("d")], 4, b + 2)
  }

  ghost predicate Boot(boot: seq<LogEntry>, b: nat) {
    |boot| == b && b > 0 && LastTermOf(boot) == 1
  }

  // ---------- the run ----------

  /** Every node as bootstrap leaves it. */
  ghost predicate Phase0(c: Cluster, boot: seq<LogEntry>, b: nat) {
    && Boot(boot, b)
    && NodeIs(c, 1, 1, StateFollower, boot, b) && NodeIs(c, 2, 1, StateFollower, boot, b)
    && NodeIs(c, 3, 1, StateFollower, boot, b) && NodeIs(c, 4, 1, StateFollower, boot, b)
    && NodeIs(c, 5, 1, StateFollower, boot, b)
  }

  /** Leader 1 of term 2 has two entries that node 2 alone took, and node 2's reply is sent. */
  ghost predicate Phase1(c: Cluster, boot: seq<LogEntry>, b: nat) {
    && Boot(boot, b)
    && NodeIs(c, 1, 2, StateLeader, boot + Early(b), b)
    && NodeIs(c, 2, 2, StateFollower, boot + Early(b), b)
    && NodeIs(c, 3, 1, StateFollower, boot, b)
    && NodeIs(c, 4, 2, StateFollower, boot, b)
    && NodeIs(c, 5, 2, StateFollower, boot, b)
    && Ack(2, 1, 2, b + 2) in c.net
  }

  lemma ToPhase1(R: Cluster -> bool, c: Cluster, boot: seq<LogEntry>, b: nat) returns (d: Cluster)
    requires At(R, c) && Phase0(c, boot, b)
    ensures At(R, d) && Phase1(d, boot, b)
  {
    var c1 := OneLeads(R, c, boot, b);
    var c2 := AppendsEarly(R, c1, boot, b);
    d := TwoTakes(R, c2, boot, b);
  }

  lemma OneLeads(R: Cluster -> bool, c: Cluster, boot: seq<LogEntry>, b: nat) returns (d: Cluster)
    requires At(R, c) && Boot(boot, b)
    requires NodeIs(c, 1, 1, StateFollower, boot, b)
    requires NodeIs(c, 4, 1, StateFollower, boot, b) && NodeIs(c, 5, 1, StateFollower, boot, b)
    ensures At(R, d) && Moved(c, d, {1, 4, 5})
    ensures NodeIs(d, 1, 2, StateLeader, boot, b) && Unheard(d.nodes[1])
    ensures NodeIs(d, 4, 2, StateFollower, boot, b) && NodeIs(d, 5, 2, StateFollower, boot, b)
  {
    d := Elects(R, c, 1, 1, StateFollower, boot, b, 4, 1, boot, 5, 1, boot);
  }

  lemma AppendsEarly(R: Cluster -> bool, c: Cluster, boot: seq<LogEntry>, b: nat) returns (d: Cluster)
    requires At(R, c) && Boot(boot, b) && NodeIs(c, 1, 2, StateLeader, boot, b) && Unheard(c.nodes[1])
    ensures At(R, d) && Moved(c, d, {1}) && NodeIs(d, 1, 2, StateLeader, boot + Early(b), b)
    ensures Carry(1, 2, 2, b, 1, Early(b), b) in d.net
  {
    var o := Proposes(c.nodes[1], 1, 2, boot, b, [Proposal("a"), Proposal("b")], Early(b));
    d := IsProposed(R, c, 1, [Proposal("a"), Proposal("b")], o);
  }

  lemma TwoTakes(R: Cluster -> bool, c: Cluster, boot: seq<LogEntry>, b: nat) returns (d: Cluster)
    requires At(R, c) && Boot(boot, b) && NodeIs(c, 2, 1, StateFollower, boot, b)
    requires Carry(1, 2, 2, b, 1, Early(b), b) in c.net
    ensures At(R, d) && Moved(c, d, {2}) && Ack(2, 1, 2, b + 2) in d.net
    ensures NodeIs(d, 2, 2, StateFollower, boot + Early(b), b)
  {
    assert boot[..b] + Early(b) == boot + Early(b);
    d := Receives(R, c, 2, 1, StateFollower, boot, b, 1, 2, b, 1, Early(b), boot + Early(b));
  }

  /** Leader 3 of term 3 has replaced them at nodes 1 and 2, and node 4 has its entry too. */
  ghost predicate Phase2(c: Cluster, boot: seq<LogEntry>, b: nat) {
    && Boot(boot, b)
    && NodeIs(c, 1, 3, StateFollower, boot + Between(b), b)
    && NodeIs(c, 2, 3, StateFollower, boot + Between(b), b)
    && NodeIs(c, 3, 3, StateLeader, boot + Between(b), b)
    && NodeIs(c, 4, 3, StateFollower, boot + Between(b), b)
    && NodeIs(c, 5, 3, StateFollower, boot, b)
    && Ack(2, 1, 2, b + 2) in c.net
  }

  lemma ToPhase2(R: Cluster -> bool, c: Cluster, boot: seq<LogEntry>, b: nat) returns (d: Cluster)
    requires At(R, c) && Phase1(c, boot, b)
    ensures At(R, d) && Phase2(d, boot, b)
  {
    var c1 := ThreeLeads(R, c, boot, b);
    d := ReplacesEarly(R, c1, boot, b);
  }

  lemma ThreeLeads(R: Cluster -> bool, c: Cluster, boot: seq<LogEntry>, b: nat) returns (d: Cluster)
    requires At(R, c) && Boot(boot, b)
    requires NodeIs(c, 3, 1, StateFollower, boot, b)
    requires NodeIs(c, 4, 2, StateFollower, boot, b) && NodeIs(c, 5, 2, StateFollower, boot, b)
    ensures At(R, d) && Moved(c, d, {3, 4, 5})
    ensures NodeIs(d, 3, 3, StateLeader, boot, b) && Unheard(d.nodes[3])
    ensures NodeIs(d, 4, 3, StateFollower, boot, b) && NodeIs(d, 5, 3, StateFollower, boot, b)
  {
    var c1 := Stands(R, c, 3, 1, StateFollower, boot, b);
    d := Elects(R, c1, 3, 2, StateCandidate, boot, b, 4, 2, boot, 5, 2, boot);
  }

  lemma ReplacesEarly(R: Cluster -> bool, c: Cluster, boot: seq<LogEntry>, b: nat) returns (d: Cluster)
    requires At(R, c) && Boot(boot, b)
    requires NodeIs(c, 3, 3, StateLeader, boot, b) && Unheard(c.nodes[3])
    requires NodeIs(c, 1, 2, StateLeader, boot + Early(b), b)
    requires NodeIs(c, 2, 2, StateFollower, boot + Early(b), b)
    requires NodeIs(c, 4, 3, StateFollower, boot, b)
    ensures At(R, d) && Moved(c, d, {1, 2, 3, 4})
    ensures NodeIs(d, 1, 3, StateFollower, boot + Between(b), b)
    ensures NodeIs(d, 2, 3, StateFollower, boot + Between(b), b)
    ensures NodeIs(d, 3, 3, StateLeader, boot + Between(b), b)
    ensures NodeIs(d, 4, 3, StateFollower, boot + Between(b), b)
  {
    var c1 := AppendsBetween(R, c, boot, b);
    var c2 := BothReplace(R, c1, boot, b);
    assert boot[..b] + Between(b) == boot + Between(b);
    d := Receives(R, c2, 4, 3, StateFollower, boot, b, 3, 3, b, 1, Between(b), boot + Between(b));
  }

  lemma BothReplace(R: Cluster -> bool, c: Cluster, boot: seq<LogEntry>, b: nat) returns (d: Cluster)
    requires At(R, c) && Boot(boot, b)
    requires NodeIs(c, 1, 2, StateLeader, boot + Early(b), b) && NodeIs(c, 2, 2, StateFollower, boot + Early(b), b)
    requires Carry(3, 1, 3, b, 1, Between(b), b) in c.net && Carry(3, 2, 3, b, 1, Between(b), b) in c.net
    ensures At(R, d) && Moved(c, d, {1, 2})
    ensures NodeIs(d, 1, 3, StateFollower, boot + Between(b), b) && NodeIs(d, 2, 3, StateFollower, boot + Between(b), b)
  {
    CutEarly(boot, b);
    var c1 := Receives(R, c, 1, 2, StateLeader, boot + Early(b), b, 3, 3, b, 1, Between(b), boot + Between(b));
    d := Receives(R, c1, 2, 2, StateFollower, boot + Early(b), b, 3, 3, b, 1, Between(b), boot + Between(b));
  }

  lemma AppendsBetween(R: Cluster -> bool, c: Cluster, boot: seq<LogEntry>, b: nat) returns (d: Cluster)
    requires At(R, c) && Boot(boot, b) && NodeIs(c, 3, 3, StateLeader, boot, b) && Unheard(c.nodes[3])
    ensures At(R, d) && Moved(c, d, {3}) && NodeIs(d, 3, 3, StateLeader, boot + Between(b), b)
    ensures Carry(3, 1, 3, b, 1, Between(b), b) in d.net && Carry(3, 2, 3, b, 1, Between(b), b) in d.net
    ensures Carry(3, 4, 3, b, 1, Between(b), b) in d.net
  {
    var o := Proposes(c.nodes[3], 3, 3, boot, b, [Proposal("c")], Between(b));
    d := IsProposed(R, c, 3, [Proposal("c")], o);
  }

  lemma CutEarly(boot: seq<LogEntry>, b: nat)
    requires Boot(boot, b)
    ensures (boot + Early(b))[..b] + Between(b) == boot + Between(b)
    ensures Log(0, 0, boot + Early(b)).Term(b) == 1 && (boot + Early(b))[b].term == 2
  {
  }

  /** Node 1 leads again in term 4 with an entry more, which node 4 has taken, and its request
      for node 3's vote is on its way. */
  ghost predicate Phase3(c: Cluster, boot: seq<LogEntry>, b: nat) {
    && Boot(boot, b)
    && NodeIs(c, 1, 4, StateLeader, boot + Between(b) + Late(b), b) && OnlyOwn(c.nodes[1])
    && NodeIs(c, 2, 3, StateFollower, boot + Between(b), b)
    && NodeIs(c, 3, 3, StateLeader, boot + Between(b), b)
    && NodeIs(c, 4, 4, StateFollower, boot + Between(b) + Late(b), b)
    && NodeIs(c, 5, 4, StateFollower, boot, b)
    && Ask(1, 3, 4, boot + Between(b)) in c.net
    && Ack(4, 1, 4, b + 2) in c.net && Ack(2, 1, 2, b + 2) in c.net
  }

  lemma ToPhase3(R: Cluster -> bool, c: Cluster, boot: seq<LogEntry>, b: nat) returns (d: Cluster)
    requires At(R, c) && Phase2(c, boot, b)
    ensures At(R, d) && Phase3(d, boot, b)
  {
    var ents := boot + Between(b);
    var c1 := OneLeadsAgain(R, c, boot, b, ents);
    var c2 := AppendsLate(R, c1, boot, b);
    d := FourTakes(R, c2, boot, b);
  }

  lemma OneLeadsAgain(R: Cluster -> bool, c: Cluster, boot: seq<LogEntry>, b: nat, ents: seq<LogEntry>)
    returns (d: Cluster)
    requires At(R, c) && Boot(boot, b) && ents == boot + Between(b)
    requires NodeIs(c, 1, 3, StateFollower, ents, b)
    requires NodeIs(c, 4, 3, StateFollower, ents, b) && NodeIs(c, 5, 3, StateFollower, boot, b)
    ensures At(R, d) && Moved(c, d, {1, 4, 5}) && Ask(1, 3, 4, ents) in d.net
    ensures NodeIs(d, 1, 4, StateLeader, ents, b) && Unheard(d.nodes[1])
    ensures NodeIs(d, 4, 4, StateFollower, ents, b) && NodeIs(d, 5, 4, StateFollower, boot, b)
  {
    d := Elects(R, c, 1, 3, StateFollower, ents, b, 4, 3, ents, 5, 3, boot);
    assert Ask(1, 3, 4, ents) in d.net;
  }

  lemma AppendsLate(R: Cluster -> bool, c: Cluster, boot: seq<LogEntry>, b: nat) returns (d: Cluster)
    requires At(R, c) && Boot(boot, b)
    requires NodeIs(c, 1, 4, StateLeader, boot + Between(b), b) && Unheard(c.nodes[1])
    ensures At(R, d) && Moved(c, d, {1}) && Carry(1, 4, 4, b + 1, 3, Late(b), b) in d.net
    ensures NodeIs(d, 1, 4, StateLeader, boot + Between(b) + Late(b), b) && OnlyOwn(d.nodes[1])
  {
    var o := Proposes(c.nodes[1], 1, 4, boot + Between(b), b, [Proposal("d")], Late(b));
    d := IsProposed(R, c, 1, [Proposal("d")], o);
  }

  lemma FourTakes(R: Cluster -> bool, c: Cluster, boot: seq<LogEntry>, b: nat) returns (d: Cluster)
    requires At(R, c) && Boot(boot, b) && NodeIs(c, 4, 4, StateFollower, boot + Between(b), b)
    requires Carry(1, 4, 4, b + 1, 3, Late(b), b) in c.net
    ensures At(R, d) && Moved(c, d, {4}) && Ack(4, 1, 4, b + 2) in d.net
    ensures NodeIs(d, 4, 4, StateFollower, boot + Between(b) + Late(b), b)
  {
    var ents := boot + Between(b);
    assert ents[..b + 1] + Late(b) == ents + Late(b);
    d := Receives(R, c, 4, 4, StateFollower, ents, b, 1, 4, b + 1, 3, Late(b), ents + Late(b));
  }

  /** With the reply of node 4 and the old one of node 2, leader 1 commits all its log. */
  ghost predicate Phase4(c: Cluster, boot: seq<LogEntry>, b: nat) {
    && Boot(boot, b)
    && HasCommitted(c, 1, 4, boot + Between(b) + Late(b), b + 2)
    && NodeIs(c, 2, 3, StateFollower, boot + Between(b), b)
    && NodeIs(c, 3, 3, StateLeader, boot + Between(b), b)
    && NodeIs(c, 4, 4, StateFollower, boot + Between(b) + Late(b), b)
    && NodeIs(c, 5, 4, StateFollower, boot, b)
    && Ask(1, 3, 4, boot + Between(b)) in c.net
  }

  lemma ToPhase4(R: Cluster -> bool, c: Cluster, boot: seq<LogEntry>, b: nat) returns (d: Cluster)
    requires At(R, c) && Phase3(c, boot, b)
    ensures At(R, d) && Phase4(d, boot, b)
  {
    var ents := boot + Between(b) + Late(b);
    var c1 := HearsOne(R, c, 1, 4, ents, b, 4, 4);
    d := HearsTwo(R, c1, 1, 4, ents, b, 4, 2, 2);
  }

  /** Node 3 leads term 5 with a log that ends before what is committed. */
  ghost predicate Phase5(c: Cluster, boot: seq<LogEntry>, b: nat) {
    && Boot(boot, b)
    && HasCommitted(c, 1, 4, boot + Between(b) + Late(b), b + 2)
    && NodeIs(c, 2, 5, StateFollower, boot + Between(b), b)
    && NodeIs(c, 3, 5, StateLeader, boot + Between(b), b) && Unheard(c.nodes[3])
    && NodeIs(c, 4, 4, StateFollower, boot + Between(b) + Late(b), b)
  }

  lemma ToPhase5(R: Cluster -> bool, c: Cluster, boot: seq<LogEntry>, b: nat) returns (d: Cluster)
    requires At(R, c) && Phase4(c, boot, b)
    ensures At(R, d) && Phase5(d, boot, b)
  {
    var c1 := ThreeVotes(R, c, boot, b);
    d := LeadsAgain(R, c1, boot, b);
  }

  lemma ThreeVotes(R: Cluster -> bool, c: Cluster, boot: seq<LogEntry>, b: nat) returns (d: Cluster)
    requires At(R, c) && Boot(boot, b) && NodeIs(c, 3, 3, StateLeader, boot + Between(b), b)
    requires Ask(1, 3, 4, boot + Between(b)) in c.net
    ensures At(R, d) && Moved(c, d, {3}) && NodeIs(d, 3, 4, StateFollower, boot + Between(b), b)
  {
    var ents := boot + Between(b);
    d := Votes(R, c, 3, 3, StateLeader, ents, b, 1, 4, ents);
  }

  lemma LeadsAgain(R: Cluster -> bool, c: Cluster, boot: seq<LogEntry>, b: nat) returns (d: Cluster)
    requires At(R, c) && Boot(boot, b) && NodeIs(c, 3, 4, StateFollower, boot + Between(b), b)
    requires NodeIs(c, 2, 3, StateFollower, boot + Between(b), b) && NodeIs(c, 5, 4, StateFollower, boot, b)
    ensures At(R, d) && Moved(c, d, {2, 3, 5}) && NodeIs(d, 2, 5, StateFollower, boot + Between(b), b)
    ensures NodeIs(d, 3, 5, StateLeader, boot + Between(b), b) && Unheard(d.nodes[3])
  {
    var ents := boot + Between(b);
    d := Elects(R, c, 3, 4, StateFollower, ents, b, 2, 3, ents, 5, 4, boot);
  }

  /** What leader 3 of term 5 appends where an entry is committed. */
  function Other(b: nat): seq<LogEntry> {
    NumberEntries([Proposal("e")], 5, b + 2)
  }

  /** Nodes 1 and 3 have committed different entries. */
  ghost predicate Phase6(c: Cluster, boot: seq<LogEntry>, b: nat) {
    && HasCommitted(c, 1, 4, boot + Between(b) + Late(b), b + 2)
    && HasCommitted(c, 3, 5, boot + Between(b) + Other(b), b + 2)
  }

  lemma ToPhase6(R: Cluster -> bool, c: Cluster, boot: seq<LogEntry>, b: nat) returns (d: Cluster)
    requires At(R, c) && Phase5(c, boot, b)
    ensures At(R, d) && Phase6(d, boot, b)
  {
    var c1 := AppendsOther(R, c, boot, b);
    var c2 := BothTake(R, c1, boot, b);
    d := ThreeCommits(R, c2, boot + Between(b) + Other(b), b);
  }

  lemma ThreeCommits(R: Cluster -> bool, c: Cluster, ents: seq<LogEntry>, b: nat) returns (d: Cluster)
    requires At(R, c) && NodeIs(c, 3, 5, StateLeader, ents, b) && OnlyOwn(c.nodes[3])
    requires LastTermOf(ents) == 5 && |ents| == b + 2 && Ack(2, 3, 5, b + 2) in c.net && Ack(4, 3, 5, b + 2) in c.net
    ensures At(R, d) && Moved(c, d, {3}) && HasCommitted(d, 3, 5, ents, b + 2)
  {
    var c1 := HearsOne(R, c, 3, 5, ents, b, 4, 5);
    d := HearsTwo(R, c1, 3, 5, ents, b, 4, 2, 5);
  }

  lemma AppendsOther(R: Cluster -> bool, c: Cluster, boot: seq<LogEntry>, b: nat) returns (d: Cluster)
    requires At(R, c) && Boot(boot, b) && NodeIs(c, 3, 5, StateLeader, boot + Between(b), b)
    requires Unheard(c.nodes[3])
    ensures At(R, d) && Moved(c, d, {3})
    ensures NodeIs(d, 3, 5, StateLeader, boot + Between(b) + Other(b), b) && OnlyOwn(d.nodes[3])
    ensures Carry(3, 2, 5, b + 1, 3, Other(b), b) in d.net && Carry(3, 4, 5, b + 1, 3, Other(b), b) in d.net
  {
    var o := Proposes(c.nodes[3], 3, 5, boot + Between(b), b, [Proposal("e")], Other(b));
    d := IsProposed(R, c, 3, [Proposal("e")], o);
  }

  lemma BothTake(R: Cluster -> bool, c: Cluster, boot: seq<LogEntry>, b: nat) returns (d: Cluster)
    requires At(R, c) && Boot(boot, b) && NodeIs(c, 2, 5, StateFollower, boot + Between(b), b)
    requires NodeIs(c, 4, 4, StateFollower, boot + Between(b) + Late(b), b)
    requires Carry(3, 2, 5, b + 1, 3, Other(b), b) in c.net && Carry(3, 4, 5, b + 1, 3, Other(b), b) in c.net
    ensures At(R, d) && Moved(c, d, {2, 4}) && Ack(2, 3, 5, b + 2) in d.net && Ack(4, 3, 5, b + 2) in d.net
  {
    var ents, result := boot + Between(b), boot + Between(b) + Other(b);
    CutLate(boot, b);
    var c1 := Receives(R, c, 2, 5, StateFollower, ents, b, 3, 5, b + 1, 3, Other(b), result);
    d := Receives(R, c1, 4, 4, StateFollower, ents + Late(b), b, 3, 5, b + 1, 3, Other(b), result);
  }

  lemma CutLate(boot: seq<LogEntry>, b: nat)
    requires Boot(boot, b)
    ensures var ents := boot + Between(b);
      && ents[..b + 1] + Other(b) == ents + Other(b) && (ents + Late(b))[..b + 1] + Other(b) == ents + Other(b)
      && Log(0, 0, ents).Term(b + 1) == 3 && Log(0, 0, ents + Late(b)).Term(b + 1) == 3
      && (ents + Late(b))[b + 1].term == 4
  {
  }

  // ---------- the theorem ----------

  /** Some run of the code from bootstrap comes to `c`. */
  ghost predicate Comes(peers: seq<Peer>, c: Cluster) {
    Arrives(Starts(Five(), peers), CodeSteps(), c)
  }

  lemma ComesClosed(peers: seq<Peer>, R: Cluster -> bool)
    requires forall c :: R(c) == Comes(peers, c)
    ensures Closed(R, CodeSteps())
  {
    forall c, a, d | R(c) && CodeSteps()(c, a, d) ensures R(d) {
      ArrivesFurther(Starts(Five(), peers), CodeSteps(), c, a, d);
    }
  }

  lemma StartsAt(peers: seq<Peer>, R: Cluster -> bool)
    requires PeersOf(Five(), peers) && forall c :: R(c) == Comes(peers, c)
    ensures At(R, Fresh(Five(), peers)) && Phase0(Fresh(Five(), peers), BootEntries(peers), |peers|)
  {
    FreshInit(Five(), peers);
    ArrivesAtStart(Starts(Five(), peers), CodeSteps(), Fresh(Five(), peers));
    ComesClosed(peers, R);
    FreshPhase(peers, Fresh(Five(), peers));
  }

  lemma FreshPhase(peers: seq<Peer>, c: Cluster)
    requires PeersOf(Five(), peers) && c == Fresh(Five(), peers)
    ensures Phase0(c, BootEntries(peers), |peers|)
    ensures forall id {:trigger WellFormed(Five(), c.nodes[id])} | id in c.nodes :: WellFormed(Five(), c.nodes[id])
  {
    forall id | id in c.nodes ensures WellFormed(Five(), c.nodes[id]) {
      StartedWellFormed(peers, id);
    }
    FreshNode(peers, c, 1);
    FreshNode(peers, c, 2);
    FreshNode(peers, c, 3);
    FreshNode(peers, c, 4);
    FreshNode(peers, c, 5);
  }

  lemma FreshNode(peers: seq<Peer>, c: Cluster, id: nat)
    requires c == Fresh(Five(), peers) && id in Five().ids
    ensures NodeIs(c, id, 1, StateFollower, BootEntries(peers), |peers|)
  {
    assert c.nodes[id] == Started(Five(), id, peers, 0);
  }

  lemma StartedWellFormed(peers: seq<Peer>, id: nat)
    requires id in Five().ids
    ensures WellFormed(Five(), Started(Five(), id, peers, 0))
  {
    assert Started(Five(), id, peers, 0).prs.Keys == Members(Five().ids);
  }

  /** A leader's log that ends before what a node of an earlier term has committed. */
  ghost predicate Lacks(c: Cluster) {
    && 1 in c.nodes && 3 in c.nodes
    && c.nodes[3].role == StateLeader && c.nodes[1].term < c.nodes[3].term
    && c.nodes[3].LastIndex() < c.nodes[1].rl.committed
  }

  /** Two nodes that have committed different entries at index `i + 1`. */
  ghost predicate Differ(c: Cluster, i: nat) {
    && 1 in c.nodes && 3 in c.nodes
    && i < c.nodes[1].rl.committed && i < c.nodes[3].rl.committed
    && i < |Ents(c.nodes[1])| && i < |Ents(c.nodes[3])| && Ents(c.nodes[1])[i] != Ents(c.nodes[3])[i]
  }

  lemma PhaseLacks(c: Cluster, boot: seq<LogEntry>, b: nat)
    requires Phase5(c, boot, b)
    ensures Lacks(c)
  {
  }

  lemma PhaseDiffers(c: Cluster, boot: seq<LogEntry>, b: nat)
    requires Boot(boot, b) && Phase6(c, boot, b)
    ensures Differ(c, b + 1)
  {
    assert Ents(c.nodes[1])[b + 1].term == 4 && Ents(c.nodes[3])[b + 1].term == 5;
  }

  lemma FromStart(R: Cluster -> bool, c: Cluster, boot: seq<LogEntry>, b: nat) returns (d: Cluster)
    requires At(R, c) && Phase0(c, boot, b)
    ensures At(R, d) && Phase5(d, boot, b)
  {
    d := ToPhase1(R, c, boot, b);
    d := ToPhase2(R, d, boot, b);
    d := ToPhase3(R, d, boot, b);
    d := ToPhase4(R, d, boot, b);
    d := ToPhase5(R, d, boot, b);
  }

  /** Leader completeness fails with the stated election rules and the code's unlabelled
      replies: some run of the code comes to where a leader lacks a committed entry. */
  lemma LeaderLacksCommitted(peers: seq<Peer>)
    requires PeersOf(Five(), peers)
    ensures exists c :: Comes(peers, c) && Lacks(c)
  {
    var R := (c: Cluster) => Comes(peers, c);
    StartsAt(peers, R);
    var c := FromStart(R, Fresh(Five(), peers), BootEntries(peers), |peers|);
    PhaseLacks(c, BootEntries(peers), |peers|);
    assert Comes(peers, c);
  }

  /** And so does committed agreement. */
  lemma CommittedDiffers(peers: seq<Peer>)
    requires PeersOf(Five(), peers)
    ensures exists c, i: nat :: Comes(peers, c) && Differ(c, i)
  {
    var R := (c: Cluster) => Comes(peers, c);
    StartsAt(peers, R);
    var c := FromStart(R, Fresh(Five(), peers), BootEntries(peers), |peers|);
    c := ToPhase6(R, c, BootEntries(peers), |peers|);
    PhaseDiffers(c, BootEntries(peers), |peers|);
    assert Comes(peers, c);
  }
}
