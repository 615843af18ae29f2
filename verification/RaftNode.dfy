/** One node of the cluster: its state and what each handler does to it.  The class
    `Raft` is proved to do exactly this; the cluster runs these functions. */
module RaftNode {
  import opened LogModel
  import opened Quorums

  datatype Role = StateFollower | StateCandidate | StateLeader

  datatype ProgressState = Probe | Replicate | Snapshot

  /** What a leader knows of a follower. */
  datatype Progress = Progress(matched: nat, next: nat, state: ProgressState, paused: bool) {

    predicate IsPaused() {
      match state
      case Probe => paused
      case Replicate => false
      case Snapshot => true
    }

    /** Never goes back, whatever the age of the reply that carries `n`. */
    function MaybeUpdate(n: nat): Progress {
      Progress(if matched < n then n else matched, if next < n + 1 then n + 1 else next,
               state, paused && matched >= n)
    }
  }

  datatype MessageType = MsgHup | MsgProp | MsgApp | MsgAppResp | MsgVote | MsgVoteResp

  datatype Message = Message(mtype: MessageType, to: nat, from: nat, term: nat, logTerm: nat, index: nat,
                             entries: seq<LogEntry>, commit: nat, reject: bool, rejectHint: nat)

  /** The membership in the order of its identifiers, and the rules a cluster runs with.
      `win` is the number of grants that elects; `stepDown` says whether a candidate
      that is short of it after a reply gives up; `strictTie` says whether a candidate
      whose log ends like the voter's is refused. */
  datatype Config = Config(ids: seq<nat>, win: nat, stepDown: bool, strictTie: bool, electionTimeout: nat) {

    ghost predicate Valid() {
      && |ids| >= 1 && Distinct(ids) && 0 !in ids
      && win >= Quorum(|ids|)
      && electionTimeout >= 1
    }
  }

  datatype Node = Node(id: nat, term: nat, vote: nat, role: Role, votes: map<nat, bool>,
                       prs: map<nat, Progress>, lead: nat, rl: LogState, elapsed: nat, timeout: nat) {

    function LastIndex(): nat {
      rl.log.LastIndex()
    }

    function Matches(): map<nat, nat> {
      map id | id in prs :: prs[id].matched
    }

    function Grants(): set<nat> {
      set id | id in votes && votes[id]
    }
  }

  /** The state after a handler and the messages it sends. */
  datatype Outcome = Outcome(node: Node, out: seq<Message>)

  ghost predicate WellFormed(cfg: Config, n: Node) {
    && cfg.Valid() && n.id in cfg.ids && n.term > 0
    && n.rl.Valid()
    && n.prs.Keys == Members(cfg.ids)
    && (forall id | id in n.prs :: n.prs[id].next > 0)
    && cfg.electionTimeout <= n.timeout < 2 * cfg.electionTimeout
  }

  /** A value the random generator can return. */
  predicate RandomFor(cfg: Config, rnd: nat) {
    rnd < cfg.electionTimeout
  }

  // ---------- changes of role ----------

  /** Every member, with nothing known of it and everything after `last` still to send. */
  function InitialProgress(cfg: Config, last: nat): map<nat, Progress> {
    map id | id in cfg.ids :: Progress(0, last + 1, Probe, false)
  }

  /** Nothing is known of the other members, and everything of the node itself. */
  function ResetProgress(prs: map<nat, Progress>, me: nat, last: nat): map<nat, Progress> {
    map id | id in prs :: Progress(if id == me then last else 0, last + 1, Probe, false)
  }

  function Reset(cfg: Config, n: Node, term: nat, rnd: nat): Node {
    n.(term := term,
       vote := if term != n.term then 0 else n.vote,
       lead := 0,
       votes := map[],
       elapsed := 0,
       timeout := cfg.electionTimeout + rnd,
       prs := ResetProgress(n.prs, n.id, n.LastIndex()))
  }

  function BecomeFollower(cfg: Config, n: Node, term: nat, lead: nat, rnd: nat): Node {
    Reset(cfg, n, term, rnd).(lead := lead, role := StateFollower)
  }

  function BecomeCandidate(cfg: Config, n: Node, rnd: nat): Node
    requires n.role != StateLeader
  {
    Reset(cfg, n, n.term + 1, rnd).(vote := n.id, role := StateCandidate)
  }

  function BecomeLeader(cfg: Config, n: Node, rnd: nat): Node
    requires n.role != StateFollower
  {
    Reset(cfg, n, n.term, rnd).(lead := n.id, role := StateLeader)
  }

  // ---------- elections ----------

  /** A voter is counted once: a later reply of the same voter changes nothing. */
  function Poll(n: Node, from: nat, granted: bool): Node {
    if from in n.votes then n else n.(votes := n.votes[from := granted])
  }

  function VoteRequest(n: Node, to: nat): Message {
    Message(MsgVote, to, n.id, n.term, n.rl.log.LastTerm(), n.LastIndex(), [], 0, false, 0)
  }

  function VoteReply(n: Node, to: nat): Message {
    Message(MsgVoteResp, to, n.id, n.term, 0, 0, [], 0, false, 0)
  }

  /** One request to every other member, in the order of `ids`. */
  function VoteRequests(n: Node, ids: seq<nat>): seq<Message> {
    if ids == [] then []
    else
      var k := |ids| - 1;
      VoteRequests(n, ids[..k]) + if ids[k] == n.id then [] else [VoteRequest(n, ids[k])]
  }

  function Campaign(cfg: Config, n: Node, rnd: nat): Outcome
    requires n.role != StateLeader
  {
    var c := BecomeCandidate(cfg, n, rnd);
    var p := Poll(c, c.id, true);
    if |p.Grants()| >= cfg.win then Outcome(BecomeLeader(cfg, p, rnd), [])
    else Outcome(p, VoteRequests(p, cfg.ids))
  }

  predicate Grantable(cfg: Config, n: Node, m: Message) {
    && (n.vote == 0 || n.vote == m.from)
    && n.rl.log.IsUpToDate(m.index, m.logTerm, cfg.strictTie)
  }

  function HandleVote(cfg: Config, n: Node, m: Message): Outcome {
    if Grantable(cfg, n, m) then Outcome(n.(vote := m.from, elapsed := 0), [VoteReply(n, m.from)])
    else Outcome(n, [])
  }

  function HandleVoteResp(cfg: Config, n: Node, m: Message, rnd: nat): Outcome
    requires WellFormed(cfg, n) && n.role == StateCandidate
  {
    var p := Poll(n, m.from, !m.reject);
    if |p.Grants()| >= cfg.win then
      var l := BecomeLeader(cfg, p, rnd);
      Outcome(l, Broadcast(l, cfg.ids))
    else if cfg.stepDown then Outcome(BecomeFollower(cfg, p, p.term, 0, rnd), [])
    else Outcome(p, [])
  }

  // ---------- replication, leader's side ----------

  function AppendRequest(n: Node, to: nat, index: nat, es: seq<LogEntry>): Message {
    Message(MsgApp, to, n.id, n.term, n.rl.log.Term(index), index, es, n.rl.committed, false, 0)
  }

  /** Nothing goes out while the follower is paused, or when what it needs has been
      compacted away and a snapshot would be called for. */
  function SendAppend(n: Node, to: nat): seq<Message>
    requires to in n.prs && n.prs[to].next > 0
  {
    var pr := n.prs[to];
    var es := n.rl.log.Entries(pr.next);
    if pr.IsPaused() || es.0 != ErrNone then []
    else [AppendRequest(n, to, pr.next - 1, es.1)]
  }

  function Broadcast(n: Node, ids: seq<nat>): seq<Message>
    requires forall id | id in ids :: id in n.prs && n.prs[id].next > 0
  {
    if ids == [] then []
    else
      var k := |ids| - 1;
      Broadcast(n, ids[..k]) + if ids[k] == n.id then [] else SendAppend(n, ids[k])
  }

  lemma BroadcastNext(n: Node, ids: seq<nat>, k: nat)
    requires k < |ids| && forall id | id in ids :: id in n.prs && n.prs[id].next > 0
    ensures Broadcast(n, ids[..k + 1]) ==
            Broadcast(n, ids[..k]) + if ids[k] == n.id then [] else SendAppend(n, ids[k])
  {
    assert ids[..k + 1][..k] == ids[..k];
  }

  /** The proposed entries as the leader numbers them. */
  function NumberEntries(es: seq<LogEntry>, term: nat, first: nat): (r: seq<LogEntry>)
    ensures |r| == |es| && forall i | 0 <= i < |es| :: r[i] == es[i].(term := term, index := first + i)
  {
    seq(|es|, i requires 0 <= i < |es| => es[i].(term := term, index := first + i))
  }

  function MaybeCommit(cfg: Config, n: Node): (Node, bool)
    requires WellFormed(cfg, n)
  {
    var r := n.rl.MaybeCommit(Pick(Values(cfg.ids, n.Matches()), Quorum(|cfg.ids|)), n.term);
    (n.(rl := r.0), r.1)
  }

  /** The leader's log extended by the proposal and its own progress with it. */
  function Extended(cfg: Config, n: Node, es: seq<LogEntry>): Node
    requires WellFormed(cfg, n)
  {
    var rl := n.rl.Append(NumberEntries(es, n.term, n.LastIndex() + 1));
    n.(rl := rl, prs := n.prs[n.id := n.prs[n.id].MaybeUpdate(rl.log.LastIndex())])
  }

  function AppendEntry(cfg: Config, n: Node, es: seq<LogEntry>): Node
    requires WellFormed(cfg, n)
  {
    ExtendedWellFormed(cfg, n, es);
    MaybeCommit(cfg, Extended(cfg, n, es)).0
  }

  function HandleProp(cfg: Config, n: Node, m: Message): Outcome
    requires WellFormed(cfg, n)
  {
    AppendEntryWellFormed(cfg, n, m.entries);
    var l := AppendEntry(cfg, n, m.entries);
    Outcome(l, Broadcast(l, cfg.ids))
  }

  /** The follower's reply recorded in its progress. */
  function Progressed(n: Node, m: Message): Node
    requires m.from in n.prs
  {
    n.(prs := n.prs[m.from := n.prs[m.from].MaybeUpdate(m.index)])
  }

  function HandleAppResp(cfg: Config, n: Node, m: Message): Outcome
    requires WellFormed(cfg, n) && m.from in n.prs
  {
    if m.reject then Outcome(n, [])
    else
      var c := MaybeCommit(cfg, Progressed(n, m));
      Outcome(c.0, if c.1 then Broadcast(c.0, cfg.ids) else [])
  }

  // ---------- replication, follower's side ----------

  function AppendReply(n: Node, to: nat, index: nat): Message {
    Message(MsgAppResp, to, n.id, n.term, 0, index, [], 0, false, 0)
  }

  function AppendReject(n: Node, to: nat, index: nat): Message {
    Message(MsgAppResp, to, n.id, n.term, 0, index, [], 0, true, n.LastIndex())
  }

  /** When an append request cannot run into one of the log's panics. */
  predicate AppendPre(n: Node, m: Message) {
    m.index < n.rl.committed || n.rl.MaybeAppendPre(m.index, m.logTerm, m.entries)
  }

  function HandleAppendEntries(n: Node, m: Message): Outcome
    requires n.rl.Valid() && AppendPre(n, m)
  {
    if m.index < n.rl.committed then Outcome(n, [AppendReply(n, m.from, n.rl.committed)])
    else
      var r := n.rl.MaybeAppend(m.index, m.logTerm, m.commit, m.entries);
      if r.2 then Outcome(n.(rl := r.0), [AppendReply(n, m.from, r.1)])
      else Outcome(n, [AppendReject(n, m.from, m.index)])
  }

  // ---------- dispatch ----------

  predicate FollowerPre(n: Node, m: Message) {
    m.mtype == MsgApp ==> AppendPre(n, m)
  }

  function StepFollower(cfg: Config, n: Node, m: Message): Outcome
    requires WellFormed(cfg, n) && FollowerPre(n, m)
  {
    if m.mtype == MsgApp then HandleAppendEntries(n.(elapsed := 0, lead := m.from), m) else Outcome(n, [])
  }

  function StepCandidate(cfg: Config, n: Node, m: Message, rnd: nat): Outcome
    requires WellFormed(cfg, n) && n.role == StateCandidate
  {
    if m.mtype == MsgVoteResp then HandleVoteResp(cfg, n, m, rnd) else Outcome(n, [])
  }

  predicate LeaderPre(m: Message) {
    m.mtype == MsgProp ==> m.entries != []
  }

  function StepLeader(cfg: Config, n: Node, m: Message): Outcome
    requires WellFormed(cfg, n) && LeaderPre(m)
  {
    if m.mtype == MsgProp then HandleProp(cfg, n, m)
    else if m.mtype == MsgAppResp && m.from in n.prs then HandleAppResp(cfg, n, m)
    else Outcome(n, [])
  }

  /** A higher term is adopted before the message is looked at. */
  function Adopt(cfg: Config, n: Node, m: Message, rnd: nat): Node {
    if m.term > n.term then BecomeFollower(cfg, n, m.term, 0, rnd) else n
  }

  /** A message that carries no term is local; one of a lower term is ignored. */
  predicate Stale(n: Node, m: Message) {
    m.term != 0 && m.term < n.term
  }

  predicate CurrentPre(n: Node, m: Message) {
    match n.role
    case StateFollower => FollowerPre(n, m)
    case StateCandidate => true
    case StateLeader => LeaderPre(m)
  }

  ghost predicate StepPre(cfg: Config, n: Node, m: Message, rnd: nat) {
    && WellFormed(cfg, n) && RandomFor(cfg, rnd)
    && (!Stale(n, m) ==> CurrentPre(Adopt(cfg, n, m, rnd), m))
  }

  function StepCurrent(cfg: Config, n: Node, m: Message, rnd: nat): Outcome
    requires WellFormed(cfg, n) && CurrentPre(n, m)
  {
    if m.mtype == MsgHup then
      if n.role != StateLeader then Campaign(cfg, n, rnd) else Outcome(n, [])
    else if m.mtype == MsgVote then HandleVote(cfg, n, m)
    else
      match n.role
      case StateFollower => StepFollower(cfg, n, m)
      case StateCandidate => StepCandidate(cfg, n, m, rnd)
      case StateLeader => StepLeader(cfg, n, m)
  }

  function Step(cfg: Config, n: Node, m: Message, rnd: nat): Outcome
    requires StepPre(cfg, n, m, rnd)
  {
    if Stale(n, m) then Outcome(n, []) else StepCurrent(cfg, Adopt(cfg, n, m, rnd), m, rnd)
  }

  function Hup(n: Node): Message {
    Message(MsgHup, 0, n.id, 0, 0, 0, [], 0, false, 0)
  }

  /** One tick of a node that is not leader. */
  function TickElection(cfg: Config, n: Node, rnd: nat): Outcome
    requires WellFormed(cfg, n) && RandomFor(cfg, rnd) && n.role != StateLeader
  {
    var t := n.(elapsed := n.elapsed + 1);
    if t.id in t.prs && t.elapsed >= t.timeout then
      var h := t.(elapsed := 0);
      Step(cfg, h, Hup(h), rnd)
    else Outcome(t, [])
  }

  // ---------- what a leader knows of a follower ----------

  /** The progress after replies that carry `ns`, in that order. */
  function Updated(p: Progress, ns: seq<nat>): Progress {
    if ns == [] then p else Updated(p, ns[..|ns| - 1]).MaybeUpdate(ns[|ns| - 1])
  }

  /** The match index is the greatest of what was known and what the replies carry; the next
      index is as great and beyond all of them; the pause ends with the first news. */
  lemma {:induction false} UpdatedIsGreatest(p: Progress, ns: seq<nat>)
    ensures var u := Updated(p, ns);
      && u.state == p.state
      && p.matched <= u.matched && (forall n | n in ns :: n <= u.matched) && (u.matched == p.matched || u.matched in ns)
      && p.next <= u.next && (forall n | n in ns :: n < u.next) && (u.next == p.next || u.next - 1 in ns)
      && u.paused == (p.paused && forall n | n in ns :: n <= p.matched)
  {
    if ns != [] {
      UpdatedIsGreatest(p, ns[..|ns| - 1]);
      assert ns == ns[..|ns| - 1] + [ns[|ns| - 1]];
    }
  }

  /** Replies lost count for nothing, but those that arrive give the same progress in
      whatever order and however often they do. */
  lemma UpdatedInAnyOrder(p: Progress, ns: seq<nat>, ms: seq<nat>)
    requires forall n :: n in ns <==> n in ms
    ensures Updated(p, ns) == Updated(p, ms)
  {
    UpdatedIsGreatest(p, ns);
    UpdatedIsGreatest(p, ms);
  }

  /** An append request of this leader, with its term and its commit index. */
  predicate IsRequest(m: Message, n: Node, to: nat) {
    m.mtype == MsgApp && m.to == to && m.from == n.id && m.term == n.term && m.commit == n.rl.committed
  }

  /** A member is sent something exactly when it is not paused and what it needs is not
      compacted away; it is the rest of the log from its next index on, with the term of
      the entry before. */
  lemma SentUnlessPaused(n: Node, to: nat)
    requires n.rl.Valid() && to in n.prs && n.prs[to].next > 0
    ensures var pr, out := n.prs[to], SendAppend(n, to);
      && (out == [] <==> pr.state == Snapshot || (pr.state == Probe && pr.paused) || pr.next <= n.rl.log.base)
      && (out != [] ==> |out| == 1 && IsRequest(out[0], n, to) && out[0].index == pr.next - 1)
      && (out != [] && pr.next <= n.LastIndex() + 1 ==>
            && TakenFrom(n.rl.log, out[0].index, out[0].logTerm, out[0].entries)
            && out[0].index + |out[0].entries| == n.LastIndex())
  {
  }

  // ---------- every handler keeps a node well formed ----------

  lemma ResetWellFormed(cfg: Config, n: Node, term: nat, rnd: nat)
    requires WellFormed(cfg, n) && term > 0 && RandomFor(cfg, rnd)
    ensures WellFormed(cfg, Reset(cfg, n, term, rnd))
  {
  }

  lemma ExtendedWellFormed(cfg: Config, n: Node, es: seq<LogEntry>)
    requires WellFormed(cfg, n)
    ensures n.rl.AppendPre(NumberEntries(es, n.term, n.LastIndex() + 1))
    ensures WellFormed(cfg, Extended(cfg, n, es))
    ensures Extended(cfg, n, es).rl.log.ents == n.rl.log.ents + NumberEntries(es, n.term, n.LastIndex() + 1)
  {
    var num := NumberEntries(es, n.term, n.LastIndex() + 1);
    if num == [] {
      assert n.rl.log.ents + num == n.rl.log.ents;
    } else {
      assert num[0].index == n.LastIndex() + 1;
      AppendSpec(n.rl.log, num);
      assert n.rl.log.ents[..|n.rl.log.ents|] == n.rl.log.ents;
    }
  }

  lemma AppendEntryWellFormed(cfg: Config, n: Node, es: seq<LogEntry>)
    requires WellFormed(cfg, n)
    ensures WellFormed(cfg, AppendEntry(cfg, n, es))
  {
    ExtendedWellFormed(cfg, n, es);
  }

  // ---------- local messages ----------

  /** A message without a term is looked at as it is. */
  lemma StepLocal(cfg: Config, n: Node, m: Message, rnd: nat)
    requires WellFormed(cfg, n) && RandomFor(cfg, rnd) && m.term == 0 && CurrentPre(n, m)
    ensures StepPre(cfg, n, m, rnd) && Step(cfg, n, m, rnd) == StepCurrent(cfg, n, m, rnd)
  {
  }

  /** A message that is not of a lower term meets the node that has adopted its term. */
  lemma StepAdopted(cfg: Config, n: Node, m: Message, rnd: nat, a: Node)
    requires WellFormed(cfg, n) && RandomFor(cfg, rnd) && !Stale(n, m)
    requires a == Adopt(cfg, n, m, rnd) && WellFormed(cfg, a) && CurrentPre(a, m)
    ensures StepPre(cfg, n, m, rnd) && Step(cfg, n, m, rnd) == StepCurrent(cfg, a, m, rnd)
  {
  }

  /** A reply that completes the votes makes the candidate leader. */
  lemma VoteWins(cfg: Config, n: Node, m: Message, rnd: nat, p: Node)
    requires WellFormed(cfg, n) && n.role == StateCandidate && p == Poll(n, m.from, !m.reject)
    requires |p.Grants()| >= cfg.win && RandomFor(cfg, rnd)
    ensures WellFormed(cfg, BecomeLeader(cfg, p, rnd))
    ensures HandleVoteResp(cfg, n, m, rnd) ==
            Outcome(BecomeLeader(cfg, p, rnd), Broadcast(BecomeLeader(cfg, p, rnd), cfg.ids))
  {
    ResetWellFormed(cfg, p, p.term, rnd);
  }

  /** A tick counts, and at the timeout it starts a campaign with the count at zero. */
  lemma TickIs(cfg: Config, n: Node, rnd: nat)
    requires WellFormed(cfg, n) && RandomFor(cfg, rnd) && n.role != StateLeader
    ensures TickElection(cfg, n, rnd) ==
            if n.elapsed + 1 >= n.timeout then Campaign(cfg, n.(elapsed := 0), rnd)
            else Outcome(n.(elapsed := n.elapsed + 1), [])
  {
    var t := n.(elapsed := n.elapsed + 1);
    if t.elapsed >= t.timeout {
      var h := t.(elapsed := 0);
      assert h == n.(elapsed := 0);
      StepLocal(cfg, h, Hup(h), rnd);
    }
  }
}
