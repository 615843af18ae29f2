/** A cluster whose nodes compact their logs.  Compaction up to what is applied cannot be
    told from the outside: the cluster does what one without compaction could do, its nodes
    holding the same logs but for the entries they discarded. */
module Compaction {
  import opened LogModel
  import opened RaftNode
  import opened Cluster
  import opened Paths
  import opened Storage
  import opened Safety

  // ---------- a node and its compacted form ----------

  function Cut(n: Node, k: nat): Node
    requires n.rl.log.base <= k <= n.LastIndex()
  {
    n.(rl := n.rl.(log := n.rl.log.Compact(k)))
  }

  /** Entry `k` is applied, or compacted already. */
  ghost predicate CanCut(n: Node, k: nat) {
    n.rl.Valid() && n.rl.log.base <= k <= n.rl.applied
  }

  ghost predicate Within(out: seq<Message>, all: seq<Message>) {
    forall m | m in out :: m in all
  }

  /** The compacted node ends where the other's compacted form does and sends no more. */
  ghost predicate Follows(p: Outcome, o: Outcome, k: nat) {
    CanCut(o.node, k) && p.node == Cut(o.node, k) && Within(p.out, o.out)
  }

  lemma CutKeeps(n: Node, k: nat)
    requires CanCut(n, k)
    ensures var p := Cut(n, k);
      && p.rl.Valid() && p.LastIndex() == n.LastIndex() && p.rl.log.LastTerm() == n.rl.log.LastTerm()
      && forall i | i >= k :: p.rl.log.Term(i) == n.rl.log.Term(i)
  {
    CompactValid(n.rl.log, k);
  }

  lemma CutWellFormed(cfg: Config, n: Node, k: nat)
    requires WellFormed(cfg, n) && CanCut(n, k)
    ensures WellFormed(cfg, Cut(n, k))
  {
    CutKeeps(n, k);
  }

  // ---------- elections ----------

  lemma ResetCut(cfg: Config, n: Node, term: nat, rnd: nat, k: nat)
    requires CanCut(n, k)
    ensures CanCut(Reset(cfg, n, term, rnd), k)
    ensures Reset(cfg, Cut(n, k), term, rnd) == Cut(Reset(cfg, n, term, rnd), k)
  {
    CutKeeps(n, k);
  }

  lemma {:induction false} RequestsCut(n: Node, ids: seq<nat>, k: nat)
    requires CanCut(n, k)
    ensures VoteRequests(Cut(n, k), ids) == VoteRequests(n, ids)
  {
    CutKeeps(n, k);
    if ids != [] {
      RequestsCut(n, ids[..|ids| - 1], k);
    }
  }

  lemma CampaignCut(cfg: Config, n: Node, rnd: nat, k: nat)
    requires CanCut(n, k) && n.role != StateLeader
    ensures Follows(Campaign(cfg, Cut(n, k), rnd), Campaign(cfg, n, rnd), k)
  {
    ResetCut(cfg, n, n.term + 1, rnd, k);
    var c := BecomeCandidate(cfg, n, rnd);
    var p := Poll(c, c.id, true);
    assert Poll(BecomeCandidate(cfg, Cut(n, k), rnd), c.id, true) == Cut(p, k);
    ResetCut(cfg, p, p.term, rnd, k);
    RequestsCut(p, cfg.ids, k);
  }

  lemma VoteCut(cfg: Config, n: Node, m: Message, k: nat)
    requires CanCut(n, k)
    ensures Follows(HandleVote(cfg, Cut(n, k), m), HandleVote(cfg, n, m), k)
  {
    CutKeeps(n, k);
  }

  lemma VoteRespCut(cfg: Config, n: Node, m: Message, rnd: nat, k: nat)
    requires WellFormed(cfg, n) && CanCut(n, k) && n.role == StateCandidate && RandomFor(cfg, rnd)
    ensures WellFormed(cfg, Cut(n, k))
    ensures Follows(HandleVoteResp(cfg, Cut(n, k), m, rnd), HandleVoteResp(cfg, n, m, rnd), k)
  {
    CutWellFormed(cfg, n, k);
    var p := Poll(n, m.from, !m.reject);
    assert Poll(Cut(n, k), m.from, !m.reject) == Cut(p, k);
    ResetCut(cfg, p, p.term, rnd, k);
    if |p.Grants()| >= cfg.win {
      ResetWellFormed(cfg, p, p.term, rnd);
      BroadcastCut(BecomeLeader(cfg, p, rnd), cfg.ids, k);
    }
  }

  // ---------- replication, leader's side ----------

  /** What a compacted log can still send is what the other sends. */
  lemma SendAppendCut(n: Node, to: nat, k: nat)
    requires CanCut(n, k) && to in n.prs && n.prs[to].next > 0
    ensures Within(SendAppend(Cut(n, k), to), SendAppend(n, to))
  {
    CutKeeps(n, k);
    CompactValid(n.rl.log, k);
    var next := n.prs[to].next;
    if k < next <= n.LastIndex() {
      assert Cut(n, k).rl.log.Slice(next, n.LastIndex() + 1) == n.rl.log.Slice(next, n.LastIndex() + 1);
    }
  }

  lemma {:induction false} BroadcastCut(n: Node, ids: seq<nat>, k: nat)
    requires CanCut(n, k) && forall id | id in ids :: id in n.prs && n.prs[id].next > 0
    ensures Within(Broadcast(Cut(n, k), ids), Broadcast(n, ids))
  {
    if ids != [] {
      BroadcastCut(n, ids[..|ids| - 1], k);
      SendAppendCut(n, ids[|ids| - 1], k);
    }
  }

  /** An index that may be committed is above what may be compacted. */
  lemma MaybeCommitCut(cfg: Config, n: Node, k: nat)
    requires WellFormed(cfg, n) && CanCut(n, k)
    ensures WellFormed(cfg, Cut(n, k)) && CanCut(MaybeCommit(cfg, n).0, k)
    ensures MaybeCommit(cfg, Cut(n, k)) == (Cut(MaybeCommit(cfg, n).0, k), MaybeCommit(cfg, n).1)
  {
    CutWellFormed(cfg, n, k);
    CutKeeps(n, k);
    assert Cut(n, k).Matches() == n.Matches();
  }

  lemma ExtendedCut(cfg: Config, n: Node, es: seq<LogEntry>, k: nat)
    requires WellFormed(cfg, n) && CanCut(n, k)
    ensures WellFormed(cfg, Cut(n, k)) && CanCut(Extended(cfg, n, es), k)
    ensures Extended(cfg, Cut(n, k), es) == Cut(Extended(cfg, n, es), k)
  {
    CutWellFormed(cfg, n, k);
    CutKeeps(n, k);
    var num := NumberEntries(es, n.term, n.LastIndex() + 1);
    ExtendedBase(cfg, n, es);
    ExtendedBase(cfg, Cut(n, k), es);
    LongerCut(n.rl.log, num, k);
    SameBut(Extended(cfg, n, es), Extended(cfg, Cut(n, k), es), n, k, num);
  }

  lemma SameBut(e: Node, p: Node, n: Node, k: nat, num: seq<LogEntry>)
    requires CanCut(n, k) && e.rl.Valid() && n.id in n.prs
    requires e.rl == n.rl.(log := Log(n.rl.log.base, n.rl.log.baseTerm, n.rl.log.ents + num))
    requires e == n.(rl := e.rl, prs := n.prs[n.id := n.prs[n.id].MaybeUpdate(e.LastIndex())])
    requires p.rl == n.rl.(log := e.rl.log.Compact(k)) && p.LastIndex() == e.LastIndex()
    requires p == n.(rl := p.rl, prs := n.prs[n.id := n.prs[n.id].MaybeUpdate(p.LastIndex())])
    ensures CanCut(e, k) && p == Cut(e, k)
  {
  }

  lemma LongerCut(l: Log, num: seq<LogEntry>, k: nat)
    requires l.base <= k <= l.LastIndex()
    ensures var longer := Log(l.base, l.baseTerm, l.ents + num);
      longer.Compact(k) == Log(k, l.Term(k), l.Compact(k).ents + num)
      && longer.LastIndex() == Log(k, l.Term(k), l.Compact(k).ents + num).LastIndex()
  {
    var d := k - l.base;
    assert (l.ents + num)[d..] == l.ents[d..] + num;
  }

  lemma ExtendedBase(cfg: Config, n: Node, es: seq<LogEntry>)
    requires WellFormed(cfg, n)
    ensures n.id in n.prs && Extended(cfg, n, es).rl.Valid()
    ensures var e, num := Extended(cfg, n, es), NumberEntries(es, n.term, n.LastIndex() + 1);
      && e.rl == n.rl.(log := Log(n.rl.log.base, n.rl.log.baseTerm, n.rl.log.ents + num))
      && e == n.(rl := e.rl, prs := n.prs[n.id := n.prs[n.id].MaybeUpdate(e.rl.log.LastIndex())])
  {
    ExtendedWellFormed(cfg, n, es);
  }

  lemma PropCut(cfg: Config, n: Node, m: Message, k: nat)
    requires WellFormed(cfg, n) && CanCut(n, k)
    ensures WellFormed(cfg, Cut(n, k))
    ensures Follows(HandleProp(cfg, Cut(n, k), m), HandleProp(cfg, n, m), k)
  {
    ExtendedCut(cfg, n, m.entries, k);
    ExtendedWellFormed(cfg, n, m.entries);
    var e := Extended(cfg, n, m.entries);
    MaybeCommitCut(cfg, e, k);
    AppendEntryWellFormed(cfg, n, m.entries);
    BroadcastCut(AppendEntry(cfg, n, m.entries), cfg.ids, k);
  }

  lemma AppRespCut(cfg: Config, n: Node, m: Message, k: nat)
    requires WellFormed(cfg, n) && CanCut(n, k) && m.from in n.prs
    ensures WellFormed(cfg, Cut(n, k))
    ensures Follows(HandleAppResp(cfg, Cut(n, k), m), HandleAppResp(cfg, n, m), k)
  {
    CutWellFormed(cfg, n, k);
    if !m.reject {
      var p := Progressed(n, m);
      assert Progressed(Cut(n, k), m) == Cut(p, k);
      MaybeCommitCut(cfg, p, k);
      BroadcastCut(MaybeCommit(cfg, p).0, cfg.ids, k);
    }
  }

  // ---------- replication, follower's side ----------

  lemma {:induction false} ConflictCut(l: Log, index: nat, es: seq<LogEntry>, k: nat)
    requires l.Valid() && l.base <= k <= l.LastIndex() && k <= index && Numbered(es, index + 1)
    ensures l.Compact(k).FindConflict(es) == l.FindConflict(es)
    decreases |es|
  {
    CompactValid(l, k);
    if es != [] {
      assert es[0].index == index + 1;
      assert Numbered(es[1..], index + 2) by {
        TailOf(es, index);
      }
      ConflictCut(l, index + 1, es[1..], k);
    }
  }

  lemma TailOf(es: seq<LogEntry>, index: nat)
    requires es != [] && Numbered(es, index + 1)
    ensures Numbered(es[1..], index + 2)
  {
    assert forall i | 0 <= i < |es[1..]| :: es[1..][i] == es[i + 1];
  }

  lemma MergeCut(l: Log, index: nat, es: seq<LogEntry>, k: nat)
    requires l.Valid() && l.base <= k <= index <= l.LastIndex() && Numbered(es, index + 1)
    ensures l.Compact(k).LastIndex() == l.LastIndex() && k <= l.Merge(index, es).LastIndex()
    ensures l.Compact(k).Merge(index, es) == l.Merge(index, es).Compact(k)
  {
    CompactValid(l, k);
    ConflictCut(l, index, es, k);
    MergeSpec(l, index, es);
    ConflictBounds(l, index, es);
    if l.FindConflict(es) != 0 {
      MergeCutAt(l, index, es, k, l.FindConflict(es));
    }
  }

  lemma MergeCutAt(l: Log, index: nat, es: seq<LogEntry>, k: nat, ci: nat)
    requires l.Valid() && l.base <= k <= index <= l.LastIndex() && Numbered(es, index + 1)
    requires l.Compact(k).Valid() && l.Compact(k).LastIndex() == l.LastIndex()
    requires ci == l.FindConflict(es) == l.Compact(k).FindConflict(es) && index < ci <= index + |es|
    ensures k <= l.Merge(index, es).LastIndex()
    ensures l.Compact(k).Merge(index, es) == l.Merge(index, es).Compact(k)
  {
    var tail := es[ci - index - 1..];
    MergeKnown(l, index, es, ci, ci - l.base - 1, tail);
    MergeKnown(l.Compact(k), index, es, ci, ci - k - 1, tail);
    MergesCut(l, tail, ci - l.base - 1, ci - k - 1, k, l.Merge(index, es), l.Compact(k).Merge(index, es));
  }

  lemma MergesCut(l: Log, tail: seq<LogEntry>, n: nat, m: nat, k: nat, a: Log, b: Log)
    requires l.base <= k <= l.LastIndex() && n <= |l.ents| && l.base + n == k + m
    requires a == Log(l.base, l.baseTerm, l.ents[..n] + tail)
    requires b == Log(l.Compact(k).base, l.Compact(k).baseTerm, l.Compact(k).ents[..m] + tail)
    ensures k <= a.LastIndex() && b == a.Compact(k)
  {
    SpliceCut(l, tail, n, k - l.base, m, k);
  }

  lemma MergeKnown(l: Log, index: nat, es: seq<LogEntry>, ci: nat, n: nat, tail: seq<LogEntry>)
    requires l.Valid() && l.base <= index <= l.LastIndex() && Numbered(es, index + 1)
    requires ci == l.FindConflict(es) && ci != 0 && l.base + n + 1 == ci
    requires index < ci <= index + |es| ==> tail == es[ci - index - 1..]
    ensures index < ci && n <= |l.ents| && l.Merge(index, es) == Log(l.base, l.baseTerm, l.ents[..n] + tail)
  {
    MergeIsAppend(l, index, es, ci);
    assert ci - l.base - 1 == n;
  }

  lemma SpliceCut(l: Log, tail: seq<LogEntry>, n: nat, d: nat, m: nat, k: nat)
    requires l.base <= k && k == l.base + d && d <= n <= |l.ents| && n == d + m
    ensures var r := Log(l.base, l.baseTerm, l.ents[..n] + tail);
      k <= r.LastIndex() && r.Compact(k) == Log(k, l.Term(k), l.Compact(k).ents[..m] + tail)
  {
    assert (l.ents[..n] + tail)[d..] == l.ents[..n][d..] + tail;
    assert l.ents[..n][d..] == l.ents[d..][..m];
  }

  /** Whether a request matches, and where it conflicts, is the same on the compacted log. */
  lemma PreCut(s: LogState, index: nat, term: nat, es: seq<LogEntry>, k: nat, c: LogState)
    requires s.Valid() && s.log.base <= k <= s.applied && index >= s.committed && s.MaybeAppendPre(index, term, es)
    requires c == s.(log := s.log.Compact(k))
    ensures c.Valid() && c.log.MatchTerm(index, term) == s.log.MatchTerm(index, term)
    ensures c.MaybeAppendPre(index, term, es)
  {
    CompactValid(s.log, k);
    if s.log.MatchTerm(index, term) {
      ConflictCut(s.log, index, es, k);
    }
  }

  lemma MaybeAppendCut(s: LogState, index: nat, term: nat, commit: nat, es: seq<LogEntry>, k: nat, c: LogState)
    requires s.Valid() && s.log.base <= k <= s.applied && index >= s.committed && s.MaybeAppendPre(index, term, es)
    requires c == s.(log := s.log.Compact(k))
    ensures c.Valid() && c.MaybeAppendPre(index, term, es)
    ensures var a, b := c.MaybeAppend(index, term, commit, es), s.MaybeAppend(index, term, commit, es);
      && b.0.log.base <= k <= b.0.log.LastIndex() && b.0.applied == s.applied && b.0.Valid()
      && a == (b.0.(log := b.0.log.Compact(k)), b.1, b.2)
  {
    PreCut(s, index, term, es, k, c);
    if s.log.MatchTerm(index, term) {
      MatchedCut(s, index, commit, es, k, c);
    }
  }

  lemma MatchedCut(s: LogState, index: nat, commit: nat, es: seq<LogEntry>, k: nat, c: LogState)
    requires s.Valid() && s.log.base <= k <= s.applied && s.committed <= index <= s.log.LastIndex()
    requires Numbered(es, index + 1) && c == s.(log := s.log.Compact(k)) && c.log.LastIndex() == s.log.LastIndex()
    ensures var last := index + |es|;
            var m, d := s.log.Merge(index, es), c.log.Merge(index, es);
      && m.Valid() && m.base == s.log.base && s.committed <= m.LastIndex() && last <= m.LastIndex()
      && m.base <= k <= m.LastIndex() && d == m.Compact(k) && d.LastIndex() == m.LastIndex()
  {
    MergeSpec(s.log, index, es);
    MergeCut(s.log, index, es, k);
    CompactValid(s.log.Merge(index, es), k);
  }

  lemma AppendCut(n: Node, m: Message, k: nat)
    requires CanCut(n, k) && AppendPre(n, m)
    ensures Cut(n, k).rl.Valid() && AppendPre(Cut(n, k), m)
    ensures Follows(HandleAppendEntries(Cut(n, k), m), HandleAppendEntries(n, m), k)
  {
    CutKeeps(n, k);
    if m.index >= n.rl.committed {
      MaybeAppendCut(n.rl, m.index, m.logTerm, m.commit, m.entries, k, Cut(n, k).rl);
    }
  }

  // ---------- one step of one node ----------

  lemma StepCurrentCut(cfg: Config, n: Node, m: Message, rnd: nat, k: nat)
    requires WellFormed(cfg, n) && CurrentPre(n, m) && RandomFor(cfg, rnd) && CanCut(n, k)
    ensures WellFormed(cfg, Cut(n, k)) && CurrentPre(Cut(n, k), m)
    ensures Follows(StepCurrent(cfg, Cut(n, k), m, rnd), StepCurrent(cfg, n, m, rnd), k)
  {
    CutWellFormed(cfg, n, k);
    if m.mtype == MsgHup && n.role != StateLeader {
      CampaignCut(cfg, n, rnd, k);
    } else if m.mtype == MsgVote {
      VoteCut(cfg, n, m, k);
    } else if n.role == StateFollower && m.mtype == MsgApp {
      var f := n.(elapsed := 0, lead := m.from);
      assert Cut(n, k).(elapsed := 0, lead := m.from) == Cut(f, k);
      AppendCut(f, m, k);
    } else if n.role == StateCandidate && m.mtype == MsgVoteResp {
      VoteRespCut(cfg, n, m, rnd, k);
    } else if n.role == StateLeader && m.mtype == MsgProp {
      PropCut(cfg, n, m, k);
    } else if n.role == StateLeader && m.mtype == MsgAppResp && m.from in n.prs {
      AppRespCut(cfg, n, m, k);
    }
  }

  lemma StepCut(cfg: Config, n: Node, m: Message, rnd: nat, k: nat)
    requires StepPre(cfg, n, m, rnd) && CanCut(n, k)
    ensures StepPre(cfg, Cut(n, k), m, rnd)
    ensures Follows(Step(cfg, Cut(n, k), m, rnd), Step(cfg, n, m, rnd), k)
  {
    CutWellFormed(cfg, n, k);
    if !Stale(n, m) {
      AdoptCut(cfg, n, m, rnd, k);
      StepCurrentCut(cfg, Adopt(cfg, n, m, rnd), m, rnd, k);
    }
  }

  lemma AdoptCut(cfg: Config, n: Node, m: Message, rnd: nat, k: nat)
    requires WellFormed(cfg, n) && RandomFor(cfg, rnd) && CanCut(n, k)
    ensures WellFormed(cfg, Adopt(cfg, n, m, rnd)) && CanCut(Adopt(cfg, n, m, rnd), k)
    ensures Adopt(cfg, Cut(n, k), m, rnd) == Cut(Adopt(cfg, n, m, rnd), k)
  {
    if m.term > n.term {
      ResetCut(cfg, n, m.term, rnd, k);
      ResetWellFormed(cfg, n, m.term, rnd);
    }
  }

  lemma TickCut(cfg: Config, n: Node, rnd: nat, k: nat)
    requires WellFormed(cfg, n) && RandomFor(cfg, rnd) && n.role != StateLeader && CanCut(n, k)
    ensures WellFormed(cfg, Cut(n, k))
    ensures Follows(TickElection(cfg, Cut(n, k), rnd), TickElection(cfg, n, rnd), k)
  {
    CutWellFormed(cfg, n, k);
    TickIs(cfg, n, rnd);
    TickIs(cfg, Cut(n, k), rnd);
    if n.elapsed + 1 >= n.timeout {
      var h := n.(elapsed := 0);
      assert Cut(n, k).(elapsed := 0) == Cut(h, k);
      CampaignCut(cfg, h, rnd, k);
    }
  }

  // ---------- one step of the cluster ----------

  datatype Move = Plain(a: Action) | Compact(id: nat, k: nat)

  /** A compaction is one of the steps a cluster may take, up to what the node applied. */
  ghost predicate IsMove(cfg: Config, c: Cluster, v: Move, d: Cluster) {
    match v
    case Plain(a) => IsStep(cfg, c, a, d)
    case Compact(id, k) =>
      id in c.nodes && CanCut(c.nodes[id], k) && d == c.(nodes := c.nodes[id := Cut(c.nodes[id], k)])
  }

  ghost predicate CutOf(c: Node, f: Node) {
    CanCut(f, c.rl.log.base) && c == Cut(f, c.rl.log.base)
  }

  /** `c` is `f` with logs compacted and perhaps fewer messages. */
  ghost predicate Simulates(f: Cluster, c: Cluster) {
    f.nodes.Keys == c.nodes.Keys && c.net <= f.net && forall id | id in c.nodes :: CutOf(c.nodes[id], f.nodes[id])
  }

  /** The same step of the other cluster; a compaction is no step there. */
  function Shadow(f: Cluster, v: Move): Action
    requires v.Compact? ==> v.id in f.nodes
  {
    match v
    case Plain(a) => a
    case Compact(id, k) => Apply(id, f.nodes[id].rl.applied)
  }

  lemma AfterSimulates(f: Cluster, c: Cluster, id: nat, o: Outcome, p: Outcome, k: nat)
    requires Simulates(f, c) && id in c.nodes && Follows(p, o, k)
    ensures Simulates(After(f, id, o), After(c, id, p))
  {
    assert p.node.rl.log.base == k;
  }

  lemma ResendCut(f: Cluster, c: Cluster, id: nat, to: nat)
    requires Simulates(f, c) && id in c.nodes && to in f.nodes[id].prs && f.nodes[id].prs[to].next > 0
    ensures var n, m := f.nodes[id], c.nodes[id];
      to in m.prs && m.prs[to].next > 0
      && Follows(Outcome(m, SendAppend(m, to)), Outcome(n, SendAppend(n, to)), m.rl.log.base)
  {
    SendAppendCut(f.nodes[id], to, c.nodes[id].rl.log.base);
  }

  lemma EnabledToo(cfg: Config, f: Cluster, c: Cluster, a: Action)
    requires Simulates(f, c) && Enabled(cfg, c, a)
    ensures Enabled(cfg, f, a)
  {
    match a
    case Tick(id, rnd) => CutKeeps(f.nodes[id], c.nodes[id].rl.log.base);
    case Deliver(m, rnd) =>
    case Propose(id, es) =>
    case Resend(id, to) =>
    case Pace(id, to, pr) => CutKeeps(f.nodes[id], c.nodes[id].rl.log.base);
    case Apply(id, k) =>
  }

  /** The compacted cluster's step is safe when the other's is, and stays its compacted form. */
  lemma StepSimulates(cfg: Config, f: Cluster, c: Cluster, a: Action)
    requires Simulates(f, c) && Enabled(cfg, c, a) && Enabled(cfg, f, a) && Safe(cfg, f, a)
    ensures Safe(cfg, c, a) && Simulates(Next(cfg, f, a), Next(cfg, c, a))
  {
    match a
    case Tick(id, rnd) =>
      var k := c.nodes[id].rl.log.base;
      TickCut(cfg, f.nodes[id], rnd, k);
      AfterSimulates(f, c, id, TickElection(cfg, f.nodes[id], rnd), TickElection(cfg, c.nodes[id], rnd), k);
    case Deliver(m, rnd) =>
      var k := c.nodes[m.to].rl.log.base;
      StepCut(cfg, f.nodes[m.to], m, rnd, k);
      AfterSimulates(f, c, m.to, Step(cfg, f.nodes[m.to], m, rnd), Step(cfg, c.nodes[m.to], m, rnd), k);
    case Propose(id, es) =>
      var k := c.nodes[id].rl.log.base;
      StepCut(cfg, f.nodes[id], Prop(id, es), 0, k);
      AfterSimulates(f, c, id, Step(cfg, f.nodes[id], Prop(id, es), 0), Step(cfg, c.nodes[id], Prop(id, es), 0), k);
    case Resend(id, to) => ResendSimulates(cfg, f, c, id, to);
    case Pace(id, to, pr) => PaceSimulates(f, c, id, to, pr);
    case Apply(id, k) => ApplySimulates(f, c, id, k);
  }

  lemma ResendSimulates(cfg: Config, f: Cluster, c: Cluster, id: nat, to: nat)
    requires Simulates(f, c) && id in c.nodes && WellFormed(cfg, f.nodes[id]) && to in cfg.ids
    ensures WellFormed(cfg, c.nodes[id])
    ensures Simulates(After(f, id, Outcome(f.nodes[id], SendAppend(f.nodes[id], to))),
                      After(c, id, Outcome(c.nodes[id], SendAppend(c.nodes[id], to))))
  {
    var n, m := f.nodes[id], c.nodes[id];
    CutWellFormed(cfg, n, m.rl.log.base);
    ResendCut(f, c, id, to);
    AfterSimulates(f, c, id, Outcome(n, SendAppend(n, to)), Outcome(m, SendAppend(m, to)), m.rl.log.base);
  }

  lemma PaceSimulates(f: Cluster, c: Cluster, id: nat, to: nat, pr: Progress)
    requires Simulates(f, c) && id in c.nodes
    ensures Simulates(After(f, id, Outcome(Paced(f.nodes[id], to, pr), [])),
                      After(c, id, Outcome(Paced(c.nodes[id], to, pr), [])))
  {
    var n, m := f.nodes[id], c.nodes[id];
    assert Paced(m, to, pr) == Cut(Paced(n, to, pr), m.rl.log.base);
    AfterSimulates(f, c, id, Outcome(Paced(n, to, pr), []), Outcome(Paced(m, to, pr), []), m.rl.log.base);
  }

  lemma ApplySimulates(f: Cluster, c: Cluster, id: nat, k: nat)
    requires Simulates(f, c) && id in c.nodes && c.nodes[id].rl.applied <= k <= c.nodes[id].rl.committed
    ensures var n, m := f.nodes[id], c.nodes[id];
      Simulates(After(f, id, Outcome(n.(rl := n.rl.(applied := k)), [])),
                After(c, id, Outcome(m.(rl := m.rl.(applied := k)), [])))
  {
    var n, m := f.nodes[id], c.nodes[id];
    var a, b := n.(rl := n.rl.(applied := k)), m.(rl := m.rl.(applied := k));
    assert b == Cut(a, m.rl.log.base);
    AfterSimulates(f, c, id, Outcome(a, []), Outcome(b, []), m.rl.log.base);
  }

  /** A compaction is not seen by the other cluster. */
  lemma CompactSimulates(cfg: Config, f: Cluster, c: Cluster, id: nat, k: nat)
    requires Simulates(f, c) && id in c.nodes && CanCut(c.nodes[id], k)
    ensures Enabled(cfg, f, Shadow(f, Compact(id, k))) && Next(cfg, f, Shadow(f, Compact(id, k))) == f
    ensures Simulates(f, c.(nodes := c.nodes[id := Cut(c.nodes[id], k)]))
  {
    var n, m := f.nodes[id], c.nodes[id];
    assert n.(rl := n.rl.(applied := n.rl.applied)) == n;
    assert f.nodes[id := n] == f.nodes && f.net + Sent([]) == f.net;
    CutTwice(n, m.rl.log.base, k);
  }

  lemma CutTwice(n: Node, j: nat, k: nat)
    requires CanCut(n, j) && j <= k <= n.rl.applied
    ensures CanCut(Cut(n, j), k) && Cut(Cut(n, j), k) == Cut(n, k)
  {
    CutKeeps(n, j);
    CompactTwice(n.rl.log, j, k);
  }

  // ---------- runs ----------

  ghost predicate IsCompactingRun(cfg: Config, peers: seq<Peer>, states: seq<Cluster>, moves: seq<Move>) {
    AllSteps(Moves(cfg), states, moves) && Init(cfg, peers, states[0])
  }

  ghost function Moves(cfg: Config): (Cluster, Move, Cluster) -> bool {
    (c, v, d) => IsMove(cfg, c, v, d)
  }

  ghost predicate AllSimulate(fs: seq<Cluster>, cs: seq<Cluster>) {
    |fs| == |cs| && forall k | 0 <= k < |fs| :: Simulates(fs[k], cs[k])
  }

  lemma StartSimulates(cfg: Config, peers: seq<Peer>, c: Cluster)
    requires Init(cfg, peers, c)
    ensures Simulates(c, c)
  {
    forall id | id in c.nodes ensures CutOf(c.nodes[id], c.nodes[id]) {
      var rnd :| RandomFor(cfg, rnd) && c.nodes[id] == Started(cfg, id, peers, rnd);
      StartedUncut(cfg, id, peers, rnd);
    }
  }

  lemma StartedUncut(cfg: Config, id: nat, peers: seq<Peer>, rnd: nat)
    ensures CutOf(Started(cfg, id, peers, rnd), Started(cfg, id, peers, rnd))
  {
    assert BootEntries(peers)[0..] == BootEntries(peers);
  }

  /** One more move is followed by one more step. */
  lemma MoveSimulates(cfg: Config, peers: seq<Peer>, r: Run, c: Cluster, v: Move, d: Cluster) returns (s: Run)
    requires IsRun(cfg, peers, r) && Simulates(r.states[|r.actions|], c) && IsMove(cfg, c, v, d)
    ensures IsRun(cfg, peers, s) && |s.states| == |r.states| + 1 && s.states[..|r.states|] == r.states
    ensures Simulates(s.states[|r.states|], d)
  {
    var f := r.states[|r.actions|];
    var a := Shadow(f, v);
    var g := MoveFollowed(cfg, peers, r, f, c, v, d);
    s := RunExtended(cfg, peers, r, a, g);
  }

  lemma MoveFollowed(cfg: Config, peers: seq<Peer>, r: Run, f: Cluster, c: Cluster, v: Move, d: Cluster)
    returns (g: Cluster)
    requires IsRun(cfg, peers, r) && f == r.states[|r.actions|] && Simulates(f, c) && IsMove(cfg, c, v, d)
    ensures IsStep(cfg, f, Shadow(f, v), g) && Simulates(g, d)
  {
    match v
    case Plain(a) =>
      EnabledToo(cfg, f, c, a);
      NoPanic(cfg, peers, r, |r.actions|, a);
      StepSimulates(cfg, f, c, a);
      g := Next(cfg, f, a);
    case Compact(id, k) =>
      CompactSimulates(cfg, f, c, id, k);
      g := f;
  }

  /** Every run with compactions is matched, state by state, by a run without. */
  lemma {:induction false} Matched(cfg: Config, peers: seq<Peer>, states: seq<Cluster>, moves: seq<Move>, k: nat)
    returns (r: Run)
    requires IsCompactingRun(cfg, peers, states, moves) && k <= |moves|
    ensures IsRun(cfg, peers, r) && AllSimulate(r.states, states[..k + 1])
  {
    if k == 0 {
      r := Run([states[0]], []);
      StartSimulates(cfg, peers, states[0]);
    } else {
      r := Matched(cfg, peers, states, moves, k - 1);
      assert IsMove(cfg, states[k - 1], moves[k - 1], states[k]);
      assert Simulates(r.states[|r.actions|], states[k - 1]);
      var s := MoveSimulates(cfg, peers, r, states[k - 1], moves[k - 1], states[k]);
      OneMore(r.states, states[..k], s.states, states[..k + 1]);
      r := s;
    }
  }

  lemma OneMore(fs: seq<Cluster>, cs: seq<Cluster>, gs: seq<Cluster>, ds: seq<Cluster>)
    requires AllSimulate(fs, cs) && |gs| == |fs| + 1 == |ds| && gs[..|fs|] == fs && ds[..|cs|] == cs
    requires Simulates(gs[|fs|], ds[|cs|])
    ensures AllSimulate(gs, ds)
  {
    forall k | 0 <= k < |gs| ensures Simulates(gs[k], ds[k]) {
      if k < |fs| {
        assert gs[k] == fs[k] && ds[k] == cs[k];
      }
    }
  }

  lemma Simulated(cfg: Config, peers: seq<Peer>, states: seq<Cluster>, moves: seq<Move>) returns (r: Run)
    requires IsCompactingRun(cfg, peers, states, moves)
    ensures IsRun(cfg, peers, r) && AllSimulate(r.states, states)
  {
    r := Matched(cfg, peers, states, moves, |moves|);
    assert states[..|moves| + 1] == states;
  }

  // ---------- the theorems ----------

  /** A node as it is at a point of a compacting run, and as it is in the matching run. */
  ghost predicate At(states: seq<Cluster>, k: nat, id: nat) {
    k < |states| && id in states[k].nodes
  }

  lemma Uncut(r: Run, states: seq<Cluster>, k: nat, id: nat)
    requires AllSimulate(r.states, states) && At(states, k, id)
    ensures NodeAt(r, k, id) && CutOf(states[k].nodes[id], r.states[k].nodes[id])
  {
    assert Simulates(r.states[k], states[k]);
  }

  /** Where the full logs share a prefix the compacted ones agree. */
  lemma CutsAgree(a: Node, b: Node, c: Node, d: Node, i: nat)
    requires CutOf(c, a) && CutOf(d, b) && a.rl.log.base == 0 && b.rl.log.base == 0
    requires forall j | 0 <= j < i && j < |Ents(a)| && j < |Ents(b)| :: Ents(a)[j] == Ents(b)[j]
    ensures AgreeUpTo(c.rl.log, d.rl.log, i)
  {
    forall j | c.rl.log.base < j <= c.LastIndex() && d.rl.log.base < j <= d.LastIndex() && j <= i
      ensures c.rl.log.At(j) == d.rl.log.At(j)
    {
      assert c.rl.log.At(j) == Ents(a)[j - 1] && d.rl.log.At(j) == Ents(b)[j - 1];
    }
  }

  lemma BaseZero(cfg: Config, peers: seq<Peer>, r: Run, k: nat, id: nat)
    requires IsRun(cfg, peers, r) && NodeAt(r, k, id)
    ensures var l := r.states[k].nodes[id].rl.log; l.base == 0 && l.baseTerm == 0
  {
    NothingCompacted(cfg, peers, r, k, id);
  }

  /** With compaction too an enabled action meets no panic. */
  lemma NoPanicCompacted(cfg: Config, peers: seq<Peer>, states: seq<Cluster>, moves: seq<Move>, k: nat, a: Action)
    requires IsCompactingRun(cfg, peers, states, moves) && k < |states| && Enabled(cfg, states[k], a)
    ensures Safe(cfg, states[k], a)
  {
    var r := Simulated(cfg, peers, states, moves);
    assert Simulates(r.states[k], states[k]);
    EnabledToo(cfg, r.states[k], states[k], a);
    NoPanic(cfg, peers, r, k, a);
    StepSimulates(cfg, r.states[k], states[k], a);
  }

  /** Log matching: logs with the same term at an index that both still know, be it a
      compaction point, agree up to there as far as both hold the entries. */
  lemma LogMatchingCompacted(cfg: Config, peers: seq<Peer>, states: seq<Cluster>, moves: seq<Move>,
                             j: nat, a: nat, k: nat, b: nat, i: nat)
    requires IsCompactingRun(cfg, peers, states, moves) && At(states, j, a) && At(states, k, b)
    requires var l, m := states[j].nodes[a].rl.log, states[k].nodes[b].rl.log;
      l.Term(i) == m.Term(i) && l.base <= i <= l.LastIndex() && m.base <= i <= m.LastIndex()
    ensures AgreeUpTo(states[j].nodes[a].rl.log, states[k].nodes[b].rl.log, i)
  {
    var r := Simulated(cfg, peers, states, moves);
    Uncut(r, states, j, a);
    Uncut(r, states, k, b);
    BaseZero(cfg, peers, r, j, a);
    BaseZero(cfg, peers, r, k, b);
    if i > 0 {
      CutTerm(states[j].nodes[a], r.states[j].nodes[a], i);
      CutTerm(states[k].nodes[b], r.states[k].nodes[b], i);
      LogMatching(cfg, peers, r, j, a, k, b, i);
    }
    PrefixEntries(Ents(r.states[j].nodes[a]), Ents(r.states[k].nodes[b]), i);
    CutsAgree(r.states[j].nodes[a], r.states[k].nodes[b], states[j].nodes[a], states[k].nodes[b], i);
  }

  lemma CutTerm(c: Node, f: Node, i: nat)
    requires CutOf(c, f) && f.rl.log.base == 0 && 0 < i && c.rl.log.base <= i <= c.LastIndex()
    ensures i <= |Ents(f)| && c.rl.log.Term(i) == Ents(f)[i - 1].term
  {
    CutKeeps(f, c.rl.log.base);
  }

  lemma PrefixEntries(a: seq<LogEntry>, b: seq<LogEntry>, i: nat)
    requires i == 0 || (i <= |a| && i <= |b| && a[..i] == b[..i])
    ensures forall j | 0 <= j < i && j < |a| && j < |b| :: a[j] == b[j]
  {
    forall j | 0 <= j < i && j < |a| && j < |b| ensures a[j] == b[j] {
      assert a[..i][j] == b[..i][j];
    }
  }

  /** State machine safety: at any two points two nodes agree as far as both committed. */
  lemma CommittedAgreeCompacted(cfg: Config, peers: seq<Peer>, states: seq<Cluster>, moves: seq<Move>,
                                j: nat, a: nat, k: nat, b: nat)
    requires IsCompactingRun(cfg, peers, states, moves) && At(states, j, a) && At(states, k, b)
    ensures var n, m := states[j].nodes[a], states[k].nodes[b];
      AgreeUpTo(n.rl.log, m.rl.log, Min(n.rl.committed, m.rl.committed))
  {
    var r := Simulated(cfg, peers, states, moves);
    Uncut(r, states, j, a);
    Uncut(r, states, k, b);
    BaseZero(cfg, peers, r, j, a);
    BaseZero(cfg, peers, r, k, b);
    CommittedNeverDiffers(cfg, peers, r, j, a, k, b);
    var n, m := r.states[j].nodes[a], r.states[k].nodes[b];
    var c := Min(n.rl.committed, m.rl.committed);
    PrefixEntries(Ents(n), Ents(m), c);
    CutsAgree(n, m, states[j].nodes[a], states[k].nodes[b], c);
  }

  /** Leader completeness: a later leader's log reaches whatever any node committed, and
      agrees with it as far as both hold the entries. */
  lemma LeaderHasCommittedCompacted(cfg: Config, peers: seq<Peer>, states: seq<Cluster>, moves: seq<Move>,
                                    j: nat, a: nat, k: nat, b: nat)
    requires IsCompactingRun(cfg, peers, states, moves) && At(states, j, a) && At(states, k, b)
    requires states[k].nodes[b].role == StateLeader
    requires var s, t := states[j].nodes[a].term, states[k].nodes[b].term; s < t || (s == t && j <= k)
    ensures var n, l := states[j].nodes[a], states[k].nodes[b];
      n.rl.committed <= l.LastIndex() && AgreeUpTo(n.rl.log, l.rl.log, n.rl.committed)
  {
    var r := Simulated(cfg, peers, states, moves);
    Uncut(r, states, j, a);
    Uncut(r, states, k, b);
    BaseZero(cfg, peers, r, j, a);
    BaseZero(cfg, peers, r, k, b);
    LeaderHasCommitted(cfg, peers, r, j, a, k, b);
    var n, l := r.states[j].nodes[a], r.states[k].nodes[b];
    CutKeeps(l, states[k].nodes[b].rl.log.base);
    PrefixEntries(Ents(n), Ents(l), n.rl.committed);
    CutsAgree(n, l, states[j].nodes[a], states[k].nodes[b], n.rl.committed);
  }
}
