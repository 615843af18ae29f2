/** What messages achieve: whom a node tells what, when it votes, and what a request and its
    answer bring about at both ends. */
module Exchanges {
  import opened LogModel
  import opened Quorums
  import opened RaftNode

  // ---------- who is told ----------

  /** Of the messages sent, those to `to`. */
  function SentTo(out: seq<Message>, to: nat): seq<Message> {
    if out == [] then []
    else SentTo(out[..|out| - 1], to) + if out[|out| - 1].to == to then [out[|out| - 1]] else []
  }

  lemma {:induction false} SentToBoth(a: seq<Message>, b: seq<Message>, to: nat)
    ensures SentTo(a + b, to) == SentTo(a, to) + SentTo(b, to)
  {
    if b == [] {
      assert a + b == a;
    } else {
      var rest, last := b[..|b| - 1], b[|b| - 1];
      SentToBoth(a, rest, to);
      SentToMore(a, rest, last, to);
      assert b == rest + [last];
    }
  }

  lemma SentToMore(a: seq<Message>, b: seq<Message>, m: Message, to: nat)
    requires SentTo(a + b, to) == SentTo(a, to) + SentTo(b, to)
    ensures SentTo(a + (b + [m]), to) == SentTo(a, to) + SentTo(b + [m], to)
  {
    Regrouped(a, b, [m]);
    SentToNext(a + b, m, to);
    SentToNext(b, m, to);
    Regrouped(SentTo(a, to), SentTo(b, to), if m.to == to then [m] else []);
  }

  lemma Regrouped<T>(a: seq<T>, b: seq<T>, c: seq<T>)
    ensures a + (b + c) == (a + b) + c
  {
  }

  lemma SentToNext(ms: seq<Message>, m: Message, to: nat)
    ensures SentTo(ms + [m], to) == SentTo(ms, to) + if m.to == to then [m] else []
  {
    assert (ms + [m])[..|ms|] == ms;
  }

  lemma SentToOne(ms: seq<Message>, to: nat, only: nat)
    requires |ms| <= 1 && forall m | m in ms :: m.to == only
    ensures SentTo(ms, to) == if to == only then ms else []
  {
    if ms != [] {
      assert ms == [ms[0]] && ms[..0] == [];
    }
  }

  /** A broadcast sends every other member what the leader has for it, and nothing else. */
  lemma {:induction false} BroadcastSends(n: Node, ids: seq<nat>, to: nat)
    requires Distinct(ids) && forall id | id in ids :: id in n.prs && n.prs[id].next > 0
    ensures SentTo(Broadcast(n, ids), to) == if to in ids && to != n.id then SendAppend(n, to) else []
  {
    if ids != [] {
      var k := |ids| - 1;
      LastIsNew(ids, k);
      BroadcastSends(n, ids[..k], to);
      OneMoreSend(n, ids, k, to);
    }
  }

  lemma OneMoreSend(n: Node, ids: seq<nat>, k: nat, to: nat)
    requires k + 1 == |ids| && forall id | id in ids :: id in n.prs && n.prs[id].next > 0
    ensures SentTo(Broadcast(n, ids), to) ==
            SentTo(Broadcast(n, ids[..k]), to) + if ids[k] != n.id && ids[k] == to then SendAppend(n, to) else []
  {
    var last := if ids[k] == n.id then [] else SendAppend(n, ids[k]);
    SentToBoth(Broadcast(n, ids[..k]), last, to);
    SentToOne(last, to, ids[k]);
  }

  lemma LastIsNew(ids: seq<nat>, k: nat)
    requires Distinct(ids) && k + 1 == |ids|
    ensures Distinct(ids[..k]) && ids[k] !in ids[..k]
    ensures forall to :: to in ids <==> to in ids[..k] || to == ids[k]
  {
    assert ids == ids[..k] + [ids[k]];
  }

  /** A call for votes asks every other member once, and nobody else. */
  lemma {:induction false} RequestsSend(n: Node, ids: seq<nat>, to: nat)
    requires Distinct(ids)
    ensures SentTo(VoteRequests(n, ids), to) == if to in ids && to != n.id then [VoteRequest(n, to)] else []
  {
    if ids != [] {
      var k := |ids| - 1;
      LastIsNew(ids, k);
      RequestsSend(n, ids[..k], to);
      OneMoreRequest(n, ids, k, to);
    }
  }

  lemma OneMoreRequest(n: Node, ids: seq<nat>, k: nat, to: nat)
    requires k + 1 == |ids|
    ensures SentTo(VoteRequests(n, ids), to) ==
            SentTo(VoteRequests(n, ids[..k]), to) + if ids[k] != n.id && ids[k] == to then [VoteRequest(n, to)] else []
  {
    var last := if ids[k] == n.id then [] else [VoteRequest(n, ids[k])];
    SentToBoth(VoteRequests(n, ids[..k]), last, to);
    SentToOne(last, to, ids[k]);
  }

  /** The leader can send to the member: it is not paused, and nothing it needs is compacted. */
  predicate CanReach(n: Node, to: nat) {
    to in n.prs && !n.prs[to].IsPaused() && n.prs[to].next > n.rl.log.base
  }

  /** Every other member that can be reached is sent one append request with the node's term
      and commit index and all that follows the entry before its next index, and no message
      goes elsewhere. */
  ghost predicate TellsAll(cfg: Config, n: Node, out: seq<Message>) {
    forall to {:trigger SentTo(out, to)} ::
      var sent := SentTo(out, to);
      if to in cfg.ids && to != n.id && CanReach(n, to) then |sent| == 1 && Brings(n, to, sent[0]) else sent == []
  }

  ghost predicate Brings(n: Node, to: nat, m: Message)
    requires to in n.prs
  {
    && IsRequest(m, n, to) && m.index + 1 == n.prs[to].next
    && (n.prs[to].next <= n.LastIndex() + 1 ==>
          TakenFrom(n.rl.log, m.index, m.logTerm, m.entries) && m.index + |m.entries| == n.LastIndex())
  }

  lemma BroadcastTells(cfg: Config, n: Node)
    requires WellFormed(cfg, n)
    ensures TellsAll(cfg, n, Broadcast(n, cfg.ids))
  {
    forall to ensures var sent := SentTo(Broadcast(n, cfg.ids), to);
      if to in cfg.ids && to != n.id && CanReach(n, to) then |sent| == 1 && Brings(n, to, sent[0]) else sent == []
    {
      BroadcastSends(n, cfg.ids, to);
      if to in cfg.ids {
        SentUnlessPaused(n, to);
      }
    }
  }

  // ---------- a leader's commit ----------

  ghost predicate Ascends(l: Log) {
    forall i, j {:trigger l.Term(i), l.Term(j)} | l.base <= i <= j <= l.LastIndex() :: l.Term(i) <= l.Term(j)
  }

  /** A quorum has matched index `k`. */
  ghost predicate QuorumHas(cfg: Config, n: Node, k: nat) {
    |set id | id in cfg.ids && id in n.prs && n.prs[id].matched >= k| >= Quorum(|cfg.ids|)
  }

  lemma QuorumHasPick(cfg: Config, n: Node, k: nat)
    requires WellFormed(cfg, n)
    ensures QuorumHas(cfg, n, k) <==> k <= Pick(Values(cfg.ids, n.Matches()), Quorum(|cfg.ids|))
  {
    var f := n.Matches();
    QuorumFits(|cfg.ids|);
    PickSpec(Values(cfg.ids, f), Quorum(|cfg.ids|), k);
    CountIsMembers(cfg.ids, f, k);
    assert Reached(cfg.ids, f, k) == set id | id in cfg.ids && id in n.prs && n.prs[id].matched >= k;
  }

  /** The commit index grows exactly to the greatest index of the leader's own term that a
      quorum has matched, and only the commit index changes; the answer says whether it grew. */
  lemma CommitsGreatest(cfg: Config, n: Node)
    requires WellFormed(cfg, n) && Ascends(n.rl.log) && n.rl.log.LastTerm() <= n.term
    requires forall id | id in n.prs :: n.prs[id].matched <= n.LastIndex()
    ensures var (d, ok) := MaybeCommit(cfg, n);
      && d == n.(rl := n.rl.(committed := d.rl.committed)) && n.rl.committed <= d.rl.committed
      && (ok <==> d.rl.committed > n.rl.committed)
      && (ok ==> QuorumHas(cfg, n, d.rl.committed) && n.rl.log.Term(d.rl.committed) == n.term)
      && forall k: nat | QuorumHas(cfg, n, k) && n.rl.log.Term(k) == n.term :: k <= d.rl.committed
  {
    var pick := Pick(Values(cfg.ids, n.Matches()), Quorum(|cfg.ids|));
    CommitsNews(n.rl, pick, n.term);
    QuorumHasPick(cfg, n, pick);
    var d := MaybeCommit(cfg, n).0;
    forall k: nat | QuorumHas(cfg, n, k) && n.rl.log.Term(k) == n.term ensures k <= d.rl.committed {
      QuorumHasPick(cfg, n, k);
      PickInLog(cfg, n, pick);
      assert n.rl.log.Term(k) <= n.rl.log.Term(pick) <= n.rl.log.Term(n.LastIndex());
    }
  }

  lemma PickInLog(cfg: Config, n: Node, pick: nat)
    requires WellFormed(cfg, n) && pick == Pick(Values(cfg.ids, n.Matches()), Quorum(|cfg.ids|))
    requires forall id | id in n.prs :: n.prs[id].matched <= n.LastIndex()
    ensures pick <= n.LastIndex()
  {
    var v := Values(cfg.ids, n.Matches());
    QuorumFits(|cfg.ids|);
    PickIsValue(v, Quorum(|cfg.ids|));
    var i :| 0 <= i < |v| && v[i] == pick;
    assert pick == n.prs[cfg.ids[i]].matched;
  }

  /** A leader that takes a reply learns of that member alone, and tells everyone exactly when
      its commit index has grown; a refusal changes nothing. */
  lemma NewsOfCommit(cfg: Config, n: Node, m: Message)
    requires WellFormed(cfg, n) && m.from in n.prs
    ensures var o := HandleAppResp(cfg, n, m);
      && o.node == n.(prs := o.node.prs, rl := n.rl.(committed := o.node.rl.committed))
      && o.node.prs.Keys == n.prs.Keys && (forall id | id in n.prs && id != m.from :: o.node.prs[id] == n.prs[id])
      && n.rl.committed <= o.node.rl.committed
      && (m.reject ==> o == Outcome(n, []))
      && (!m.reject ==> o.node.prs[m.from].matched == Max(n.prs[m.from].matched, m.index)
                        && o.node.prs[m.from].next > m.index)
      && (o.node.rl.committed > n.rl.committed ==> TellsAll(cfg, o.node, o.out))
      && (o.node.rl.committed == n.rl.committed ==> o.out == [])
  {
    if !m.reject {
      var p := Progressed(n, m);
      CommitsNews(p.rl, Pick(Values(cfg.ids, p.Matches()), Quorum(|cfg.ids|)), p.term);
      BroadcastTells(cfg, MaybeCommit(cfg, p).0);
    }
  }

  function Max(a: nat, b: nat): nat {
    if a < b then b else a
  }

  /** A proposal is appended, and everyone is told. */
  lemma ProposalSpreads(cfg: Config, n: Node, m: Message)
    requires WellFormed(cfg, n)
    ensures var o := HandleProp(cfg, n, m);
      && o.node.rl.log.ents == n.rl.log.ents + NumberEntries(m.entries, n.term, n.LastIndex() + 1)
      && o.node == n.(prs := o.node.prs, rl := o.node.rl) && n.rl.committed <= o.node.rl.committed
      && o.node.prs.Keys == n.prs.Keys && (forall id | id in n.prs && id != n.id :: o.node.prs[id] == n.prs[id])
      && o.node.prs[n.id].matched >= o.node.LastIndex() && TellsAll(cfg, o.node, o.out)
  {
    ExtendedWellFormed(cfg, n, m.entries);
    AppendEntryWellFormed(cfg, n, m.entries);
    BroadcastTells(cfg, AppendEntry(cfg, n, m.entries));
  }

  // ---------- a follower's answer ----------

  /** A follower answers an append request once.  It refuses exactly when the request is not
      behind its commit index and the entry before does not match, says where, and changes
      nothing; for a request behind its commit index it answers the commit index and changes
      nothing; else it then has the request's terms and has committed as far as the request
      says and reaches. */
  lemma AppendAnswered(n: Node, m: Message)
    requires n.rl.Valid() && AppendPre(n, m)
    ensures var o := HandleAppendEntries(n, m);
      && |o.out| == 1 && IsReply(o.out[0], n, m.from)
      && o.node == n.(rl := o.node.rl) && n.rl.committed <= o.node.rl.committed
      && (o.out[0].reject <==> m.index >= n.rl.committed && !n.rl.log.MatchTerm(m.index, m.logTerm))
      && (o.out[0].reject ==> o.node == n && o.out[0].index == m.index && o.out[0].rejectHint == n.LastIndex())
      && (m.index < n.rl.committed ==> o.node == n && o.out[0].index == n.rl.committed)
      && (m.index >= n.rl.committed && !o.out[0].reject ==> Took(n, m, o))
  {
    if m.index >= n.rl.committed {
      CommitKeepsUp(n.rl, m.index, m.logTerm, m.commit, m.entries);
    }
  }

  predicate IsReply(m: Message, n: Node, to: nat) {
    m.mtype == MsgAppResp && m.to == to && m.from == n.id && m.term == n.term
  }

  ghost predicate Took(n: Node, m: Message, o: Outcome)
    requires |o.out| == 1
  {
    var last := m.index + |m.entries|;
    && o.out[0].index == last <= o.node.LastIndex()
    && (forall k | 0 <= k < |m.entries| :: o.node.rl.log.MatchTerm(m.index + 1 + k, m.entries[k].term))
    && n.rl.committed <= o.node.rl.committed && Min(m.commit, last) <= o.node.rl.committed
    && (o.node.rl.committed == n.rl.committed || o.node.rl.committed == Min(m.commit, last))
  }

  // ---------- one round of replication ----------

  /** A leader's request that matches at a follower of its term brings that member up to date:
      the follower knows its leader, starts its timer again, agrees with the leader's whole
      log if the logs match, and has committed all that the leader has; and its answer lets
      the leader count it as far as its log goes, and send on from there. */
  lemma Replicates(cfg: Config, l: Node, f: Node, m: Message) returns (o: Outcome)
    requires WellFormed(cfg, l) && WellFormed(cfg, f) && l.role == StateLeader && f.role == StateFollower
    requires f.id in l.prs && l.term == f.term && m in SendAppend(l, f.id) && l.prs[f.id].next <= l.LastIndex() + 1
    requires AppendPre(f, m) && f.rl.committed <= m.index && f.rl.log.MatchTerm(m.index, m.logTerm)
    ensures StepPre(cfg, f, m, 0) && o == Step(cfg, f, m, 0)
    ensures o.node == f.(rl := o.node.rl, elapsed := 0, lead := l.id) && o.node.rl.committed >= l.rl.committed
    ensures LogsMatch(f.rl.log, l.rl.log) && (m.logTerm > 0 || m.index == 0) ==>
              AgreeUpTo(o.node.rl.log, l.rl.log, l.LastIndex())
    ensures |o.out| == 1 && Counted(cfg, l, f.id, o.out[0])
  {
    SentUnlessPaused(l, f.id);
    o := FollowerTakes(cfg, f, m);
    if LogsMatch(f.rl.log, l.rl.log) && (m.logTerm > 0 || m.index == 0) {
      Agrees(l.rl.log, f.rl, m);
    }
    CountedFully(cfg, l, f.id, o.out[0]);
  }

  lemma FollowerTakes(cfg: Config, f: Node, m: Message) returns (o: Outcome)
    requires WellFormed(cfg, f) && f.role == StateFollower && m.mtype == MsgApp && m.term == f.term
    requires AppendPre(f, m) && f.rl.committed <= m.index && f.rl.log.MatchTerm(m.index, m.logTerm)
    ensures StepPre(cfg, f, m, 0) && o == Step(cfg, f, m, 0)
    ensures o.node.rl == f.rl.MaybeAppend(m.index, m.logTerm, m.commit, m.entries).0
    ensures o.node == f.(rl := o.node.rl, elapsed := 0, lead := m.from)
    ensures o.node.rl.committed >= Min(m.commit, m.index + |m.entries|)
    ensures |o.out| == 1 && IsReply(o.out[0], f, m.from) && !o.out[0].reject && o.out[0].index == m.index + |m.entries|
  {
    StepAdopted(cfg, f, m, 0, f);
    o := Step(cfg, f, m, 0);
    AppendAnswered(f.(elapsed := 0, lead := m.from), m);
  }

  /** The leader that gets answer `a` knows that member `id` has its whole log. */
  ghost predicate Counted(cfg: Config, l: Node, id: nat, a: Message)
    requires id in l.prs
  {
    && StepPre(cfg, l, a, 0)
    && var d := Step(cfg, l, a, 0).node;
      && d.role == StateLeader && d.rl.log == l.rl.log && d.prs.Keys == l.prs.Keys
      && d.prs[id].matched == Max(l.prs[id].matched, l.LastIndex()) && d.prs[id].next > l.LastIndex()
      && forall other | other in l.prs && other != id :: d.prs[other] == l.prs[other]
  }

  lemma CountedFully(cfg: Config, l: Node, id: nat, a: Message)
    requires WellFormed(cfg, l) && l.role == StateLeader && id in l.prs
    requires a.mtype == MsgAppResp && a.from == id && a.term == l.term && !a.reject && a.index == l.LastIndex()
    ensures Counted(cfg, l, id, a)
  {
    StepAdopted(cfg, l, a, 0, l);
    NewsOfCommit(cfg, l, a);
  }

  lemma Agrees(l: Log, s: LogState, m: Message)
    requires l.Valid() && s.Valid() && s.MaybeAppendPre(m.index, m.logTerm, m.entries)
    requires TakenFrom(l, m.index, m.logTerm, m.entries) && m.index + |m.entries| == l.LastIndex()
    requires s.log.MatchTerm(m.index, m.logTerm) && LogsMatch(s.log, l) && (m.logTerm > 0 || m.index == 0)
    ensures AgreeUpTo(s.MaybeAppend(m.index, m.logTerm, m.commit, m.entries).0.log, l, l.LastIndex())
  {
    MergeCorrect(s.log, l, m.index, m.logTerm, m.entries);
  }

  // ---------- votes ----------

  /** A node stands for the next term with its own vote, as leader at once when that is enough;
      else it asks every other member once, with its term and the end of its log. */
  lemma Stands(cfg: Config, n: Node, rnd: nat)
    requires WellFormed(cfg, n) && n.role != StateLeader
    ensures var o := Campaign(cfg, n, rnd);
      && o.node.term == n.term + 1 && o.node.vote == n.id && o.node.rl == n.rl
      && o.node.elapsed == 0 && o.node.timeout == cfg.electionTimeout + rnd
      && (cfg.win == 1 ==> o.node.role == StateLeader && o.node.lead == n.id && o.out == [])
      && (cfg.win > 1 ==> o.node.role == StateCandidate && o.node.lead == 0 && o.node.votes == map[n.id := true])
      && (cfg.win > 1 ==> forall to :: SentTo(o.out, to) == if to in cfg.ids && to != n.id then [Asks(n, to)] else [])
  {
    var c := BecomeCandidate(cfg, n, rnd);
    var p := Poll(c, c.id, true);
    assert p.Grants() == {n.id};
    if cfg.win > 1 {
      forall to
        ensures SentTo(VoteRequests(p, cfg.ids), to) == if to in cfg.ids && to != n.id then [Asks(n, to)] else []
      {
        RequestsSend(p, cfg.ids, to);
      }
    }
  }

  /** The request of a node that stands for the term after its own. */
  function Asks(n: Node, to: nat): Message {
    Message(MsgVote, to, n.id, n.term + 1, n.rl.log.LastTerm(), n.rl.log.LastIndex(), [], 0, false, 0)
  }

  /** A vote is given exactly to a log that is good enough by a node that has not given it to
      another; it is answered, starts the timer again, is given again when asked again, and to
      nobody else.  A refusal changes nothing and is not answered. */
  lemma VoteGiven(cfg: Config, n: Node, m: Message)
    requires m.from != 0
    ensures var o := HandleVote(cfg, n, m);
      && (o.out != [] <==> n.vote in {0, m.from} && n.rl.log.IsUpToDate(m.index, m.logTerm, cfg.strictTie))
      && (o.out == [] ==> o.node == n)
      && (o.out != [] ==>
            && o.node == n.(vote := m.from, elapsed := 0)
            && o.out == [Message(MsgVoteResp, m.from, n.id, n.term, 0, 0, [], 0, false, 0)]
            && HandleVote(cfg, o.node, m) == o
            && forall other: Message | other.from != m.from :: HandleVote(cfg, o.node, other) == Outcome(o.node, []))
  {
  }

  /** What the grants of a candidate become with this reply: a voter's first reply counts. */
  function GrantsWith(n: Node, m: Message): set<nat> {
    n.Grants() + if m.from in n.votes || m.reject then {} else {m.from}
  }

  /** Enough grants make a leader that knows nothing of the others and tells each of them, in
      an append request of its term that brings nothing; too few change only the tally, or end
      the candidacy where the rules say so. */
  lemma VoteCounts(cfg: Config, n: Node, m: Message, rnd: nat)
    requires WellFormed(cfg, n) && n.role == StateCandidate && RandomFor(cfg, rnd)
    ensures var o := HandleVoteResp(cfg, n, m, rnd);
      && o.node.id == n.id && o.node.term == n.term && o.node.vote == n.vote && o.node.rl == n.rl
      && (if |GrantsWith(n, m)| >= cfg.win then Begins(cfg, o) else Waits(cfg, n, m, o))
  {
    Polled(n, m);
    if |GrantsWith(n, m)| >= cfg.win {
      VoteWins(cfg, n, m, rnd, Poll(n, m.from, !m.reject));
      LeaderBegins(cfg, Poll(n, m.from, !m.reject), rnd);
    } else {
      VoteWaits(cfg, n, m, rnd);
    }
  }

  lemma Polled(n: Node, m: Message)
    ensures Poll(n, m.from, !m.reject).Grants() == GrantsWith(n, m)
  {
    var p := Poll(n, m.from, !m.reject);
    assert p.Grants() == GrantsWith(n, m);
  }

  lemma VoteWaits(cfg: Config, n: Node, m: Message, rnd: nat)
    requires WellFormed(cfg, n) && n.role == StateCandidate && RandomFor(cfg, rnd) && |GrantsWith(n, m)| < cfg.win
    ensures var o := HandleVoteResp(cfg, n, m, rnd);
      && o.node.id == n.id && o.node.term == n.term && o.node.vote == n.vote && o.node.rl == n.rl
      && Waits(cfg, n, m, o)
  {
    Polled(n, m);
    var p := Poll(n, m.from, !m.reject);
    TooFewGrants(cfg, n, m, rnd, p);
    StillWaits(cfg, n, m, p, rnd, HandleVoteResp(cfg, n, m, rnd));
  }

  lemma StillWaits(cfg: Config, n: Node, m: Message, p: Node, rnd: nat, o: Outcome)
    requires p == Poll(n, m.from, !m.reject) && p.Grants() == GrantsWith(n, m) && n.role == StateCandidate
    requires o == Outcome(if cfg.stepDown then BecomeFollower(cfg, p, p.term, 0, rnd) else p, [])
    ensures o.node.id == n.id && o.node.term == n.term && o.node.vote == n.vote && o.node.rl == n.rl
    ensures Waits(cfg, n, m, o)
  {
  }

  lemma TooFewGrants(cfg: Config, n: Node, m: Message, rnd: nat, p: Node)
    requires WellFormed(cfg, n) && n.role == StateCandidate && p == Poll(n, m.from, !m.reject)
    requires |p.Grants()| < cfg.win
    ensures HandleVoteResp(cfg, n, m, rnd) ==
            Outcome(if cfg.stepDown then BecomeFollower(cfg, p, p.term, 0, rnd) else p, [])
  {
  }

  /** A candidate's outcome while the grants are too few. */
  ghost predicate Waits(cfg: Config, n: Node, m: Message, o: Outcome) {
    && o.out == []
    && if cfg.stepDown then
         o.node.role == StateFollower && o.node.votes == map[] && o.node.lead == 0 && o.node.elapsed == 0
       else
         && o.node == n.(votes := o.node.votes)
         && o.node.votes.Keys == n.votes.Keys + {m.from} && o.node.Grants() == GrantsWith(n, m)
  }

  /** A new leader's outcome. */
  ghost predicate Begins(cfg: Config, o: Outcome) {
    var l := o.node;
    && l.role == StateLeader && l.lead == l.id && l.votes == map[] && l.elapsed == 0
    && (forall id | id in cfg.ids :: id in l.prs && l.prs[id] == FreshProgress(l, id))
    && forall to :: SentTo(o.out, to) == if to in cfg.ids && to != l.id then [Announces(l, to)] else []
  }

  /** Nothing is known of another member, which is to get what follows the log. */
  function FreshProgress(n: Node, id: nat): Progress {
    Progress(if id == n.id then n.LastIndex() else 0, n.LastIndex() + 1, Probe, false)
  }

  function Announces(l: Node, to: nat): Message {
    Message(MsgApp, to, l.id, l.term, l.rl.log.LastTerm(), l.LastIndex(), [], l.rl.committed, false, 0)
  }

  lemma LeaderBegins(cfg: Config, p: Node, rnd: nat)
    requires WellFormed(cfg, p) && p.role == StateCandidate && RandomFor(cfg, rnd)
    ensures var l := BecomeLeader(cfg, p, rnd);
            WellFormed(cfg, l) && Begins(cfg, Outcome(l, Broadcast(l, cfg.ids)))
  {
    ResetWellFormed(cfg, p, p.term, rnd);
    LeaderFresh(cfg, p, rnd);
    FreshTells(cfg, BecomeLeader(cfg, p, rnd));
  }

  lemma LeaderFresh(cfg: Config, p: Node, rnd: nat)
    requires WellFormed(cfg, p) && p.role == StateCandidate
    ensures var l := BecomeLeader(cfg, p, rnd);
      && l.role == StateLeader && l.lead == l.id && l.votes == map[] && l.elapsed == 0
      && forall id | id in cfg.ids :: id in l.prs && l.prs[id] == FreshProgress(l, id)
  {
  }

  lemma FreshTells(cfg: Config, l: Node)
    requires WellFormed(cfg, l) && forall id | id in cfg.ids :: id in l.prs && l.prs[id] == FreshProgress(l, id)
    ensures forall to ::
              SentTo(Broadcast(l, cfg.ids), to) == if to in cfg.ids && to != l.id then [Announces(l, to)] else []
  {
    forall to
      ensures SentTo(Broadcast(l, cfg.ids), to) == if to in cfg.ids && to != l.id then [Announces(l, to)] else []
    {
      BroadcastSends(l, cfg.ids, to);
      if to in cfg.ids && to != l.id {
        FreshSends(l, to);
      }
    }
  }

  lemma FreshSends(l: Node, to: nat)
    requires to in l.prs && to != l.id && l.prs[to] == FreshProgress(l, to)
    ensures SendAppend(l, to) == [Announces(l, to)]
  {
  }

  /** A candidate's request that reaches a member of an earlier term whose log is no better
      gets that member's vote, and with the answer the candidate has one grant more, or leads. */
  lemma VoteRound(cfg: Config, c: Node, v: Node, rnd: nat) returns (o: Outcome, d: Node)
    requires WellFormed(cfg, c) && WellFormed(cfg, v) && RandomFor(cfg, rnd) && c.role == StateCandidate
    requires v.term < c.term && v.id !in c.votes
    requires v.rl.log.IsUpToDate(c.LastIndex(), c.rl.log.LastTerm(), cfg.strictTie)
    ensures StepPre(cfg, v, VoteRequest(c, v.id), rnd) && o == Step(cfg, v, VoteRequest(c, v.id), rnd)
    ensures o.node.term == c.term && o.node.vote == c.id && o.node.role == StateFollower && o.node.rl == v.rl
    ensures |o.out| == 1 && o.out[0].to == c.id
    ensures StepPre(cfg, c, o.out[0], rnd) && d == Step(cfg, c, o.out[0], rnd).node && d.term == c.term
    ensures |c.Grants()| + 1 >= cfg.win ==> d.role == StateLeader
    ensures |c.Grants()| + 1 < cfg.win && !cfg.stepDown ==>
              d.role == StateCandidate && d.Grants() == c.Grants() + {v.id}
  {
    var m := VoteRequest(c, v.id);
    var a := Adopt(cfg, v, m, rnd);
    ResetWellFormed(cfg, v, c.term, rnd);
    StepAdopted(cfg, v, m, rnd, a);
    VoteGiven(cfg, a, m);
    o := HandleVote(cfg, a, m);
    StepAdopted(cfg, c, o.out[0], rnd, c);
    VoteCounts(cfg, c, o.out[0], rnd);
    d := HandleVoteResp(cfg, c, o.out[0], rnd).node;
  }

  // ---------- terms ----------

  /** The messages of its own term that a node's role has a use for. */
  predicate Heeds(n: Node, m: Message) {
    match m.mtype
    case MsgHup => true
    case MsgVote => true
    case MsgApp => n.role == StateFollower
    case MsgVoteResp => n.role == StateCandidate
    case MsgAppResp => n.role == StateLeader && m.from in n.prs
    case MsgProp => n.role == StateLeader
  }

  /** Any other message of its term does nothing at all. */
  lemma OthersIgnored(cfg: Config, n: Node, m: Message, rnd: nat)
    requires StepPre(cfg, n, m, rnd) && m.term in {0, n.term} && !Heeds(n, m)
    ensures Step(cfg, n, m, rnd) == Outcome(n, [])
  {
    StepAdopted(cfg, n, m, rnd, n);
  }

  /** A message of an earlier term does nothing at all. */
  lemma EarlierIgnored(cfg: Config, n: Node, m: Message, rnd: nat)
    requires StepPre(cfg, n, m, rnd) && 0 < m.term < n.term
    ensures Step(cfg, n, m, rnd) == Outcome(n, [])
  {
  }

  /** A message of a later term makes a follower of that term, its timer at zero and newly
      drawn, without a tally or progress, and without a vote or leader but the sender. */
  lemma LaterAdopted(cfg: Config, n: Node, m: Message, rnd: nat)
    requires StepPre(cfg, n, m, rnd) && m.term > n.term && m.mtype != MsgHup
    ensures var d := Step(cfg, n, m, rnd).node;
      && d.id == n.id && d.term == m.term && d.role == StateFollower && d.votes == map[]
      && d.elapsed == 0 && d.timeout == cfg.electionTimeout + rnd
      && (d.vote == 0 || (d.vote == m.from && m.mtype == MsgVote))
      && (d.lead == if m.mtype == MsgApp then m.from else 0)
      && (m.mtype != MsgApp ==> d.rl == n.rl)
      && d.prs == (map id | id in n.prs :: FreshProgress(n, id))
  {
    ResetWellFormed(cfg, n, m.term, rnd);
    StepAdopted(cfg, n, m, rnd, Adopt(cfg, n, m, rnd));
  }
}
