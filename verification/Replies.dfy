/** The replies to append requests as the code sends them: no term is put on them, so they
    count as local messages and are never too old.  Here is when that makes no difference,
    and what it can do when it makes one. */
module Replies {
  import opened Quorums
  import opened RaftNode
  import opened Cluster
  import opened Paths

  function Unlabelled(m: Message): Message {
    m.(term := 0)
  }

  /** What `m` carries is no news to a leader: its progress for the sender is as far, and no
      commit is due. */
  predicate NoNews(cfg: Config, n: Node, m: Message)
    requires Quorum(|cfg.ids|) <= |cfg.ids| && forall id | id in cfg.ids :: id in n.prs
  {
    || m.reject || m.from !in n.prs
    || (m.index <= n.prs[m.from].matched && m.index < n.prs[m.from].next
        && var p := Pick(Values(cfg.ids, n.Matches()), Quorum(|cfg.ids|));
           !(p > n.rl.committed && n.rl.log.Term(p) == n.term))
  }

  /** The reply was made in the receiver's term, or in an earlier one and has nothing to tell
      a leader. */
  ghost predicate Harmless(cfg: Config, n: Node, m: Message)
    requires WellFormed(cfg, n)
  {
    m.term == 0 || m.term == n.term || (m.term < n.term && (n.role == StateLeader ==> NoNews(cfg, n, m)))
  }

  lemma ReplyPre(cfg: Config, n: Node, m: Message, rnd: nat)
    requires WellFormed(cfg, n) && RandomFor(cfg, rnd) && m.mtype == MsgAppResp
    ensures StepPre(cfg, n, m, rnd) && StepPre(cfg, n, Unlabelled(m), rnd)
  {
    if m.term > n.term {
      ResetWellFormed(cfg, n, m.term, rnd);
    }
  }

  /** A leader takes a reply that has nothing to tell, and only such a one, without change. */
  lemma NoNewsRight(cfg: Config, n: Node, m: Message)
    requires WellFormed(cfg, n) && m.mtype == MsgAppResp
    ensures StepLeader(cfg, n, m) == Outcome(n, []) <==> NoNews(cfg, n, m)
  {
    if m.from in n.prs && !m.reject {
      var p := Progressed(n, m);
      if m.index <= n.prs[m.from].matched && m.index < n.prs[m.from].next {
        assert p == n;
      } else {
        assert p.prs[m.from] != n.prs[m.from];
        assert MaybeCommit(cfg, p).0.prs == p.prs;
      }
    }
  }

  /** Without the term a reply does what it does with it exactly when it is harmless. */
  lemma UnlabelledRight(cfg: Config, n: Node, m: Message, rnd: nat)
    requires WellFormed(cfg, n) && RandomFor(cfg, rnd) && m.mtype == MsgAppResp
    ensures StepPre(cfg, n, m, rnd) && StepPre(cfg, n, Unlabelled(m), rnd)
    ensures Step(cfg, n, Unlabelled(m), rnd) == Step(cfg, n, m, rnd) <==> Harmless(cfg, n, m)
  {
    ReplyPre(cfg, n, m, rnd);
    NoNewsRight(cfg, n, Unlabelled(m));
    if m.term > n.term {
      LaterReply(cfg, n, m, rnd);
    } else if m.term == n.term {
      assert StepCurrent(cfg, n, Unlabelled(m), rnd) == StepCurrent(cfg, n, m, rnd);
    }
  }

  /** A reply of a later term would have made the node a follower of that term. */
  lemma LaterReply(cfg: Config, n: Node, m: Message, rnd: nat)
    requires WellFormed(cfg, n) && RandomFor(cfg, rnd) && m.mtype == MsgAppResp && m.term > n.term
    requires StepPre(cfg, n, m, rnd) && StepPre(cfg, n, Unlabelled(m), rnd)
    ensures Step(cfg, n, m, rnd).node.term == m.term && Step(cfg, n, Unlabelled(m), rnd).node.term == n.term
  {
  }

  // ---------- runs ----------

  /** A step of the cluster as the code takes it: replies arrive without their term. */
  ghost predicate IsTextStep(cfg: Config, c: Cluster, a: Action, d: Cluster) {
    if a.Deliver? && a.m.mtype == MsgAppResp then
      && Enabled(cfg, c, a) && StepPre(cfg, c.nodes[a.m.to], Unlabelled(a.m), a.rnd)
      && d == After(c, a.m.to, Step(cfg, c.nodes[a.m.to], Unlabelled(a.m), a.rnd))
    else IsStep(cfg, c, a, d)
  }

  ghost predicate HarmlessStep(cfg: Config, c: Cluster, a: Action) {
    a.Deliver? && a.m.mtype == MsgAppResp && a.m.to in c.nodes ==>
      WellFormed(cfg, c.nodes[a.m.to]) && Harmless(cfg, c.nodes[a.m.to], a.m)
  }

  /** A step of the code is one of the labelled cluster exactly when it is harmless. */
  lemma TextStepRight(cfg: Config, c: Cluster, a: Action, d: Cluster)
    requires IsTextStep(cfg, c, a, d)
    ensures IsStep(cfg, c, a, d) <==> HarmlessStep(cfg, c, a)
  {
    if a.Deliver? && a.m.mtype == MsgAppResp {
      UnlabelledRight(cfg, c.nodes[a.m.to], a.m, a.rnd);
      HarmIsSeen(cfg, c, a.m, a.rnd);
    }
  }

  /** And a step of the labelled cluster is one of the code exactly when it is. */
  lemma LabelledStepRight(cfg: Config, c: Cluster, a: Action, d: Cluster)
    requires IsStep(cfg, c, a, d)
    ensures IsTextStep(cfg, c, a, d) <==> HarmlessStep(cfg, c, a)
  {
    if a.Deliver? && a.m.mtype == MsgAppResp {
      UnlabelledRight(cfg, c.nodes[a.m.to], a.m, a.rnd);
      HarmIsSeen(cfg, c, a.m, a.rnd);
    }
  }

  /** A reply that is not harmless leaves the cluster in another state than with its term. */
  lemma HarmIsSeen(cfg: Config, c: Cluster, m: Message, rnd: nat)
    requires m.mtype == MsgAppResp && m.to in c.nodes && WellFormed(cfg, c.nodes[m.to]) && RandomFor(cfg, rnd)
    ensures StepPre(cfg, c.nodes[m.to], m, rnd) && StepPre(cfg, c.nodes[m.to], Unlabelled(m), rnd)
    ensures After(c, m.to, Step(cfg, c.nodes[m.to], Unlabelled(m), rnd)) ==
            After(c, m.to, Step(cfg, c.nodes[m.to], m, rnd))
            <==> Harmless(cfg, c.nodes[m.to], m)
  {
    var n := c.nodes[m.to];
    UnlabelledRight(cfg, n, m, rnd);
    if !Harmless(cfg, n, m) {
      HarmChangesNode(cfg, n, m, rnd);
      var p, q := Step(cfg, n, Unlabelled(m), rnd), Step(cfg, n, m, rnd);
      assert After(c, m.to, p).nodes[m.to] == p.node && After(c, m.to, q).nodes[m.to] == q.node;
    }
  }

  lemma HarmChangesNode(cfg: Config, n: Node, m: Message, rnd: nat)
    requires WellFormed(cfg, n) && RandomFor(cfg, rnd) && m.mtype == MsgAppResp && !Harmless(cfg, n, m)
    requires StepPre(cfg, n, m, rnd) && StepPre(cfg, n, Unlabelled(m), rnd)
    ensures Step(cfg, n, Unlabelled(m), rnd).node != Step(cfg, n, m, rnd).node
  {
    if m.term > n.term {
      LaterReply(cfg, n, m, rnd);
    } else {
      NewsChangesNode(cfg, n, Unlabelled(m));
      assert Step(cfg, n, m, rnd) == Outcome(n, []);
    }
  }

  lemma NewsChangesNode(cfg: Config, n: Node, m: Message)
    requires WellFormed(cfg, n) && m.mtype == MsgAppResp && !NoNews(cfg, n, m)
    ensures StepLeader(cfg, n, m).node != n
  {
    var p := Progressed(n, m);
    assert MaybeCommit(cfg, p).0.prs == p.prs;
    if m.index <= n.prs[m.from].matched && m.index < n.prs[m.from].next {
      assert p == n;
    } else {
      assert p.prs[m.from] != n.prs[m.from];
    }
  }

  ghost predicate IsTextRun(cfg: Config, peers: seq<Peer>, r: Run) {
    AllSteps(TextSteps(cfg), r.states, r.actions) && Init(cfg, peers, r.states[0])
  }

  ghost function TextSteps(cfg: Config): (Cluster, Action, Cluster) -> bool {
    (c, a, d) => IsTextStep(cfg, c, a, d)
  }

  ghost function HarmlessSteps(cfg: Config): (Cluster, Action, Cluster) -> bool {
    (c, a, d) => HarmlessStep(cfg, c, a)
  }

  lemma AllHarmless(cfg: Config, r: Run)
    requires |r.states| == |r.actions| + 1
    ensures AllSteps(HarmlessSteps(cfg), r.states, r.actions) <==>
            forall k | 0 <= k < |r.actions| :: HarmlessStep(cfg, r.states[k], r.actions[k])
  {
    if AllSteps(HarmlessSteps(cfg), r.states, r.actions) {
      forall k | 0 <= k < |r.actions| ensures HarmlessStep(cfg, r.states[k], r.actions[k]) {
        assert HarmlessSteps(cfg)(r.states[k], r.actions[k], r.states[k + 1]);
      }
    }
    if forall k | 0 <= k < |r.actions| :: HarmlessStep(cfg, r.states[k], r.actions[k]) {
      forall k | 0 <= k < |r.actions| ensures HarmlessSteps(cfg)(r.states[k], r.actions[k], r.states[k + 1]) {
        assert HarmlessStep(cfg, r.states[k], r.actions[k]);
      }
    }
  }

  /** A run of the code is a run of the labelled cluster, and all that is proved about those
      holds of it, exactly when it delivers only harmless replies. */
  lemma TextRunRight(cfg: Config, peers: seq<Peer>, r: Run)
    requires IsTextRun(cfg, peers, r)
    ensures IsRun(cfg, peers, r) <==> forall k | 0 <= k < |r.actions| :: HarmlessStep(cfg, r.states[k], r.actions[k])
  {
    forall c, a, d | IsTextStep(cfg, c, a, d) ensures IsStep(cfg, c, a, d) <==> HarmlessStep(cfg, c, a) {
      TextStepRight(cfg, c, a, d);
    }
    AllStepsAlike(TextSteps(cfg), Steps(cfg), HarmlessSteps(cfg), r.states, r.actions);
    AllHarmless(cfg, r);
  }

  /** And a run of the labelled cluster is one of the code exactly when it does. */
  lemma LabelledRunRight(cfg: Config, peers: seq<Peer>, r: Run)
    requires IsRun(cfg, peers, r)
    ensures IsTextRun(cfg, peers, r) <==>
            forall k | 0 <= k < |r.actions| :: HarmlessStep(cfg, r.states[k], r.actions[k])
  {
    forall c, a, d | IsStep(cfg, c, a, d) ensures IsTextStep(cfg, c, a, d) <==> HarmlessStep(cfg, c, a) {
      LabelledStepRight(cfg, c, a, d);
    }
    AllStepsAlike(Steps(cfg), TextSteps(cfg), HarmlessSteps(cfg), r.states, r.actions);
    AllHarmless(cfg, r);
  }

  // ---------- when it does harm ----------

  /** Any old reply misleads: whatever the follower has lost since, the leader's match index
      for it is at least what the reply said, and the labelled reply is ignored. */
  lemma StaleReplyMisleads(cfg: Config, l: Node, follower: Node, m: Message, rnd: nat)
    requires WellFormed(cfg, l) && l.role == StateLeader && RandomFor(cfg, rnd) && follower.id in l.prs
    requires m.mtype == MsgAppResp && !m.reject && m.from == follower.id && 0 < m.term < l.term
    requires follower.LastIndex() < m.index
    ensures StepPre(cfg, l, Unlabelled(m), rnd) && StepPre(cfg, l, m, rnd)
    ensures Step(cfg, l, Unlabelled(m), rnd).node.prs[follower.id].matched > follower.LastIndex()
    ensures Step(cfg, l, m, rnd) == Outcome(l, [])
  {
    ReplyPre(cfg, l, m, rnd);
  }
}
