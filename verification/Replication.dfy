/** The replication handlers keep the invariant. */
module Replication {
  import opened LogModel
  import opened Quorums
  import opened RaftNode
  import opened Cluster
  import opened History
  import opened Elections

  // ---------- sending ----------

  /** What a leader sends is a piece of its term's log. */
  lemma SendAppendOk(cfg: Config, h: History, n: Node, to: nat)
    requires NodeOk(cfg, h, n) && n.role == StateLeader && to in cfg.ids
    ensures forall m | m in SendAppend(n, to) :: MessageOk(cfg, h, m)
  {
    var next := n.prs[to].next;
    if next <= n.LastIndex() {
      assert n.rl.log.Entries(next).1 == Ents(n)[next - 1..];
    }
  }

  lemma {:induction false} BroadcastOk(cfg: Config, h: History, n: Node, ids: seq<nat>)
    requires NodeOk(cfg, h, n) && n.role == StateLeader && forall id | id in ids :: id in cfg.ids
    ensures forall m | m in Broadcast(n, ids) :: MessageOk(cfg, h, m)
  {
    if ids != [] {
      var k := |ids| - 1;
      assert forall id | id in ids[..k] :: id in ids;
      BroadcastOk(cfg, h, n, ids[..k]);
      SendAppendOk(cfg, h, n, ids[k]);
    }
  }

  // ---------- a leader extends its log ----------

  function Grown(h: History, n: Node, log: seq<LogEntry>): History {
    h.(logs := h.logs[n.term := log], accepted := h.accepted[(n.id, n.term) := |log|])
  }

  /** `log` is the leader's log with further entries of its term. */
  ghost predicate GrowsBy(n: Node, log: seq<LogEntry>) {
    && Same(Ents(n), log, |Ents(n)|) && Numbered(log, 1)
    && forall k {:trigger log[k]} | |Ents(n)| <= k < |log| :: log[k].term == n.term
  }

  lemma GrownExtends(h: History, n: Node, log: seq<LogEntry>)
    requires Keys(h) && LeaderOk(h, n) && n.role == StateLeader && GrowsBy(n, log)
    ensures Extends(h, Grown(h, n, log), n.id) && AcceptsOnly(h, Grown(h, n, log), n.id, n.term)
  {
    var g := Grown(h, n, log);
    assert AcceptsOnly(h, g, n.id, n.term);
    assert Acc(g, n.id, n.term) == |log|;
  }

  lemma GrownLogsOk(h: History, n: Node, log: seq<LogEntry>)
    requires LogsOk(h) && LeaderOk(h, n) && n.role == StateLeader && GrowsBy(n, log)
    requires Extends(h, Grown(h, n, log), n.id)
    ensures LogsOk(Grown(h, n, log))
  {
    var g := Grown(h, n, log);
    forall t | t in g.logs ensures LeaderLog(g, t) {
      if t == n.term {
        GrownLeaderLog(h, n, log);
      } else {
        OldLeaderLog(h, g, n.id, t);
      }
    }
  }

  lemma GrownCovered(h: History, n: Node, log: seq<LogEntry>)
    requires GrowsBy(n, log) && Covered(h, Ents(n)) && Extends(h, Grown(h, n, log), n.id)
    ensures Covered(Grown(h, n, log), log)
  {
    var g := Grown(h, n, log);
    CoveredGrows(h, g, Ents(n));
    forall k | 0 <= k < |log| ensures FromLeader(g, log, k) {
      if k < |Ents(n)| {
        assert FromLeader(g, Ents(n), k);
      }
    }
  }

  lemma GrownLeaderLog(h: History, n: Node, log: seq<LogEntry>)
    requires Keys(h) && LeaderOk(h, n) && n.role == StateLeader && GrowsBy(n, log)
    requires n.term in h.logs && LeaderLog(h, n.term) && Extends(h, Grown(h, n, log), n.id)
    ensures LeaderLog(Grown(h, n, log), n.term)
  {
    GrownCovered(h, n, log);
    assert n.term != 1;
  }

  lemma GrownHistoryOk(cfg: Config, h: History, n: Node, log: seq<LogEntry>)
    requires Good(cfg, h, n) && n.role == StateLeader && GrowsBy(n, log)
    ensures HistoryOk(cfg, Grown(h, n, log)) && Extends(h, Grown(h, n, log), n.id)
    ensures AcceptsOnly(h, Grown(h, n, log), n.id, n.term)
  {
    GrownExtends(h, n, log);
    GrownLogsOk(h, n, log);
    GrownElectionsOk(cfg, h, n, log);
    OldBallots(h, Grown(h, n, log), n);
    GrownAcceptedOk(h, n, log);
  }

  lemma GrownElectionsOk(cfg: Config, h: History, n: Node, log: seq<LogEntry>)
    requires ElectionsOk(cfg, h) && AcceptedOk(h) && Fresh(h, n.id, n.term)
    requires Extends(h, Grown(h, n, log), n.id) && AcceptsOnly(h, Grown(h, n, log), n.id, n.term)
    ensures ElectionsOk(cfg, Grown(h, n, log))
  {
    forall t | t in h.winner ensures Election(cfg, Grown(h, n, log), t) {
      OldElection(cfg, h, Grown(h, n, log), n, t);
    }
  }

  lemma GrownAcceptedOk(h: History, n: Node, log: seq<LogEntry>)
    requires AcceptedOk(h) && AcceptsOnly(h, Grown(h, n, log), n.id, n.term)
    requires LeaderOk(h, n) && n.role == StateLeader && GrowsBy(n, log)
    ensures AcceptedOk(Grown(h, n, log))
  {
    var g := Grown(h, n, log);
    forall v, t | Acc(g, v, t) > 0 ensures t in g.logs && Acc(g, v, t) <= |g.logs[t]| {
      if v != n.id || t != n.term {
        assert Acc(g, v, t) == Acc(h, v, t);
      }
    }
  }

  lemma GrownLogOk(cfg: Config, h: History, n: Node, m: Node, log: seq<LogEntry>)
    requires LogOk(cfg, h, n) && AcceptedOk(h) && GrowsBy(n, log)
    requires Extends(h, Grown(h, n, log), n.id) && AcceptsOnly(h, Grown(h, n, log), n.id, n.term)
    requires m.id == n.id && m.term == n.term && m.rl.log == Log(0, 0, log) && m.rl.committed == n.rl.committed
    ensures LogOk(cfg, Grown(h, n, log), m)
  {
    GrownCovered(h, n, log);
    GrownCommitted(cfg, h, n, log);
    GrownKept(h, n, log);
  }

  lemma GrownCommitted(cfg: Config, h: History, n: Node, log: seq<LogEntry>)
    requires Committed(cfg, h, Ents(n), n.rl.committed, n.term) && GrowsBy(n, log) && Later(h, Grown(h, n, log))
    ensures Committed(cfg, Grown(h, n, log), log, n.rl.committed, n.term)
  {
    CommittedGrows(cfg, h, Grown(h, n, log), Ents(n), n.rl.committed, n.term);
    CommittedSame(cfg, h, Ents(n), n.rl.committed, n.term);
    CommittedInLonger(cfg, Grown(h, n, log), Ents(n), log, n.rl.committed, n.term);
  }

  lemma GrownKept(h: History, n: Node, log: seq<LogEntry>)
    requires AcceptedOk(h) && GrowsBy(n, log) && KeptAll(h, n.id, Ents(n), n.term + 1, n.term)
    requires Later(h, Grown(h, n, log)) && AcceptsOnly(h, Grown(h, n, log), n.id, n.term)
    ensures KeptAll(Grown(h, n, log), n.id, log, n.term + 1, n.term)
  {
    var g := Grown(h, n, log);
    forall t: nat, i: nat | t < n.term + 1 && 0 < i <= Acc(g, n.id, t) ensures Kept(g, log, t, i, n.term) {
      if t == n.term {
        assert Same(log, g.logs[t], i);
      } else {
        assert Acc(g, n.id, t) == Acc(h, n.id, t);
        assert Kept(h, Ents(n), t, i, n.term);
        KeptGrows(h, g, Ents(n), t, i, n.term);
        assert Same(Ents(n), g.logs[t], i) ==> Same(log, g.logs[t], i);
      }
    }
  }

  lemma ExtendedKeeps(cfg: Config, h: History, n: Node, es: seq<LogEntry>) returns (g: History)
    requires Good(cfg, h, n) && n.role == StateLeader
    ensures Extends(h, g, n.id) && Good(cfg, g, Extended(cfg, n, es))
  {
    var m := Extended(cfg, n, es);
    g := Grown(h, n, Ents(m));
    ExtendedGrows(cfg, n, es);
    GrownHistoryOk(cfg, h, n, Ents(m));
    ExtendedNodeOk(cfg, h, n, es);
  }

  lemma ExtendedGrows(cfg: Config, n: Node, es: seq<LogEntry>)
    requires WellFormed(cfg, n) && n.rl.log.base == 0 && n.rl.log.baseTerm == 0 && Numbered(Ents(n), 1)
    ensures GrowsBy(n, Ents(Extended(cfg, n, es))) && WellFormed(cfg, Extended(cfg, n, es))
    ensures Extended(cfg, n, es).rl.log == Log(0, 0, Ents(Extended(cfg, n, es)))
  {
    ExtendedWellFormed(cfg, n, es);
  }

  lemma ExtendedNodeOk(cfg: Config, h: History, n: Node, es: seq<LogEntry>)
    requires NodeOk(cfg, h, n) && AcceptedOk(h) && n.role == StateLeader
    requires var log := Ents(Extended(cfg, n, es));
             Extends(h, Grown(h, n, log), n.id) && AcceptsOnly(h, Grown(h, n, log), n.id, n.term)
    ensures NodeOk(cfg, Grown(h, n, Ents(Extended(cfg, n, es))), Extended(cfg, n, es))
  {
    ExtendedGrows(cfg, n, es);
    LongerNodeOk(cfg, h, n, Extended(cfg, n, es));
  }

  lemma LongerNodeOk(cfg: Config, h: History, n: Node, m: Node)
    requires NodeOk(cfg, h, n) && AcceptedOk(h) && n.role == StateLeader && WellFormed(cfg, m) && GrowsBy(n, Ents(m))
    requires m == n.(rl := m.rl, prs := n.prs[n.id := n.prs[n.id].MaybeUpdate(|Ents(m)|)])
    requires m.rl.log == Log(0, 0, Ents(m)) && m.rl.committed == n.rl.committed
    requires Extends(h, Grown(h, n, Ents(m)), n.id) && AcceptsOnly(h, Grown(h, n, Ents(m)), n.id, n.term)
    ensures NodeOk(cfg, Grown(h, n, Ents(m)), m)
  {
    GrownLogOk(cfg, h, n, m, Ents(m));
    GrownLeaderOk(h, n, m);
    GrownFresh(h, n, Ents(m));
  }

  lemma GrownLeaderOk(h: History, n: Node, m: Node)
    requires LeaderOk(h, n) && n.role == StateLeader && AcceptsOnly(h, Grown(h, n, Ents(m)), n.id, n.term)
    requires m == n.(rl := m.rl, prs := m.prs) && |Ents(m)| >= |Ents(n)| && n.id in n.prs
    requires m.rl.log.base == 0 && m.prs == n.prs[n.id := n.prs[n.id].MaybeUpdate(|Ents(m)|)]
    ensures LeaderOk(Grown(h, n, Ents(m)), m)
  {
    var g := Grown(h, n, Ents(m));
    assert Acc(g, n.id, n.term) == |Ents(m)|;
    forall id | id in m.prs ensures m.prs[id].matched <= Acc(g, id, n.term) {
      assert id != n.id ==> Acc(g, id, n.term) == Acc(h, id, n.term);
    }
  }

  lemma GrownFresh(h: History, n: Node, log: seq<LogEntry>)
    requires Fresh(h, n.id, n.term) && AcceptsOnly(h, Grown(h, n, log), n.id, n.term)
    ensures Fresh(Grown(h, n, log), n.id, n.term)
  {
    forall t: nat | t > n.term ensures Acc(Grown(h, n, log), n.id, t) == 0 {
      assert Acc(h, n.id, t) == 0;
    }
  }

  // ---------- a leader commits ----------

  /** The commit pick counts real copies: every member it counts has accepted the entry. */
  lemma PickAccepted(cfg: Config, h: History, n: Node)
    requires NodeOk(cfg, h, n) && n.role == StateLeader
    ensures |cfg.ids| >= Quorum(|cfg.ids|)
    ensures var p := Pick(Values(cfg.ids, n.Matches()), Quorum(|cfg.ids|));
            |Acceptors(cfg, h, n.term, p)| >= Quorum(|cfg.ids|)
  {
    PickedByQuorum(cfg.ids, n.Matches());
    var p := Pick(Values(cfg.ids, n.Matches()), Quorum(|cfg.ids|));
    var r, a := Reached(cfg.ids, n.Matches(), p), Acceptors(cfg, h, n.term, p);
    assert r <= a;
    SubsetSize(r, a);
  }

  lemma CommitKeeps(cfg: Config, h: History, n: Node)
    requires NodeOk(cfg, h, n) && n.role == StateLeader
    ensures NodeOk(cfg, h, MaybeCommit(cfg, n).0)
  {
    PickAccepted(cfg, h, n);
    var p := Pick(Values(cfg.ids, n.Matches()), Quorum(|cfg.ids|));
    if p > n.rl.committed && n.rl.log.Term(p) == n.term {
      assert CommitPoint(cfg, h, Ents(n), p, n.term, n.term, p);
    }
  }

  lemma AppendEntryKeeps(cfg: Config, h: History, n: Node, es: seq<LogEntry>) returns (g: History)
    requires Good(cfg, h, n) && n.role == StateLeader
    ensures Extends(h, g, n.id) && Good(cfg, g, AppendEntry(cfg, n, es))
  {
    g := ExtendedKeeps(cfg, h, n, es);
    CommitKeeps(cfg, g, Extended(cfg, n, es));
  }

  /** A reply raises the progress only to what its sender has accepted. */
  lemma ProgressedKeeps(cfg: Config, h: History, n: Node, m: Message)
    requires NodeOk(cfg, h, n) && AcceptedOk(h) && n.role == StateLeader
    requires MessageOk(cfg, h, m) && m.mtype == MsgAppResp && !m.reject && m.term == n.term
    ensures NodeOk(cfg, h, Progressed(n, m))
  {
    assert Acc(h, m.from, n.term) <= |Ents(n)|;
  }
}
