/** Raft's central argument, on the history alone: what a quorum accepted in a term is
    in the log of every later leader, so whatever is committed agrees. */
module LeaderCompleteness {
  import opened LogModel
  import opened Quorums
  import opened RaftNode
  import opened History

  /** Log matching: two logs whose entries come from leaders, with entries of the same
      term at one position, are the same up to there. */
  lemma Matching(h: History, a: seq<LogEntry>, b: seq<LogEntry>, i: nat)
    requires Covered(h, a) && Covered(h, b)
    requires 0 < i <= |a| && i <= |b| && a[i - 1].term == b[i - 1].term
    ensures Same(a, b, i)
  {
    assert FromLeader(h, a, i - 1) && FromLeader(h, b, i - 1);
  }

  /** Terms never decrease along a log whose entries come from leaders. */
  lemma TermsAscend(h: History, s: seq<LogEntry>, i: nat, j: nat)
    requires LogsOk(h) && Covered(h, s)
    requires i <= j < |s|
    ensures s[i].term <= s[j].term
  {
    var t := s[j].term;
    assert FromLeader(h, s, j);
    var l := h.logs[t];
    assert LeaderLog(h, t) && s[i] == l[i];
  }

  // ---------- the comparison of logs ----------

  /** A voter's comparison is the one of the two whole logs: it takes the other log when that
      one is at least as up to date, and with the strict rule when it also ends differently. */
  lemma ComparisonRight(a: seq<LogEntry>, b: seq<LogEntry>, strict: bool)
    ensures Log(0, 0, a).IsUpToDate(|b|, LastTermOf(b), strict) <==>
            UpToDate(b, a) && (strict ==> |b| != |a| || LastTermOf(b) != LastTermOf(a))
  {
  }

  /** It orders all logs: of any two one is good enough for the other, both only if they end
      alike, and what is good enough for a log is so for whatever that one is good enough for. */
  lemma ComparisonOrders(a: seq<LogEntry>, b: seq<LogEntry>, c: seq<LogEntry>)
    ensures UpToDate(a, b) || UpToDate(b, a)
    ensures UpToDate(a, b) && UpToDate(b, a) <==> |a| == |b| && LastTermOf(a) == LastTermOf(b)
    ensures UpToDate(a, b) && UpToDate(b, c) ==> UpToDate(a, c)
  {
  }

  /** A log that extends another, its terms never decreasing, is good enough for it. */
  lemma LongerIsUpToDate(a: seq<LogEntry>, b: seq<LogEntry>)
    requires Same(a, b, |a|) && forall i, j | 0 <= i <= j < |b| :: b[i].term <= b[j].term
    ensures UpToDate(b, a)
  {
  }

  /** Of any logs one is good enough for them all. */
  lemma {:induction false} BestOf(logs: seq<seq<LogEntry>>) returns (k: nat)
    requires logs != []
    ensures k < |logs| && forall i | 0 <= i < |logs| :: UpToDate(logs[k], logs[i])
  {
    k := 0;
    if |logs| > 1 {
      var rest := logs[..|logs| - 1];
      k := BestOf(rest);
      if !UpToDate(logs[k], logs[|logs| - 1]) {
        k := |logs| - 1;
      }
      forall i | 0 <= i < |logs| ensures UpToDate(logs[k], logs[i]) {
        assert i < |rest| ==> rest[i] == logs[i];
      }
    }
  }

  // ---------- the argument ----------

  /** The step of the argument for one voter: a later leader whose log is at least as up
      to date as a log that has the entries has them too, when every leader in between
      has them. */
  lemma UpToDateHas(h: History, t: nat, i: nat, e: seq<LogEntry>, v: seq<LogEntry>, later: nat)
    requires LogsOk(h)
    requires t in h.logs && 0 < i <= |h.logs[t]| && h.logs[t][i - 1].term == t
    requires Covered(h, e) && Covered(h, v) && (forall k {:trigger e[k]} | 0 <= k < |e| :: e[k].term < later)
    requires Same(v, h.logs[t], i) && UpToDate(e, v)
    requires forall u | t < u < later && u in h.elected :: Same(h.elected[u], h.logs[t], i)
    ensures Same(e, h.logs[t], i)
  {
    TermsAscend(h, v, i - 1, |v| - 1);
    var s := e[|e| - 1].term;
    assert FromLeader(h, e, |e| - 1);
    assert LeaderLog(h, s);
    if s == v[|v| - 1].term {
      assert FromLeader(h, v, |v| - 1);
    } else {
      assert t < s < later && s in h.elected;
      assert Same(h.elected[s], h.logs[t], i);
    }
  }

  /** Leader completeness: what was committed in term `t` is in the log of every leader
      elected in a later term. */
  lemma {:induction false} LaterLeadersHave(cfg: Config, h: History, t: nat, i: nat, later: nat)
    requires HistoryOk(cfg, h) && CommittedAt(cfg, h, t, i) && t < later && later in h.elected
    ensures Same(h.elected[later], h.logs[t], i)
    decreases later
  {
    forall u | t < u < later && u in h.elected ensures Same(h.elected[u], h.logs[t], i) {
      LaterLeadersHave(cfg, h, t, i, u);
    }
    var v := SharedVoter(cfg, h, t, i, later);
    var log := h.ballots[(v, later)].log;
    VoterHas(cfg, h, t, i, later, v);
    assert LeaderLog(h, later) && BallotOk(h, v, later) && LeaderLog(h, t);
    ElectedCovered(h, later);
    UpToDateHas(h, t, i, h.elected[later], log, later);
  }

  /** Some node both accepted the entries and voted for the later leader. */
  lemma SharedVoter(cfg: Config, h: History, t: nat, i: nat, later: nat) returns (v: nat)
    requires HistoryOk(cfg, h) && CommittedAt(cfg, h, t, i) && t < later && later in h.elected
    ensures later in h.winner && v in h.voters[later] && Acc(h, v, t) >= i
    ensures Election(cfg, h, later) && VotedIn(h, later, v)
  {
    MembersSize(cfg.ids);
    assert later in h.winner && Election(cfg, h, later);
    v := QuorumsIntersect(Members(cfg.ids), Acceptors(cfg, h, t, i), h.voters[later]);
  }

  /** Its log still had them when it voted. */
  lemma VoterHas(cfg: Config, h: History, t: nat, i: nat, later: nat, v: nat)
    requires Keys(h) && later in h.winner && VotedIn(h, later, v)
    requires 0 < i <= Acc(h, v, t) && t < later && t in h.logs
    requires forall u | t < u < later && u in h.elected :: Same(h.elected[u], h.logs[t], i)
    ensures Same(h.ballots[(v, later)].log, h.logs[t], i)
  {
    var log := h.ballots[(v, later)].log;
    assert Kept(h, log, t, i, later - 1);
    assert !Lost(h, t, i, later - 1);
  }

  lemma ElectedCovered(h: History, t: nat)
    requires Keys(h) && t in h.logs && LeaderLog(h, t)
    ensures Covered(h, h.elected[t])
    ensures forall k {:trigger h.elected[t][k]} | 0 <= k < |h.elected[t]| :: h.elected[t][k].term < t
  {
    var e, l := h.elected[t], h.logs[t];
    forall k | 0 <= k < |e| ensures FromLeader(h, e, k) && e[k].term < t {
      assert e[k] == l[k] && FromLeader(h, l, k);
    }
  }

  lemma SameThroughElected(h: History, s: seq<LogEntry>, l: seq<LogEntry>, c: nat, i: nat, t: nat)
    requires Keys(h) && t in h.logs && LeaderLog(h, t)
    requires Same(s, l, c) && Same(h.elected[t], l, i) && c <= i
    ensures Same(s, h.logs[t], c)
  {
  }

  lemma LaterLogHas(cfg: Config, h: History, s: seq<LogEntry>, c: nat, bound: nat, u: nat, i: nat, t: nat)
    requires HistoryOk(cfg, h) && CommitPoint(cfg, h, s, c, bound, u, i) && u <= t && t in h.logs
    ensures Same(s, h.logs[t], c)
  {
    if u < t {
      LaterLeadersHave(cfg, h, u, i, t);
      SameThroughElected(h, s, h.logs[u], c, i, t);
    }
  }

  /** Every later leader's log has what was committed in a term up to it. */
  lemma LeaderHas(cfg: Config, h: History, s: seq<LogEntry>, c: nat, bound: nat, t: nat)
    requires HistoryOk(cfg, h) && Committed(cfg, h, s, c, bound) && bound <= t && t in h.logs
    ensures Same(s, h.logs[t], c)
  {
    var u: nat, i: nat :| CommitPoint(cfg, h, s, c, bound, u, i);
    LaterLogHas(cfg, h, s, c, bound, u, i, t);
  }

  /** The log a later leader was elected with has it already. */
  lemma ElectedHas(cfg: Config, h: History, s: seq<LogEntry>, c: nat, bound: nat, t: nat)
    requires HistoryOk(cfg, h) && Committed(cfg, h, s, c, bound) && bound < t && t in h.elected
    ensures Same(s, h.elected[t], c)
  {
    var u: nat, i: nat :| CommitPoint(cfg, h, s, c, bound, u, i);
    LaterLeadersHave(cfg, h, u, i, t);
  }

  /** Whatever two logs hold as committed agrees. */
  lemma CommittedAgree(cfg: Config, h: History, a: seq<LogEntry>, c: nat, s: nat, b: seq<LogEntry>, d: nat, t: nat)
    requires HistoryOk(cfg, h) && Committed(cfg, h, a, c, s) && Committed(cfg, h, b, d, t)
    ensures Same(a, b, if c < d then c else d)
  {
    var u, i :| CommitPoint(cfg, h, a, c, s, u, i);
    var w, j :| CommitPoint(cfg, h, b, d, t, w, j);
    var top := if u < w then w else u;
    assert Committed(cfg, h, a, c, u) by {
      assert CommitPoint(cfg, h, a, c, u, u, i);
    }
    assert Committed(cfg, h, b, d, w) by {
      assert CommitPoint(cfg, h, b, d, w, w, j);
    }
    LeaderHas(cfg, h, a, c, u, top);
    LeaderHas(cfg, h, b, d, w, top);
  }
}
