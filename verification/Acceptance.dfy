/** A follower's side of replication keeps the invariant, and never meets a panic. */
module Acceptance {
  import opened LogModel
  import opened RaftNode
  import opened Cluster
  import opened History
  import opened LeaderCompleteness
  import opened Elections

  /** An append request of the node's term that it has to look at. */
  ghost predicate Request(cfg: Config, h: History, n: Node, m: Message) {
    MessageOk(cfg, h, m) && m.mtype == MsgApp && m.term == n.term
  }

  lemma LeaderFacts(h: History, t: nat)
    requires LogsOk(h) && t in h.logs
    ensures Numbered(h.logs[t], 1) && Covered(h, h.logs[t])
  {
    assert LeaderLog(h, t);
  }

  lemma PieceNumbered(leader: seq<LogEntry>, index: nat, es: seq<LogEntry>)
    requires Numbered(leader, 1) && index + |es| <= |leader|
    requires forall k {:trigger es[k]} | 0 <= k < |es| :: es[k] == leader[index + k]
    ensures Numbered(es, index + 1)
  {
    forall k | 0 <= k < |es| ensures es[k].index == index + 1 + k && es[k].term > 0 {
      assert es[k] == leader[index + k];
    }
  }

  /** The request carries entries of `leader`, and the term of the one before them. */
  ghost predicate TakenOf(leader: seq<LogEntry>, m: Message) {
    && m.index + |m.entries| <= |leader|
    && (forall k {:trigger m.entries[k]} | 0 <= k < |m.entries| :: m.entries[k] == leader[m.index + k])
    && m.logTerm == (if m.index == 0 then 0 else leader[m.index - 1].term)
  }

  lemma RequestTaken(cfg: Config, h: History, n: Node, m: Message)
    requires Request(cfg, h, n, m)
    ensures m.term in h.logs && TakenOf(h.logs[m.term], m)
  {
  }

  lemma TakenNumbered(h: History, m: Message)
    requires LogsOk(h) && m.term in h.logs && TakenOf(h.logs[m.term], m)
    ensures Piece(h.logs[m.term], m.index, m.logTerm, m.entries)
  {
    LeaderFacts(h, m.term);
    TakenIsPiece(h.logs[m.term], m);
  }

  lemma TakenIsPiece(leader: seq<LogEntry>, m: Message)
    requires Numbered(leader, 1) && TakenOf(leader, m)
    ensures Piece(leader, m.index, m.logTerm, m.entries)
  {
    PieceNumbered(leader, m.index, m.entries);
  }

  /** The append panics are out of reach: a matching request leaves no gap and conflicts
      with nothing committed. */
  lemma AppendSafe(cfg: Config, h: History, n: Node, m: Message)
    requires LogsOk(h) && NodeOk(cfg, h, n) && Request(cfg, h, n, m)
    ensures AppendPre(n, m)
  {
    RequestTaken(cfg, h, n, m);
    TakenNumbered(h, m);
    if m.index >= n.rl.committed && n.rl.log.MatchTerm(m.index, m.logTerm) {
      MatchFits(n, m);
    }
  }

  lemma MatchFits(n: Node, m: Message)
    requires n.rl.Valid() && n.rl.log.base == 0 && m.index >= n.rl.committed
    requires Numbered(m.entries, m.index + 1) && (m.index > 0 ==> m.logTerm > 0)
    requires n.rl.log.MatchTerm(m.index, m.logTerm)
    ensures n.rl.MaybeAppendPre(m.index, m.logTerm, m.entries)
  {
    ConflictBounds(n.rl.log, m.index, m.entries);
  }

  /** The follower's log and its leader's after a merge: the entries up to the last new
      one agree.  Either nothing changed, or the follower now has exactly the leader's
      first entries, its own having differed from them at `q`. */
  ghost predicate Merged(old_: seq<LogEntry>, new_: seq<LogEntry>, leader: seq<LogEntry>, last: nat, q: nat) {
    && Same(old_, leader, q) && Same(new_, leader, last) && q <= last
    && (|| (new_ == old_ && q == last)
        || (|new_| == last && q < last && !(q < |old_| && old_[q] == leader[q])))
  }

  /** Entries of the same term at one position: the logs are the same up to there. */
  ghost predicate TermsMatch(s: seq<LogEntry>, leader: seq<LogEntry>) {
    forall k {:trigger s[k]} {:trigger leader[k]} | 0 <= k < |s| && k < |leader| && s[k].term == leader[k].term ::
      Same(s, leader, k + 1)
  }

  /** `es` are the leader's entries after `index`, where its term is `logTerm`. */
  ghost predicate Piece(leader: seq<LogEntry>, index: nat, logTerm: nat, es: seq<LogEntry>) {
    && index + |es| <= |leader| && Numbered(es, index + 1)
    && (forall k {:trigger es[k]} | 0 <= k < |es| :: es[k] == leader[index + k])
    && (index > 0 ==> logTerm > 0 && logTerm == leader[index - 1].term)
  }

  lemma RequestIsPiece(cfg: Config, h: History, n: Node, m: Message)
    requires LogsOk(h) && LogOk(cfg, h, n) && Request(cfg, h, n, m)
    ensures m.term in h.logs
    ensures Piece(h.logs[m.term], m.index, m.logTerm, m.entries) && TermsMatch(Ents(n), h.logs[m.term])
  {
    RequestTaken(cfg, h, n, m);
    TakenNumbered(h, m);
    LogMatchesLeader(cfg, h, n, m.term);
  }

  lemma LogMatchesLeader(cfg: Config, h: History, n: Node, t: nat)
    requires LogsOk(h) && LogOk(cfg, h, n) && t in h.logs
    ensures TermsMatch(Ents(n), h.logs[t])
  {
    LeaderFacts(h, t);
    CoveredMatch(h, Ents(n), h.logs[t]);
  }

  lemma CoveredMatch(h: History, s: seq<LogEntry>, l: seq<LogEntry>)
    requires Covered(h, s) && Covered(h, l)
    ensures TermsMatch(s, l)
  {
    forall k | 0 <= k < |s| && k < |l| && s[k].term == l[k].term ensures Same(s, l, k + 1) {
      Matching(h, s, l, k + 1);
    }
  }

  lemma MergeIs(l: Log, leader: seq<LogEntry>, index: nat, logTerm: nat, es: seq<LogEntry>, last: nat)
    returns (q: nat)
    requires last == index + |es|
    requires l.Valid() && l.base == 0 && TermsMatch(l.ents, leader) && Piece(leader, index, logTerm, es)
    requires l.MatchTerm(index, logTerm)
    ensures index <= l.LastIndex() && index <= q
    ensures Merged(l.ents, l.Merge(index, es).ents, leader, last, q)
    ensures l.Merge(index, es).Valid() && l.Merge(index, es).base == 0 && l.Merge(index, es).baseTerm == l.baseTerm
  {
    var ci := l.FindConflict(es);
    q := if ci == 0 then last else ci - 1;
    SameBeforeConflict(l, leader, index, logTerm, es, q);
    MergeIsAt(l, leader, index, es, last, q);
  }

  lemma MergeIsAt(l: Log, leader: seq<LogEntry>, index: nat, es: seq<LogEntry>, last: nat, q: nat)
    requires last == index + |es|
    requires l.Valid() && l.base == 0 && index <= l.LastIndex() && index + |es| <= |leader| && Numbered(es, index + 1)
    requires forall k {:trigger es[k]} | 0 <= k < |es| :: es[k] == leader[index + k]
    requires Same(l.ents, leader, q)
    requires var ci := l.FindConflict(es); q == if ci == 0 then last else ci - 1
    ensures index <= q && Merged(l.ents, l.Merge(index, es).ents, leader, last, q)
    ensures l.Merge(index, es).Valid() && l.Merge(index, es).base == 0 && l.Merge(index, es).baseTerm == l.baseTerm
  {
    var ci := l.FindConflict(es);
    if ci == 0 {
      MergeSpec(l, index, es);
    } else {
      MergeIsAppend(l, index, es, ci);
      ConflictDiffers(l, index, es, ci);
      MergedIsLeaders(l.ents, leader, index, es, ci, last, q, l.Merge(index, es).ents);
    }
  }

  lemma SameBeforeConflict(l: Log, leader: seq<LogEntry>, index: nat, logTerm: nat, es: seq<LogEntry>, q: nat)
    requires l.base == 0 && TermsMatch(l.ents, leader) && Piece(leader, index, logTerm, es)
    requires l.MatchTerm(index, logTerm)
    requires var ci := l.FindConflict(es); q == if ci == 0 then index + |es| else ci - 1
    ensures Same(l.ents, leader, q) && index <= l.LastIndex()
  {
    MatchesBefore(l, index, es, q);
    if q > index {
      assert es[q - index - 1] == leader[q - 1];
    }
    if q > 0 {
      assert l.ents[q - 1].term == leader[q - 1].term;
    }
  }

  lemma MatchesBefore(l: Log, index: nat, es: seq<LogEntry>, q: nat)
    requires Numbered(es, index + 1)
    requires var ci := l.FindConflict(es); q == if ci == 0 then index + |es| else ci - 1
    ensures index <= q <= index + |es|
    ensures q > index ==> l.MatchTerm(q, es[q - index - 1].term)
  {
    ConflictSpec(l, index, es);
    if q > index {
      assert l.MatchTerm(index + 1 + (q - index - 1), es[q - index - 1].term);
    }
  }

  lemma MergedIsLeaders(s: seq<LogEntry>, leader: seq<LogEntry>, index: nat, es: seq<LogEntry>, ci: nat, last: nat,
                        q: nat,
                        r: seq<LogEntry>)
    requires last == index + |es| && last <= |leader| && q == ci - 1
    requires forall k {:trigger es[k]} | 0 <= k < |es| :: es[k] == leader[index + k]
    requires index < ci <= |s| + 1 && ci <= last
    requires Same(s, leader, q)
    requires ci <= |s| ==> s[ci - 1] != es[ci - index - 1]
    requires r == s[..ci - 1] + es[ci - index - 1..]
    ensures Merged(s, r, leader, last, q)
  {
    SpliceIsLeaders(s, leader, index, es, ci, last, r);
    assert es[ci - index - 1] == leader[ci - 1];
  }

  lemma ConflictDiffers(l: Log, index: nat, es: seq<LogEntry>, ci: nat)
    requires l.base == 0 && Numbered(es, index + 1) && ci == l.FindConflict(es) && ci != 0
    ensures index < ci <= index + |es|
    ensures ci <= |l.ents| ==> l.ents[ci - 1] != es[ci - index - 1]
  {
    ConflictSpec(l, index, es);
  }

  lemma SpliceIsLeaders(s: seq<LogEntry>, leader: seq<LogEntry>, index: nat, es: seq<LogEntry>, ci: nat, last: nat,
                        r: seq<LogEntry>)
    requires last == index + |es| && last <= |leader| && index < ci <= |s| + 1 && ci <= index + |es|
    requires forall k {:trigger es[k]} | 0 <= k < |es| :: es[k] == leader[index + k]
    requires Same(s, leader, ci - 1) && r == s[..ci - 1] + es[ci - index - 1..]
    ensures Same(r, leader, last) && |r| == last
  {
    forall k | 0 <= k < |r| ensures r[k] == leader[k] {
      if k >= ci - 1 {
        assert r[k] == es[k - index];
      }
    }
  }

  /** What the old and the leader's log share, the merged one has too. */
  lemma MergedKeepsShared(old_: seq<LogEntry>, new_: seq<LogEntry>, leader: seq<LogEntry>, last: nat, q: nat,
                          s: seq<LogEntry>, i: nat)
    requires Merged(old_, new_, leader, last, q) && Same(old_, s, i) && Same(leader, s, i)
    ensures Same(new_, s, i)
  {
  }

  // ---------- recording what was accepted ----------

  function Accepted(h: History, id: nat, term: nat, k: nat): History {
    h.(accepted := h.accepted[(id, term) := if Acc(h, id, term) < k then k else Acc(h, id, term)])
  }

  lemma AcceptedExtends(h: History, id: nat, term: nat, k: nat)
    requires Keys(h)
    ensures Extends(h, Accepted(h, id, term, k), id) && AcceptsOnly(h, Accepted(h, id, term, k), id, term)
  {
    var g := Accepted(h, id, term, k);
    assert Acc(g, id, term) >= Acc(h, id, term);
    assert AcceptsOnly(h, g, id, term);
  }

  lemma AcceptedHistoryOk(cfg: Config, h: History, n: Node, k: nat)
    requires HistoryOk(cfg, h) && Fresh(h, n.id, n.term) && n.term in h.logs && k <= |h.logs[n.term]|
    ensures HistoryOk(cfg, Accepted(h, n.id, n.term, k))
  {
    var g := Accepted(h, n.id, n.term, k);
    AcceptedExtends(h, n.id, n.term, k);
    AcceptedElectionsOk(cfg, h, n, k);
    OldBallots(h, g, n);
    AcceptedLogsOk(h, n, k);
    AcceptedAcceptedOk(h, n, k);
  }

  lemma AcceptedLogsOk(h: History, n: Node, k: nat)
    requires LogsOk(h)
    ensures LogsOk(Accepted(h, n.id, n.term, k))
  {
    SameLogsOk(h, Accepted(h, n.id, n.term, k));
  }

  lemma AcceptedElectionsOk(cfg: Config, h: History, n: Node, k: nat)
    requires ElectionsOk(cfg, h) && AcceptedOk(h) && Fresh(h, n.id, n.term)
    ensures ElectionsOk(cfg, Accepted(h, n.id, n.term, k))
  {
    var g := Accepted(h, n.id, n.term, k);
    AcceptedExtends(h, n.id, n.term, k);
    forall t | t in h.winner ensures Election(cfg, g, t) {
      OldElection(cfg, h, g, n, t);
    }
  }

  lemma AcceptedAcceptedOk(h: History, n: Node, k: nat)
    requires AcceptedOk(h) && n.term in h.logs && k <= |h.logs[n.term]|
    ensures AcceptedOk(Accepted(h, n.id, n.term, k))
  {
    var g := Accepted(h, n.id, n.term, k);
    forall v, t | Acc(g, v, t) > 0 ensures t in g.logs && Acc(g, v, t) <= |g.logs[t]| {
      if v != n.id || t != n.term {
        assert Acc(g, v, t) == Acc(h, v, t);
      } else if Acc(h, v, t) > 0 {
        assert Acc(h, v, t) <= |h.logs[t]|;
      }
    }
  }

  /** What the follower had accepted is kept by the merge: where an earlier term's entries
      give way, the present leader was elected without them. */
  lemma MergeKeeps(cfg: Config, h: History, n: Node, log: seq<LogEntry>, last: nat, q: nat, t: nat, i: nat)
    requires LogsOk(h) && n.term in h.logs && t <= n.term
    requires Merged(Ents(n), log, h.logs[n.term], last, q) && Kept(h, Ents(n), t, i, n.term)
    requires i <= |h.logs[t]|
    ensures Kept(h, log, t, i, n.term)
  {
    if !Lost(h, t, i, n.term) {
      if t < n.term {
        assert !Missing(h, n.term, t, i);
        assert LeaderLog(h, n.term);
      }
      MergedKeepsShared(Ents(n), log, h.logs[n.term], last, q, h.logs[t], i);
    }
  }

  lemma MergeKeepsAll(cfg: Config, h: History, n: Node, log: seq<LogEntry>, last: nat, q: nat)
    requires LogsOk(h) && AcceptedOk(h) && n.term in h.logs
    requires Merged(Ents(n), log, h.logs[n.term], last, q)
    requires KeptAll(h, n.id, Ents(n), n.term + 1, n.term)
    ensures KeptAll(Accepted(h, n.id, n.term, last), n.id, log, n.term + 1, n.term)
  {
    var g := Accepted(h, n.id, n.term, last);
    forall t: nat, i: nat | t < n.term + 1 && 0 < i <= Acc(g, n.id, t) ensures Kept(g, log, t, i, n.term) {
      if i <= Acc(h, n.id, t) {
        assert Kept(h, Ents(n), t, i, n.term);
        MergeKeeps(cfg, h, n, log, last, q, t, i);
      } else {
        assert t == n.term && i <= last;
        assert Kept(h, log, t, i, n.term);
      }
      SameLogsKept(h, g, log, t, i, n.term);
    }
  }

  lemma MergeCovered(h: History, old_: seq<LogEntry>, new_: seq<LogEntry>, term: nat, last: nat, q: nat)
    requires Keys(h) && term in h.logs && LeaderLog(h, term)
    requires Covered(h, old_) && TermsUpTo(old_, term) && Numbered(old_, 1)
    requires Merged(old_, new_, h.logs[term], last, q)
    ensures Covered(h, new_) && TermsUpTo(new_, term) && Numbered(new_, 1)
  {
    if new_ != old_ {
      var l := h.logs[term];
      forall k | 0 <= k < |new_| ensures FromLeader(h, new_, k) && new_[k].term <= term {
        assert new_[k] == l[k] && FromLeader(h, l, k);
      }
    }
  }

  lemma CommittedShorter(cfg: Config, h: History, s: seq<LogEntry>, c: nat, d: nat, bound: nat)
    requires Committed(cfg, h, s, c, bound) && d <= c
    ensures Committed(cfg, h, s, d, bound)
  {
    var t: nat, i: nat :| CommitPoint(cfg, h, s, c, bound, t, i);
    assert CommitPoint(cfg, h, s, d, bound, t, i);
  }

  /** Following the leader's commit index commits only what the leader had committed. */
  lemma CommitFollows(cfg: Config, h: History, n: Node, m: Message, log: seq<LogEntry>, q: nat, c: nat)
    requires LogOk(cfg, h, n) && Request(cfg, h, n, m)
    requires n.rl.committed <= m.index <= q
    requires Merged(Ents(n), log, h.logs[m.term], m.index + |m.entries|, q)
    requires c == n.rl.committed || c <= Min(m.commit, m.index + |m.entries|)
    ensures Committed(cfg, h, log, c, n.term)
  {
    var last := m.index + |m.entries|;
    if c == n.rl.committed {
      CommittedInLonger(cfg, h, Ents(n), log, c, n.term);
    } else {
      CommittedShorter(cfg, h, h.logs[m.term], m.commit, c, n.term);
      CommittedInLonger(cfg, h, h.logs[m.term], log, c, n.term);
    }
  }

  /** The follower after a matching request. */
  lemma MergedLogOk(cfg: Config, h: History, n: Node, m: Message, o: Node, last: nat, q: nat)
    requires last == m.index + |m.entries|
    requires LogsOk(h) && AcceptedOk(h) && LogOk(cfg, h, n) && Request(cfg, h, n, m)
    requires n.rl.committed <= m.index <= q
    requires o.id == n.id && o.term == n.term && o.rl.log.base == 0 && o.rl.log.baseTerm == 0
    requires Merged(Ents(n), Ents(o), h.logs[m.term], last, q)
    requires o.rl.committed == n.rl.committed || o.rl.committed <= Min(m.commit, last)
    ensures LogOk(cfg, Accepted(h, n.id, n.term, last), o)
  {
    MergedKept(cfg, h, n, m, o, last, q);
    MergedCommitted(cfg, h, n, m, o, last, q);
    MergedCoveredLater(cfg, h, n, m, o, last, q);
  }

  lemma MergedKept(cfg: Config, h: History, n: Node, m: Message, o: Node, last: nat, q: nat)
    requires last == m.index + |m.entries|
    requires LogsOk(h) && AcceptedOk(h) && LogOk(cfg, h, n) && Request(cfg, h, n, m)
    requires Merged(Ents(n), Ents(o), h.logs[m.term], last, q)
    ensures KeptAll(Accepted(h, n.id, n.term, last), n.id, Ents(o), n.term + 1, n.term)
  {
    MergeKeepsAll(cfg, h, n, Ents(o), last, q);
  }

  lemma MergedCommitted(cfg: Config, h: History, n: Node, m: Message, o: Node, last: nat, q: nat)
    requires last == m.index + |m.entries|
    requires Keys(h) && LogOk(cfg, h, n) && Request(cfg, h, n, m)
    requires n.rl.committed <= m.index <= q
    requires Merged(Ents(n), Ents(o), h.logs[m.term], last, q)
    requires o.rl.committed == n.rl.committed || o.rl.committed <= Min(m.commit, last)
    ensures Committed(cfg, Accepted(h, n.id, n.term, last), Ents(o), o.rl.committed, n.term)
  {
    CommitFollows(cfg, h, n, m, Ents(o), q, o.rl.committed);
    AcceptedCommitted(cfg, h, n.id, n.term, last, Ents(o), o.rl.committed);
  }

  lemma AcceptedCommitted(cfg: Config, h: History, id: nat, term: nat, k: nat, s: seq<LogEntry>, c: nat)
    requires Keys(h) && Committed(cfg, h, s, c, term)
    ensures Committed(cfg, Accepted(h, id, term, k), s, c, term)
  {
    AcceptedExtends(h, id, term, k);
    CommittedGrows(cfg, h, Accepted(h, id, term, k), s, c, term);
  }

  lemma MergedCoveredLater(cfg: Config, h: History, n: Node, m: Message, o: Node, last: nat, q: nat)
    requires last == m.index + |m.entries|
    requires LogsOk(h) && LogOk(cfg, h, n) && Request(cfg, h, n, m)
    requires Merged(Ents(n), Ents(o), h.logs[m.term], last, q)
    ensures Covered(Accepted(h, n.id, n.term, last), Ents(o)) && TermsUpTo(Ents(o), n.term)
    ensures Numbered(Ents(o), 1)
  {
    assert LeaderLog(h, n.term);
    MergeCovered(h, Ents(n), Ents(o), n.term, last, q);
    SameLogsCovered(h, Accepted(h, n.id, n.term, last), Ents(o));
  }

  lemma FreshAccepted(h: History, id: nat, term: nat, k: nat)
    requires Fresh(h, id, term)
    ensures Fresh(Accepted(h, id, term, k), id, term)
  {
    forall t: nat | t > term ensures Acc(Accepted(h, id, term, k), id, t) == 0 {
      assert Acc(h, id, t) == 0;
    }
  }

  lemma BehindNodeOk(cfg: Config, h: History, n: Node)
    requires NodeOk(cfg, h, n) && n.role == StateFollower && LogsOk(h) && AcceptedOk(h)
    requires n.term in h.logs && Same(Ents(n), h.logs[n.term], n.rl.committed)
    ensures NodeOk(cfg, Accepted(h, n.id, n.term, n.rl.committed), n)
  {
    var c := n.rl.committed;
    FreshAccepted(h, n.id, n.term, c);
    SameLogsCovered(h, Accepted(h, n.id, n.term, c), Ents(n));
    MergeKeepsAll(cfg, h, n, Ents(n), c, c);
    AcceptedCommitted(cfg, h, n.id, n.term, c, Ents(n), c);
  }

  lemma BehindReply(cfg: Config, h: History, n: Node, m: Message)
    requires n.rl.Valid() && m.index < n.rl.committed && m.from in cfg.ids && n.id in cfg.ids && n.term > 0
    ensures var g := Accepted(h, n.id, n.term, n.rl.committed);
            && HandleAppendEntries(n, m).node == n
            && forall r | r in HandleAppendEntries(n, m).out :: MessageOk(cfg, g, r)
  {
    assert Acc(Accepted(h, n.id, n.term, n.rl.committed), n.id, n.term) >= n.rl.committed;
  }

  lemma MatchReply(cfg: Config, h: History, n: Node, m: Message, k: nat, o: Outcome)
    requires n.rl.Valid() && AppendPre(n, m)
    requires m.index >= n.rl.committed && n.rl.log.MatchTerm(m.index, m.logTerm)
    requires n.id in cfg.ids && m.from in cfg.ids && n.term > 0
    requires k == m.index + |m.entries| && o == HandleAppendEntries(n, m)
    ensures forall r | r in o.out :: MessageOk(cfg, Accepted(h, n.id, n.term, k), r)
  {
    assert Acc(Accepted(h, n.id, n.term, k), n.id, n.term) >= k;
  }

  lemma RequestFits(cfg: Config, h: History, n: Node, m: Message)
    requires Request(cfg, h, n, m)
    ensures n.term in h.logs && m.index + |m.entries| <= |h.logs[n.term]|
  {
  }

  lemma MatchLogOk(cfg: Config, h: History, n: Node, m: Message, k: nat, o: Node)
    requires LogsOk(h) && AcceptedOk(h) && LogOk(cfg, h, n) && n.rl.Valid() && Request(cfg, h, n, m) && AppendPre(n, m)
    requires m.index >= n.rl.committed && n.rl.log.MatchTerm(m.index, m.logTerm)
    requires k == m.index + |m.entries| && o == HandleAppendEntries(n, m).node
    ensures LogOk(cfg, Accepted(h, n.id, n.term, k), o)
  {
    RequestIsPiece(cfg, h, n, m);
    MatchState(n, m, k, o);
    var q := MergeIs(n.rl.log, h.logs[m.term], m.index, m.logTerm, m.entries, k);
    MergedLogOk(cfg, h, n, m, o, k, q);
  }

  /** A matching request merges its entries and follows its commit. */
  lemma MatchState(n: Node, m: Message, last: nat, o: Node)
    requires n.rl.Valid() && AppendPre(n, m) && last == m.index + |m.entries|
    requires m.index >= n.rl.committed && n.rl.log.MatchTerm(m.index, m.logTerm)
    requires o == HandleAppendEntries(n, m).node
    ensures o.id == n.id && o.term == n.term && o.rl.log == n.rl.log.Merge(m.index, m.entries)
    ensures o.rl.committed == n.rl.committed || o.rl.committed <= Min(m.commit, last)
  {
  }

  lemma MatchShape(n: Node, m: Message, o: Node)
    requires n.rl.Valid() && AppendPre(n, m) && o == HandleAppendEntries(n, m).node
    requires m.index >= n.rl.committed && n.rl.log.MatchTerm(m.index, m.logTerm)
    ensures o == n.(rl := o.rl) && o.rl.Valid()
  {
    MergeSpec(n.rl.log, m.index, m.entries);
  }

  lemma FollowerNodeOk(cfg: Config, h: History, n: Node, k: nat, o: Node)
    requires NodeOk(cfg, h, n) && n.role == StateFollower && o == n.(rl := o.rl) && o.rl.Valid()
    requires LogOk(cfg, Accepted(h, n.id, n.term, k), o)
    ensures NodeOk(cfg, Accepted(h, n.id, n.term, k), o)
  {
    FreshAccepted(h, n.id, n.term, k);
  }

  /** A follower that accepted the first `k` entries of its leader's log. */
  lemma Accepting(cfg: Config, h: History, n: Node, k: nat, o: Outcome) returns (g: History)
    requires HistoryOk(cfg, h) && Fresh(h, n.id, n.term) && n.term in h.logs && k <= |h.logs[n.term]|
    requires o.node.id == n.id && NodeOk(cfg, Accepted(h, n.id, n.term, k), o.node)
    requires forall r | r in o.out :: MessageOk(cfg, Accepted(h, n.id, n.term, k), r)
    ensures Keeps(cfg, h, g, n.id, o)
  {
    g := Accepted(h, n.id, n.term, k);
    AcceptedExtends(h, n.id, n.term, k);
    AcceptedHistoryOk(cfg, h, n, k);
  }
}
