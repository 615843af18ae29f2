/** The log of one node as a single sequence: what `MemoryStorage`, `Unstable` and
    `RaftLog` present together.  The classes are proved against these functions, and
    the cluster uses the same functions for its nodes. */
module LogModel {

  datatype RaftError = ErrNone | ErrCompacted | ErrUnavailable | ErrProposalDropped | ErrParam

  datatype EntryType = EntryNormal | EntryConfChange

  datatype LogEntry = LogEntry(term: nat, index: nat, data: string, etype: EntryType)

  /** Entry `i` of `es` has index `first + i`. */
  predicate Consecutive(es: seq<LogEntry>, first: nat) {
    forall i {:trigger es[i]} | 0 <= i < |es| :: es[i].index == first + i
  }

  /** What `FindConflict` asks of the entries it is given, plus: terms start at 1. */
  predicate Numbered(es: seq<LogEntry>, first: nat) {
    && Consecutive(es, first)
    && forall i {:trigger es[i]} | 0 <= i < |es| :: es[i].term > 0
  }

  datatype Option<T> = None | Some(value: T)

  function Min(a: nat, b: nat): nat {
    if a < b then a else b
  }

  function LastTermOf(s: seq<LogEntry>): nat {
    if s == [] then 0 else s[|s| - 1].term
  }

  /** A log whose entries up to `base` are compacted away; the term of entry `base`
      is retained in the dummy entry. */
  datatype Log = Log(base: nat, baseTerm: nat, ents: seq<LogEntry>) {

    predicate Valid() {
      Consecutive(ents, base + 1)
    }

    function FirstIndex(): nat {
      base + 1
    }

    function LastIndex(): nat {
      base + |ents|
    }

    /** The entry at log index `i`. */
    function At(i: nat): LogEntry
      requires base < i <= LastIndex()
    {
      ents[i - base - 1]
    }

    /** The valid range is from the dummy's index to the last index; outside it the
        term is 0 and no error is reported. */
    function Term(i: nat): nat {
      if i < base || i > LastIndex() then 0
      else if i == base then baseTerm
      else ents[i - base - 1].term
    }

    function LastTerm(): nat {
      Term(LastIndex())
    }

    predicate MatchTerm(i: nat, t: nat) {
      Term(i) == t
    }

    /** The entries from `lo` up to but not including `hi`, or the error. */
    function Slice(lo: nat, hi: nat): (RaftError, seq<LogEntry>) {
      if lo > hi then (ErrParam, [])
      else if lo < FirstIndex() || hi > LastIndex() + 1 then (ErrCompacted, [])
      else (ErrNone, ents[lo - base - 1..hi - base - 1])
    }

    /** All entries from `i` on. */
    function Entries(i: nat): (RaftError, seq<LogEntry>) {
      if i > LastIndex() then (ErrNone, []) else Slice(i, LastIndex() + 1)
    }

    /** A log ending in (`index`, `term`) is at least as up to date as this one.  With
        `strict` a log with the same last entry does not count. */
    predicate IsUpToDate(index: nat, term: nat, strict: bool) {
      || term > LastTerm()
      || (term == LastTerm() && (index > LastIndex() || (index == LastIndex() && !strict)))
    }

    /** The index of the first entry of `es` whose term differs from this log's term
        there, and 0 when there is none. */
    function FindConflict(es: seq<LogEntry>): nat {
      if es == [] then 0
      else if !MatchTerm(es[0].index, es[0].term) then es[0].index
      else FindConflict(es[1..])
    }

    /** `es` can be put into this log without leaving a gap. */
    predicate CanTake(es: seq<LogEntry>) {
      es != [] ==> base < es[0].index <= LastIndex() + 1 && Consecutive(es, es[0].index)
    }

    /** The log before the first of `es`, then `es`. */
    function Append(es: seq<LogEntry>): Log
      requires CanTake(es)
    {
      if es == [] then this
      else Log(base, baseTerm, ents[..es[0].index - base - 1] + es)
    }

    /** This log with `es`, which follow entry `index`, merged in: entries that are
        already there stay, and from the first conflict on the given ones count. */
    function Merge(index: nat, es: seq<LogEntry>): Log
      requires base <= index <= LastIndex() && Numbered(es, index + 1)
    {
      ConflictBounds(this, index, es);
      var ci := FindConflict(es);
      if ci == 0 then this
      else
        TailNumbered(es, index, ci);
        Append(es[ci - index - 1..])
    }

    /** Everything up to `k` discarded; the term at `k` is kept for matching. */
    function Compact(k: nat): Log
      requires base <= k <= LastIndex()
    {
      Log(k, Term(k), ents[k - base..])
    }
  }

  /** A log together with how far it is committed and applied. */
  datatype LogState = LogState(log: Log, committed: nat, applied: nat) {

    predicate Valid() {
      log.Valid() && log.base <= applied <= committed <= log.LastIndex()
    }

    function CommitTo(k: nat): LogState
      requires k <= log.LastIndex() || k <= committed
    {
      if committed < k then this.(committed := k) else this
    }

    /** Commits to `index` when the entry there was made in `term`. */
    function MaybeCommit(index: nat, term: nat): (LogState, bool)
      requires term > 0
    {
      if index > committed && log.Term(index) == term then (CommitTo(index), true) else (this, false)
    }

    predicate AppendPre(es: seq<LogEntry>) {
      log.CanTake(es) && (es != [] ==> es[0].index > committed)
    }

    function Append(es: seq<LogEntry>): LogState
      requires AppendPre(es)
    {
      this.(log := log.Append(es))
    }

    /** When a matching append request neither leaves a gap nor conflicts with a
        committed entry. */
    predicate MaybeAppendPre(index: nat, logTerm: nat, es: seq<LogEntry>) {
      && Numbered(es, index + 1)
      && (log.MatchTerm(index, logTerm) ==>
            && log.base <= index <= log.LastIndex()
            && (log.FindConflict(es) == 0 || log.FindConflict(es) > committed))
    }

    /** The new state, the last index of the new entries, and whether they matched. */
    function MaybeAppend(index: nat, logTerm: nat, commit: nat, es: seq<LogEntry>): (LogState, nat, bool)
      requires Valid() && MaybeAppendPre(index, logTerm, es)
    {
      if !log.MatchTerm(index, logTerm) then (this, 0, false)
      else
        MergeSpec(log, index, es);
        var s := this.(log := log.Merge(index, es));
        (s.CommitTo(Min(commit, index + |es|)), index + |es|, true)
    }
  }

  // ---------- conflict search and merge ----------

  /** `FindConflict` returns 0 exactly when every entry is already present, and
      otherwise the index of the first one that is not. */
  lemma {:induction false} ConflictSpec(l: Log, index: nat, es: seq<LogEntry>)
    requires Numbered(es, index + 1)
    ensures
      var ci := l.FindConflict(es);
      && (ci == 0 <==> forall k | 0 <= k < |es| :: l.MatchTerm(index + 1 + k, es[k].term))
      && (ci != 0 ==>
            && index < ci <= index + |es|
            && !l.MatchTerm(ci, es[ci - index - 1].term)
            && forall k | 0 <= k < ci - index - 1 :: l.MatchTerm(index + 1 + k, es[k].term))
      && (l.base <= index <= l.LastIndex() && ci != 0 ==> ci <= l.LastIndex() + 1)
    decreases |es|
  {
    if es != [] {
      assert es[0].index == index + 1;
      if l.MatchTerm(index + 1, es[0].term) {
        var rest := es[1..];
        assert Numbered(rest, index + 2);
        ConflictSpec(l, index + 1, rest);
        assert forall k | 0 < k < |es| :: es[k] == rest[k - 1];
        var ci := l.FindConflict(rest);
        if ci == 0 {
          forall k | 0 <= k < |es| ensures l.MatchTerm(index + 1 + k, es[k].term) {
            if k > 0 {
              assert l.MatchTerm(index + 2 + (k - 1), rest[k - 1].term);
            }
          }
        } else {
          forall k | 0 <= k < ci - index - 1 ensures l.MatchTerm(index + 1 + k, es[k].term) {
            if k > 0 {
              assert l.MatchTerm(index + 2 + (k - 1), rest[k - 1].term);
            }
          }
        }
        if l.base <= index <= l.LastIndex() {
          assert es[0].term > 0;
        }
      } else {
        assert !l.MatchTerm(index + 1 + 0, es[0].term);
      }
    }
  }

  /** The merged log is the old one when nothing conflicts, and reaches at least as far as
      the given entries. */
  lemma MergeSpec(l: Log, index: nat, es: seq<LogEntry>)
    requires l.Valid() && l.base <= index <= l.LastIndex() && Numbered(es, index + 1)
    ensures var r := l.Merge(index, es);
      && r.Valid() && r.base == l.base && r.baseTerm == l.baseTerm
      && index + |es| <= r.LastIndex()
      && (l.FindConflict(es) == 0 ==> r == l)
  {
    if l.FindConflict(es) == 0 {
      ConflictBounds(l, index, es);
    } else {
      MergeIsAppend(l, index, es, l.FindConflict(es));
    }
  }

  /** With a conflict it is the old log before the conflict followed by the given entries
      from there on. */
  lemma MergeIsAppend(l: Log, index: nat, es: seq<LogEntry>, ci: nat)
    requires l.Valid() && l.base <= index <= l.LastIndex() && Numbered(es, index + 1)
    requires ci == l.FindConflict(es) && ci != 0
    ensures index < ci <= index + |es| && ci <= l.LastIndex() + 1
    ensures var r := l.Merge(index, es);
      && r == Log(l.base, l.baseTerm, l.ents[..ci - l.base - 1] + es[ci - index - 1..])
      && r.Valid() && r.LastIndex() == index + |es|
  {
    ConflictBounds(l, index, es);
    AppendTail(l, index, es, ci);
  }

  /** Without a conflict the log reaches as far as the entries do; a conflict lies among
      them, and leaves no gap. */
  lemma ConflictBounds(l: Log, index: nat, es: seq<LogEntry>)
    requires l.base <= index <= l.LastIndex() && Numbered(es, index + 1)
    ensures var ci := l.FindConflict(es);
      && (ci == 0 ==> index + |es| <= l.LastIndex())
      && (ci != 0 ==> index < ci <= index + |es| && ci <= l.LastIndex() + 1)
  {
    ConflictSpec(l, index, es);
    if l.FindConflict(es) == 0 && es != [] {
      assert l.MatchTerm(index + 1 + (|es| - 1), es[|es| - 1].term);
    }
  }

  /** What lies before the conflict, or all of it without one, is untouched. */
  lemma MergeUntouched(l: Log, index: nat, es: seq<LogEntry>, k: nat)
    requires l.Valid() && l.base <= index <= l.LastIndex() && Numbered(es, index + 1)
    requires l.base <= k <= l.LastIndex() && (l.FindConflict(es) == 0 || k < l.FindConflict(es))
    ensures var r := l.Merge(index, es);
      k <= r.LastIndex() && r.ents[..k - l.base] == l.ents[..k - l.base]
  {
    var ci := l.FindConflict(es);
    if ci != 0 {
      MergeIsAppend(l, index, es, ci);
    }
  }

  lemma AppendTail(l: Log, index: nat, es: seq<LogEntry>, ci: nat)
    requires l.Valid() && l.base <= index < ci <= index + |es| && ci <= l.LastIndex() + 1 && Numbered(es, index + 1)
    ensures var tail := es[ci - index - 1..];
      && tail != [] && tail[0].index == ci && l.CanTake(tail)
      && l.Append(tail).Valid() && l.Append(tail).LastIndex() == index + |es|
      && l.Append(tail) == Log(l.base, l.baseTerm, l.ents[..ci - l.base - 1] + tail)
  {
    TailNumbered(es, index, ci);
    AppendSpec(l, es[ci - index - 1..]);
  }

  /** A conditional append leaves every committed entry and the compaction point alone,
      never takes a commit back, and commits no further than it was told and has matched. */
  lemma CommittedUntouched(s: LogState, index: nat, logTerm: nat, commit: nat, es: seq<LogEntry>)
    requires s.Valid() && s.MaybeAppendPre(index, logTerm, es)
    ensures var r := s.MaybeAppend(index, logTerm, commit, es).0;
      && r.Valid() && r.log.base == s.log.base && r.applied == s.applied
      && s.committed <= r.log.LastIndex()
      && r.log.ents[..s.committed - s.log.base] == s.log.ents[..s.committed - s.log.base]
      && s.committed <= r.committed
      && (r.committed > s.committed ==> r.committed <= commit && r.committed <= index + |es|)
  {
    if s.log.MatchTerm(index, logTerm) {
      MergeSpec(s.log, index, es);
      MergeUntouched(s.log, index, es, s.committed);
    }
  }

  /** A request that matches is answered with its last index and leaves a log that has its
      terms, committed as far as the request says and reaches, and further only if it was
      before; one that does not match changes nothing. */
  lemma CommitKeepsUp(s: LogState, index: nat, logTerm: nat, commit: nat, es: seq<LogEntry>)
    requires s.Valid() && s.MaybeAppendPre(index, logTerm, es)
    ensures var (r, last, ok) := s.MaybeAppend(index, logTerm, commit, es);
      && (ok <==> s.log.MatchTerm(index, logTerm))
      && (!ok ==> r == s)
      && (ok ==> last == index + |es| <= r.log.LastIndex()
                 && (forall k | 0 <= k < |es| :: r.log.MatchTerm(index + 1 + k, es[k].term))
                 && s.committed <= r.committed && Min(commit, last) <= r.committed
                 && (r.committed == s.committed || r.committed == Min(commit, last)))
  {
    if s.log.MatchTerm(index, logTerm) {
      MergeSpec(s.log, index, es);
      MergedTerms(s.log, index, es, s.log.FindConflict(es));
    }
  }

  /** After a merge every given entry matches. */
  lemma MergedTerms(l: Log, index: nat, es: seq<LogEntry>, ci: nat)
    requires l.Valid() && l.base <= index <= l.LastIndex() && Numbered(es, index + 1) && ci == l.FindConflict(es)
    ensures forall k | 0 <= k < |es| :: l.Merge(index, es).MatchTerm(index + 1 + k, es[k].term)
  {
    MatchedBefore(l, index, es, ci);
    MergeSpec(l, index, es);
    if ci != 0 {
      MergeIsAppend(l, index, es, ci);
      SplicedTerms(l, l.Merge(index, es), index, es, ci);
    }
  }

  lemma MatchedBefore(l: Log, index: nat, es: seq<LogEntry>, ci: nat)
    requires Numbered(es, index + 1) && ci == l.FindConflict(es)
    ensures forall k | 0 <= k < |es| && (ci == 0 || k < ci - index - 1) :: l.MatchTerm(index + 1 + k, es[k].term)
  {
    ConflictSpec(l, index, es);
  }

  lemma SplicedTerms(l: Log, r: Log, index: nat, es: seq<LogEntry>, ci: nat)
    requires l.base <= index < ci <= index + |es| && ci <= l.LastIndex() + 1
    requires r == Log(l.base, l.baseTerm, l.ents[..ci - l.base - 1] + es[ci - index - 1..])
    requires forall k | 0 <= k < |es| && k < ci - index - 1 :: l.MatchTerm(index + 1 + k, es[k].term)
    ensures forall k | 0 <= k < |es| :: r.MatchTerm(index + 1 + k, es[k].term)
  {
    forall k | 0 <= k < |es| ensures r.MatchTerm(index + 1 + k, es[k].term) {
      if k < ci - index - 1 {
        assert l.MatchTerm(index + 1 + k, es[k].term);
      }
    }
  }

  /** A leader's commit: the answer says whether the commit index grew, which it does exactly
      to an index beyond it whose entry is of the term. */
  lemma CommitsNews(s: LogState, index: nat, term: nat)
    requires term > 0
    ensures var (r, ok) := s.MaybeCommit(index, term);
      && (ok <==> r.committed > s.committed)
      && (ok <==> index > s.committed && index <= s.log.LastIndex() && s.log.Term(index) == term)
      && r == s.(committed := if ok then index else s.committed)
  {
  }

  /** A read gives one entry for each index, or the error that says why not. */
  lemma SliceSpec(l: Log, lo: nat, hi: nat)
    ensures var (err, es) := l.Slice(lo, hi);
      && (err == ErrNone <==> l.base < lo <= hi <= l.LastIndex() + 1)
      && (err == ErrParam <==> lo > hi) && err in {ErrNone, ErrParam, ErrCompacted}
      && (err != ErrNone ==> es == [])
      && (err == ErrNone ==> |es| == hi - lo && forall i | lo <= i < hi :: es[i - lo] == l.At(i))
  {
  }

  lemma TailNumbered(es: seq<LogEntry>, index: nat, ci: nat)
    requires Numbered(es, index + 1) && index < ci <= index + |es|
    ensures Numbered(es[ci - index - 1..], ci) && es[ci - index - 1..][0].index == ci
  {
    var tail := es[ci - index - 1..];
    forall i | 0 <= i < |tail| ensures tail[i].index == ci + i && tail[i].term > 0 {
      assert tail[i] == es[ci - index - 1 + i];
    }
  }

  lemma AppendSpec(l: Log, es: seq<LogEntry>)
    requires l.Valid() && l.CanTake(es) && es != []
    ensures l.Append(es).Valid()
    ensures l.Append(es).LastIndex() == es[0].index + |es| - 1
  {
    var n := es[0].index - l.base - 1;
    var r := l.Append(es).ents;
    forall i | 0 <= i < |r| ensures r[i].index == l.base + 1 + i {
      assert r[i] == if i < n then l.ents[i] else es[i - n];
    }
  }

  /** Log matching between two logs: with the same term at an index, they are equal up
      to there, as far as both still hold the entries. */
  ghost predicate LogsMatch(a: Log, b: Log) {
    forall i {:trigger a.Term(i)} | a.Term(i) == b.Term(i) && a.Term(i) > 0 :: AgreeUpTo(a, b, i)
  }

  /** Two logs are equal at every index up to `n` that both still hold. */
  predicate AgreeUpTo(a: Log, b: Log, n: nat) {
    forall i {:trigger a.At(i)} {:trigger b.At(i)}
      | a.base < i <= a.LastIndex() && b.base < i <= b.LastIndex() && i <= n :: a.At(i) == b.At(i)
  }

  /** A request that the sender took out of its own log: `es` are the entries after `index`. */
  predicate TakenFrom(s: Log, index: nat, logTerm: nat, es: seq<LogEntry>) {
    && s.base <= index && index + |es| <= s.LastIndex()
    && logTerm == s.Term(index)
    && es == s.ents[index - s.base..index - s.base + |es|]
  }

  /** The receiver agrees with the sender up to the last entry found present. */
  lemma AgreeBeforeConflict(l: Log, s: Log, index: nat, logTerm: nat, es: seq<LogEntry>, q: nat)
    requires LogsMatch(l, s) && Numbered(es, index + 1) && TakenFrom(s, index, logTerm, es)
    requires l.MatchTerm(index, logTerm) && (logTerm > 0 || index == 0)
    requires index <= q <= index + |es|
    requires q > index ==> l.MatchTerm(q, es[q - index - 1].term)
    ensures AgreeUpTo(l, s, q)
  {
    if q > index {
      assert es[q - index - 1] == s.At(q);
      assert l.Term(q) == s.Term(q);
    } else {
      assert l.Term(index) == s.Term(index);
    }
  }

  /** Conditional append is a correct merge: the result agrees with the sender's log up
      to the last new index; everything up to the matched entry is untouched; a stale or
      repeated request changes nothing; and the log shrinks only behind a conflict. */
  lemma MergeCorrect(l: Log, s: Log, index: nat, logTerm: nat, es: seq<LogEntry>)
    requires l.Valid() && s.Valid() && LogsMatch(l, s)
    requires Numbered(es, index + 1) && TakenFrom(s, index, logTerm, es)
    requires l.base <= index <= l.LastIndex() && l.MatchTerm(index, logTerm)
    requires logTerm > 0 || index == 0
    ensures var r := l.Merge(index, es);
      && r.Valid() && index + |es| <= r.LastIndex()
      && AgreeUpTo(r, s, index + |es|)
      && r.base == l.base && r.ents[..index - l.base] == l.ents[..index - l.base]
      && ((forall i | index < i <= index + |es| :: l.MatchTerm(i, s.Term(i))) ==> r == l)
      && (r.LastIndex() < l.LastIndex() ==>
            exists i :: index < i <= index + |es| && i <= l.LastIndex() && !l.MatchTerm(i, s.Term(i)))
  {
    MergeSpec(l, index, es);
    ConflictBounds(l, index, es);
    MergeUntouched(l, index, es, index);
    MergeAgrees(l, s, index, logTerm, es);
    MergeChanges(l, s, index, logTerm, es);
  }

  lemma MergeAgrees(l: Log, s: Log, index: nat, logTerm: nat, es: seq<LogEntry>)
    requires l.Valid() && LogsMatch(l, s)
    requires Numbered(es, index + 1) && TakenFrom(s, index, logTerm, es)
    requires l.base <= index <= l.LastIndex() && l.MatchTerm(index, logTerm)
    requires logTerm > 0 || index == 0
    ensures AgreeUpTo(l.Merge(index, es), s, index + |es|)
  {
    LastPresent(l, s, index, logTerm, es);
    MergeFollows(l, s, index, logTerm, es);
  }

  lemma MergeFollows(l: Log, s: Log, index: nat, logTerm: nat, es: seq<LogEntry>)
    requires l.Valid() && Numbered(es, index + 1) && TakenFrom(s, index, logTerm, es)
    requires l.base <= index <= l.LastIndex()
    requires var ci := l.FindConflict(es); AgreeUpTo(l, s, if ci == 0 then index + |es| else ci - 1)
    ensures AgreeUpTo(l.Merge(index, es), s, index + |es|)
  {
    var ci := l.FindConflict(es);
    if ci == 0 {
      assert l.Merge(index, es) == l;
    } else {
      MergeIsAppend(l, index, es, ci);
      MergedAgrees(l, s, l.Merge(index, es), index, es, ci);
    }
  }

  lemma MergeChanges(l: Log, s: Log, index: nat, logTerm: nat, es: seq<LogEntry>)
    requires l.Valid() && Numbered(es, index + 1) && TakenFrom(s, index, logTerm, es)
    requires l.base <= index <= l.LastIndex()
    ensures var r := l.Merge(index, es);
      && ((forall i | index < i <= index + |es| :: l.MatchTerm(i, s.Term(i))) ==> r == l)
      && (r.LastIndex() < l.LastIndex() ==>
            exists i :: index < i <= index + |es| && i <= l.LastIndex() && !l.MatchTerm(i, s.Term(i)))
  {
    var ci := l.FindConflict(es);
    if ci != 0 {
      MergeIsAppend(l, index, es, ci);
      ConflictIsOne(l, index, es);
      ConflictSeen(l, s, index, es, ci);
    }
  }

  lemma ConflictIsOne(l: Log, index: nat, es: seq<LogEntry>)
    requires Numbered(es, index + 1) && l.FindConflict(es) != 0
    ensures var ci := l.FindConflict(es);
      index < ci <= index + |es| && !l.MatchTerm(ci, es[ci - index - 1].term)
  {
    ConflictSpec(l, index, es);
  }

  lemma ConflictSeen(l: Log, s: Log, index: nat, es: seq<LogEntry>, ci: nat)
    requires s.base <= index < ci <= index + |es| <= s.LastIndex()
    requires es == s.ents[index - s.base..index - s.base + |es|]
    requires !l.MatchTerm(ci, es[ci - index - 1].term)
    ensures !l.MatchTerm(ci, s.Term(ci))
  {
    assert es[ci - index - 1] == s.At(ci);
  }

  /** Up to the entry before the conflict the receiver agrees with the sender, and at
      the conflict it does not match. */
  lemma LastPresent(l: Log, s: Log, index: nat, logTerm: nat, es: seq<LogEntry>)
    requires LogsMatch(l, s) && Numbered(es, index + 1) && TakenFrom(s, index, logTerm, es)
    requires l.MatchTerm(index, logTerm) && (logTerm > 0 || index == 0)
    ensures var ci := l.FindConflict(es);
      && AgreeUpTo(l, s, if ci == 0 then index + |es| else ci - 1)
      && (ci != 0 ==> index < ci <= index + |es| && !l.MatchTerm(ci, es[ci - index - 1].term))
  {
    ConflictSpec(l, index, es);
    var ci := l.FindConflict(es);
    var q := if ci == 0 then index + |es| else ci - 1;
    if q > index {
      assert l.MatchTerm(index + 1 + (q - index - 1), es[q - index - 1].term);
    }
    AgreeBeforeConflict(l, s, index, logTerm, es, q);
  }

  lemma MergedAgrees(l: Log, s: Log, r: Log, index: nat, es: seq<LogEntry>, ci: nat)
    requires l.base <= index < ci <= index + |es| && s.base <= index && ci <= l.LastIndex() + 1
    requires index + |es| <= s.LastIndex() && es == s.ents[index - s.base..index - s.base + |es|]
    requires AgreeUpTo(l, s, ci - 1)
    requires r.base == l.base && r.ents == l.ents[..ci - l.base - 1] + es[ci - index - 1..]
    ensures AgreeUpTo(r, s, index + |es|)
  {
    forall i | r.base < i <= r.LastIndex() && s.base < i <= s.LastIndex() && i <= index + |es|
      ensures r.At(i) == s.At(i)
    {
      if i < ci {
        assert r.At(i) == l.At(i);
      } else {
        assert r.At(i) == es[i - index - 1];
      }
    }
  }
}
