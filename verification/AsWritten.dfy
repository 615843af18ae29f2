/** Where the code says something other than what it promises.  Each function here computes
    what the code's text computes, and `None` stands for an access outside an array or a
    panic.  Each lemma says for exactly which calls that is what the promise asks, as the rest of the
    model has it. */
module AsWritten {
  import opened LogModel
  import opened Quorums
  import opened RaftNode
  import opened Replicators
  import opened Storage
  import opened UnstableLog

  /** `es[from..to]`, when that lies within `es`. */
  function Cut<T>(es: seq<T>, from: nat, to: nat): Option<seq<T>> {
    if from <= to <= |es| then Some(es[from..to]) else None
  }

  ghost predicate Array(arr: seq<LogEntry>) {
    arr != [] && Consecutive(arr, arr[0].index)
  }

  // ---------- reading storage ----------

  /** The slice is taken at the compaction point instead of at `lo`. */
  function EntriesText(arr: seq<LogEntry>, lo: nat, hi: nat): Option<(RaftError, seq<LogEntry>)>
    requires arr != [] && lo <= hi
  {
    var offset := arr[0].index;
    if lo <= offset || hi > offset + |arr| then Some((ErrCompacted, []))
    else
      match Cut(arr, offset, offset + hi - lo)
      case Some(es) => Some((ErrNone, es))
      case None => None
  }

  /** Right for the error cases, for nothing, and for a read at twice the compaction point. */
  lemma EntriesRight(arr: seq<LogEntry>, lo: nat, hi: nat)
    requires Array(arr) && lo <= hi
    ensures EntriesText(arr, lo, hi) == Some(LogOf(arr).Slice(lo, hi)) <==>
            var offset := arr[0].index;
            || lo <= offset || hi > offset + |arr|
            || (lo == hi && offset <= |arr|)
            || lo == 2 * offset
  {
    var offset := arr[0].index;
    if offset < lo && hi <= offset + |arr| {
      assert LogOf(arr).Slice(lo, hi).1 == arr[lo - offset..hi - offset];
      if offset + hi - lo <= |arr| && lo < hi {
        assert arr[offset..offset + hi - lo][0].index == 2 * offset;
        assert arr[lo - offset..hi - offset][0].index == lo;
      }
    }
  }

  /** A log that was never compacted gives the dummy for its first entry. */
  lemma FirstReadIsDummy(first: LogEntry)
    requires first.index == 1
    ensures var arr := [LogEntry(0, 0, "", EntryNormal), first];
      Array(arr) && EntriesText(arr, 1, 2) == Some((ErrNone, [arr[0]])) && LogOf(arr).Slice(1, 2) == (ErrNone, [first])
  {
    var arr := [LogEntry(0, 0, "", EntryNormal), first];
    assert arr[0..1] == [arr[0]] && arr[1..] == [first] && arr[1..][0..1] == [first];
  }

  // ---------- appending to storage ----------

  /** New entries go behind all old ones, from an offset counted one too high. */
  function AppendText(arr: seq<LogEntry>, es: seq<LogEntry>): Option<seq<LogEntry>>
    requires arr != []
  {
    if es == [] then Some(arr)
    else
      var oldFirst := arr[0].index + 1;
      var oldLast := oldFirst + |arr| - 1;
      var newFirst := es[0].index;
      if newFirst + |es| - 1 <= oldFirst || oldLast < newFirst then Some(arr)
      else
        match Cut(es, oldLast - newFirst, |es|)
        case Some(rest) => Some(arr + rest)
        case None => None
  }

  /** The new entries reach at least as far as the old ones and repeat them where they overlap. */
  predicate Continues(arr: seq<LogEntry>, es: seq<LogEntry>)
    requires arr != [] && es != []
  {
    var o, f := arr[0].index, es[0].index;
    && o + |arr| <= f + |es|
    && forall k {:trigger arr[k]} | 0 < k < |arr| && f <= o + k :: arr[k] == es[o + k - f]
  }

  /** Right when there is nothing to take, and otherwise when the new entries continue the
      old ones, save a lone first entry on an empty array. */
  lemma AppendRight(arr: seq<LogEntry>, es: seq<LogEntry>)
    requires Array(arr) && es != [] && Consecutive(es, es[0].index)
    ensures var o, f := arr[0].index, es[0].index;
            var r := AppendText(arr, es);
      (r.Some? && r.value != [] && LogOf(r.value) == Persisted(LogOf(arr), es)) <==>
        || f > o + |arr| || f + |es| <= o + 1
        || (Continues(arr, es) && !(|arr| == 1 && f + |es| == o + 2))
  {
    var o, f, n, m := arr[0].index, es[0].index, |arr|, |es|;
    if f <= o + n && f + m > o + 1 {
      var from := if f <= o then o + 1 else f;
      PersistedEnts(arr, es, from);
      if f + m == o + 2 {
        LoneLast(arr, es, from);
      } else if o + n <= f + m {
        SameOverlap(arr, es, from);
      } else {
        assert Cut(es, o + n - f, m) == None;
      }
    }
  }

  /** What is to be stored: the entries before `from`, then the new ones from there on. */
  lemma PersistedEnts(arr: seq<LogEntry>, es: seq<LogEntry>, from: nat)
    requires arr != [] && es != []
    requires var o, f := arr[0].index, es[0].index;
             f <= o + |arr| && f + |es| > o + 1 && from == if f <= o then o + 1 else f
    ensures Persisted(LogOf(arr), es).ents == arr[1..from - arr[0].index] + es[from - es[0].index..]
  {
    var o := arr[0].index;
    assert LogOf(arr).ents[..from - o - 1] == arr[1..from - o];
  }

  /** The new entries end at the first position of the array: nothing is taken. */
  lemma LoneLast(arr: seq<LogEntry>, es: seq<LogEntry>, from: nat)
    requires Array(arr) && es != []
    requires var o, f := arr[0].index, es[0].index;
      f + |es| == o + 2 && from == (if f <= o then o + 1 else f)
      && Persisted(LogOf(arr), es).ents == arr[1..from - o] + es[from - f..]
    ensures AppendText(arr, es) == Some(arr)
    ensures LogOf(arr) == Persisted(LogOf(arr), es) <==> Continues(arr, es) && |arr| == 2
  {
    var o, f := arr[0].index, es[0].index;
    assert from == o + 1;
    assert Persisted(LogOf(arr), es).ents == [es[|es| - 1]];
    if |arr| == 2 {
      assert arr[1..] == [arr[1]];
      assert o + 1 - f == |es| - 1;
      assert Continues(arr, es) <==> arr[1] == es[o + 1 - f];
    }
  }

  lemma SameOverlap(arr: seq<LogEntry>, es: seq<LogEntry>, from: nat)
    requires Array(arr) && es != []
    requires var o, f := arr[0].index, es[0].index;
      && f <= o + |arr| <= f + |es| && f + |es| > o + 2 && from == (if f <= o then o + 1 else f)
      && Persisted(LogOf(arr), es).ents == arr[1..from - o] + es[from - f..]
    ensures var r := AppendText(arr, es);
      r.Some? && r.value != [] && (LogOf(r.value) == Persisted(LogOf(arr), es) <==> Continues(arr, es))
  {
    var o, f, n := arr[0].index, es[0].index, |arr|;
    assert o < from && f <= from <= o + n;
    var r := arr + es[o + n - f..];
    assert es[o + n - f..|es|] == es[o + n - f..];
    assert AppendText(arr, es) == Some(r);
    OverlapIs(arr, es, from - o, o - f, r, [arr[0]] + Persisted(LogOf(arr), es).ents);
  }

  lemma OverlapIs(arr: seq<LogEntry>, es: seq<LogEntry>, c: nat, s: int, r: seq<LogEntry>, p: seq<LogEntry>)
    requires arr != [] && es != [] && s == arr[0].index - es[0].index && 0 < c <= |arr|
    requires 0 <= c + s && |arr| + s <= |es| && c == if s >= 0 then 1 else -s
    requires r == arr + es[|arr| + s..] && p == [arr[0]] + (arr[1..c] + es[c + s..])
    ensures r[1..] == p[1..] <==> Continues(arr, es)
  {
    assert p == arr[..c] + es[c + s..];
    SameSplice(arr, es, c, s);
    assert r == [arr[0]] + r[1..] && p == [arr[0]] + p[1..];
  }

  /** Going over to `es` at position `c` or only behind `arr` is the same when they agree in
      between; entry `k` of one stands where entry `k + s` of the other does. */
  lemma SameSplice(arr: seq<LogEntry>, es: seq<LogEntry>, c: nat, s: int)
    requires 0 < c <= |arr| && 0 <= c + s && |arr| + s <= |es|
    ensures arr[..c] + es[c + s..] == arr + es[|arr| + s..] <==>
            forall k {:trigger arr[k]} | c <= k < |arr| :: arr[k] == es[k + s]
  {
    var p, r := arr[..c] + es[c + s..], arr + es[|arr| + s..];
    if p == r {
      forall k | c <= k < |arr| ensures arr[k] == es[k + s] {
        assert p[k] == r[k];
      }
    }
    if forall k {:trigger arr[k]} | c <= k < |arr| :: arr[k] == es[k + s] {
      forall k | 0 <= k < |p| ensures p[k] == r[k] {
        if c <= k < |arr| {
          assert arr[k] == es[k + s];
        }
      }
    }
  }

  /** The first entry ever stored is lost when it comes alone, and a conflicting entry
      stays in the way of the one that should replace it. */
  lemma LostAppends(first: LogEntry, stale: LogEntry, es: seq<LogEntry>)
    requires first.index == 1 && stale.index == 1 && first != stale
    requires |es| == 2 && es[0] == first && es[1].index == 2
    ensures var empty := [LogEntry(0, 0, "", EntryNormal)];
      && AppendText(empty, [first]) == Some(empty)
      && Persisted(LogOf(empty), [first]).ents == [first]
      && AppendText(empty + [stale], es) == Some(empty + [stale, es[1]])
      && Persisted(LogOf(empty + [stale]), es).ents == es
  {
    var arr := [LogEntry(0, 0, "", EntryNormal)] + [stale];
    assert AppendText(arr, es) == Some(arr + [es[1]]) by {
      assert es[1..2] == [es[1]];
    }
    assert arr + [es[1]] == [LogEntry(0, 0, "", EntryNormal)] + [stale, es[1]];
  }

  // ---------- compacting storage ----------

  function CompactText(arr: seq<LogEntry>, k: nat): Option<seq<LogEntry>>
    requires arr != []
  {
    var offset := arr[0].index;
    var lastIndex := offset + |arr| + 1;
    if k <= offset || k > lastIndex then Some(arr)
    else if k - offset < |arr| then
      Some([arr[0].(index := arr[k - offset].index, term := arr[k - offset].term)] + arr[k - offset + 1..])
    else None
  }

  /** Right unless the compaction point is one of the two indexes after the last one. */
  lemma CompactRight(arr: seq<LogEntry>, k: nat)
    requires Array(arr)
    ensures var l, r := LogOf(arr), CompactText(arr, k);
      (r.Some? && r.value != []
       && LogOf(r.value) == if l.base < k <= l.LastIndex() then l.Compact(k) else l) <==>
        k != l.LastIndex() + 1 && k != l.LastIndex() + 2
  {
    var offset := arr[0].index;
    if offset < k < offset + |arr| {
      assert arr[1..][k - offset..] == arr[k - offset + 1..];
    }
  }

  // ---------- the unstable tail ----------

  /** In the last branch the log positions are used as array positions, and what is to be
      appended is dropped. */
  function TruncateText(entries: seq<LogEntry>, offset: nat, es: seq<LogEntry>): Option<(seq<LogEntry>, nat)> {
    if es == [] then Some((entries, offset))
    else
      var after := es[0].index;
      if after == offset + |entries| then Some((entries + es, offset))
      else if after <= offset then Some((es, after))
      else
        match Cut(entries, offset, after)
        case Some(kept) => Some((kept, offset))
        case None => None
  }

  /** Right exactly outside the last branch. */
  lemma TruncateRight(entries: seq<LogEntry>, offset: nat, es: seq<LogEntry>)
    requires es != [] && es[0].index <= offset + |entries|
    ensures var after := es[0].index;
      TruncateText(entries, offset, es) == Some((Before(entries, offset, after) + es, Min(offset, after))) <==>
        after == offset + |entries| || after <= offset
  {
    var after := es[0].index;
    if after == offset + |entries| {
      assert Before(entries, offset, after) == entries;
    } else if after <= offset {
      assert Before(entries, offset, after) + es == es;
    } else {
      assert |Before(entries, offset, after) + es| == after - offset + |es|;
    }
  }

  // ---------- conditional append ----------

  /** Nothing is appended, and the commit index of the request is returned. */
  function MaybeAppendText(s: LogState, index: nat, term: nat, commit: nat, es: seq<LogEntry>): (LogState, nat, bool) {
    if !s.log.MatchTerm(index, term) then (s, 0, false)
    else
      var k := Min(commit, index + |es|);
      (if s.committed < k then s.(committed := k) else s, commit, true)
  }

  /** Right when the request is refused, and otherwise when all its entries are present and
      its commit index happens to be its last index. */
  lemma MaybeAppendRight(s: LogState, index: nat, term: nat, commit: nat, es: seq<LogEntry>)
    requires s.Valid() && s.MaybeAppendPre(index, term, es)
    ensures MaybeAppendText(s, index, term, commit, es) == s.MaybeAppend(index, term, commit, es) <==>
            !s.log.MatchTerm(index, term) || (s.log.FindConflict(es) == 0 && commit == index + |es|)
  {
    if s.log.MatchTerm(index, term) {
      MergeSpec(s.log, index, es);
      if s.log.FindConflict(es) != 0 {
        ConflictChanges(s.log, index, es);
      }
    }
  }

  lemma ConflictChanges(l: Log, index: nat, es: seq<LogEntry>)
    requires l.Valid() && l.base <= index <= l.LastIndex() && Numbered(es, index + 1) && l.FindConflict(es) != 0
    ensures l.Merge(index, es) != l
  {
    var ci, r := l.FindConflict(es), l.Merge(index, es);
    ConflictIsOne(l, index, es);
    MergeIsAppend(l, index, es, ci);
    assert r.ents[ci - l.base - 1] == es[ci - index - 1..][0];
  }

  // ---------- the panic of conditional append ----------

  /** Where the code would panic: it compares with the commit index before it asks whether
      there is a conflict at all. */
  predicate PanicText(s: LogState, index: nat, term: nat, es: seq<LogEntry>) {
    s.log.MatchTerm(index, term) && s.log.FindConflict(es) <= s.committed
  }

  /** Where its comment would: at a conflict with a committed entry. */
  predicate PanicStated(s: LogState, index: nat, term: nat, es: seq<LogEntry>) {
    s.log.MatchTerm(index, term) && s.log.FindConflict(es) != 0 && s.log.FindConflict(es) <= s.committed
  }

  /** The precondition of conditional append is that the comment's panic is not met. */
  lemma PanicIsPre(s: LogState, index: nat, term: nat, es: seq<LogEntry>)
    requires s.Valid() && Numbered(es, index + 1)
    requires s.log.MatchTerm(index, term) ==> s.log.base <= index <= s.log.LastIndex()
    ensures s.MaybeAppendPre(index, term, es) <==> !PanicStated(s, index, term, es)
  {
  }

  /** Under it the code's place is reached exactly by a matching request that brings nothing:
      every entry of it is there, none missing and none conflicting. */
  lemma PanicRight(s: LogState, index: nat, term: nat, es: seq<LogEntry>)
    requires s.Valid() && s.MaybeAppendPre(index, term, es)
    ensures PanicText(s, index, term, es) <==>
            s.log.MatchTerm(index, term) && forall k | 0 <= k < |es| :: s.log.MatchTerm(index + 1 + k, es[k].term)
  {
    ConflictSpec(s.log, index, es);
  }

  /** With the panic put where the code has its place, what it computes is right exactly when
      it refuses. */
  lemma PanicLeavesRefusal(s: LogState, index: nat, term: nat, commit: nat, es: seq<LogEntry>)
    requires s.Valid() && s.MaybeAppendPre(index, term, es)
    ensures (!PanicText(s, index, term, es)
             && MaybeAppendText(s, index, term, commit, es) == s.MaybeAppend(index, term, commit, es)) <==>
            !s.log.MatchTerm(index, term)
  {
    MaybeAppendRight(s, index, term, commit, es);
  }

  // ---------- the already-committed reply ----------

  /** The handler goes on after it: the request is merged, unless that panics, and answered a
      second time. */
  function AppendEntriesText(n: Node, m: Message): Option<Outcome>
    requires n.rl.Valid()
  {
    if !n.rl.MaybeAppendPre(m.index, m.logTerm, m.entries) then None
    else
      var first := if m.index < n.rl.committed then [AppendReply(n, m.from, n.rl.committed)] else [];
      var r := n.rl.MaybeAppend(m.index, m.logTerm, m.commit, m.entries);
      if r.2 then Some(Outcome(n.(rl := r.0), first + [AppendReply(n, m.from, r.1)]))
      else Some(Outcome(n, first + [AppendReject(n, m.from, m.index)]))
  }

  /** Right exactly when the request is not behind the commit index. */
  lemma AppendEntriesRight(n: Node, m: Message)
    requires n.rl.Valid() && AppendPre(n, m)
    ensures AppendEntriesText(n, m) == Some(HandleAppendEntries(n, m)) <==> m.index >= n.rl.committed
  {
    if m.index >= n.rl.committed {
      var r := n.rl.MaybeAppend(m.index, m.logTerm, m.commit, m.entries);
      assert [] + [AppendReject(n, m.from, m.index)] == [AppendReject(n, m.from, m.index)];
      assert [] + [AppendReply(n, m.from, r.1)] == [AppendReply(n, m.from, r.1)];
    } else {
      assert AppendEntriesText(n, m).Some? ==> |AppendEntriesText(n, m).value.out| == 2;
    }
  }

  // ---------- broadcasting ----------

  /** Comparing is written as assigning: a node whose identifier is not 0 leaves for every
      member, and one with identifier 0 sends to itself each time. */
  function TargetsText(ids: seq<nat>, me: nat): seq<nat> {
    if ids == [] then []
    else TargetsText(ids[..|ids| - 1], me) + if me != 0 then [] else [me]
  }

  function Targets(ids: seq<nat>, me: nat): seq<nat> {
    if ids == [] then []
    else Targets(ids[..|ids| - 1], me) + if ids[|ids| - 1] == me then [] else [ids[|ids| - 1]]
  }

  /** A node whose identifier is not 0 reaches nobody, which is right only when it is alone. */
  lemma BroadcastRight(ids: seq<nat>, me: nat)
    requires me != 0
    ensures TargetsText(ids, me) == []
    ensures TargetsText(ids, me) == Targets(ids, me) <==> forall id | id in ids :: id == me
  {
    ReachesNobody(ids, me);
    TargetsAre(ids, me);
    if id :| id in ids && id != me {
      assert id in Targets(ids, me);
    } else if Targets(ids, me) != [] {
      assert Targets(ids, me)[0] in Targets(ids, me);
    }
  }

  lemma {:induction false} ReachesNobody(ids: seq<nat>, me: nat)
    requires me != 0
    ensures TargetsText(ids, me) == []
  {
    if ids != [] {
      ReachesNobody(ids[..|ids| - 1], me);
    }
  }

  lemma {:induction false} TargetsAre(ids: seq<nat>, me: nat)
    ensures forall id :: id in Targets(ids, me) <==> id in ids && id != me
  {
    if ids != [] {
      TargetsAre(ids[..|ids| - 1], me);
      assert ids == ids[..|ids| - 1] + [ids[|ids| - 1]];
    }
  }

  ghost predicate CanSend(n: Node, ids: seq<nat>) {
    forall id | id in ids :: id in n.prs && n.prs[id].next > 0
  }

  ghost function SendTo(n: Node, targets: seq<nat>): seq<Message>
    requires CanSend(n, targets)
  {
    if targets == [] then [] else SendTo(n, targets[..|targets| - 1]) + SendAppend(n, targets[|targets| - 1])
  }

  /** What the model's broadcast sends is one append request for each target. */
  lemma {:induction false} BroadcastIsToTargets(n: Node, ids: seq<nat>)
    requires CanSend(n, ids)
    ensures CanSend(n, Targets(ids, n.id)) && Broadcast(n, ids) == SendTo(n, Targets(ids, n.id))
  {
    if ids != [] {
      var rest, id := ids[..|ids| - 1], ids[|ids| - 1];
      BroadcastIsToTargets(n, rest);
      if id != n.id {
        SendToOneMore(n, Targets(rest, n.id), id);
        assert Targets(ids, n.id) == Targets(rest, n.id) + [id];
        assert Broadcast(n, ids) == Broadcast(n, rest) + SendAppend(n, id);
      } else {
        assert Targets(ids, n.id) == Targets(rest, n.id);
        assert Broadcast(n, ids) == Broadcast(n, rest);
      }
    }
  }

  lemma SendToOneMore(n: Node, ts: seq<nat>, id: nat)
    requires CanSend(n, ts) && id in n.prs && n.prs[id].next > 0
    ensures CanSend(n, ts + [id]) && SendTo(n, ts + [id]) == SendTo(n, ts) + SendAppend(n, id)
  {
    assert (ts + [id])[..|ts|] == ts;
  }

  // ---------- votes for equal logs ----------

  /** The comparison of the code differs from its comment exactly for a log that ends in the
      same entry. */
  lemma TieRight(l: Log, index: nat, term: nat)
    ensures l.IsUpToDate(index, term, true) == l.IsUpToDate(index, term, false) <==>
            (index, term) != (l.LastIndex(), l.LastTerm())
  {
  }

  // ---------- the older commit rule ----------

  /** The older loop asks for the current term at the last entry it sent, not at the entry
      it commits.  It agrees with the newer rule exactly when that entry is of the term too,
      or is committed already. */
  lemma OlderRuleRight(s: LogState, pick: nat, term: nat)
    requires s.Valid() && pick <= s.log.LastIndex() && term > 0
    ensures s.CommitTo(pick) == s.MaybeCommit(pick, term).0 <==> pick <= s.committed || s.log.Term(pick) == term
  {
  }

  function Made(term: nat, index: nat): LogEntry {
    LogEntry(term, index, "", EntryNormal)
  }

  /** Five members, the first of them a leader of term 4 whose last entry is of its term and
      above an entry of term 2.  One follower has matched the last entry, two the one of
      term 2, and one has neither but an entry of term 3.  These states are given: no run of
      the older loop reaches them, as it never advances a match index. */
  lemma OlderRuleLoses(nodes: seq<string>, contexts: seq<FollowerContext>)
    requires |nodes| == |contexts| == 5 && Distinct(nodes)
    requires contexts[1].matchIndex == 3 && contexts[2].matchIndex == contexts[3].matchIndex == 2
    requires contexts[4].matchIndex == 0
    ensures var pick, s := OlderPick(MatchIndexes(nodes, nodes[0], contexts)), Led();
      // the older rule commits the entry of term 2, the newer one does not
      && s.Valid() && pick == 2 && s.CommitTo(pick).committed == 2 && s.MaybeCommit(pick, 4) == (s, false)
      // the two that are behind, with the rival itself, are a quorum that would elect it
      && 3 == Quorum(|nodes|) && Behind().IsUpToDate(Rival().LastIndex(), Rival().LastTerm(), true)
      // and it would be a leader without the committed entry
      && Rival().At(2) != s.log.At(2)
  {
    FiveMatched(MatchIndexes(nodes, nodes[0], contexts));
  }

  function Led(): LogState {
    LogState(Log(0, 0, [Made(1, 1), Made(2, 2), Made(4, 3)]), 1, 1)
  }

  function Behind(): Log {
    Log(0, 0, [Made(1, 1), Made(2, 2)])
  }

  function Rival(): Log {
    Log(0, 0, [Made(1, 1), Made(3, 2)])
  }

  lemma FiveMatched(v: seq<nat>)
    requires |v| == 5 && v[0] == PINNED && v[1] == 3 && v[2] == v[3] == 2 && v[4] == 0
    ensures OlderPick(v) == 2
  {
    assert Descending(v);
    DescendingPick(v, 3);
  }

  lemma DescendingPick(v: seq<nat>, i: nat)
    requires |v| >= 2 && Descending(v) && i < |v| && |v| - 1 - i == |v| / 2 - 1
    ensures OlderPick(v) == v[i]
  {
    SortUnique(v, v);
  }
}
