/** One log out of two: what storage holds and the tail that shadows it.  Every query
    answers what the single log would, and every update is one operation on it. */
module RaftLogs {
  import opened LogModel
  import opened Storage
  import opened UnstableLog

  // ---------- the two tiers as one log ----------

  /** The tail meets storage or shadows its end, without a gap; an empty tail begins right
      after storage.  A tail that begins at or below the compaction point reaches beyond it or
      holds its entry, and then that entry's term counts and not the one retained. */
  ghost predicate Fits(st: Log, offset: nat, tail: seq<LogEntry>) {
    && st.Valid() && Consecutive(tail, offset)
    && offset <= st.LastIndex() + 1
    && (tail == [] ==> offset == st.LastIndex() + 1)
    && (offset <= st.base ==> offset + |tail| > st.base)
  }

  ghost function Combined(st: Log, offset: nat, tail: seq<LogEntry>): Log
    requires Fits(st, offset, tail)
  {
    Log(st.base, if offset <= st.base then tail[st.base - offset].term else st.baseTerm,
        Joined(st.ents, st.base, offset, tail))
  }

  ghost predicate CanJoin(ents: seq<LogEntry>, base: nat, offset: nat, tail: seq<LogEntry>) {
    if offset > base then offset <= base + |ents| + 1 else base + 1 <= offset + |tail|
  }

  /** The entries after `base`: from `offset` on those of the tail. */
  ghost function Joined(ents: seq<LogEntry>, base: nat, offset: nat, tail: seq<LogEntry>): seq<LogEntry>
    requires CanJoin(ents, base, offset, tail)
  {
    if offset > base then ents[..offset - base - 1] + tail else tail[base + 1 - offset..]
  }

  lemma CombinedSpec(st: Log, offset: nat, tail: seq<LogEntry>)
    requires Fits(st, offset, tail)
    ensures var v := Combined(st, offset, tail);
      && v.Valid()
      && v.LastIndex() == (if tail == [] then st.LastIndex() else offset + |tail| - 1)
  {
    var v := Combined(st, offset, tail);
    forall i | 0 <= i < |v.ents| ensures v.ents[i].index == v.base + 1 + i {
      if offset > st.base {
        assert v.ents[i] == if i < offset - st.base - 1 then st.ents[i] else tail[i - (offset - st.base - 1)];
      } else {
        assert v.ents[i] == tail[st.base + 1 - offset + i];
      }
    }
  }

  /** From `offset` on a term is the tail's, below it storage's. */
  lemma CombinedTerm(st: Log, offset: nat, tail: seq<LogEntry>, i: nat)
    requires Fits(st, offset, tail)
    ensures var v := Combined(st, offset, tail);
      && (st.base <= i && offset <= i < offset + |tail| ==> v.Term(i) == tail[i - offset].term)
      && (st.base <= i < offset ==> v.Term(i) == st.Term(i))
  {
    CombinedSpec(st, offset, tail);
  }

  /** What storage contributes to the entries from `lo` up to `hi`. */
  ghost function StoredPart(st: Log, offset: nat, lo: nat, hi: nat): seq<LogEntry>
    requires st.base < lo <= hi && (lo < offset ==> Min(hi, offset) <= st.LastIndex() + 1)
  {
    if lo < offset then st.ents[lo - st.base - 1..Min(hi, offset) - st.base - 1] else []
  }

  /** What the tail contributes. */
  ghost function TailPart(offset: nat, tail: seq<LogEntry>, lo: nat, hi: nat): seq<LogEntry>
    requires lo <= hi && (hi > offset ==> hi <= offset + |tail|)
  {
    if hi > offset then tail[(if lo < offset then offset else lo) - offset..hi - offset] else []
  }

  /** A read splits at `offset`. */
  lemma CombinedSlice(st: Log, offset: nat, tail: seq<LogEntry>, lo: nat, hi: nat)
    requires Fits(st, offset, tail)
    requires var v := Combined(st, offset, tail); v.base < lo <= hi <= v.LastIndex() + 1
    ensures hi > offset ==> hi <= offset + |tail|
    ensures Combined(st, offset, tail).Slice(lo, hi)
            == (ErrNone, StoredPart(st, offset, lo, hi) + TailPart(offset, tail, lo, hi))
  {
    CombinedSpec(st, offset, tail);
    SliceParts(st, offset, tail, lo, hi);
  }

  lemma SliceParts(st: Log, offset: nat, tail: seq<LogEntry>, lo: nat, hi: nat)
    requires CanJoin(st.ents, st.base, offset, tail) && st.base < lo <= hi
    requires hi <= if tail == [] then st.LastIndex() + 1 else offset + |tail|
    requires tail == [] ==> offset == st.LastIndex() + 1
    ensures hi > offset ==> hi <= offset + |tail|
    ensures hi - st.base - 1 <= |Joined(st.ents, st.base, offset, tail)|
    ensures Joined(st.ents, st.base, offset, tail)[lo - st.base - 1..hi - st.base - 1]
            == StoredPart(st, offset, lo, hi) + TailPart(offset, tail, lo, hi)
  {
    if offset <= lo && hi > offset {
      SliceOfTail(st, offset, tail, lo, hi);
    } else if hi <= offset {
      SliceOfStored(st, offset, tail, lo, hi);
    } else {
      SliceOfBoth(st, offset, tail, lo, hi);
    }
  }

  lemma SliceOfTail(st: Log, offset: nat, tail: seq<LogEntry>, lo: nat, hi: nat)
    requires CanJoin(st.ents, st.base, offset, tail) && st.base < lo <= hi
    requires offset <= lo && offset < hi <= offset + |tail|
    ensures hi - st.base - 1 <= |Joined(st.ents, st.base, offset, tail)|
    ensures Joined(st.ents, st.base, offset, tail)[lo - st.base - 1..hi - st.base - 1]
            == StoredPart(st, offset, lo, hi) + TailPart(offset, tail, lo, hi)
  {
    JoinedOfTail(st.ents, st.base, offset, tail, lo - st.base - 1, hi - st.base - 1, lo - offset, hi - offset);
    NothingStored(st, offset, tail, lo, hi);
  }

  lemma JoinedOfTail(ents: seq<LogEntry>, base: nat, offset: nat, tail: seq<LogEntry>, x: nat, y: nat, p: nat, q: nat)
    requires CanJoin(ents, base, offset, tail) && x <= y && p <= q <= |tail|
    requires offset + p == base + 1 + x && offset + q == base + 1 + y
    ensures y <= |Joined(ents, base, offset, tail)| && Joined(ents, base, offset, tail)[x..y] == tail[p..q]
  {
    if offset <= base {
      DropCut(tail, base + 1 - offset, x, y, p, q);
    } else {
      CutTail(ents, offset - base - 1, tail, x, y, p, q);
    }
  }

  lemma SliceOfStored(st: Log, offset: nat, tail: seq<LogEntry>, lo: nat, hi: nat)
    requires CanJoin(st.ents, st.base, offset, tail) && st.base < lo <= hi <= offset
    ensures hi - st.base - 1 <= |Joined(st.ents, st.base, offset, tail)|
    ensures Joined(st.ents, st.base, offset, tail)[lo - st.base - 1..hi - st.base - 1]
            == StoredPart(st, offset, lo, hi) + TailPart(offset, tail, lo, hi)
  {
    CutJoined(st.ents, offset - st.base - 1, tail, lo - st.base - 1, hi - st.base - 1);
    NothingInTail(st, offset, tail, lo, hi);
  }

  lemma SliceOfBoth(st: Log, offset: nat, tail: seq<LogEntry>, lo: nat, hi: nat)
    requires CanJoin(st.ents, st.base, offset, tail) && st.base < lo < offset < hi <= offset + |tail|
    ensures hi - st.base - 1 <= |Joined(st.ents, st.base, offset, tail)|
    ensures Joined(st.ents, st.base, offset, tail)[lo - st.base - 1..hi - st.base - 1]
            == StoredPart(st, offset, lo, hi) + TailPart(offset, tail, lo, hi)
  {
    CutJoined(st.ents, offset - st.base - 1, tail, lo - st.base - 1, hi - st.base - 1);
    assert hi - st.base - 1 - (offset - st.base - 1) == hi - offset;
  }

  lemma NothingStored(st: Log, offset: nat, tail: seq<LogEntry>, lo: nat, hi: nat)
    requires st.base < lo <= hi && offset <= lo && (hi > offset ==> hi <= offset + |tail|)
    ensures StoredPart(st, offset, lo, hi) + TailPart(offset, tail, lo, hi)
            == if hi > offset then tail[lo - offset..hi - offset] else []
  {
  }

  lemma NothingInTail(st: Log, offset: nat, tail: seq<LogEntry>, lo: nat, hi: nat)
    requires st.base < lo <= hi <= offset && hi <= st.LastIndex() + 1
    ensures StoredPart(st, offset, lo, hi) + TailPart(offset, tail, lo, hi)
            == if lo < offset then st.ents[lo - st.base - 1..hi - st.base - 1] else []
  {
  }

  lemma DropCut<T>(t: seq<T>, n: nat, x: nat, y: nat, p: nat, q: nat)
    requires p == n + x && q == n + y && p <= q <= |t|
    ensures t[n..][x..y] == t[p..q]
  {
  }

  lemma CutTail<T>(a: seq<T>, n: nat, t: seq<T>, x: nat, y: nat, p: nat, q: nat)
    requires n <= |a| && x == n + p && y == n + q && p <= q <= |t|
    ensures (a[..n] + t)[x..y] == t[p..q]
  {
  }

  lemma CutJoined<T>(a: seq<T>, n: nat, t: seq<T>, x: nat, y: nat)
    requires n <= |a| && x <= y <= n + |t|
    ensures y <= n ==> (a[..n] + t)[x..y] == a[x..y]
    ensures x >= n ==> (a[..n] + t)[x..y] == t[x - n..y - n]
    ensures x < n < y ==> (a[..n] + t)[x..y] == a[x..n] + t[..y - n]
  {
  }

  /** Compacting storage is compacting the one log. */
  lemma CombinedCompact(st: Log, offset: nat, tail: seq<LogEntry>, k: nat)
    requires Fits(st, offset, tail) && st.base < k <= st.LastIndex() && k <= Combined(st, offset, tail).LastIndex()
    ensures Fits(st.Compact(k), offset, tail)
    ensures Combined(st.Compact(k), offset, tail) == Combined(st, offset, tail).Compact(k)
  {
    CombinedSpec(st, offset, tail);
    CompactFits(st, offset, tail, k);
    CombinedTerm(st, offset, tail, k);
    CompactEnts(st.ents, st.base, offset, tail, k, k - st.base);
  }

  /** The tail still fits after a compaction of storage exactly when the compaction point is
      an entry of the one log: a tail may end below what it shadows. */
  lemma CompactFits(st: Log, offset: nat, tail: seq<LogEntry>, k: nat)
    requires Fits(st, offset, tail) && st.base < k <= st.LastIndex()
    ensures Fits(st.Compact(k), offset, tail) <==> k <= Combined(st, offset, tail).LastIndex()
  {
    CombinedSpec(st, offset, tail);
    CompactValid(st, k);
  }

  lemma CompactEnts(ents: seq<LogEntry>, base: nat, offset: nat, tail: seq<LogEntry>, k: nat, d: nat)
    requires CanJoin(ents, base, offset, tail) && base < k && d == k - base && d <= |ents| && k < offset + |tail|
    ensures CanJoin(ents[d..], k, offset, tail)
    ensures Joined(ents[d..], k, offset, tail) == Joined(ents, base, offset, tail)[d..]
  {
    if offset > base {
      DropJoined(ents, offset - base - 1, tail, d);
      assert offset > k ==> offset - base - 1 - d == offset - k - 1;
      assert offset <= k ==> d - (offset - base - 1) == k + 1 - offset;
    } else {
      DropTwice(tail, base + 1 - offset, d);
      assert base + 1 - offset + d == k + 1 - offset;
    }
  }

  lemma DropTwice<T>(t: seq<T>, n: nat, d: nat)
    requires n + d <= |t|
    ensures t[n..][d..] == t[n + d..]
  {
  }

  lemma DropJoined<T>(a: seq<T>, n: nat, t: seq<T>, d: nat)
    requires n <= |a| && d <= n + |t|
    ensures d <= n ==> (a[..n] + t)[d..] == a[d..][..n - d] + t
    ensures d >= n ==> (a[..n] + t)[d..] == t[d - n..]
  {
    if d <= n {
      assert a[d..][..n - d] == a[..n][d..];
    }
  }

  /** Replacing the tail from `es` on is appending to the one log. */
  lemma CombinedAppend(st: Log, offset: nat, tail: seq<LogEntry>, es: seq<LogEntry>)
    requires Fits(st, offset, tail) && es != []
    requires Combined(st, offset, tail).CanTake(es)
    ensures var after := es[0].index;
      && after <= offset + |tail|
      && Fits(st, Min(offset, after), Before(tail, offset, after) + es)
      && Combined(st, Min(offset, after), Before(tail, offset, after) + es) == Combined(st, offset, tail).Append(es)
  {
    CombinedSpec(st, offset, tail);
    var after := es[0].index;
    TailJoins(offset, tail, after, es);
    AppendFits(st, offset, tail, after, es);
    AppendEnts(st.ents, st.base, offset, tail, after, es, after - st.base - 1);
  }

  lemma TailJoins(offset: nat, tail: seq<LogEntry>, after: nat, es: seq<LogEntry>)
    requires Consecutive(tail, offset) && Consecutive(es, after) && after <= offset + |tail|
    ensures Consecutive(Before(tail, offset, after) + es, Min(offset, after))
  {
    var off, t := Min(offset, after), Before(tail, offset, after) + es;
    forall i | 0 <= i < |t| ensures t[i].index == off + i {
      if i >= after - off {
        assert t[i] == es[i - (after - off)];
      }
    }
  }

  lemma AppendFits(st: Log, offset: nat, tail: seq<LogEntry>, after: nat, es: seq<LogEntry>)
    requires Fits(st, offset, tail) && es != [] && st.base < after <= offset + |tail|
    requires Consecutive(Before(tail, offset, after) + es, Min(offset, after))
    ensures Fits(st, Min(offset, after), Before(tail, offset, after) + es)
  {
  }

  lemma AppendEnts(ents: seq<LogEntry>, base: nat, offset: nat, tail: seq<LogEntry>, after: nat, es: seq<LogEntry>,
                   m: nat)
    requires CanJoin(ents, base, offset, tail) && es != [] && base < after <= offset + |tail| && m == after - base - 1
    requires after <= offset ==> m <= |ents|
    ensures m <= |Joined(ents, base, offset, tail)|
    ensures CanJoin(ents, base, Min(offset, after), Before(tail, offset, after) + es)
    ensures Joined(ents, base, Min(offset, after), Before(tail, offset, after) + es)
            == Joined(ents, base, offset, tail)[..m] + es
  {
    if after <= offset {
      assert Before(tail, offset, after) + es == es;
      TakeJoined(ents, offset - base - 1, tail, m);
    } else if offset > base {
      TruncateJoined(ents, offset - base - 1, tail, after - offset, es);
      assert m == offset - base - 1 + (after - offset);
    } else {
      TruncateDropped(tail, base + 1 - offset, after - offset, es);
      assert m == after - offset - (base + 1 - offset);
    }
  }

  lemma TruncateJoined<T>(a: seq<T>, n: nat, t: seq<T>, k: nat, es: seq<T>)
    requires n <= |a| && k <= |t|
    ensures a[..n] + (t[..k] + es) == (a[..n] + t)[..n + k] + es
  {
    assert (a[..n] + t)[..n + k] == a[..n] + t[..k];
  }

  lemma TruncateDropped<T>(t: seq<T>, n: nat, k: nat, es: seq<T>)
    requires n <= k <= |t|
    ensures (t[..k] + es)[n..] == t[n..][..k - n] + es
  {
    assert t[n..][..k - n] == t[..k][n..];
  }

  lemma TakeJoined<T>(a: seq<T>, n: nat, t: seq<T>, m: nat)
    requires n <= |a| && m <= n + |t|
    ensures m <= n ==> (a[..n] + t)[..m] == a[..m]
    ensures m >= n ==> (a[..n] + t)[..m] == a[..n] + t[..m - n]
  {
  }

  /** Storing the tail changes nothing to be seen. */
  lemma CombinedPersist(st: Log, offset: nat, tail: seq<LogEntry>)
    requires Fits(st, offset, tail)
    ensures Persisted(st, tail).Valid() && Fits(Persisted(st, tail), offset, tail)
    ensures Combined(Persisted(st, tail), offset, tail) == Combined(st, offset, tail)
  {
    if tail != [] {
      assert tail[0].index == offset;
      if offset > st.base {
        PersistedValid(st, tail);
        PersistAbove(st, offset, tail);
      } else {
        PersistBelow(st, offset, tail);
      }
    }
  }

  lemma PersistAbove(st: Log, offset: nat, tail: seq<LogEntry>)
    requires Fits(st, offset, tail) && tail != [] && offset > st.base && tail[0].index == offset
    requires Persisted(st, tail) == st.Append(tail) && Persisted(st, tail).Valid()
    ensures Fits(Persisted(st, tail), offset, tail)
    ensures Combined(Persisted(st, tail), offset, tail) == Combined(st, offset, tail)
  {
    var n := offset - st.base - 1;
    assert (st.ents[..n] + tail)[..n] == st.ents[..n];
  }

  /** A tail that reaches below the compaction point: only what lies above is stored. */
  lemma PersistBelow(st: Log, offset: nat, tail: seq<LogEntry>)
    requires Fits(st, offset, tail) && tail != [] && offset <= st.base && tail[0].index == offset
    ensures Persisted(st, tail).Valid() && Fits(Persisted(st, tail), offset, tail)
    ensures Combined(Persisted(st, tail), offset, tail) == Combined(st, offset, tail)
  {
    CombinedSpec(st, offset, tail);
    PersistedBelow(st, offset, tail, tail[st.base + 1 - offset..]);
    assert Joined(st.ents, st.base, offset, tail) == tail[st.base + 1 - offset..];
  }

  lemma PersistedBelow(st: Log, offset: nat, tail: seq<LogEntry>, rest: seq<LogEntry>)
    requires tail != [] && offset <= st.base < offset + |tail| && tail[0].index == offset
    requires rest == tail[st.base + 1 - offset..]
    ensures Persisted(st, tail) == if rest == [] then st else Log(st.base, st.baseTerm, rest)
  {
    assert st.ents[..0] + rest == rest;
  }

  // ---------- the log of a node ----------

  class RaftLog {
    const storage: MemoryStorage
    const unstable: Unstable
    var committed: nat
    var applied: nat

    ghost predicate Consistent()
      reads this, storage, unstable
    {
      && storage.Valid() && unstable.Valid()
      && Fits(storage.View(), unstable.offset, unstable.entries)
    }

    ghost function View(): Log
      reads this, storage, unstable
      requires Consistent()
    {
      Combined(storage.View(), unstable.offset, unstable.entries)
    }

    ghost function State(): LogState
      reads this, storage, unstable
      requires Consistent()
    {
      LogState(View(), committed, applied)
    }

    /** Also: nothing is applied beyond what is committed, nor committed beyond the log. */
    ghost predicate Valid()
      reads this, storage, unstable
    {
      Consistent() && State().Valid()
    }

    /** The log of a storage as it stands, committed and applied up to its last compaction. */
    constructor (storage: MemoryStorage)
      requires storage.Valid()
      ensures this.storage == storage && fresh(unstable)
      ensures Valid() && View() == storage.View()
      ensures committed == storage.View().base && applied == storage.View().base
    {
      storage.ViewValid();
      var first, e0 := storage.FirstIndex();
      var last, e1 := storage.LastIndex();
      this.storage := storage;
      unstable := new Unstable(last + 1);
      committed, applied := first - 1, first - 1;
      new;
      assert storage.View().ents[..|storage.View().ents|] == storage.View().ents;
    }

    // ---------- queries ----------

    method FirstIndex() returns (i: nat)
      requires Consistent()
      ensures i == View().FirstIndex()
    {
      var first, e := storage.FirstIndex();
      return first;
    }

    method LastIndex() returns (i: nat)
      requires Consistent()
      ensures i == View().LastIndex()
    {
      CombinedSpec(storage.View(), unstable.offset, unstable.entries);
      var last, ok := unstable.MaybeLastIndex();
      if ok {
        return last;
      }
      var stored, e := storage.LastIndex();
      return stored;
    }

    /** The tail first, then storage; no error comes out of either. */
    method Term(i: nat) returns (err: RaftError, term: nat)
      requires Consistent()
      ensures err == ErrNone && term == View().Term(i)
    {
      CombinedSpec(storage.View(), unstable.offset, unstable.entries);
      CombinedTerm(storage.View(), unstable.offset, unstable.entries, i);
      var first := FirstIndex();
      var last := LastIndex();
      if i < first - 1 || i > last {
        return ErrNone, 0;
      }
      var t, ok := unstable.MaybeTerm(i);
      if ok {
        return ErrNone, t;
      }
      var s, e := storage.Term(i);
      return e, s;
    }

    method LastTerm() returns (term: nat)
      requires Consistent()
      ensures term == View().LastTerm()
    {
      var last := LastIndex();
      var e, t := Term(last);
      return t;
    }

    method MustCheckOutOfBounds(lo: nat, hi: nat) returns (err: RaftError)
      requires Consistent()
      ensures err == View().Slice(lo, hi).0
    {
      if lo > hi {
        return ErrParam;
      }
      var first := FirstIndex();
      if lo < first {
        return ErrCompacted;
      }
      var last := LastIndex();
      CombinedSpec(storage.View(), unstable.offset, unstable.entries);
      var length := last + 1 - first;
      if lo < first || hi > first + length {
        return ErrCompacted;
      }
      return ErrNone;
    }

    method Slice(lo: nat, hi: nat) returns (err: RaftError, es: seq<LogEntry>)
      requires Consistent()
      ensures (err, es) == View().Slice(lo, hi)
    {
      err := MustCheckOutOfBounds(lo, hi);
      if err != ErrNone {
        return err, [];
      }
      if lo == hi {
        assert View().Slice(lo, hi).1 == [];
        return err, [];
      }
      err, es := SliceTiers(lo, hi);
    }

    /** A range that is there, from storage up to the tail's beginning and from the tail
        after it. */
    method SliceTiers(lo: nat, hi: nat) returns (err: RaftError, es: seq<LogEntry>)
      requires Consistent() && View().base < lo < hi <= View().LastIndex() + 1
      ensures (err, es) == View().Slice(lo, hi)
    {
      CombinedSlice(storage.View(), unstable.offset, unstable.entries, lo, hi);
      es := [];
      if lo < unstable.offset {
        var stored, e := storage.Entries(lo, Min(hi, unstable.offset));
        if e != ErrNone {
          return e, [];
        }
        es := stored;
      }
      assert es == StoredPart(storage.View(), unstable.offset, lo, hi);
      var tail: seq<LogEntry> := [];
      if hi > unstable.offset {
        tail := unstable.Slice(if lo < unstable.offset then unstable.offset else lo, hi);
      }
      assert tail == TailPart(unstable.offset, unstable.entries, lo, hi);
      return ErrNone, es + tail;
    }

    method Entries(i: nat) returns (err: RaftError, es: seq<LogEntry>)
      requires Consistent()
      ensures (err, es) == View().Entries(i)
    {
      var last := LastIndex();
      if i > last {
        return ErrNone, [];
      }
      err, es := Slice(i, last + 1);
    }

    /** Everything that is not compacted away. */
    method AllEntries() returns (err: RaftError, es: seq<LogEntry>)
      requires Consistent()
      ensures err == ErrNone && es == View().ents
    {
      CombinedSpec(storage.View(), unstable.offset, unstable.entries);
      var first := FirstIndex();
      err, es := Entries(first);
    }

    method IsUpToDate(lastIndex: nat, term: nat, strict: bool) returns (ok: bool)
      requires Consistent()
      ensures ok == View().IsUpToDate(lastIndex, term, strict)
    {
      var t := LastTerm();
      var i := LastIndex();
      return term > t || (term == t && (lastIndex > i || (lastIndex == i && !strict)));
    }

    method MatchTerm(i: nat, term: nat) returns (ok: bool)
      requires Consistent()
      ensures ok == View().MatchTerm(i, term)
    {
      var e, t := Term(i);
      if e != ErrNone {
        return false;
      }
      return t == term;
    }

    method FindConflict(es: seq<LogEntry>) returns (ci: nat)
      requires Consistent()
      ensures ci == View().FindConflict(es)
    {
      var k := 0;
      while k < |es|
        invariant 0 <= k <= |es|
        invariant View().FindConflict(es) == View().FindConflict(es[k..])
      {
        var ok := MatchTerm(es[k].index, es[k].term);
        if !ok {
          return es[k].index;
        }
        assert es[k..][1..] == es[k + 1..];
        k := k + 1;
      }
      return 0;
    }

    // ---------- updates ----------

    /** The position after the tail is the one after the log, even when the tail is empty:
        entries numbered to follow the log never truncate it. */
    lemma NextIsDirect()
      requires Consistent()
      ensures unstable.offset + |unstable.entries| == View().LastIndex() + 1
      ensures Before(unstable.entries, unstable.offset, View().LastIndex() + 1) == unstable.entries
    {
      CombinedSpec(storage.View(), unstable.offset, unstable.entries);
    }

    /** Entries that the caller numbered to follow the log take the tail's direct-append
        branch; others truncate.  Either way the one log is cut and continued. */
    method Append(es: seq<LogEntry>) returns (last: nat)
      requires Valid() && State().AppendPre(es)
      modifies unstable
      ensures Valid() && State() == old(State()).Append(es)
      ensures last == View().LastIndex()
    {
      if es != [] {
        CombinedAppend(storage.View(), unstable.offset, unstable.entries, es);
        AppendSpec(View(), es);
        unstable.TruncateAndAppend(es);
      }
      last := LastIndex();
    }

    method CommitTo(toCommit: nat)
      requires Valid() && (toCommit <= View().LastIndex() || toCommit <= committed)
      modifies this`committed
      ensures Valid() && State() == old(State()).CommitTo(toCommit)
    {
      if committed < toCommit {
        committed := toCommit;
      }
    }

    method MaybeCommit(index: nat, term: nat) returns (ok: bool)
      requires Valid() && term > 0
      modifies this`committed
      ensures Valid() && (State(), ok) == old(State()).MaybeCommit(index, term)
    {
      var e, t := Term(index);
      if index > committed && t == term {
        CommitTo(index);
        return true;
      }
      return false;
    }

    method SetCommitted(index: nat)
      requires Consistent() && applied <= index <= View().LastIndex() && View().base <= applied
      modifies this`committed
      ensures Valid() && State() == old(State()).(committed := index)
    {
      CombinedSpec(storage.View(), unstable.offset, unstable.entries);
      committed := index;
    }

    /** Appends what is new of a matching request and follows its commit index. */
    method MaybeAppend(index: nat, term: nat, commit: nat, es: seq<LogEntry>) returns (last: nat, ok: bool)
      requires Valid() && State().MaybeAppendPre(index, term, es)
      modifies this`committed, unstable
      ensures Valid() && (State(), last, ok) == old(State()).MaybeAppend(index, term, commit, es)
    {
      ok := MatchTerm(index, term);
      if !ok {
        return 0, false;
      }
      last := index + |es|;
      MergeSpec(View(), index, es);
      Merge(index, es);
      CommitTo(Min(commit, last));
    }

    /** Appends the given entries from the first conflict on. */
    method Merge(index: nat, es: seq<LogEntry>)
      requires Valid() && View().base <= index <= View().LastIndex() && Numbered(es, index + 1)
      requires View().FindConflict(es) == 0 || View().FindConflict(es) > committed
      modifies unstable
      ensures Valid() && State() == old(State()).(log := old(View()).Merge(index, es))
    {
      ConflictBounds(View(), index, es);
      var ci := FindConflict(es);
      if ci != 0 {
        AppendTail(View(), index, es, ci);
        var l := Append(es[ci - index - 1..]);
      }
    }

    // ---------- the application's side ----------

    /** The tail written to storage while it stays in memory. */
    method Persist()
      requires Valid()
      modifies storage
      ensures Valid() && State() == old(State())
    {
      CombinedPersist(storage.View(), unstable.offset, unstable.entries);
      var e := storage.Append(unstable.entries);
    }

    /** Compaction of storage: refused when there is nothing to compact or the entry is not
        stored.  Otherwise the one log is compacted, whatever the tail shadows, and stays in
        order exactly when the entry is applied; an entry that is stored but cut off from the
        one log by the tail breaks it. */
    method Compact(k: nat) returns (err: RaftError)
      requires Valid()
      modifies storage
      ensures err == ErrNone <==> old(storage.View()).base < k <= old(storage.View()).LastIndex()
      ensures err != ErrNone ==> err == ErrCompacted && Valid() && State() == old(State())
      ensures err == ErrNone ==> (Consistent() <==> k <= old(View()).LastIndex())
      ensures err == ErrNone && Consistent() ==> State() == old(State()).(log := old(View()).Compact(k))
      ensures err == ErrNone ==> (Valid() <==> k <= applied)
    {
      CombinedSpec(storage.View(), unstable.offset, unstable.entries);
      if storage.entries[0].index < k <= storage.entries[0].index + |storage.entries| - 1 {
        CompactFits(storage.View(), unstable.offset, unstable.entries, k);
        if k <= View().LastIndex() {
          CombinedCompact(storage.View(), unstable.offset, unstable.entries, k);
          CompactValid(View(), k);
        }
      }
      err := storage.Compact(k);
    }
  }
}
