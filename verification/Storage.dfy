/** The stable log: an array whose first entry is a dummy that carries the index and term
    up to which the log is compacted. */
module Storage {
  import opened LogModel

  /** What persisting `es` makes of a log: entries that are compacted away are passed over,
      what the new ones overlap is truncated, and entries that would leave a gap are not
      taken. */
  function Persisted(l: Log, es: seq<LogEntry>): Log {
    if es == [] || es[0].index + |es| - 1 <= l.base || es[0].index > l.LastIndex() + 1 then l
    else
      var rest := if es[0].index <= l.base then es[l.base + 1 - es[0].index..] else es;
      var from := if es[0].index <= l.base then l.base + 1 else es[0].index;
      Log(l.base, l.baseTerm, l.ents[..from - l.base - 1] + rest)
  }

  /** The log an array with a dummy entry stands for. */
  function LogOf(entries: seq<LogEntry>): Log
    requires entries != []
  {
    Log(entries[0].index, entries[0].term, entries[1..])
  }

  class MemoryStorage {
    var entries: seq<LogEntry>

    ghost predicate Valid()
      reads this
    {
      entries != [] && Consecutive(entries, entries[0].index)
    }

    ghost function View(): Log
      reads this
      requires entries != []
    {
      LogOf(entries)
    }

    constructor ()
      ensures Valid() && View() == Log(0, 0, [])
    {
      entries := [LogEntry(0, 0, "", EntryNormal)];
    }

    lemma ViewValid()
      requires Valid()
      ensures View().Valid() && entries[0].index + |entries| - 1 == View().LastIndex()
    {
      forall i | 0 <= i < |View().ents| ensures View().ents[i].index == View().base + 1 + i {
        assert View().ents[i] == entries[i + 1];
      }
    }

    method FirstIndex() returns (index: nat, err: RaftError)
      requires Valid()
      ensures err == ErrNone && index == View().FirstIndex()
    {
      return entries[0].index + 1, ErrNone;
    }

    method LastIndex() returns (index: nat, err: RaftError)
      requires Valid()
      ensures err == ErrNone && index == View().LastIndex()
    {
      return entries[0].index + |entries| - 1, ErrNone;
    }

    /** The term of an entry, the compaction point included; an error outside. */
    method Term(i: nat) returns (term: nat, err: RaftError)
      requires Valid()
      ensures i < View().base ==> (term, err) == (0, ErrCompacted)
      ensures i > View().LastIndex() ==> (term, err) == (0, ErrUnavailable)
      ensures View().base <= i <= View().LastIndex() ==> (term, err) == (View().Term(i), ErrNone)
    {
      var offset := entries[0].index;
      if i < offset {
        return 0, ErrCompacted;
      }
      if i > offset + |entries| - 1 {
        return 0, ErrUnavailable;
      }
      return entries[i - offset].term, ErrNone;
    }

    /** The entries from `lo` up to but not including `hi`. */
    method Entries(lo: nat, hi: nat) returns (target: seq<LogEntry>, err: RaftError)
      requires Valid() && lo <= hi
      ensures (err, target) == View().Slice(lo, hi)
    {
      var offset := entries[0].index;
      if lo <= offset {
        return [], ErrCompacted;
      }
      if hi > offset + |entries| {
        return [], ErrCompacted;
      }
      assert entries[lo - offset..hi - offset] == View().ents[lo - offset - 1..hi - offset - 1];
      return entries[lo - offset..hi - offset], ErrNone;
    }

    method Append(es: seq<LogEntry>) returns (err: RaftError)
      requires Valid() && (es != [] ==> Consecutive(es, es[0].index))
      modifies this
      ensures Valid() && err == ErrNone
      ensures View() == Persisted(old(View()), es)
    {
      if es == [] {
        return ErrNone;
      }
      var oldFirst := entries[0].index + 1;
      var oldLast := entries[0].index + |entries| - 1;
      var newLast := es[0].index + |es| - 1;
      // nothing new
      if newLast < oldFirst {
        return ErrNone;
      }
      // missing log entry
      if oldLast + 1 < es[0].index {
        return ErrNone;
      }
      var drop := if es[0].index < oldFirst then oldFirst - es[0].index else 0;
      var keep := es[0].index + drop - entries[0].index;
      Spliced(entries, keep, es, drop);
      entries := entries[..keep] + es[drop..];
      return ErrNone;
    }

    /** The kept part of the array and the part of `es` that is taken fit together. */
    static lemma Spliced(entries: seq<LogEntry>, keep: nat, es: seq<LogEntry>, drop: nat)
      requires entries != [] && 0 < keep <= |entries| && Consecutive(entries, entries[0].index)
      requires es != [] && drop <= |es| && Consecutive(es, es[0].index) && es[0].index + drop == entries[0].index + keep
      ensures var r := entries[..keep] + es[drop..];
              r[0] == entries[0] && Consecutive(r, entries[0].index) && r[1..] == entries[1..][..keep - 1] + es[drop..]
    {
      var r := entries[..keep] + es[drop..];
      forall i | 0 <= i < |r| ensures r[i].index == entries[0].index + i {
        if i >= keep {
          assert r[i] == es[drop + i - keep];
        }
      }
    }

    /** Discards everything up to `k`, whose term is retained. */
    method Compact(k: nat) returns (err: RaftError)
      requires Valid()
      modifies this
      ensures Valid()
      ensures old(View()).base < k <= old(View()).LastIndex() ==> err == ErrNone && View() == old(View()).Compact(k)
      ensures k <= old(View()).base || k > old(View()).LastIndex() ==> err == ErrCompacted && View() == old(View())
    {
      var offset := entries[0].index;
      var lastIndex := offset + |entries| - 1;
      if k <= offset {
        return ErrCompacted;
      }
      if k > lastIndex {
        return ErrCompacted;
      }
      var compactNum := k - offset;
      var dummy := entries[0].(index := entries[compactNum].index, term := entries[compactNum].term);
      ghost var before := entries;
      entries := [dummy] + entries[compactNum + 1..];
      assert entries[1..] == before[1..][compactNum..];
      return ErrNone;
    }
  }

  // ---------- any sequence of appends and compactions ----------

  datatype Op = Write(es: seq<LogEntry>) | Discard(k: nat)

  function Done(l: Log, op: Op): Log {
    match op
    case Write(es) => Persisted(l, es)
    case Discard(k) => if l.base < k <= l.LastIndex() then l.Compact(k) else l
  }

  function Ran(l: Log, ops: seq<Op>): Log
    decreases |ops|
  {
    if ops == [] then l else Ran(Done(l, ops[0]), ops[1..])
  }

  /** The entries of `es` above `k`. */
  function Above(es: seq<LogEntry>, k: nat): seq<LogEntry> {
    if es == [] || k < es[0].index then es
    else if k - es[0].index + 1 <= |es| then es[k - es[0].index + 1..]
    else []
  }

  /** The same operations on a log that is never compacted: a write brings what lies above
      the compaction point `k` of its time, and a compaction only moves that point. */
  function Kept(full: Log, k: nat, ops: seq<Op>): Log
    decreases |ops|
  {
    if ops == [] then full
    else
      match ops[0]
      case Write(es) => Kept(Persisted(full, Above(es, k)), k, ops[1..])
      case Discard(m) => Kept(full, if k < m <= full.LastIndex() then m else k, ops[1..])
  }

  ghost predicate AllNumbered(ops: seq<Op>) {
    forall op | op in ops && op.Write? && op.es != [] :: Consecutive(op.es, op.es[0].index)
  }

  /** When writing `es` and compacting at `k` commute: the write begins above `k`, lies
      wholly below what is compacted already, or has the entry's term at `k` and goes on as
      far as the log does; compacting where the log is compacted already is no matter. */
  predicate Commutes(l: Log, k: nat, es: seq<LogEntry>) {
    || k == l.base || es == [] || es[0].index > k || es[0].index + |es| - 1 <= l.base
    || (k - es[0].index < |es| && es[k - es[0].index].term == l.Term(k)
        && (k < es[0].index + |es| - 1 || l.LastIndex() == k))
  }

  lemma PersistedValid(l: Log, es: seq<LogEntry>)
    requires l.Valid() && (es != [] ==> es[0].index > l.base && Consecutive(es, es[0].index))
    ensures Persisted(l, es).Valid() && Persisted(l, es).base == l.base && Persisted(l, es).LastIndex() >= l.base
    ensures Persisted(l, es) == if es == [] || es[0].index > l.LastIndex() + 1 then l else l.Append(es)
  {
    if es != [] && es[0].index <= l.LastIndex() + 1 {
      AppendSpec(l, es);
    }
  }

  /** Whatever is written, the result is numbered and starts where it did. */
  lemma PersistedNumbered(l: Log, es: seq<LogEntry>)
    requires l.Valid() && (es != [] ==> Consecutive(es, es[0].index))
    ensures Persisted(l, es).Valid() && Persisted(l, es).base == l.base
  {
    if es != [] && l.base < es[0].index + |es| - 1 && es[0].index <= l.LastIndex() + 1 {
      if es[0].index > l.base {
        AppendSpec(l, es);
      } else {
        var rest := es[l.base + 1 - es[0].index..];
        assert l.ents[..0] + rest == rest;
        assert forall i | 0 <= i < |rest| :: rest[i] == es[l.base + 1 - es[0].index + i];
      }
    }
  }

  /** A write that ends above the compaction point and leaves no gap is what the log ends with,
      after what it had before; any other changes nothing. */
  lemma PersistedSpec(l: Log, es: seq<LogEntry>)
    requires l.Valid() && (es != [] ==> Consecutive(es, es[0].index))
    ensures var r := Persisted(l, es);
      && r.Valid() && r.base == l.base && r.baseTerm == l.baseTerm
      && if es == [] || es[0].index + |es| - 1 <= l.base || es[0].index > l.LastIndex() + 1 then r == l
         else
           && r.LastIndex() == es[0].index + |es| - 1
           && forall i | l.base < i <= r.LastIndex() ::
                r.At(i) == if i < es[0].index then l.At(i) else es[i - es[0].index]
  {
    PersistedNumbered(l, es);
    if es != [] && es[0].index + |es| - 1 > l.base && es[0].index <= l.LastIndex() + 1 {
      var from := if es[0].index <= l.base then l.base + 1 else es[0].index;
      Replaced(l, es, es[0].index, from, from - es[0].index, Persisted(l, es));
    }
  }

  lemma Replaced(l: Log, es: seq<LogEntry>, first: nat, from: nat, x: nat, r: Log)
    requires l.base < from <= l.LastIndex() + 1 && first + x == from && x < |es|
    requires r == Log(l.base, l.baseTerm, l.ents[..from - l.base - 1] + es[x..])
    ensures r.LastIndex() == first + |es| - 1
    ensures forall i | l.base < i <= r.LastIndex() :: r.At(i) == if i < from then l.At(i) else es[i - first]
  {
  }

  /** Writing and compacting commute exactly then. */
  lemma CompactCommutes(l: Log, k: nat, es: seq<LogEntry>)
    requires l.Valid() && l.base <= k <= l.LastIndex() && (es != [] ==> Consecutive(es, es[0].index))
    ensures (k <= Persisted(l, es).LastIndex() && Persisted(l.Compact(k), es) == Persisted(l, es).Compact(k)) <==>
            Commutes(l, k, es)
  {
    if es != [] && es[0].index <= l.LastIndex() + 1 {
      var f, e := es[0].index, es[0].index + |es| - 1;
      if k == l.base {
        CompactHere(l, es);
      } else if f > k {
        CompactBeforeWrite(l, k, es);
      } else if e > l.base {
        if f > l.base {
          CompactWithinWrite(l, k, es);
        } else {
          CompactAcrossWrite(l, k, es);
        }
      }
    }
  }

  lemma CompactHere(l: Log, es: seq<LogEntry>)
    requires l.Valid() && (es != [] ==> Consecutive(es, es[0].index))
    ensures l.Compact(l.base) == l && Persisted(l, es).Compact(l.base) == Persisted(l, es)
  {
    PersistedNumbered(l, es);
  }

  lemma CompactBeforeWrite(l: Log, k: nat, es: seq<LogEntry>)
    requires l.base <= k <= l.LastIndex() && es != [] && k < es[0].index <= l.LastIndex() + 1
    ensures k <= Persisted(l, es).LastIndex()
    ensures Persisted(l.Compact(k), es) == Persisted(l, es).Compact(k)
  {
    var n, d := es[0].index - l.base - 1, k - l.base;
    assert l.ents[..n][d..] == l.ents[d..][..n - d];
    assert (l.ents[..n] + es)[d..] == l.ents[..n][d..] + es;
  }

  /** What a compaction at `k` and a write of entries that reach `k` leave, in either order. */
  lemma CompactWithinWrite(l: Log, k: nat, es: seq<LogEntry>)
    requires es != [] && l.base < es[0].index <= k <= l.LastIndex()
    ensures k <= Persisted(l, es).LastIndex() <==> k <= es[0].index + |es| - 1
    ensures k <= es[0].index + |es| - 1 ==>
              Persisted(l, es).Compact(k) == Log(k, es[k - es[0].index].term, es[k - es[0].index + 1..])
    ensures Persisted(l.Compact(k), es) ==
            if k < es[0].index + |es| - 1 then Log(k, l.Term(k), es[k - es[0].index + 1..]) else l.Compact(k)
  {
    var n, d := es[0].index - l.base - 1, k - l.base;
    if k <= es[0].index + |es| - 1 {
      assert (l.ents[..n] + es)[d..] == es[d - n..];
      assert (l.ents[..n] + es)[d - 1] == es[k - es[0].index];
    }
    if k < es[0].index + |es| - 1 {
      assert l.Compact(k).ents[..0] + es[d - n..] == es[d - n..];
    }
  }

  lemma CompactAcrossWrite(l: Log, k: nat, es: seq<LogEntry>)
    requires es != [] && es[0].index <= l.base < k <= l.LastIndex() && l.base < es[0].index + |es| - 1
    ensures k <= Persisted(l, es).LastIndex() <==> k <= es[0].index + |es| - 1
    ensures k <= es[0].index + |es| - 1 ==>
              Persisted(l, es).Compact(k) == Log(k, es[k - es[0].index].term, es[k - es[0].index + 1..])
    ensures Persisted(l.Compact(k), es) ==
            if k < es[0].index + |es| - 1 then Log(k, l.Term(k), es[k - es[0].index + 1..]) else l.Compact(k)
  {
    WriteAcross(l, k, es);
    if k < es[0].index + |es| - 1 {
      PersistedAcross(l.Compact(k), es, k + 1 - es[0].index);
    }
  }

  lemma WriteAcross(l: Log, k: nat, es: seq<LogEntry>)
    requires es != [] && es[0].index <= l.base < k <= l.LastIndex() && l.base < es[0].index + |es| - 1
    ensures k <= Persisted(l, es).LastIndex() <==> k <= es[0].index + |es| - 1
    ensures k <= es[0].index + |es| - 1 ==>
              Persisted(l, es).Compact(k) == Log(k, es[k - es[0].index].term, es[k - es[0].index + 1..])
  {
    PersistedAcross(l, es, l.base + 1 - es[0].index);
    if k <= es[0].index + |es| - 1 {
      DropBoth(es, l.base + 1 - es[0].index, k + 1 - es[0].index);
    }
  }

  /** A write that begins at or below the compaction point and ends above it replaces all. */
  lemma PersistedAcross(l: Log, es: seq<LogEntry>, x: nat)
    requires es != [] && es[0].index <= l.base < es[0].index + |es| - 1 && es[0].index + x == l.base + 1
    ensures Persisted(l, es) == Log(l.base, l.baseTerm, es[x..])
  {
    assert l.ents[..0] + es[x..] == es[x..];
  }

  lemma DropBoth(es: seq<LogEntry>, x: nat, y: nat)
    requires x < y <= |es|
    ensures es[x..][y - x..] == es[y..] && es[x..][y - x - 1] == es[y - 1]
  {
  }

  lemma CompactTwice(l: Log, k: nat, m: nat)
    requires l.base <= k <= m <= l.LastIndex()
    ensures l.Compact(k).Compact(m) == l.Compact(m)
  {
  }

  lemma CompactValid(l: Log, k: nat)
    requires l.Valid() && l.base <= k <= l.LastIndex()
    ensures l.Compact(k).Valid() && l.Compact(k).LastIndex() == l.LastIndex()
    ensures forall i | k <= i :: l.Compact(k).Term(i) == l.Term(i)
    ensures forall lo, hi | k < lo <= hi :: l.Compact(k).Slice(lo, hi) == l.Slice(lo, hi)
    ensures forall lo: nat, hi: nat | lo <= k && lo <= hi :: l.Compact(k).Slice(lo, hi) == (ErrCompacted, [])
  {
    forall i | 0 <= i < |l.Compact(k).ents| ensures l.Compact(k).ents[i].index == k + 1 + i {
      assert l.Compact(k).ents[i] == l.ents[k - l.base + i];
    }
    forall lo, hi | k < lo <= hi ensures l.Compact(k).Slice(lo, hi) == l.Slice(lo, hi) {
      if hi <= l.LastIndex() + 1 {
        assert l.ents[k - l.base..][lo - k - 1..hi - k - 1] == l.ents[lo - l.base - 1..hi - l.base - 1];
      }
    }
  }

  /** A write does to a compacted log what its part above the compaction point does. */
  lemma AboveSuffices(l: Log, es: seq<LogEntry>)
    requires l.Valid() && (es != [] ==> Consecutive(es, es[0].index))
    ensures Persisted(l, Above(es, l.base)) == Persisted(l, es)
    ensures var a := Above(es, l.base); a != [] ==> Consecutive(a, a[0].index) && a[0].index > l.base
  {
    var a := Above(es, l.base);
    if es != [] && es[0].index <= l.base && a != [] {
      assert forall i | 0 <= i < |a| :: a[i] == es[l.base - es[0].index + 1 + i];
    }
  }

  /** Compaction is invisible: after any operations the log is what the same operations leave
      without compaction, each write cut to what lay above the compaction point, cut in turn
      at the compaction point, whose term is retained. */
  lemma {:induction false} CompactionInvisible(l: Log, full: Log, ops: seq<Op>)
    requires full.Valid() && full.base <= l.base <= full.LastIndex() && l == full.Compact(l.base)
    requires AllNumbered(ops)
    ensures var r, w := Ran(l, ops), Kept(full, l.base, ops);
      && r.Valid() && w.Valid() && w.base == full.base
      && full.base <= r.base <= w.LastIndex()
      && r == w.Compact(r.base)
    decreases |ops|
  {
    CompactValid(full, l.base);
    if ops != [] {
      assert ops[0] in ops && forall op | op in ops[1..] :: op in ops;
      match ops[0]
      case Write(es) =>
        AboveSuffices(l, es);
        var a := Above(es, l.base);
        PersistedNumbered(full, a);
        CompactCommutes(full, l.base, a);
        CompactionInvisible(Persisted(l, es), Persisted(full, a), ops[1..]);
      case Discard(k) =>
        if l.base < k <= l.LastIndex() {
          CompactTwice(full, l.base, k);
          CompactionInvisible(l.Compact(k), full, ops[1..]);
        } else {
          CompactionInvisible(l, full, ops[1..]);
        }
    }
  }
}
