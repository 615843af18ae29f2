/** The tail of the log that is not yet in storage.  It may begin below storage's last
    index, and then shadows what is stored there. */
module UnstableLog {
  import opened LogModel

  /** The entries of a tail that begins at `offset` which lie before position `after`. */
  function Before(entries: seq<LogEntry>, offset: nat, after: nat): seq<LogEntry>
    requires after <= offset + |entries|
  {
    if after <= offset then [] else entries[..after - offset]
  }

  class Unstable {
    var entries: seq<LogEntry>
    var offset: nat

    /** Entry `i` has log position `offset + i`. */
    ghost predicate Valid()
      reads this
    {
      Consecutive(entries, offset)
    }

    constructor (offset: nat)
      ensures Valid() && entries == [] && this.offset == offset
    {
      this.entries, this.offset := [], offset;
    }

    method MaybeLastIndex() returns (index: nat, ok: bool)
      requires Valid()
      ensures ok <==> entries != []
      ensures ok ==> index + 1 == offset + |entries|
    {
      if entries != [] {
        return offset + |entries| - 1, true;
      }
      return 0, false;
    }

    /** The term at a position the tail holds. */
    method MaybeTerm(i: nat) returns (term: nat, ok: bool)
      requires Valid()
      ensures ok <==> offset <= i < offset + |entries|
      ensures ok ==> term == entries[i - offset].term
    {
      if i < offset {
        return 0, false;
      }
      var last, has := MaybeLastIndex();
      if !has || i > last {
        return 0, false;
      }
      return entries[i - offset].term, true;
    }

    /** Whichever way it goes: what the tail held before the first of `es`, then `es`, and
        the tail begins no later than `es`. */
    method TruncateAndAppend(es: seq<LogEntry>)
      requires Valid()
      requires es != [] ==> es[0].index <= offset + |entries| && Consecutive(es, es[0].index)
      modifies this
      ensures Valid()
      ensures es == [] ==> entries == old(entries) && offset == old(offset)
      ensures es != [] ==>
                var after := es[0].index;
                && offset == Min(old(offset), after)
                && entries == Before(old(entries), old(offset), after) + es
    {
      if es == [] {
        return;
      }
      var after := es[0].index;
      if after == offset + |entries| {
        // directly append
        entries := entries + es;
      } else if after <= offset {
        // replace the entries
        offset := after;
        entries := es;
      } else {
        // truncate to after, then append
        entries := entries[..after - offset] + es;
      }
    }

    /** The entries at log positions `lo` up to but not including `hi`. */
    method Slice(lo: nat, hi: nat) returns (es: seq<LogEntry>)
      requires Valid() && offset <= lo <= hi <= offset + |entries|
      ensures |es| == hi - lo && Consecutive(es, lo)
      ensures forall i {:trigger entries[i]} | lo <= offset + i < hi :: es[offset + i - lo] == entries[i]
    {
      return entries[lo - offset..hi - offset];
    }
  }
}
