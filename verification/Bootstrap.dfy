/** Starting a node: the bootstrap entries, committed from the start, and a follower of
    term 1 on top of them. */
module Bootstrap {
  import opened LogModel
  import opened RaftNode
  import opened Cluster
  import opened Storage
  import opened RaftLogs
  import opened Rafts

  /** Started on an empty storage, a node is what a cluster begins with. */
  method Start(cfg: Config, id: nat, peers: seq<Peer>, rnd: nat) returns (raft: Raft)
    requires cfg.Valid() && id in cfg.ids && RandomFor(cfg, rnd)
    ensures fresh(raft) && raft.cfg == cfg && raft.Valid()
    ensures raft.Abs() == Started(cfg, id, peers, rnd) && raft.msgs == []
  {
    var log := BootLog(peers);
    raft := new Raft(cfg, id, log, rnd);
  }

  /** The bootstrap entries, committed but not yet applied. */
  method BootLog(peers: seq<Peer>) returns (log: RaftLog)
    ensures log.Valid() && log.State() == LogState(Log(0, 0, BootEntries(peers)), |peers|, 0)
  {
    var storage := new MemoryStorage();
    log := new RaftLog(storage);
    AppendPeers(log, peers);
    var last := log.LastIndex();
    log.SetCommitted(last);
  }

  lemma OneMore(s: LogState, e: LogEntry)
    requires s.Valid() && s.log.base == 0 && s.log.baseTerm == 0 && s.AppendPre([e]) && e.index == s.log.LastIndex() + 1
    ensures s.Append([e]) == LogState(Log(0, 0, s.log.ents + [e]), s.committed, s.applied)
  {
  }

  method AppendPeers(log: RaftLog, peers: seq<Peer>)
    requires log.Valid() && log.State() == LogState(Log(0, 0, []), 0, 0)
    modifies log.unstable
    ensures log.Valid() && log.State() == LogState(Log(0, 0, BootEntries(peers)), 0, 0)
  {
    for k := 0 to |peers|
      invariant log.Valid() && log.State() == LogState(Log(0, 0, BootEntries(peers)[..k]), 0, 0)
    {
      var last := log.LastIndex();
      var entry := LogEntry(1, last + 1, peers[k].context, EntryConfChange);
      assert BootEntries(peers)[..k + 1] == BootEntries(peers)[..k] + [entry];
      ghost var s := log.State();
      last := log.Append([entry]);
      OneMore(s, entry);
    }
    assert BootEntries(peers)[..|peers|] == BootEntries(peers);
  }
}
