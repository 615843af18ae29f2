# anraft: a Dafny model of the Raft core

anraft is an unfinished C++ port of the etcd Raft library. This project models its core in
two layers and proves what Raft promises about it.

**The log of one node.** `MemoryStorage` (module `Storage`) is an array whose dummy first
entry carries the compaction point. `Unstable` (`UnstableLog`) is the tail that is not stored
yet and that may shadow the end of storage. `RaftLog` (`RaftLogs`) presents both as one log.
All three are classes that change their fields in place. `LogModel` holds the single abstract
log; each query is proved to answer what that log answers, and each update to be one operation
on it.

**The cluster.** `RaftNode` gives every handler of a node as a function of its state, and the
class `Rafts.Raft` is proved to do exactly that in place. `Cluster` runs these functions: a
fixed membership and a network that only grows, so messages may be lost, repeated, delayed or
reordered. `Paths` has what all kinds of run share. `Exchanges` says what a message and its
answer bring about at both ends. `Safety` proves the theorems about every run, and `Headway`
what every run achieves. `History`, `LeaderCompleteness`, `Elections`, `Replication`,
`Acceptance` and `Preservation` carry the induction: a run is accompanied by a history of who
voted for whom, what each term's leader logged and what each member accepted. The bridge from
votes and commits to leader completeness is in `LeaderCompleteness`. A leader of the model may
send to a member from any index of its log at any pace, so the theorems hold for every way of
backing off or holding back. `Compaction` lets the nodes compact their logs as well, and
proves that a cluster that does cannot be told from one that does not.

Beside these: `Quorums` (sort and pick), `ElectionTimer`, `Bootstrap`, and `Replicators`, the
older `AnraftImpl` with its backoff, commit pick, apply loop and vote tally.

## Where the code departs from what it promises

The repository has stubs and slips. The model follows the stated intent. For the log
classes, the handler of append requests, the broadcast and the two comparisons, the module
`AsWritten` keeps the text of the code and says for exactly which calls it does what is
promised; `Replies` does so for the replies to append requests. Three election rules are kept
as parameters, so that the safety theorems hold for the text and for the comments alike, and
`Electability` says exactly which of them ever elect. The other departures are only recorded
here.

- `Reset` and the term branches of `Step` are empty (src/anraft/raft.cpp:228-248). The model
  uses `CheckTerm` (src/anraft/anraft_impl.cpp:301-319): adopt a higher term, clear the vote,
  become follower; ignore a lower term. `Reset` clears the tally and the progress.
- `BecomeCandidate` writes `StateFollower` (src/anraft/raft.cpp:46); the model has a candidate.
- `Poll` counts from an uninitialised variable (src/anraft/raft.cpp:372); the model from 0.
- `Campaign` polls through a stub (src/anraft/raft.cpp:402, 439); the model counts the
  candidate's own vote there, and leads at once when that is enough.
- A candidate wins with more than `Quorum()` grants and otherwise gives up after any reply
  (src/anraft/raft.cpp:143-155); `IsUpToDate` refuses an equal log (src/anraft/raft_log.cpp:144).
  These are `Config.win`, `Config.stepDown` and `Config.strictTie`.
- The vote reply is built but not sent (src/anraft/raft.cpp:293-296); the model sends it. A
  refusal is not answered, as in the code.
- The log term travels in `term` (src/anraft/raft.cpp:281, 490, 567) although the message has
  `logTerm` (src/proto/raft.proto:94-95); the model uses `logTerm` for the log check.
- No reply to an append request carries a term: none of the three places sets one
  (src/anraft/raft.cpp:560-564, 568-573, 578-584), and `Send` sets only the sender (443-447). The
  model puts the follower's term on it. Without it a reply counts as local and is never too
  old, and a leader of a later term may count an entry the follower has lost since: leader
  completeness, committed agreement and match soundness fail for the text.
  `Replies.UnlabelledRight` says exactly when the term makes no difference, and
  `Replies.TextRunRight` that a run without the terms is one the theorems are about exactly
  when it delivers only such replies. `Breakdown` takes nodes 1 to 5, with the stated election
  rules and the code's unlabelled replies (`FiveNodes`), step by step to where two of them have
  committed different entries at one index. It uses only steps that the code has: no leader
  backs off, and it sends entries only when it broadcasts. With the code's own election rules
  no run has a leader (`Electability.CodeNeverElects`).
- `NewRaft` and `AddNode` are empty (src/anraft/raft.cpp:24, 234); the model gives every member
  a progress from the start.
- The data of a bootstrap entry is the serialised `ConfChange` (src/anraft/node.cpp:104-112); the
  model stores only its context.
- For a sender it does not know, `GetProgress` makes a learner progress
  (src/anraft/raft.cpp:382-388), which a reply then updates, and `MaybeCommit` still runs
  (214-220). In the model, whose membership is fixed, such a reply changes nothing.
- Vote requests leave `index` and `logTerm` unset (src/anraft/raft.cpp:417-418); the model sets
  them to the candidate's last entry. `SendAppend` adds no entries (src/anraft/raft.cpp:491); the
  model adds them. The `Append` overloads that `AppendEntry` and the bootstrap loop call are
  empty (src/anraft/raft_log.cpp:112, 126); the model uses the one that is there.
- `SendAppend` sends a message without a type when it has to fall back on a snapshot
  (src/anraft/raft.cpp:484-499); the model sends nothing.
- The broadcast lambdas assign where they compare (src/anraft/raft.cpp:83, 97).
- `HandleAppendEntries` goes on after its already-committed reply (src/anraft/raft.cpp:559-565);
  the model returns.
- `LastTerm`, the `Slice` that returns a tuple and the second half of `Term` are stubs
  (src/anraft/raft_log.cpp:111, 130, 170-180); the model follows the Go text above them.
- `MaybeAppend` appends nothing and returns `committed` (src/anraft/raft_log.cpp:381-399). Its place
  for a panic comes before the test for a conflict (src/anraft/raft_log.cpp:388), so that every
  matching request that brings nothing new reaches it; the comment panics only at a conflict
  with a committed entry, and the model follows the comment.
- `TruncateAndAppend` uses log positions as array positions in its last branch
  (src/anraft/log_unstable.cpp:60-67).
- `MemoryStorage::Entries`, `Append` and `Compact` (src/anraft/storage.cpp:38, 100-117, 126); `Compact`
  returns nothing when it succeeds (src/anraft/storage.cpp:135-139), the model returns no error.
- The older loop never advances `match_index`, and asks for the current term at the last entry
  it sent rather than at the one it commits (src/anraft/anraft_impl.cpp:265-281); the model
  takes any match indexes.
- `ElectionCallback` returns unless the call failed, and `votes_` is never cleared
  (src/anraft/anraft_impl.cpp:106, 130-131). The class does what the text does.

Commented-out panics are preconditions, as the comments state them; `Safety.NoPanic` proves
that no run meets those. The place the code's text has for the panic of `MaybeAppend` is met
all the time, as `AsWritten.PanicRight` says.

## Model

| member | source | states |
|---|---|---|
| Safety.ElectionSafety | src/anraft/raft.cpp:127-158 | over a whole run, two leaders of one term are the same node, for every winning threshold of at least a quorum and both tie rules |
| Safety.LogMatching | src/anraft/raft_log.cpp:381-399 | any two logs at any two points of a run that have the same term at an index are equal at all indexes up to it |
| Safety.LeaderHasCommitted | src/anraft/raft.cpp:542-552 | leader completeness: what any node holds as committed in a term is in the log of every leader of a later term anywhere in the run, and of the same term's leader from then on |
| Safety.CommittedNeverDiffers | src/anraft/raft_log.cpp:318-327 | any two nodes at any two points of a run hold the same entries up to the smaller of their commit indexes |
| Safety.MatchIsHeld | src/anraft/raft.cpp:210-222 | when replies carry the follower's term, a leader's match index for a member lies within its log, and the member's log agrees with the leader's up to it then and as long as the member stays in the term |
| Safety.LeaderAppendsOnly | src/anraft/raft.cpp:507-521 | while a node leads a term its log is only ever extended |
| Safety.OneVotePerTerm | src/anraft/raft.cpp:279-300 | over a whole run the votes of a node in one term are for one candidate |
| Safety.GrantsAreVotes | src/anraft/raft.cpp:362-379 | every grant a candidate counts is the vote of a member for it in its term, whatever is delivered again |
| Safety.NeverBack | src/anraft/raft_log.h:101-108 | over a run term, commit and applied index never decrease, and applied <= committed <= last index |
| Safety.NoPanic | src/anraft/raft_log.cpp:318-327 | in every run every enabled action meets the preconditions, which are the panics as the comments have them |
| LeaderCompleteness.LaterLeadersHave | src/anraft/raft.cpp:281-300 | an entry of its own term that a quorum accepted is in the log of every leader elected later, by strong induction on the term |
| LeaderCompleteness.UpToDateHas | src/anraft/raft_log.cpp:134-145 | a log at least as up to date as one that holds a committed entry holds it too, when the leaders in between do |
| LeaderCompleteness.CommittedAgree | src/anraft/raft.cpp:542-552 | two committed prefixes of any two terms are equal as far as both reach |
| LeaderCompleteness.ComparisonRight | src/anraft/raft_log.cpp:134-145 | the voter takes a log exactly when its last term is later, or equal with at least as many entries; with the strict rule when it also ends differently |
| LeaderCompleteness.ComparisonOrders | src/anraft/raft_log.cpp:134-145 | of any two logs one is good enough for the other, both only when they end alike, and the comparison is transitive |
| LeaderCompleteness.LongerIsUpToDate | src/anraft/raft_log.cpp:134-145 | a log that extends another is good enough for it |
| Elections.SoleWinner | src/anraft/raft.cpp:127-158 | enough grants for a candidate leave no other winner in its term |
| Headway.LeadersCommitAll | src/anraft/raft.cpp:542-552 | at every point of every run each leader has committed every index of its own term that its progress says a quorum has |
| Headway.TermsRise | src/anraft/raft_log.cpp:381-399 | in every run the terms of a log never decrease and are at most the node's term |
| Headway.SomeoneElectable | src/anraft/raft_log.cpp:134-145 | at every point of every run some member's log is good enough for the vote of every member |
| Exchanges.BroadcastTells | src/anraft/raft.cpp:80-87 | a broadcast sends each other member that is not paused and needs nothing compacted exactly one append request, with the leader's term and commit index and the rest of its log, and nothing to anyone else |
| Exchanges.CommitsGreatest | src/anraft/raft.cpp:542-552 | the commit index grows exactly to the greatest index of the leader's term that a quorum has matched |
| Exchanges.NewsOfCommit | src/anraft/raft.cpp:210-222 | a reply changes that member's progress alone and the commit index; when the commit index grows everyone is told of it, and when not nobody is sent anything; a refusal changes nothing |
| Exchanges.ProposalSpreads | src/anraft/raft.cpp:173-200 | a proposal is put at the end of the leader's log and everyone is told |
| Exchanges.AppendAnswered | src/anraft/raft.cpp:558-586 | one answer to every append request: a refusal, with the place and the last index, exactly when it is not behind the commit index and does not match; the commit index when it is behind; else its last index, with its terms in the log and the commit index as far as it says and reaches |
| Exchanges.Replicates | src/anraft/raft.cpp:467-500 | a matching request brings a follower up to the leader's whole log and commit index, and the leader that gets the answer knows that the member has its whole log |
| Exchanges.Stands | src/anraft/raft.cpp:391-424 | a node stands for the next term with its own vote and asks each other member exactly once, with the end of its log; it leads at once when its own vote is enough |
| Exchanges.VoteGiven | src/anraft/raft.cpp:279-300 | a vote is given exactly to a good enough log by a node that has not voted for another, is answered, starts the timer again, is given again to the same candidate and to nobody else |
| Exchanges.VoteCounts | src/anraft/raft.cpp:127-158 | a voter's first reply counts; enough grants make a leader that knows nothing of the others and sends each of them exactly one append request of its term; fewer change only the tally, or end the candidacy where the rule says so |
| Exchanges.VoteRound | src/anraft/raft.cpp:279-300 | a request that reaches a member of an earlier term with no better log comes back as one grant more, or makes the candidate leader |
| Exchanges.LaterAdopted | src/anraft/raft.cpp:236-248 | a message of a later term makes a follower of that term with its timer at zero, newly drawn, no tally and no progress, and no vote or leader but the sender |
| Exchanges.EarlierIgnored | src/anraft/raft.cpp:236-248 | a message of an earlier term changes nothing and is not answered |
| Exchanges.OthersIgnored | src/anraft/raft.cpp:113-226 | a message of its term that a node's role has no use for changes nothing and is not answered |
| Preservation.ActionKeeps | src/anraft/raft.cpp:236-309 | every action of the cluster meets no panic, keeps the invariant and only adds to the history |
| Preservation.BehindKeeps | src/anraft/raft.cpp:559-565 | the already-committed reply claims no more than the sender's log holds, by leader completeness |
| Acceptance.AppendSafe | src/anraft/raft_log.cpp:381-399 | a request of the node's term leaves no gap and conflicts with nothing committed |
| Compaction.Simulated | src/anraft/storage.cpp:122-136 | every run in which nodes compact up to what they applied is matched state by state by a run without: the same nodes with their logs cut, and no message that is not there too |
| Compaction.StepCut | src/anraft/raft.cpp:236-309 | a node with a compacted log does with any message what it does with the full log, and sends a part of what it would |
| Compaction.MergeCut | src/anraft/raft_log.cpp:381-399 | conditional append and compaction at or below the previous entry commute |
| Compaction.NoPanicCompacted | src/anraft/raft_log.cpp:318-327 | with compaction too every enabled action meets the preconditions |
| Compaction.LogMatchingCompacted | src/anraft/storage.h:44-47 | logs with the same term at an index both still know, the compaction points included, agree up to there as far as both hold the entries |
| Compaction.CommittedAgreeCompacted | src/anraft/raft_log.cpp:318-327 | at any two points of a compacting run two nodes agree as far as both committed and still hold |
| Compaction.LeaderHasCommittedCompacted | src/anraft/raft.cpp:542-552 | a later leader's log reaches whatever any node committed and agrees with it as far as both hold the entries |
| Replies.UnlabelledRight | src/anraft/raft.cpp:558-586 | without its term a reply does to a node what it does with it exactly when it was made in the node's term, or in an earlier one and tells a leader neither progress nor a commit |
| Replies.TextRunRight | src/anraft/raft.cpp:236-309 | a run with unlabelled replies is a run of the model, which has their terms, exactly when every reply it delivers is such a one |
| Replies.LabelledRunRight | src/anraft/raft.cpp:236-309 | and a run of the model is a run with unlabelled replies exactly when every reply it delivers is |
| Replies.StaleReplyMisleads | src/anraft/raft.cpp:210-222 | any earlier reply beyond the follower's present log makes the match index exceed what the follower holds, while with its term it is ignored |
| Breakdown.LeaderLacksCommitted | src/anraft/raft.cpp:558-586 | with the stated election rules and the code's unlabelled replies leader completeness fails: from every bootstrap of the nodes with identifiers 1 to 5 some run of the code's own steps (no back-off, entries sent only by broadcast) comes to where a leader's log ends before what a node of an earlier term has committed |
| Breakdown.CommittedDiffers | src/anraft/raft.cpp:210-222 | and so does committed agreement: under the same rules and steps some run from every such bootstrap comes to where two nodes have committed different entries at one index |
| Electability.ElectsIffElectable | src/anraft/raft.cpp:143-155 | some run has a leader exactly when the rules are electable: one grant wins, or equal logs are good enough, the grants exist, and a candidate that gives up needs at most two |
| Electability.CodeNeverElects | src/anraft/raft.cpp:143-155 | with the rules as the code has them no run of any membership has a leader; with the stated rules every membership has such a run |
| LogModel.ConflictSpec | src/anraft/raft_log.cpp:336-359 | conflict search returns 0 exactly when all entries are present, and otherwise the first index whose term differs, which leaves no gap |
| LogModel.MergeCorrect | src/anraft/raft_log.cpp:362-399 | after a conditional append the log agrees with the sender's up to the last new index; what precedes the matched entry stays; a stale request changes nothing; the log shrinks only behind a conflict |
| LogModel.MergeUntouched | src/anraft/raft_log.cpp:362-399 | everything before the first conflict is untouched |
| LogModel.CommittedUntouched | src/anraft/raft_log.cpp:381-399 | a conditional append changes no index up to the commit index, never takes a commit back and commits at most to the request's commit and last index |
| LogModel.CommitKeepsUp | src/anraft/raft_log.cpp:381-399 | a request is taken exactly when its previous entry matches; then the log has all its terms, its last index is answered, and the commit index reaches the lesser of the request's commit and last index, unless it was further already; a refusal changes nothing |
| LogModel.CommitsNews | src/anraft/raft_log.cpp:309-316 | the answer says whether the commit index grew, which it does exactly to an index beyond it whose entry is of the term |
| LogModel.SliceSpec | src/anraft/raft_log.cpp:210-262 | a read gives each entry of the range in its place, or the error that says why not, and only inside the log there is none |
| RaftLogs.RaftLog.constructor | src/anraft/raft_log.cpp:32-52 | a log on a storage is that storage's log, committed and applied up to its compaction |
| RaftLogs.RaftLog.FirstIndex | src/anraft/raft_log.cpp:193-206 | is the first index of the one log |
| RaftLogs.RaftLog.LastIndex | src/anraft/raft_log.cpp:99-109 | is the last index of the one log, also where the tail shadows storage |
| RaftLogs.RaftLog.Term | src/anraft/raft_log.cpp:148-180 | is the term of the one log, the compaction point included, and 0 without an error outside |
| RaftLogs.RaftLog.MustCheckOutOfBounds | src/anraft/raft_log.cpp:210-224 | reports exactly the error the one log's slice has |
| RaftLogs.RaftLog.Slice | src/anraft/raft_log.cpp:229-262 | is the one log's slice, errors included |
| RaftLogs.RaftLog.AllEntries | src/anraft/raft_log.cpp:287-290 | is the whole of the one log |
| RaftLogs.RaftLog.MatchTerm | src/anraft/raft_log.cpp:329-334 | holds exactly when the one log has the term at the index |
| RaftLogs.RaftLog.FindConflict | src/anraft/raft_log.cpp:347-359 | the loop finds what the one log's conflict search finds |
| RaftLogs.RaftLog.Append | src/anraft/raft_log.cpp:114-124 | cuts the one log before the first new entry and continues it, with committed and applied unchanged |
| RaftLogs.RaftLog.NextIsDirect | src/anraft/log_unstable.cpp:48-52 | entries numbered after the last index meet the direct-append branch, also with an empty tail |
| RaftLogs.RaftLog.MaybeCommit | src/anraft/raft_log.cpp:309-316 | commits to an index exactly when it is new and its entry is of the term |
| RaftLogs.RaftLog.MaybeAppend | src/anraft/raft_log.cpp:381-399 | is the one log's conditional append: new state, last new index and whether the previous entry matched |
| RaftLogs.RaftLog.Persist | src/anraft/log_unstable.h:27-30 | storing the tail, where storage may first have to be truncated, changes nothing to be seen |
| RaftLogs.RaftLog.Compact | src/anraft/storage.cpp:122-136 | refused exactly when the entry is compacted or not stored, and then nothing changes; otherwise the one log is compacted whatever the tail shadows, stays a log exactly when the entry is in it, and valid exactly when the entry is applied |
| RaftLogs.CombinedAppend | src/anraft/log_unstable.cpp:43-68 | truncate-and-append on the tail is cut-and-continue on the one log, and the tail still meets or shadows storage |
| UnstableLog.Unstable.TruncateAndAppend | src/anraft/log_unstable.cpp:43-68 | all three branches leave the tail's entries before the first new one, then the new ones, at the lesser offset, with entry i at position i + offset |
| UnstableLog.Unstable.MaybeLastIndex | src/anraft/log_unstable.cpp:33-41 | answers exactly when the tail is not empty, with the position of its last entry |
| UnstableLog.Unstable.Slice | src/anraft/log_unstable.cpp:93-96 | one entry for each log position from lo up to hi, numbered by those positions, each the tail's entry there |
| Storage.MemoryStorage.Entries | src/anraft/storage.cpp:26-41 | is the entries from lo up to hi, or the compaction error |
| Storage.MemoryStorage.Term | src/anraft/storage.cpp:43-57 | is the term of an entry or of the compaction point, and the right one of two errors outside |
| Storage.MemoryStorage.Append | src/anraft/storage.cpp:93-119 | keeps the entries before the new ones and continues with them; passes over what is compacted and takes nothing that leaves a gap |
| Storage.MemoryStorage.Compact | src/anraft/storage.cpp:122-136 | discards up to the point and keeps its term, or reports the error and changes nothing |
| Storage.PersistedSpec | src/anraft/storage.cpp:93-119 | a write that leaves no gap and ends above the compaction point is what the log ends with, entry by entry, after what it had before; any other changes nothing |
| Storage.CompactValid | src/anraft/storage.h:44-47 | compaction keeps every term from the point on, every slice above it and the last index, and makes slices from the point or below an error |
| Storage.CompactCommutes | src/anraft/storage.cpp:93-139 | an append and a compaction commute exactly when the entries begin above the compaction point, are all compacted already, or have its term there and reach across it or to the log's end |
| Storage.CompactionInvisible | src/anraft/storage.cpp:93-139 | after any sequence of appends and compactions the log is what the same appends, each cut to what lay above the compaction point of its time, leave on a log never compacted, cut at the compaction point, whose term is retained |
| Quorums.QuorumsIntersect | src/anraft/raft.cpp:554-556 | two quorums of the same members share a member |
| Quorums.PickSpec | src/anraft/raft.cpp:542-552 | the value at rank q of the descending sort is the greatest that q of the values have reached |
| Quorums.QuorumPick | src/anraft/raft.cpp:542-556 | for every membership the pick is one of the values, a quorum has reached it and fewer than a quorum exceed it |
| Quorums.PickedByQuorum | src/anraft/raft.cpp:542-556 | the members that reached the picked match index form a quorum |
| Quorums.OlderPickSound | src/anraft/anraft_impl.cpp:269-278 | for every n >= 2 the ascending pick at n/2 - 1 is held by a quorum and never exceeds the descending one; equal for even n, the next lower rank for odd n |
| Replicators.OlderPickHeld | src/anraft/anraft_impl.cpp:269-278 | with the local slot pinned, the pick is a follower's match index, and the followers that hold it make a quorum with the local node, and it is the greatest index that half the number of members, rounded up, of the followers hold |
| Replicators.Probe | src/anraft/anraft_impl.cpp:255-262 | rejections in a row end after at most next - match - 1, at the greatest point below the first request where the terms agree; by log matching the logs are equal up to there |
| Replicators.RejectedKeeps | src/anraft/anraft_impl.cpp:179 | every rejection keeps match <= next and moves next exactly when it is above match and above 1 |
| Replicators.GenuineLowers | src/anraft/anraft_impl.cpp:207-262 | a genuine rejection lowers next by one and leaves it above match |
| Replicators.AppliedExactly | src/anraft/anraft_impl.cpp:279-291 | over any run of registrations and commit advances everything committed is applied, the calls made are exactly those owed, however commits were batched, and a callback is still registered exactly when its index is not committed yet or it came too late |
| Replicators.OwedSpec | src/anraft/anraft_impl.cpp:281-291 | the calls owed are for ascending indexes within the commit, one for each index that had a callback registered before it was committed, and no other |
| Replicators.Replicator.ApplyTo | src/anraft/anraft_impl.cpp:281-291 | the loop ends with applied equal to commit, having called what was registered above the old applied index in order and forgotten it |
| Replicators.Replicator.HandleReply | src/anraft/anraft_impl.cpp:249-297 | a later term is adopted, a rejection backs off only that follower, an acceptance ending in the current term may commit, and nothing else changes |
| Replicators.Replicator.CheckTerm | src/anraft/anraft_impl.cpp:301-319 | a higher term is adopted without a vote and as follower, and refused as a reply; any other changes nothing |
| Replicators.Replicator.ElectionCallback | src/anraft/anraft_impl.cpp:101-138 | the whole new candidacy after a reply, and that replies of calls that did not fail are passed over |
| Replicators.TallyIs | src/anraft/anraft_impl.cpp:130-137 | with replies of no later term the node keeps its term and vote, leads exactly when it did or its earlier tally and the grants of its term are enough, and until then its tally is both together |
| Replicators.HonestIffCleared | src/anraft/anraft_impl.cpp:130-137 | for two nodes or more, every win is backed by a majority of grants of its term, whatever replies come, exactly when no vote was left from before |
| Replicators.NextCandidacy | src/anraft/anraft_impl.cpp:101-138 | anyone but a leader stands for the next term with a vote for itself, and a win there is honest exactly when no vote was left over |
| Replicators.TermIsLatest | src/anraft/anraft_impl.cpp:111-124 | after any replies the term is the greatest of the node's and theirs |
| Replicators.LaterReply | src/anraft/anraft_impl.cpp:111-137 | a reply of a later term makes a follower of that term without a vote; the tally stays, and a grant in that very reply is added to it and may complete it |
| Replicators.LaterTerm | src/anraft/anraft_impl.cpp:111-137 | when any replies end in a later term the node has no vote there, and leads exactly when the grants of that term complete the tally it had when the term began, which nothing cleared; otherwise it is a follower whose tally is both |
| Rafts.Raft.constructor | src/anraft/node.cpp:98-101 | a follower of term 1 with nothing sent and a progress for every member |
| Rafts.Raft.Poll | src/anraft/raft.cpp:362-379 | a voter is recorded once, and the number returned is the number of grants |
| Rafts.Raft.Campaign | src/anraft/raft.cpp:391-424 | stands for the next term and asks every other member, or leads at once |
| Rafts.Raft.SendAppend | src/anraft/raft.cpp:467-500 | queues the entries from the member's next index with the term before them, unless it is paused |
| Rafts.Raft.MaybeCommit | src/anraft/raft.cpp:542-552 | commits to the quorum's match index when its entry is of this term |
| Rafts.Raft.AppendEntry | src/anraft/raft.cpp:507-521 | numbers the proposal after the last entry, appends it, records it for itself and may commit |
| Rafts.Raft.HandleAppendEntries | src/anraft/raft.cpp:558-586 | does and replies what the handler of the cluster does |
| Rafts.Raft.Step | src/anraft/raft.cpp:236-309 | the node after any message, and the messages it queues, are those of the cluster's step |
| Rafts.Raft.TickElection | src/anraft/raft.cpp:320-330 | a tick is the cluster's tick |
| Rafts.Raft.MaybeUpdate | src/anraft/progress.cpp:33-47 | updates the follower's progress in place, that one only, and reports whether its match grew |
| RaftNode.UpdatedIsGreatest | src/anraft/progress.cpp:33-47 | after any replies match is the greatest index known or reported, next is beyond all of them, and the pause lasts until the first news |
| RaftNode.UpdatedInAnyOrder | src/anraft/progress.cpp:33-47 | the same replies in any order and any number of times give the same progress |
| RaftNode.SentUnlessPaused | src/anraft/progress.cpp:21-30 | a member is sent something exactly when it is replicating, or probing and not paused, and needs nothing compacted; it is the rest of the leader's log after the previous entry |
| ElectionTimer.CampaignsInTime | src/anraft/raft.cpp:320-330 | a non-leader that hears nothing starts its election at its timeout and not before, no sooner than T and no later than 2T - 1 ticks, whatever the random draws |
| ElectionTimer.CampaignsWhenQuiet | src/anraft/raft.cpp:113-126 | over any ticks and messages of no later term a follower stands for the next term exactly when it has ticked its whole timeout since the last append request of its term or vote it gave, and until then its leader is the sender of the last such request |
| Bootstrap.Start | src/anraft/node.cpp:97-136 | a started node is what every run of the cluster begins with |
| Bootstrap.AppendPeers | src/anraft/node.cpp:103-117 | the bootstrap loop leaves one numbered entry of term 1 for each peer |
| Safety.StartInvariant | src/anraft/node.cpp:103-136 | the bootstrapped cluster satisfies the invariant of the safety proof |
| AsWritten.EntriesRight | src/anraft/storage.cpp:26-41 | the slice as written is the promised one exactly for the errors, for an empty range within the array, and for lo at twice the compaction point |
| AsWritten.FirstReadIsDummy | src/anraft/storage.cpp:38 | on an array never compacted, reading the first entry gives the dummy |
| AsWritten.AppendRight | src/anraft/storage.cpp:93-119 | the append as written is truncate-then-persist exactly when there is nothing to take, or the new entries repeat the old ones they meet and reach as far, save a lone first entry |
| AsWritten.LostAppends | src/anraft/storage.cpp:100-117 | a lone first entry is dropped, and a conflicting old entry stays in front of the one that should replace it |
| AsWritten.CompactRight | src/anraft/storage.cpp:122-136 | compaction as written is right exactly outside the two indexes after the last one |
| AsWritten.TruncateRight | src/anraft/log_unstable.cpp:43-68 | truncate-and-append as written is right exactly outside its last branch |
| AsWritten.MaybeAppendRight | src/anraft/raft_log.cpp:381-399 | the conditional append as written is right exactly when it refuses, or when all entries are present and the commit index is the last new index |
| AsWritten.PanicIsPre | src/anraft/raft_log.cpp:362-380 | the precondition of conditional append is that the panic of its comment is not met |
| AsWritten.PanicRight | src/anraft/raft_log.cpp:385-390 | under it the code's place for the panic is reached exactly by a matching request all of whose entries are present |
| AsWritten.PanicLeavesRefusal | src/anraft/raft_log.cpp:381-399 | with the panic there, what the code computes is right exactly when it refuses |
| AsWritten.AppendEntriesRight | src/anraft/raft.cpp:558-586 | going on after the already-committed reply neither panics nor does or answers anything else exactly when the request is not behind the commit index |
| AsWritten.BroadcastRight | src/anraft/raft.cpp:80-87 | the broadcast as written reaches nobody when the identifier is not 0, which is right exactly for a node that is alone |
| AsWritten.BroadcastIsToTargets | src/anraft/raft.cpp:80-87 | the intended broadcast is one append request for each other member in turn |
| AsWritten.TieRight | src/anraft/raft_log.cpp:134-145 | the comparison of the code and the one of its comment differ exactly for a log that ends in the same entry |
| AsWritten.OlderRuleRight | src/anraft/anraft_impl.cpp:265-280 | the older commit rule agrees with the current-term rule exactly when the picked entry is of the term or already committed |
| AsWritten.OlderRuleLoses | src/anraft/anraft_impl.cpp:265-280 | from given states of five members, which no run of the older loop reaches because it never advances a match index: the older rule commits an entry of an earlier term that a rival, good enough for a quorum, does not have |

## Left out

- Snapshots, the write-ahead log, crash and restart: absent or only named in the repository; term, vote and log persist.
- Pre-vote, leader transfer, read-only requests, learners and membership change: unfinished; the membership is fixed.
- Heartbeats, `CheckQuorumActive` and `TickHeatbeat`: unfinished, and no part of the safety argument.
- Storing the tail is no action of the cluster: `RaftLogs.RaftLog.Persist` shows that it changes nothing to be seen.
- Safety.MatchIsHeld: assumes append replies labelled with the follower's term, which the code leaves out; `Replies` gives the exact condition.
- Rafts.Raft.HandleAppendEntries: queues replies with the node's term, for the same reason.
- Safety.NoPanic: is about the panics as the comments state them; the code's place in `MaybeAppend` is reached, as `AsWritten.PanicRight` says.
- Size limits (`max_size`, the 1 MB cut), in-flight windows and flow control: marked as still to do in the repository.
- Overflow of 64-bit terms and indexes: terms and indexes are natural numbers.
- The error codes that `Step` returns: a refused proposal changes nothing.
- Replies from outside the membership: they change nothing in the model, while the code makes a learner progress and may commit.
- What the leader does with a rejection: nothing, as in the code; in the cluster of the safety theorems, which hold for every way of backing off, it may send from any index afterwards; backing off itself is proved for the older loop.
- The first half of the older loop, which reads the request's entries from RocksDB: its entries are a parameter of `HandleReply`.
- What a callback does when it is called, and calling the replication loop again from inside it.
- `Replicators.Replicator.HandleReply`: does not raise a follower's match index on success, because nothing in the code does.
- RocksDB, protobuf, HTTP, brpc, bthread queues, mutexes, singletons and logging.
- That a leader is elected or an entry committed within some time: only that some run elects is proved.
