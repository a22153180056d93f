# A verified model of a Raft replica, its storage back ends and its heap

This project models, in Dafny 4.11, the consensus core of the repository: the Raft replica of
`src/raft_server.c` with its helpers in `src/include/raft.h`, the durable state its two storage back ends keep
(`src/raft_server_backend_posix.c`, `src/raft_server_backend_rocksdb.c`), and two self-contained pieces of vendored
code, the dlmalloc heap (`src/contrib/dlmalloc.c`) and the CRC-24Q checksum (`src/contrib/crc24q.c`).
`dafny verify dfyconfig.toml` checks all of it.

## What is proved

**Consensus.** `Protocol` gives the state of one server and every message handler as a total function to the state and
messages afterwards, or to the state in which an assertion of the code stopped it. `Replica` is the same replica as the
code keeps it, a class whose methods update fields and per-peer tables in place, each proved equal to its function.
`Effects` says of every handler exactly when it does what, in terms of logs, majorities and terms and not of its steps.
`Cluster` makes N servers and a bag of messages a transition system: messages may be lost, repeated, reordered and
delayed without bound; a crash or a failed assertion drops the unsynced tail and all volatile state. Three rules, which
the code does not keep, are parameters of a run (below). Over every run that keeps them, `Safety` proves Leader
Completeness, State Machine Safety (for what was committed or applied) and that a counted index is durable at its peer.
The invariant is stated with history variables that exist only in the proofs (`History`); `Stability`, `LocalSteps`,
`Elections`, `Appending` and `Leading` show that each handler keeps it. What needs fewer rules is proved with fewer: in
`Votes`, one vote per server and term needs none, and one leader per term, Log Matching (`Logs`) and the assertion in the
commit calculation (`Coverage`) need only the one on replies. `Persistence` shows that terms never fall and votes are
final in every run, and what pre-voting leaves alone. `Assertions` states exactly which assertions can stop a replica and
when, and what moves a follower's commit index. `Convergence` proves that a stable leader brings a follower to its own
log, with a bound.

**Progress.** `Polls` proves that a member whose log and term are not behind those of a majority can win the next term, in
every state of every run. `Progress` proves that under the three rules it can then write, and have its log and the write
held, committed and applied by the whole majority, provided that the majority writes synchronously and agrees with it on
entry 0. For asynchronous writes, `Progress.ReportCounts` proves what a device sync and its report bring.

**How far safety goes.** Each rule is something the code does not do, and `SafetyLimits` proves that each is needed:
all runs are safe if and only if all three are kept, and the same for Leader Completeness; given the first, what leaders
count is durable, and assertions stop a replica in the two known ways only, if and only if the other two are kept; one
leader per term and Log Matching hold if and only if the last one is, whatever the others. The runs that show it are
built step by step (`Runs`, `Scenarios`).

1. *The strict comparison.* The intent stated at `src/raft_server.c:3616-3617` is that commit advances only past the
   leader's own change marker, as at line 2178; the comparison at line 3619 is `>=` against the index before the marker.
   With it, the run of Figure 8 in section 5.4.2 of the Raft paper (Ongaro and Ousterhout, extended version) commits an
   entry that a later leader replaces (`Figure8`).
2. *Current terms.* The cached term of a peer's next entry (`rfi_current_idx_term`) is refreshed only while the leader
   has such an entry (lines 2473-2525) but is sent in every request (line 2599). `StaleCache` builds a run in which
   repeated replies carry the next index past the cached entry; a delayed heartbeat then makes a follower cut off a
   committed entry, and another one is committed in its place. The rule is that a request to a peer that has everything
   carries the leader's own term (`Cluster.FreshTerm`).
3. *Replies in tenure.* Vote and append replies carry no request term that the code checks before use (lines 2381-2391,
   3754). `LateVote` builds a run in which a vote for an earlier candidacy is counted once more and two leaders of one
   term commit different entries. The rule is that a reply is processed only in the candidacy or leadership that issued
   the request (`Cluster.InTenure`); the field `reqTerm` exists for it alone.

**Storage.** `HeaderSlots` proves the two-slot header write atomic under torn writes, so that terms, which ascend in every
run, are never lost; `SyncThread` the publication of a captured header against concurrent appends; `Coalescing` and
`Applying` that client writes are cut out of entries as they were put in and applied exactly once across crashes;
`KeyedLog` that zero-padded keys make an ordered store an indexed log, and exactly up to which index.

**Heap.** `TreeIndex` and `Trie` treat the bitwise tries as data; `TreeMemory`, `TreeLinks`, `TreeUnlink` and
`TreeRemoval` connect them to chunk headers linked by addresses, so that the loops and pointer updates of insertion,
removal and best-fit search in `TreeBins` are proved on memory. `SmallBins` does the same for the circular lists.
`HeapTags` covers boundary tags, and `Heap` is the allocator over all of these: after any sequence of calls of `Malloc` and
`Free` the chunks tile the segment, no two free chunks are adjacent, heads and feet agree, and each free chunk below the
top chunk is the designated victim or in one bin, once; the segment keeps its full length, and no two live allocations
share a byte. `Malloc` fails exactly when nothing fits, and serves large requests best-fit.

**Checksum.** `Crc24q` proves the table-driven hash equal to polynomial division, for every byte string, with the
generator of section 6.1 of RFC 4880 and seed 0. Of the error classes of its documentation (`src/contrib/crc24q.c:12-19`)
it proves single errors, odd errors and bursts of up to 24 bits detected at any message length. Double errors are promised
detected in general; they are so exactly in code words of at most 2^23 - 1 bits: `CrcRegister` computes powers of x by
repeated squaring, and `CrcPeriod` proves that their period is 2^23 - 1.

## Hypotheses and rules of the model

- The three rules above are hypotheses of the results that name them; requests are not restricted in any run, and
  `Persistence` and the votes part of `Votes` use none.
- A failed assertion is a crash. A crash keeps at least the synced log, and the header or, if it tears a header write, a
  higher term; the last-applied record may fall back. Divergence at index 0 ends in the assertion at line 3089, since the
  cut at line 2959 is skipped for previous index -1. The commit index is not durable, so the assertion at line 4964 can
  stop an apply after a restart; `Assertions.OnlyTheseStop` covers both and excludes all others.
- No prune falls between the capture of a header by the sync thread and its publication; `SyncThread.CutDuringSync` gives
  the exact condition under which one would be harmless.
- A step-down without a known other peer changes nothing (lines 2106-2110), as in the code.
- No decision reads the persisted voted-for field; the rising term alone prevents a second vote.
- Header writes never lower the term: a hypothesis of `HeaderSlots.TermsSurvive`, proved of every run by
  `HeaderSlots.WritesAscend`.
- Bitmaps are sets of bit numbers. Address 0 is null; bin headers of small bins have addresses below 32.
- Words of the checksum are sequences of bits, most significant first.

## Model

| member | source | states |
|---|---|---|
| Majority.MajorityEntryIndex | src/include/raft.h:1012-1029 | sorting the values in place and reading the majority slot yields the specified index; the array ends ascending with every value counted as before |
| Majority.MajorityIndexCorrect | src/include/raft.h:993-1029 | a value is what the sorted slot holds if and only if it is the greatest value that n/2 + 1 peers have reached |
| Majority.MajorityIndexUnique | src/include/raft.h:993-1029 | there is only one such value |
| Majority.MajoritySlot | src/include/raft.h:993-1001 | exactly n/2 + 1 slots lie from the majority slot up |
| Majority.SortedCorrect | src/include/raft.h:1003-1026 | the specification sort yields an ascending sequence in which each value is reached as often as before |
| Majority.MajoritiesIntersect | src/include/raft.h:993-1001 | any two sets of n/2 + 1 peers share a member |
| Safety.NextKeepsInv | src/raft_server.c:2716-3895 | under the three rules, every step of every replica, crashes and restarts included, keeps the invariant of logs, terms, votes, tables and messages in flight, and history only grows |
| Safety.HistoryAt | src/raft_server.c:2716-3895 | every state of every run under the three rules satisfies the invariant |
| Safety.RunHistories | src/raft_server.c:2716-3895 | any two states of such a run satisfy it with histories of which the later extends the earlier |
| Safety.ChosenSurvives | src/raft_server.c:2716-2727 | what a majority stored durably for the leader of a term is in the starting log of every later leader |
| Safety.LeaderCompleteness | src/raft_server.c:3597-3622 | under the three rules, a leader holds every entry that any server committed or applied, then or earlier, in a term not above its own |
| Safety.StateMachineSafety | src/raft_server.c:3597-3622 | under the three rules, no two servers, at any times of a run, commit or apply different entries at an index, or different entries before it |
| Safety.CountedMeansDurable | src/raft_server.c:3542-3569 | under the three rules, when a leader counts min(ackd, synced) for a peer, the peer is not behind the leader's term and, while in it, holds on durable storage the leader's log through that index |
| SafetyLimits.SafeExactlyWhenSound | src/raft_server.c:3616-3622 | all runs are safe if and only if the commit comparison is strict, requests to peers that have everything carry the leader's own term, and no late reply is counted; without each rule there is a run in which two servers commit different entries at one index |
| SafetyLimits.CompleteExactlyWhenSound | src/raft_server.c:3597-3622 | Leader Completeness holds in all runs if and only if the same three rules are kept |
| SafetyLimits.CountedExactlyWhenSound | src/raft_server.c:3542-3569 | with the strict comparison, what leaders count is durable at their peers in all runs if and only if the other two rules are kept |
| SafetyLimits.StopsExactlyWhenSound | src/raft_server.c:2837-3112 | with the strict comparison, the two known ways for an assertion to stop a replica are the only ones in all runs if and only if the other two rules are kept |
| SafetyLimits.MatchesExactlyWhenTenured | src/raft_server.c:2366-2433 | one leader per term with a log that only grows, and Log Matching, each hold in all runs if and only if no late reply is counted, whatever the comparison and the cached terms |
| Votes.StepBallots | src/raft_server.c:2716-2834 | every step, whatever replies are counted, keeps the votes in order: for terms their voters have reached, one per voter and term, a candidate's own included |
| Votes.OneVotePerTerm | src/raft_server.c:2716-2834 | in every run under any rules, two granted votes of one server in answer to requests of one term name the same candidate, across crashes |
| Votes.StepVotes | src/raft_server.c:2366-2433 | where replies are counted in their candidacy only, every step keeps each candidate's counted votes real and each leader elected by a majority |
| Votes.OneLeaderPerTerm | src/raft_server.c:1850-1866 | over a whole run in which replies are counted in their candidacy only, two leaders of one term are the same server |
| Logs.StepLogs | src/raft_server.c:2837-3207 | every step keeps all logs rooted in what the leaders of their terms wrote, for either comparison and any cached terms |
| Logs.ElectionSafety | src/raft_server.c:1850-1866 | over such a run there is one leader per term, and the later state of its log extends the earlier |
| Logs.LogMatching | src/raft_server.c:2837-3112 | if two logs, of any servers at any times of such a run, have the same term at an index they are equal up to it |
| Coverage.MajorityIndexMonotone | src/include/raft.h:1012-1029 | raising peers' indices never lowers the majority index |
| Coverage.BackedAt | src/raft_server.c:3608-3612 | for either comparison and any cached terms, in every state a leader's commit index past its starting log is covered by its table's majority index, and every commit index is within the synced log |
| Coverage.CalculationHolds | src/raft_server.c:3608-3612 | the assertion in the commit calculation never fails in any such run |
| Effects.VoteExactly | src/raft_server.c:2716-2834 | whatever its role and leader, a replica grants a vote if and only if the term is later and the candidate's log is, in term and in index, not behind its whole log, unsynced tail included; granting means following the candidate in its term with the vote on record, refusing changes nothing but syncs the log and names the known leader |
| Effects.PreVoteExactly | src/raft_server.c:2729-2758 | a pre-vote needs the same, and for the very next term also a leader in doubt; it changes nothing but syncs the log |
| Effects.VoteCounts | src/raft_server.c:2366-2418 | a vote makes a leader if and only if it completes a majority; the leader then has one marker more, expects every peer to have the rest, counts nothing yet, and has its commit gate at its old last index |
| Effects.RefusalCounts | src/raft_server.c:2421-2427 | a refusal ends a candidacy if and only if it is from a later term and names another replica to follow |
| Effects.PreVoteCounts | src/raft_server.c:2399-2410 | a pre-vote makes a candidate of the next term, voting for itself and asking for votes, if and only if it completes a majority |
| Effects.CommitExactly | src/raft_server.c:3597-3648 | for any number of members and either comparison, the commit index moves if and only if the greatest index a majority has reached is past the gate, beyond it and within the synced log, and then goes there; the assertion fails if and only if that index is behind the commit index but not behind the starting log |
| Effects.NewsExactly | src/raft_server.c:3658-3714 | news of a synced index is taken in if and only if its term ends the leader's own synced log; the slot then has acknowledged all before its next entry and synced the greater of what was known and reported, and a change of it moves the commit index as above |
| Effects.SyncIdxExactly | src/raft_server.c:3868-3895 | a sync-index update is taken in, in that way, if and only if it reaches a leader of its term whose synced log ends in that term; else nothing changes |
| Effects.StaleReplyExactly | src/raft_server.c:3834-3866 | a stale reply of a later term makes the leader follow its sender; other replies that do not fit change nothing |
| Effects.RejectionExactly | src/raft_server.c:3753-3815 | a rejection lowers the next index, to 0 for an empty log, to what was disclosed, else by one |
| Effects.AcceptanceExactly | src/raft_server.c:3716-3832 | an acceptance moves the next index past what was sent and takes in the news |
| Effects.AppendReqExactly | src/raft_server.c:3405-3514 | after a current request: term, leader, log, synced length and answer; the commit index is the greater of its own and the leader's if the log fitted and that is synced, of its own and the synced leader's if the log was already there, and the old one after a rejection |
| Effects.AppendReqStops | src/raft_server.c:2927-3207 | exactly which requests stop a follower, from any state |
| Effects.OldRequestExactly | src/raft_server.c:3127-3160 | a request of an older term is refused without a trace |
| Effects.SendExactly | src/raft_server.c:2445-2610 | what a request carries, for an entry and for a heartbeat, and what is cached |
| Effects.WriteExactly | src/raft_server.c:2297-2324 | a write appends one entry of the leader's term, and stops replicas that do not lead |
| Effects.ReportExactly | src/raft_server.c:5186-5212 | who reports its synced index, to whom, and what it says |
| Effects.ApplyExactly | src/raft_server.c:4960-4992 | one entry at a time up to the commit index; a record ahead of it stops the replica |
| Effects.RestartExactly | src/raft_server.c:1409-1435 | after a crash the header, the log found and the record found are there, all durable; office, leader and commit index are forgotten |
| Polls.Elect | src/raft_server.c:1989-2433 | in every run under any rules: a member whose log and term are not behind those of a majority, of any roles and following any leaders, can win the next term with their votes, logs and commit indices untouched |
| Progress.Confirm | src/raft_server.c:3465-3502 | a follower with the leader's log gets the leader's commit index, and the leader comes to count the whole log for it, in one exchange |
| Progress.Bring | src/raft_server.c:2927-3815 | a follower that starts like the leader is brought to its log and to its commit index |
| Progress.Decide | src/raft_server.c:3597-3648 | with a majority confirmed, the commit calculation commits the whole log |
| Progress.ReportCounts | src/raft_server.c:3658-3895 | without synchronous writes: the follower's device sync up to k and its report bring the leader to count min(next, k) - 1 for it, and to calculate its commit index |
| Progress.WriteGetsThrough | src/raft_server.c:1989-5183 | from every state of every run under the three rules, with synchronous writes: an electable member can win the next term and write, and then its whole log with the write is held, committed and applied by every member of the majority |
| Elections.VoteReqStep | src/raft_server.c:2760-2834 | handling a vote request, with the sync before the decision and the persisted grant, keeps the invariant |
| Elections.CandidacyStep | src/raft_server.c:1935-2045 | standing for election persists term and own vote and keeps the invariant |
| Elections.ElectStep | src/raft_server.c:2196-2250 | a candidate that counted a majority becomes the term's only leader |
| Elections.LeaderAppendStep | src/raft_server.c:2269-2335 | a leader's append of a marker or a client entry extends its reign and keeps the invariant |
| Elections.VoteReplyStep | src/raft_server.c:2366-2433 | counting a vote reply, winning, or stepping down keeps the invariant |
| Appending.AlreadyStoredAgrees | src/raft_server.c:2837-2925 | the "already stored" path: a follower whose log reaches past the request and holds the requested term there has a prefix of the leader's log |
| Appending.MatchingAgrees | src/raft_server.c:3067-3112 | a log that passes the tail check is the leader's, cut at the request's index |
| Appending.PruneStep | src/raft_server.c:2927-2978 | pruning a conflicting tail, heartbeats included, keeps the invariant: nothing chosen and nothing acknowledged is lost |
| Appending.FollowerWriteStep | src/raft_server.c:3171-3207 | writing the sent entry keeps the invariant, with the request still to be answered |
| Appending.FollowerCommitStep | src/raft_server.c:3273-3292 | advancing a follower's commit index to the leader's, or to the clamp of the already-stored path, keeps the committed prefix a chosen one |
| Appending.AppendReqStep | src/raft_server.c:3405-3514 | handling an append request on every path, stale, refused, matching, stored or pruned, keeps the invariant |
| Leading.SendStep | src/raft_server.c:2444-2610 | refreshing a peer's cached terms and sending an entry or heartbeat keeps the invariant, when what goes to a peer that has everything carries the leader's own term |
| Leading.ReachedAreAckers | src/raft_server.c:3542-3594 | the peers whose counted index reaches an index all hold the leader's log through it |
| Leading.MajorityIndexIsChosen | src/raft_server.c:3542-3622 | a majority index past the leader's starting log is chosen in its term |
| Leading.TryCommitStep | src/raft_server.c:3597-3648 | under the strict rule, advancing the leader's commit index keeps the invariant |
| Leading.AppendReplyStep | src/raft_server.c:3716-3840 | handling an append reply, back-off or acceptance, keeps the invariant |
| Leading.SyncIdxStep | src/raft_server.c:3868-3895 | handling a sync-index update keeps the invariant |
| LocalSteps.LogMatching | src/raft_server.c:2837-3013 | two logs rooted in the history that agree on a term at an index agree up to it |
| LocalSteps.RestartStep | src/raft_server.c:1409-1435 | a restart that keeps at least the synced log, the header or a torn higher one, and an earlier last-applied record keeps the invariant |
| LocalSteps.SyncStep | src/raft_server.c:1253-1317 | publishing a longer synced prefix keeps the invariant |
| LocalSteps.ApplyStep | src/raft_server.c:4960-4992 | applying the next committed entry keeps the invariant |
| Persistence.VoteIsFinal | src/raft_server.c:1228-1246 | over any run, under any rules and across crashes, a server's term never falls and its vote within a term never changes |
| Persistence.VotesAreRecorded | src/raft_server.c:2760-2834 | every granted vote in flight is for a term its voter has left or is the vote in its persisted header |
| Persistence.PreVoteKeepsHeader | src/raft_server.c:1815-1830 | timeouts, pre-vote requests and replies leave persisted term and vote alone, except that the pre-vote completing a majority makes the replica stand for the next term with its own vote |
| Persistence.ProceedKeeps | src/raft_server.c:3405-3514 | an append request changes only log, synced index and commit index; commit never falls and moves only within the synced log and the leader's commit index |
| Persistence.SteadyAt | src/raft_server.c:860-920 | with synchronous writes there is never an unsynced tail in any state of any run |
| Assertions.SettledIsNotPruned | src/raft_server.c:2927-2978 | under the three rules, no append request ever asks a follower to prune an entry it committed or applied |
| Assertions.AppendReqPanics | src/raft_server.c:2927-3112 | an append request stops a follower on an assertion if and only if it reaches it with previous index -1 and another term for entry 0 |
| Assertions.OnlyTheseStop | src/raft_server.c:2837-3895 | in every run under the three rules, an action stops a replica on an assertion if and only if it applies with a commit index behind the last-applied record, or receives a request that diverges at entry 0 |
| Assertions.FollowerCommitAdvances | src/raft_server.c:3273-3292 | for either comparison and any cached terms, answering an append request never lowers the commit index; when it rises it stays inside the synced log and the request's commit index |
| Assertions.FollowerCommitIsLeaders | src/raft_server.c:3465-3502 | what it then covers is a prefix of the sending leader's log, whenever from then on that leader is looked at |
| Figure8.OldIsReplaced | src/raft_server.c:3616-3622 | under the `>=` comparison there is a run of three servers in which a committed entry of an earlier term is replaced by a later leader (Figure 8, section 5.4.2 of the Raft paper) |
| StaleCache.CacheGoesStale | src/raft_server.c:2469-2525 | there is a run of three servers, all of whose sends carry current terms, that ends with the term of entry 0 cached for a peer that has everything: a repeated rejection, one heartbeat and two repeated acceptances carry the next index past the cached entry |
| StaleCache.CommittedIsCut | src/raft_server.c:2595-2599 | the run goes on: the stale heartbeat is delayed, the next write is stored and committed, the heartbeat arrives and the follower cuts off the committed entry, which the leader still counts |
| StaleCache.CommittedIsLost | src/raft_server.c:2595-2599 | the run goes on: the follower wins the next term and commits its own marker at the index of the lost entry |
| StaleCache.CommittedIsRefused | src/raft_server.c:2927-2978 | when the follower knows the entry to be committed, the stale heartbeat stops it on an assertion |
| StaleCache.HeartbeatPrunesExactlyWhenStale | src/raft_server.c:2837-2978 | a heartbeat matching the follower up to its previous index leaves the log alone if and only if it carries no term or the next entry's own |
| LateVote.TwoLeaders | src/raft_server.c:2378-2391 | a vote of term 1 that arrives once more in the candidacy for term 2 makes a second leader of term 2 |
| LateVote.LogsClash | src/raft_server.c:2378-2391 | then one term has different entries at one index |
| LateVote.BothCommit | src/raft_server.c:2366-2433 | then both leaders commit, different entries at one index, with the help of the same follower |
| LateVote.LeadersMeet | src/raft_server.c:3067-3112 | then a request of one leader stops the other on an assertion |
| Convergence.FollowerResponds | src/raft_server.c:3067-3112 | an in-order request is accepted, the log then agreeing through what was sent, or rejected, the log then cut and its length disclosed |
| Convergence.LeaderHears | src/raft_server.c:3753-3815 | a rejection moves the next index down to the length the follower disclosed, an acceptance past what was sent; log and other peers stay |
| Convergence.Round | src/raft_server.c:2927-3815 | one exchange in order, of three steps of a run, lowers the rank or leaves equal logs |
| Convergence.Converges | src/raft_server.c:2927-3815 | from any state of any run, a leader and a follower whose logs agree at index 0, or whose follower is empty, with synchronous writes, reach equal logs by exchanges alone within a bound computed from their logs and next index |
| Replica.Replica.constructor | src/raft_server.c:1409-1435 | a new replica is the initial server state |
| Replica.Replica.SyncPending | src/raft_server.c:1320-1333 | everything appended becomes synced |
| Replica.Replica.UpdateLogHeader | src/raft_server.c:2046-2058 | term and vote are persisted and the log is synced, as one header write |
| Replica.Replica.WriteNextEntry | src/raft_server.c:2269-2295 | the entry is appended, and synced at once with synchronous writes |
| Replica.Replica.BecomesFollower | src/raft_server.c:2098-2162 | stepping down does exactly what the protocol function says: nothing for an unknown or own hint, no header write within the term |
| Replica.Replica.ResetVotes | src/raft_server.c:1815-1830 | the vote table holds only the own vote |
| Replica.Replica.TimesOut | src/raft_server.c:1989-2044 | a timeout starts a pre-vote candidacy, changing no header, with the log's synced end in the request |
| Replica.Replica.StandForElection | src/raft_server.c:1935-1969 | a full candidacy persists the next term and own vote before the request goes out |
| Replica.Replica.ProcessPreVoteRequest | src/raft_server.c:2729-2834 | state and reply are those of the protocol function |
| Replica.Replica.ProcessVoteRequest | src/raft_server.c:2716-2834 | state and reply are those of the protocol function, which Effects.VoteExactly describes: pending entries synced first, term and log compared componentwise |
| Replica.Replica.RegisterVoteResult | src/raft_server.c:1891-1933 | the voter's slot holds its answer |
| Replica.Replica.HasMajority | src/raft_server.c:1796-1866 | the count over the vote table finds a majority exactly when the yes votes are one |
| Replica.Replica.ProcessPreVoteReply | src/raft_server.c:2365-2410 | state, request and assertion failure are those of the protocol function |
| Replica.Replica.LeaderInitState | src/raft_server.c:2196-2250 | leader state and all peers' slots start from the synced log |
| Replica.Replica.CandidateBecomesLeader | src/raft_server.c:2341-2362 | leader state is set up and the change marker appended, or an assertion stops the replica |
| Replica.Replica.ProcessVoteReply | src/raft_server.c:2366-2433 | state and assertion failure are those of the protocol function |
| Replica.Replica.LeaderWrite | src/raft_server.c:2297-2324 | a client entry is appended in the leader's term, or an assertion stops the replica |
| Replica.Replica.RefreshFollower | src/raft_server.c:2445-2525 | the peer's cached terms are re-read as the protocol function says |
| Replica.Replica.SendAppendEntry | src/raft_server.c:4779-4890 | the request sent and the peer's slot are those of the protocol function |
| Replica.Replica.TermCheckOps | src/raft_server.c:3127-3160 | a current request makes the follower adopt term and leader; a stale one changes nothing |
| Replica.Replica.PruneLog | src/raft_server.c:2927-2978 | the log is cut behind the previous index and synced; for previous index -1 nothing is cut |
| Replica.Replica.PrepareAndCheck | src/raft_server.c:3067-3112 | log and verdict are those of the protocol function |
| Replica.Replica.AdvanceCommitIdx | src/raft_server.c:3273-3292 | the commit index rises to the given one if that is within the synced log |
| Replica.Replica.PrepReply | src/raft_server.c:3214-3255 | the reply is the protocol function's |
| Replica.Replica.WriteNewEntryFromLeader | src/raft_server.c:3171-3207 | the sent entry is appended with the request's term, or an assertion stops the replica |
| Replica.Replica.ProcessAppendEntriesRequest | src/raft_server.c:3413-3514 | state, reply and assertion failure are those of the protocol function on every path, which Effects.AppendReqExactly and Effects.AppendReqStops describe |
| Replica.Replica.SetupSelf | src/raft_server.c:3519-3540 | the leader's own slot mirrors its synced log |
| Replica.Replica.CalculateCommittedIdx | src/raft_server.c:3542-3594 | gathering min(ackd, synced) per peer and sorting yields the majority index of the table |
| Replica.Replica.TryAdvanceCommitIdx | src/raft_server.c:3597-3648 | commit advances past the gate, or an assertion stops the replica, as the protocol function and Effects.CommitExactly say, for either comparison |
| Replica.Replica.TryUpdateFollowerSyncIdx | src/raft_server.c:3658-3714 | the peer's slot only rises, and commit is recalculated only when it did |
| Replica.Replica.ApplyReplyResult | src/raft_server.c:3716-3832 | rejection backs off, acceptance advances, as the protocol function says |
| Replica.Replica.ProcessAppendEntriesReply | src/raft_server.c:3834-3866 | state and assertion failure are those of the protocol function |
| Replica.Replica.ProcessSyncIdxUpdate | src/raft_server.c:3868-3895 | state and assertion failure are those of the protocol function, which Effects.SyncIdxExactly describes |
| Replica.Replica.SendSyncIdx | src/raft_server.c:5186-5212 | a follower reports its synced end with that entry's term, to a known other leader, only without synchronous writes |
| SyncThread.SyncIsSafe | src/raft_server.c:1252-1317 | for every interleaving of appends and applies, during the device flush included, and prunes outside a sync: the synced header names only entries on the device, synced is at most the log, and the synced last-applied index at most the applied one |
| SyncThread.SyncCompletes | src/raft_server.c:1252-1317 | a sync that runs to its end publishes all that was in the log, and applied, when it began, whatever is appended and applied meanwhile |
| SyncThread.PublishIsProtocolStep | src/raft_server.c:1252-1317 | a publication is the protocol's sync step to an index between the synced one and the log's end |
| SyncThread.CutDuringSync | src/raft_server.c:1252-1317 | a prune between capture and flush leaves the publication harmless if and only if it keeps everything captured |
| HeaderSlots.TornIsAtomic | src/raft_server_backend_posix.c:353-407 | a header write goes to the older slot, and whatever a crash leaves of it, the newest readable header is the one before or the new one |
| HeaderSlots.TermsSurvive | src/raft_server_backend_posix.c:280-407 | over any number of ascending writes, any of them torn, a term once persisted is never lost |
| HeaderSlots.WritesAscend | src/raft_server.c:1228-1246 | the header writes of a replica ascend in every run of the cluster, under any rules, with whatever writes crashes tear |
| HeaderSlots.HeaderStore.constructor | src/raft_server_backend_posix.c:451-475 | a new file holds two headers of term 0, without a vote, and loads the newer |
| HeaderSlots.HeaderStore.HeaderWrite | src/raft_server_backend_posix.c:353-407 | exactly the slot chosen by the sequence number is overwritten |
| HeaderSlots.HeaderStore.HeaderLoad | src/raft_server_backend_posix.c:280-342 | the readable header with the greatest sequence number is loaded, none if none is readable |
| HeaderSlots.HeaderStore.Persist | src/raft_server_backend_posix.c:353-407 | afterwards device and memory hold the new term and vote under the next sequence number |
| HeaderSlots.HeaderStore.CrashWhilePersisting | src/raft_server_backend_posix.c:280-407 | a torn write and a restart leave the old header or the new one |
| HeaderSlots.HeaderStore.Drive | src/raft_server_backend_posix.c:280-475 | any sequence of writes and torn writes leaves the header that a fold over them gives |
| Coalescing.SplitJoined | src/raft_server.c:5109-5146 | cutting joined writes by their lengths gives the writes back in order |
| Coalescing.JoinSplit | src/raft_server.c:5109-5146 | joining the parts of an entry gives its data back, each part of its listed size |
| Coalescing.PartAt | src/raft_server.c:5109-5146 | the part at the running offset of the apply loop is that part of the cut |
| Coalescing.Coalescer.WriteCoalescedEntries | src/raft_server.c:2629-2649 | the buffer is logged as one entry whose parts are the pending writes, or nothing is logged when there are none |
| Coalescing.Coalescer.CopyIn | src/raft_server.c:4398-4448 | the bytes are appended to the buffer, the rest of it unchanged |
| Coalescing.Coalescer.AddPart | src/raft_server.c:4398-4448 | the pending writes gain the write with its suffix |
| Coalescing.Coalescer.WriteCoalesceEntry | src/raft_server.c:4398-4448 | a write with room joins the pending ones, which are logged if and only if they are then full or nothing is gathered |
| Coalescing.Coalescer.ClientWrite | src/raft_server.c:4513-4552 | the writes logged and pending, cut apart, are those before plus this one with its suffix; it joins the pending ones when it fits, they are logged first when not, and what is pending is logged only when full or when nothing is gathered: no entry is logged as long as the next write fits into it |
| Applying.DeliversUnlessEmpty | src/raft_server.c:5095-5146 | the state machine sees every part of an entry if and only if the entry holds data |
| Applying.XorIsParity | src/raft_server.c:5007-5017 | a bit of the cumulative checksum is set if and only if an odd number of the entries have it set in theirs |
| Applying.ReplayServes | src/raft_server.c:5109-5146 | replaying the steps is serving their requests one after the other |
| Applying.WritesComeOut | src/raft_server.c:4398-5146 | the requests of a log of coalesced entries that hold data are the client's writes, in order |
| Applying.OneStep | src/raft_server.c:4935-4958 | applying the recorded successor part leads from one point of the uninterrupted fold to the next |
| Applying.CompleteIsFold | src/raft_server.c:4935-5017 | a record naming a complete entry stands for the fold over all entries through it, and for the checksum whose bits are their parities |
| Applying.SamePoint | src/raft_server.c:4935-5017 | two histories with the same record position hold the same state and checksum |
| Applying.Applier.SetLastApplied | src/raft_server.c:4935-4958 | the record moves to the part, the checksum only with the last one; the successor record is handed back |
| Applying.Applier.NextToApply | src/raft_server.c:4972-4992 | the next part is the successor of the record |
| Applying.Applier.ApplyPart | src/raft_server_backend_rocksdb.c:581-613 | record and writes go into one batch; exactly one step is done |
| Applying.Applier.RequestIs | src/raft_server.c:5109-5146 | the slice at the running offset is the part to apply |
| Applying.Applier.ApplyParts | src/raft_server.c:5109-5146 | parts already applied are skipped, the others applied in order, each once |
| Applying.Applier.StateMachineApply | src/raft_server.c:5053-5183 | a pass applies at least one part if there is one, never past the commit index, and stops on the commit assertion exactly when the record is ahead |
| Applying.Applier.Crash | src/raft_server.c:4926-4933 | a restart resumes from the last batch that survived |
| Applying.Applier.Drive | src/raft_server.c:4935-5183 | any pattern of commits, interrupted passes and crashes leaves, at every complete entry, the state and checksum of one uninterrupted fold |
| TreeIndex.IndexBrackets | src/contrib/dlmalloc.c:2854-2928 | every size from 2^8 up to 2^40 lies in the bracket of its bin, the last bin having no upper end |
| TreeIndex.MinSizeGrows | src/contrib/dlmalloc.c:2926-2928 | the lower ends of the brackets do not descend with the bin index |
| TreeIndex.LaterBinIsLarger | src/contrib/dlmalloc.c:2854-2928 | a size in a later bin exceeds every size in an earlier one |
| TreeIndex.PortableLog2Correct | src/contrib/dlmalloc.c:2897-2913 | the portable computation by shifts and masks finds the leading bit of a 16-bit word |
| TreeIndex.PortableIsLog2 | src/contrib/dlmalloc.c:2897-2913 | that is the binary logarithm the index is computed from |
| TreeIndex.PortableIndex | src/contrib/dlmalloc.c:2897-2913 | the portable form computes the same bin index as the logarithm |
| TreeIndex.BinInterval | src/contrib/dlmalloc.c:2854-2928 | a bin is an aligned interval of a power-of-two width |
| TreeIndex.SignBit | src/contrib/dlmalloc.c:4469-4487 | the top bit of the shifted size tells the lower from the upper half of the interval at hand |
| TreeIndex.WalkStart | src/contrib/dlmalloc.c:4469-4471 | the left shift for a bin lines the first free size bit up with the top bit |
| Trie.InsertKeepsOrder | src/contrib/dlmalloc.c:3664-3713 | insertion keeps the bitwise order of a trie |
| Trie.InsertAdds | src/contrib/dlmalloc.c:3664-3713 | insertion adds exactly the one chunk to the stored multiset |
| Trie.InsertSizes | src/contrib/dlmalloc.c:3664-3713 | insertion adds exactly the one size |
| Trie.RemoveKeepsOrder | src/contrib/dlmalloc.c:3732-3801 | removal, with a leaf from below replacing an interior node, keeps the bitwise order |
| Trie.RemoveTakes | src/contrib/dlmalloc.c:3732-3801 | removal takes exactly the one chunk from the stored multiset |
| Trie.RemoveSizes | src/contrib/dlmalloc.c:3732-3801 | removal brings no new size |
| Trie.DropKeepsOrder | src/contrib/dlmalloc.c:3746-3761 | a node replaced by a leaf of its own subtree leaves an ordered trie |
| Trie.LeftBelowRight | src/contrib/dlmalloc.c:2380-2400 | every size on the left of a node is below every size on its right |
| TreeMemory.RemainderBelow | src/contrib/dlmalloc.c:4473-4478 | comparing wrapped 64-bit remainders picks exactly the fitting chunks that beat the best so far |
| TreeMemory.WalkToSize | src/contrib/dlmalloc.c:4467-4489 | the walk to the request's size in memory ends with everything that fits no better than the best met, or in the subtree set aside or beyond |
| TreeMemory.LeastFrom | src/contrib/dlmalloc.c:4500-4507 | the leftmost path from there yields the least fit of that subtree |
| TreeMemory.FirstMarked | src/contrib/dlmalloc.c:4490-4498 | the least marked bin from an index on |
| TreeMemory.ChooseFrom | src/contrib/dlmalloc.c:4461-4507 | the chunk found is a least fit over all bins, and none is found exactly when none fits |
| TreeMemory.ChooseSmallFrom | src/contrib/dlmalloc.c:4531-4550 | the chunk found is a least chunk of all tree bins |
| TreeMemory.FirstBinDecides | src/contrib/dlmalloc.c:4490-4498 | the least fit of the first bin that has one is the least fit of all |
| TreeLinks.GraftRep | src/contrib/dlmalloc.c:3680-3712 | the pointer updates at the end of the insertion walk turn the trie in memory into the trie with the chunk inserted |
| TreeLinks.InsertedBin | src/contrib/dlmalloc.c:3664-3713 | a bin stays in order, its sizes in its bracket and its rings linked, when a chunk is inserted |
| TreeUnlink.RingLeft | src/contrib/dlmalloc.c:3736-3745 | a later chunk leaves a ring that stays doubly linked |
| TreeUnlink.RingHeadLeft | src/contrib/dlmalloc.c:3736-3745 | when a ring's first chunk leaves, its predecessor comes first |
| TreeUnlink.SlotCleared | src/contrib/dlmalloc.c:3746-3761 | clearing the slot found leaves the trie in memory without its plucked leaf |
| TreeUnlink.AdoptRep | src/contrib/dlmalloc.c:3776-3794 | the replacement with the removed node's children stands for the node in its place |
| TreeUnlink.ContextRep | src/contrib/dlmalloc.c:3762-3775 | the rest of the trie in memory, with the parent's field changed, is the trie after removal |
| TreeRemoval.FindLeaf | src/contrib/dlmalloc.c:3746-3756 | the loop finds the slot through which the leaf to take hangs |
| TreeRemoval.Relinked | src/contrib/dlmalloc.c:3762-3796 | parent, replacement and children, relinked, form the node without the chunk, and nothing else changes |
| TreeRemoval.HeadRemoved | src/contrib/dlmalloc.c:3732-3801 | taking off a chunk that is in the trie leaves its bin in order without exactly that address |
| TreeRemoval.LaterRemoved | src/contrib/dlmalloc.c:3732-3745 | taking off a chunk that is only in a ring does the same |
| TreeBins.OneTreeChanged | src/contrib/dlmalloc.c:3664-3801 | changing one bin's chunks changes the total by as much |
| TreeBins.FindEnd | src/contrib/dlmalloc.c:3680-3712 | the insertion walk ends at the node and side the functional insertion names |
| TreeBins.TreeBins.constructor | src/contrib/dlmalloc.c:3926-3934 | the bins start empty |
| TreeBins.TreeBins.InsertLargeChunk | src/contrib/dlmalloc.c:3664-3713 | all bins stay in order, bitmap and rings included, one trie changes, by the functional insertion, and the stored multiset gains exactly the chunk |
| TreeBins.TreeBins.PutInPlace | src/contrib/dlmalloc.c:3762-3801 | root or parent field, bitmap, and the replacement's links are those of the relinking function |
| TreeBins.TreeBins.UnlinkLargeChunk | src/contrib/dlmalloc.c:3732-3801 | all bins stay in order, one trie changes, by the functional removal, and the stored multiset loses exactly the chunk, in every case: ring member, ring head, interior node, leaf, last of its bin |
| TreeBins.TreeBins.ChooseLarge | src/contrib/dlmalloc.c:4461-4528 | the chunk chosen is stored and of least size among all that fit, and smaller than a fitting designated victim; none is chosen exactly when nothing fits or the victim is no larger than every fit |
| TreeBins.TreeBins.ChooseSmall | src/contrib/dlmalloc.c:4531-4550 | a small request gets a least chunk of the tree bins |
| SmallBins.SmallBins.InsertSmallChunk | src/contrib/dlmalloc.c:3586-3603 | the bin's ring and bit are kept, the chunk comes first in its list, no other list changes, and the stored multiset gains exactly the chunk |
| SmallBins.SmallBins.UnlinkSmallChunk | src/contrib/dlmalloc.c:3605-3628 | the chunk is cut out of its list, no other list changes, and the stored multiset loses exactly it; the bit is cleared when it was the last |
| SmallBins.SmallBins.UnlinkFirstSmallChunk | src/contrib/dlmalloc.c:3631-3645 | the first chunk of a marked bin is taken, of exactly the bin's size |
| SmallBins.RingJoined | src/contrib/dlmalloc.c:3586-3603 | a chunk linked in behind the header leaves a ring |
| SmallBins.RingQuit | src/contrib/dlmalloc.c:3605-3628 | a chunk's neighbours are equal exactly when it is alone; otherwise linking them leaves a ring |
| HeapTags.Spliced | src/contrib/dlmalloc.c:3060-3082 | replacing some adjacent chunks by others that fill the same room, with their tags written and the next chunk's bit corrected, leaves a tiled segment |
| HeapTags.WholeUsed | src/contrib/dlmalloc.c:3074-3077 | putting a whole free chunk in use keeps tiling and tags |
| HeapTags.FreeSplit | src/contrib/dlmalloc.c:4512-4523 | splitting a free chunk keeps tiling and tags |
| HeapTags.TopSplit | src/contrib/dlmalloc.c:5629-5635 | splitting the top chunk keeps tiling and tags |
| HeapTags.Merged | src/contrib/dlmalloc.c:5670-5745 | a freed chunk and its free neighbours become one free chunk with a matching foot, and no two free chunks are adjacent |
| HeapTags.MergedIntoTop | src/contrib/dlmalloc.c:5700-5711 | a freed chunk next to the top chunk goes into it |
| HeapTags.BytesConserved | src/contrib/dlmalloc.c:3466-3497 | the sizes of the first chunks add up to the distance from the base to the end of the last of them |
| HeapTags.EveryByteCovered | src/contrib/dlmalloc.c:3466-3497 | every byte from the base to that end is in a chunk |
| HeapTags.BytesDisjoint | src/contrib/dlmalloc.c:3466-3497 | and in one only |
| HeapTags.ChunksApart | src/contrib/dlmalloc.c:3466-3497 | of two chunks in use, one ends before the other begins |
| HeapTags.PayloadsDisjoint | src/contrib/dlmalloc.c:3280-3300 | two chunks in use share no payload byte |
| HeapTags.PickedOnce | src/contrib/dlmalloc.c:3466-3497 | each free or used chunk is listed once |
| Heap.RequestFacts | src/contrib/dlmalloc.c:2241-2251 | a padded request is aligned, holds the bytes and the overhead, exceeds them by less than a minimum chunk, and is large exactly when the request is |
| Heap.RequestIsLeast | src/contrib/dlmalloc.c:2241-2251 | and it is the least aligned size from a minimum chunk up that holds bytes and overhead |
| Heap.FreeOnce | src/contrib/dlmalloc.c:3466-3497 | a free chunk below top is in the accounts once, and its address determines it |
| Heap.Heap.constructor | src/contrib/dlmalloc.c:3911-3934 | a fresh segment is one top chunk, nothing in use |
| Heap.Heap.InsertChunk | src/contrib/dlmalloc.c:3805-3807 | a chunk owed to the bins is in the bin for its size |
| Heap.Heap.UnlinkChunk | src/contrib/dlmalloc.c:3809-3812 | a free chunk that is not the designated victim leaves its bin |
| Heap.Heap.ReplaceDv | src/contrib/dlmalloc.c:3650-3659 | the chunk becomes the designated victim and the old one is in its small bin |
| Heap.Heap.TakeWhole | src/contrib/dlmalloc.c:3074-3077 | exactly that chunk is in use in addition |
| Heap.Heap.TakeFront | src/contrib/dlmalloc.c:4519-4521 | exactly the front is in use in addition, the rest is owed to the bins |
| Heap.Heap.TmallocSmall | src/contrib/dlmalloc.c:4531-4568 | a small request is served from a tree chunk; what is left over is the designated victim |
| Heap.Heap.TmallocLarge | src/contrib/dlmalloc.c:4461-4528 | a large request is served from a least fitting chunk of all free ones, or refused when the designated victim is the only or an equal fit, or nothing fits |
| Heap.Heap.FromSmallBin | src/contrib/dlmalloc.c:5552-5588 | the first chunk of the least bin that would do serves the request, whole or split, and no smaller one in the bins fits |
| Heap.Heap.FromTree | src/contrib/dlmalloc.c:5590-5594 | with no small bin left to try, a least tree chunk serves the request |
| Heap.Heap.FromBinsSmall | src/contrib/dlmalloc.c:5546-5596 | a small request is served from the least chunk in the bins when that leaves no remainder or the designated victim is too small; otherwise the heap is unchanged, the bins holding no remainderless fit, and the victim fits or nothing does |
| Heap.Heap.UseDv | src/contrib/dlmalloc.c:5609-5627 | the designated victim serves the request, split or exhausted |
| Heap.Heap.UseTop | src/contrib/dlmalloc.c:5629-5639 | the top chunk serves the request |
| Heap.Heap.SearchBins | src/contrib/dlmalloc.c:5545-5607 | the bins either serve the request or leave the heap as it was with only the victim and the top chunk to try |
| Heap.Heap.Malloc | src/contrib/dlmalloc.c:5537-5648 | the heap stays in order; null is returned exactly when no free chunk fits and the top chunk is too small; otherwise exactly one chunk is in use in addition, of at least the wanted size and by less than a minimum chunk more; a large request takes a least fitting chunk, a small one the least in the bins or, without a remainderless fit there, the designated victim, and the top chunk serves only when nothing below it fits |
| Heap.Heap.FreeIntoTop | src/contrib/dlmalloc.c:5700-5711 | the freed chunk and its free predecessor go into the top chunk, the victim's place being given up if it was the predecessor |
| Heap.Heap.FreeIntoDv | src/contrib/dlmalloc.c:5712-5717 | the freed chunk is merged into the designated victim after it |
| Heap.Heap.FreeOntoDv | src/contrib/dlmalloc.c:5682-5687 | the designated victim before the freed chunk grows by it |
| Heap.Heap.FreeBeforeFree | src/contrib/dlmalloc.c:5718-5727 | the freed chunk takes in the free chunk after it |
| Heap.Heap.FreeBeforeUsed | src/contrib/dlmalloc.c:5729-5731 | the chunk after the freed one learns that its predecessor is free |
| Heap.Heap.Free | src/contrib/dlmalloc.c:5651-5752 | the heap stays in order and exactly the freed chunk is no longer in use; null changes nothing |
| Heap.Heap.Conserved | src/contrib/dlmalloc.c:3466-3497 | the chunks of a heap in order reach from the base of its segment to the end given to it at the start, and their sizes add up to its length |
| Heap.Heap.Covered | src/contrib/dlmalloc.c:3466-3497 | every byte of the segment is in a chunk |
| Heap.Heap.Drive | src/contrib/dlmalloc.c:5537-5752 | after any sequence of allocations and releases the segment has its full length, exactly the live allocations are in use, each with the room it was asked for, and no two share a byte |
| Crc24q.Quotient | src/contrib/crc24q.c:12-18 | every polynomial is its quotient times the generator plus the bitwise remainder |
| Crc24q.OnlyRemainder | src/contrib/crc24q.c:12-18 | and no other polynomial of degree below 24 makes up a multiple |
| Crc24q.RemLinear | src/contrib/crc24q.c:12-18 | the remainder of a sum is the sum of the remainders |
| Crc24q.RemTimes | src/contrib/crc24q.c:12-18 | multiples of the generator leave no remainder |
| Crc24q.Undetected | src/contrib/crc24q.c:145-181 | an error goes undetected exactly when it is a multiple of the generator |
| Crc24q.BurstDetected | src/contrib/crc24q.c:12-19 | every error burst of at most 24 bits, single-bit errors included, is detected at any message length |
| Crc24q.DoubleUndetected | src/contrib/crc24q.c:12-14 | two flipped bits go undetected if and only if x raised to their distance leaves remainder 1 |
| CrcRegister.SquareDoubles | src/contrib/crc24q.c:12-14 | the square of what x^n leaves is what x^2n leaves |
| CrcRegister.PowerIs | src/contrib/crc24q.c:12-14 | repeated squaring of 24-bit words computes what powers of x leave |
| CrcPeriod.PeriodIff | src/contrib/crc24q.c:12-14 | x^n leaves remainder 1 if and only if n is a multiple of 2^23 - 1 |
| CrcPeriod.DoubleUndetectedExactly | src/contrib/crc24q.c:12-14 | two flipped bits go undetected if and only if their distance is a multiple of 2^23 - 1 |
| CrcPeriod.DoublesDetectedExactly | src/contrib/crc24q.c:12-14 | all double errors in code words of n bits are detected if and only if n is at most 2^23 - 1 |
| Crc24q.OddDetected | src/contrib/crc24q.c:12-16 | every odd number of flipped bits is detected at any message length |
| Crc24q.CrcInit | src/contrib/crc24q.c:46-60 | the doubling loops fill the table with, for each byte, the byte and its multiple of x^24 reduced |
| Crc24q.TableStepIs | src/contrib/crc24q.c:145-152 | one look-up in the table advances the register by eight bitwise steps |
| Crc24q.Hash | src/contrib/crc24q.c:145-157 | the table-driven hash is the bitwise remainder of the message followed by 24 zero bits, for every byte string |
| Crc24q.CodeWord | src/contrib/crc24q.c:163-181 | a message with 24 bits appended is a multiple of the generator exactly when they are its check value |
| Crc24q.SignedIsAccepted | src/contrib/crc24q.c:163-172 | a message with its check value appended is accepted |
| Crc24q.Check | src/contrib/crc24q.c:174-181 | a message is accepted exactly when, check bytes included, it is a multiple of the generator |
| KeyedLog.KeysInOrder | src/raft_server_backend_rocksdb.c:67-78 | below 10^16 an entry's key precedes its header's key and both precede those of later entries |
| KeyedLog.OrderedExactlyBelowLimit | src/raft_server_backend_rocksdb.c:67-78 | keys are in the order of their indices up to an index if and only if it is below 10^16 |
| KeyedLog.ParseDecimal | src/raft_server_backend_rocksdb.c:1098-1106 | reading the digits of a key gives the index back |
| KeyedLog.PutHas | src/raft_server_backend_rocksdb.c:650-704 | a put replaces exactly the pair of its key |
| KeyedLog.PutSorted | src/raft_server_backend_rocksdb.c:650-704 | and keeps the keys in order |
| KeyedLog.DeleteHas | src/raft_server_backend_rocksdb.c:1112-1140 | a range delete removes exactly the pairs from the first key up to the second |
| KeyedLog.KeyedLog.constructor | src/raft_server_backend_rocksdb.c:882-946 | a new store is in order and holds no entry |
| KeyedLog.KeyedLog.EntryWrite | src/raft_server_backend_rocksdb.c:650-704 | of the log, the store then holds exactly the entries before with that entry, header and data; keys of the application stay as they are |
| KeyedLog.KeyedLog.LogTruncate | src/raft_server_backend_rocksdb.c:1112-1140 | of the log, the store then holds exactly the entries below the index, with their headers; of the keys of the application exactly those are lost that lie from the index's key up to the last key |
| KeyedLog.KeyedLog.LogReap | src/raft_server_backend_rocksdb.c:1143-1190 | of the log, the store then holds exactly the entries from the index on, with their headers; of the keys of the application exactly those are lost that lie between the first key and the index's |
| KeyedLog.KeyedLog.NumEntriesCalc | src/raft_server_backend_rocksdb.c:1027-1106 | with no key of the application among the log's, stepping back from the last key gives the last index plus one, 0 for an empty log, and no error |
| KeyedLog.KeyedLog.LowestEntryGet | src/raft_server_backend_rocksdb.c:950-1024 | with no key of the application among the log's, stepping forward from the headers gives the lowest index, -1 for an empty log, and no error |
| KeyedLog.KeyedLog.EntryRead | src/raft_server_backend_rocksdb.c:789-818 | an entry is read back as written, except that one without data is refused with -EINVAL, and a missing one with -ENOENT |
| KeyedLog.Get | src/raft_server_backend_rocksdb.c:706-735 | a key is found exactly when the store has it, with its value |

## Left out

- Sockets, timers, the client library, the registry, tunables and fault injection: timers are steps that may occur at any
  time, and client requests are steps that append entries.
- Compaction, checkpoints and bulk recovery: the lowest index stays -1, so the out-of-range reply paths do not occur.
- Entry checksums and byte layouts: entries are terms, data and part sizes; a header slot is readable or not.
- Leader freshness and quorum checks by clock: a leader may lose its quorum at any time.
- Convergence.Converges: is about one follower exchanging in order with synchronous writes; other schedules make no
  progress claim.
- Progress.WriteGetsThrough: says that such steps can always be taken, not that timers and the network take them; it
  requires agreement on entry 0, since divergence there stops a follower.
- Convergence.Round: one exchange is a send, its delivery and the delivery of the answer, with no step of another server
  between them.
- Applying.Applier.Drive: leaves out the second cumulative checksum, which is stored only with an entry's last part and
  may differ after a resume (`src/raft_server.c:4951-4957`).
- Applying.DeliversUnlessEmpty: states that an entry whose parts are all empty is recorded as applied without the state
  machine seeing it, as the code does.
- Majority.MajorityEntryIndex: the library sort is an insertion sort here; invalid member counts are excluded by the
  precondition.
- KeyedLog.KeyedLog.NumEntriesCalc: says nothing about a store in which keys of the application lie among the log's; the
  scan may then stop at one of them.
- KeyedLog.KeyedLog.LowestEntryGet: likewise.
- KeyedLog.KeyedLog.EntryRead: the refusal of entries without data is the code's, and is stated as such.
- KeyedLog.KeyedLog.EntryWrite: supplemental writes in the same batch and write options are not modelled; batches are
  atomic.
- The POSIX store's file offsets and its scan of the log file at start.
- Crc24q.Hash: the table is the one the initialisation loops build; the 256 constants printed in the source are not
  compared with it.
- Error bursts of more than 24 bits, of which the checksum's documentation bounds the share that goes undetected.
- SafetyLimits.SafeExactlyWhenSound: the rule on replies is one for vote and append replies; that late votes alone break
  safety is shown, whether late append replies alone do is not settled.
- Heap.Heap.Malloc: works in one segment with sizes below 2^40; system allocation is a failure, and requests between 2^40
  and the largest request are excluded.
- Heap.Heap.Free: the memory freed is in use, as the caller must ensure; the checks that detect other calls, trimming and
  segment release are left out.
- Memory-mapped chunks, realloc, memalign, statistics, locks, footers and corruption handlers of the heap.
- Heap.Heap.TakeFront: writes the tags of the front before those of the rest in every path; the code does the opposite
  where it splits the designated victim, with the same result.
- TreeBins.TreeBins.ChooseLarge: unlinking and splitting the chosen chunk are methods of the heap and not of the bins.
