# Proofs about the Raft key-value store

This project models the Raft replica of `src/RaftServer.cpp` and the replicated key-value server of
`src/kvRaft.cpp`, and proves what the two are for: one leader per term, logs that match, committed entries
that stay, replicas that hand up one and the same sequence, snapshots that recover exactly, and text that is
read back as it was written. `dafny verify dfyconfig.toml` checks all of it.

## How it is built

| file | what it holds |
|---|---|
| `RaftTypes.dfy`, `RaftSteps.dfy` | the records, and each handler as a function on the replica's fields |
| `RaftServer.dfy` | the class `Raft`: the handlers as they run, loops included, each proved to compute its step function |
| `Quorum.dfy` | the commit point, element n/2 of the sorted match table |
| `Cluster.dfy`, `ClusterProof.dfy` | n replicas that compact their logs, any delay, loss, reordering and repetition; election safety, log matching, full copy |
| `CompactingCluster.dfy` | every event of the cluster is the handlers' own step on the compacted replicas |
| `Exchanges.dfy`, `CommitProof.dfy`, `ExchangeProof.dfy`, `Safety.dfy` | the same cluster with one AppendEntries exchange at a time per pair; leader completeness and state machine safety |
| `Handling.dfy` | what the handlers do in every run, branch by branch, said of logs, terms and records |
| `BackOff.dfy` | how a rejected leader moves its next index, as written and as intended |
| `Compaction.dfy` | one compacting replica refines the replica that keeps everything |
| `SnapshotInstall.dfy` | snapshots between replicas: the kept tail, and the leader's commit arithmetic |
| `Text.dfy`, `Codec.dfy` | the text of commands, of log entries on the wire and of the persisted state |
| `KvMachine.dfy`, `KvServer.dfy` | the key-value machine as a function of the log, and the class `KVServer` with its waiting requests |
| `Witness.dfy` | a run that elects a leader, commits two commands, hands them up on both replicas and compacts one away, so the theorems about runs speak of something |
| `Overstate.dfy` | a run with two exchanges under way at once in which the leader commits what the follower does not store |
| `HigherTerm.dfy` | a run of three replicas that ends with a leader and a follower it can never repair |
| `Deposed.dfy` | a run in which a deposed leader learns of its successor from the reply to its own request |
| `EmptyVote.dfy` | what the late snapshot labels protect from |
| `EndToEnd.dfy` | from a command given to `Start` to the answer of the waiting request |

The proof that committed entries stay differs from the one in Ongaro and Ousterhout, "In Search of an
Understandable Consensus Algorithm (Extended Version)", section 5.4.3, because the rules do. A candidate asks
for votes in term T+1 while it is still at T; a follower truncates unconditionally to `prevLogIndex` and takes
the whole rest of the leader's log; the commit set is n - n/2 servers, which for even n is not a majority. The
key invariant is about acknowledgements: what a server acknowledged to the leader of term t is still in its
log, unless some later leader was elected without it. A vote records the voter's log, so a voter that had
acknowledged a committed entry had it when it voted, and the entry is in the log it voted for.

## What is idealised

The safety theorems are not true of the threads exactly as written, so the model takes these as given:

- Each handler is one atomic step. `ReplyVote` drops its lock between the vote test and the vote
  (src/RaftServer.cpp:594-602), and `ReplyInstallSnap` releases it before `m_lastApplied` moves
  (src/RaftServer.cpp:797-805).
- A vote reply counts only for the round that asked for it, and once per peer. The program keeps bare counters
  (src/RaftServer.cpp:486-487, 546-564). A win is seen at the end of the round, never in the middle of a step.
- The leader check (src/RaftServer.cpp:437) and the building of the request (src/RaftServer.cpp:822-853) are
  one step, so only leaders send.
- In `Exchanges.dfy` at most one AppendEntries exchange is under way between a leader and one follower. Its
  request may be delivered any number of times, as the retries do; its reply is taken at most once; either may
  be lost. `TwoInFlightOverstate` shows why this is needed. `Cluster.dfy` does not assume it.
- No replica crashes and restarts. The winning term is not saved when leadership starts
  (src/RaftServer.cpp:507-517).
- Replicas compact their logs at any time. The state holds each replica with the entries it dropped put back;
  `EventIsRealStep` proves that every event is the handler's step on the replica without them. In
  `Cluster.dfy` any applied entry may be the label. In `Exchanges.dfy` the labels are those that the
  key-value layer gives, one less than the index of an entry it handled (`LabelsAreLate`). A leader starts no
  exchange with a peer whose next index it has compacted away: it would send a snapshot, which no replica
  takes (see below).
- Where a handler would index `m_logs` out of range, the event is not enabled in `Cluster.dfy`. In particular
  asynchronous runs leave out the replies whose match index would lie past the leader's log; `Overstate.dfy`
  reaches one. In the disciplined cluster no event is left out for this reason (`RealAccessesInBounds`).
- Requests travel in the cluster with their entries, not their text. `WireCarriesRequest` says that the text
  brings the same entries when no command holds ',' or ';'.
- Snapshots are captured atomically with respect to `ApplyLoop`, and their labels strictly advance.
- The word `OpContext::state` starts at 0, which the constructor (src/kvRaft.cpp:13-18) leaves unset.
- Integers are unbounded. `std::sort` is an ascending arrangement of the same values.

## What came out differently from what the code or its comments intend

- Repeated exchanges as written do not always bring a follower up to date. They do exactly when the follower
  reaches up to `prevLogIndex` and none of its terms there is above the leader's (`RepairedIff`). There are two
  ways to fail, and both last for ever. A follower that ends before `prevLogIndex` answers one past its end and
  the leader adds one more (src/RaftServer.cpp:659-664, 931-933; `ShortFollowerIsNeverRepaired`). A follower
  with a higher term than the leader at an index stops the leader's scan at that very index
  (src/RaftServer.cpp:917-925): with leader terms 1, 2 and follower terms 1, 3 the next index stays 3
  (`HigherTermFollowerIsNeverRepaired`), and four elections among three replicas lead there
  (`HigherTermArises`). `RepairLoopCopies` proves that two small changes always reach success.
- The comment at src/RaftServer.cpp:931 says the follower returns the index of its last entry; the code returns
  one more. The model follows the code.
- `CheckLogUptodate` reads an empty `m_logs` as an empty history, so a replica whose whole log were in its
  snapshot would vote for anyone (`CompactedVoterAcceptsAnyone`, exact condition in `VoteTestAgreesIff`), and
  committed entries could be lost (`LateLabelIsNeeded`). What protects the code is that snapshots are labelled
  one too low: a replica keeps at least the entry it applied last, and votes as its whole history would
  (`VotesAreOnHistory`). With several exchanges under way a late request can still empty `m_logs`; election
  safety, one vote per term, log matching and full copy hold then too.
- The guard of `RecvSnapShot` lets a label equal to the current one through, and then reads position -1
  (`EqualLabelIsOutOfBounds`).
- `ReplyInstallSnap` compares the snapshot's term with the term of the last entry. A kept tail is right all the
  same (`InstalledSnapshotIsSound`), but a tail that should be kept may be thrown away (`TailThrownAway`, exact
  condition in `HeldSnapshotKeepsTailIff`). `Init` registers no handler for it (src/RaftServer.cpp:38-39).
- `GetCmdAndTerm` and `Deserialize` build a number from an iterator past the end of a token without ','; the
  model returns None there.
- A '.' in a value survives the wire but not the persisted text (`DottedValueIsLost`).
- The sequence map is overwritten even by a lower id (src/kvRaft.cpp:344), so a late copy of one request can
  let a copy of a newer one run again and overwrite another client's value (`LateCopyLetsCopyRun`), and a first
  request with a lower id is dropped (`LowerFirstIsDropped`). At-most-once holds when every set is in step: the
  client's previous operation has a lower id exactly when this one is new. Ids in order are enough
  (`InOrderIsInStep`) and not needed (`InStepWithoutOrder`); the condition is exact (`SuppressionIsExactIff`).
- A successful get never sets `isexist` (src/kvRaft.cpp:222-228): the answer carries what was read before the
  entry was applied.

## Model

| member | source | states |
|---|---|---|
| `ClusterProof.ElectionSafety` | src/RaftServer.cpp:476-517 | in every run with arbitrary delay, loss, reordering and repetition, two replicas that lead the same term, at any two moments, are the same replica |
| `ClusterProof.WinnerIsFirst` | src/RaftServer.cpp:507-513 | a candidate with more than n/2 counted votes is the first ever to lead the term after its own |
| `ClusterProof.NoVoteYet` | src/RaftServer.cpp:482-486 | a candidate still at term T has no vote on record for T+1 |
| `ClusterProof.BallotsCounted` | src/RaftServer.cpp:486-487 | the counter of a candidate is the number of distinct servers that voted for it in this round, itself included |
| `ClusterProof.OneVotePerTerm` | src/RaftServer.cpp:581-605 | over a whole run a vote that was given is never withdrawn or given to another candidate |
| `ClusterProof.GrantEndsCandidacy` | src/RaftServer.cpp:586-605 | a candidate that grants a vote to another replica becomes a follower, and never leads the granted term in the rest of the run |
| `ClusterProof.LogMatching` | src/RaftServer.cpp:646-697 | in every run, two logs at any two moments that hold the same term at an index are equal up to it |
| `ClusterProof.FullCopy` | src/RaftServer.cpp:682-697 | whenever a request of a run is handled and accepted, late, out of order or again, the follower's whole log becomes the whole log of its leader at the earlier moment when the request was built |
| `ClusterProof.RequestWasBuilt` | src/RaftServer.cpp:821-853 | every request under way was built by a leader at some earlier moment of the run: its term, the entries past `prevLogIndex` and the term before them, and its commit index are those of the leader at that moment |
| `ClusterProof.KeepInv` | src/RaftServer.cpp:462-697 | every event, compaction included, keeps the invariant of the asynchronous cluster: votes, leaders, terms of entries, agreement with the log of each term's leader, messages in flight |
| `ClusterProof.RunExtends` | src/RaftServer.cpp:108-111 | over a run leaders stay on record and the log of a term's leader only grows |
| `Quorum.SortIsAscending` | src/RaftServer.cpp:904-905 | the copy of the match table is ascending |
| `Quorum.SortCount` | src/RaftServer.cpp:904-905 | sorting keeps how many values lie at or above any bound |
| `Quorum.MajorityIndexIsExact` | src/RaftServer.cpp:904-911 | for every n >= 1, at least n - n/2 servers have reached x exactly when x is at most element n/2 of the sorted table |
| `Quorum.QuorumsMeet` | src/RaftServer.cpp:507 | two sets of servers with more than n members together share one, so a commit set of n - n/2 meets a vote set of more than n/2, even n included |
| `CommitProof.CommitStays` | src/RaftServer.cpp:904-911 | an entry passed by the commit rule of term t is in the log of every leader elected in a later term, at the same index |
| `CommitProof.VoterHasCommit` | src/RaftServer.cpp:594-602 | some voter of a later leader had acknowledged the committed entries and still held them when it voted |
| `CommitProof.NotBehindCarries` | src/RaftServer.cpp:232-247 | a log that passes the vote test of a voter holding committed entries holds them too |
| `Safety.LeaderCompleteness` | src/RaftServer.cpp:904-911 | in every run, what any replica counts as committed is in the log of every leader of a later term, at the same indexes |
| `Safety.StateMachineSafety` | src/RaftServer.cpp:989-998 | what two replicas have handed up, at any two moments of a run, are prefixes of one another |
| `Safety.MatchTableHolds` | src/RaftServer.cpp:898-902 | while a leader is in its term, each follower in that term agrees with it up to its entry in the match table |
| `Safety.AckedCommitSurvives` | src/RaftServer.cpp:682-697 | a server that acknowledged a committed index still holds everything up to it, whatever terms it has been through |
| `Safety.AccessesInBounds` | src/RaftServer.cpp:833-911 | in every reachable state a leader can build a request for any peer and take any reply it is owed, and any replica can hand up what it committed, with every index in range |
| `Safety.StartedCommandIsHandedUp` | src/RaftServer.cpp:96-114 | an entry handed up one index after the one `Start` answered, with the term it answered, is the command given to `Start` |
| `Safety.KeepSysInv` | src/RaftServer.cpp:611-937 | every step of the disciplined cluster of compacting replicas keeps its invariant: acknowledgements, votes, commits, match tables, exchanges under way, entries handed up, and labels below the last applied entry |
| `Safety.DisciplineRefines` | src/RaftServer.cpp:854-875 | a step of the disciplined cluster is a step of the asynchronous one, or leaves the replicas and messages alone |
| `Handling.VoteIsAnswered` | src/RaftServer.cpp:569-608 | in every run: the reply carries the voter's term of before, and term, role and vote of the voter after a request that is granted or refused, of an older, equal or newer term |
| `Handling.VoteIsGrantedIff` | src/RaftServer.cpp:581-605 | in every run a vote is granted exactly when the request's term is not older, the vote is free or already this candidate's, and the candidate's log is not behind the voter's whole history: a higher last term, or the same and at least as long |
| `Handling.OneOfTwoPasses` | src/RaftServer.cpp:232-247 | of any two replicas of a run at least one passes the other's vote test |
| `Handling.VoteReplyIsCounted` | src/RaftServer.cpp:546-564 | in every run a counted reply adds one to the counters; one whose term is above the term asked for makes the replica a follower of that term without a vote, any other leaves role, term and vote |
| `Handling.SteppedDownCannotWin` | src/RaftServer.cpp:552-558 | a candidate that so stepped down cannot win before its next timeout, whatever happens in between |
| `Handling.WonIff` | src/RaftServer.cpp:507-513 | in every run a candidate wins exactly with the votes of more than half of the servers, and then leads the next term with its log as it is, next indexes past it and match indexes 0 |
| `Handling.FinishedCountsReplies` | src/RaftServer.cpp:486-487 | in every run the counter of finished votes is the number of peers that answered in this round, plus one for the replica itself |
| `Handling.RequestIsAnswered` | src/RaftServer.cpp:626-697 | in every run: a request of an older term changes nothing; a current one makes the replica a follower of its term and is accepted exactly when the log begins with the leader's entries up to `prevLogIndex` and has dropped no more than those, and then the log is the leader's and the commit index the larger of the replica's own and the request's, cut off at the end of the log |
| `Handling.ReplyIsTaken` | src/RaftServer.cpp:884-896 | in every run a reply in another term than its request changes nothing; one of a higher term makes the leader a follower of that term without a vote; any other moves only the two tables and the commit index |
| `Deposed.DeposedLeaderLearns` | src/RaftServer.cpp:889-895 | a run of three replicas in which a leader of term 1, deposed unheard, learns of term 2 from the reply to its own request and follows, without a vote |
| `Handling.ExchangeWasBuilt` | src/RaftServer.cpp:821-853 | the request of every exchange under way was built by its leader at some earlier moment, commit index included |
| `Handling.CommitTravels` | src/RaftServer.cpp:692-695 | in every run, after an accepted request the follower's commit index is the larger of its own and the one its leader had when it built the request |
| `Handling.SuccessIsTaken` | src/RaftServer.cpp:898-911 | in every run, when a success is taken, the peer is listed with exactly the log it was sent, the leader with its whole log, all others as before; an index of the leader's own term is then committed exactly when it was before or n - n/2 servers are listed as having reached it |
| `Handling.HandsUpAll` | src/RaftServer.cpp:989-998 | in every run, handing up leaves exactly the committed entries handed up, in order and with their indexes |
| `Handling.StartAnswers` | src/RaftServer.cpp:96-114 | in every run `Start` answers yes exactly on a replica that leads, with the term it leads and the index before the one where the command is now stored; otherwise it answers (-1, -1, false) and nothing changes |
| `EmptyVote.LateLabelIsNeeded` | src/RaftServer.cpp:237-239 | a run of three replicas that commits and applies any one command, from which a snapshot labelled with that entry would let the vote handlers elect a leader of the next term with an empty log; without it the vote is refused |
| `Overstate.TwoInFlightOverstate` | src/RaftServer.cpp:898-911 | a run of two replicas in which an older request truncates the follower after a newer one: the leader's match table says 2 and it commits index 2 while the follower stores one entry, and the older reply would make the commit test read past the leader's log |
| `Witness.CommandsGetThrough` | src/RaftServer.cpp:898-911 | for any two commands there is a run of two replicas in which one is elected, accepts them, has them stored by the other in one exchange and commits them; a second exchange carries the commit index, both replicas hand both up, and the leader drops the first under the label 1 of its snapshot |
| `ExchangeProof.LeadsItsTerm` | src/RaftServer.cpp:884-886 | a replica that takes a reply in the term of its request still leads that term, which the code never checks |
| `ExchangeProof.MajorityAcked` | src/RaftServer.cpp:904-911 | at least n - n/2 servers acknowledged every index that the commit test lets through |
| `ExchangeProof.AckKeepsHistory` | src/RaftServer.cpp:682-697 | a follower's copy of the leader's log keeps every earlier acknowledgement, vote and commit accounted for |
| `ExchangeProof.NewVoterKept` | src/RaftServer.cpp:594-605 | the log a server votes with holds all it acknowledged in earlier terms, unless a later leader never had it |
| `ExchangeProof.NewBallotsKept` | src/RaftServer.cpp:507-513 | the votes a new leader counted satisfy the same |
| `ExchangeProof.NewVotePasses` | src/RaftServer.cpp:594-602 | a vote is granted only to a candidate whose log is not behind the voter's whole history, compacted or not |
| `ExchangeProof.CountedVotePassed` | src/RaftServer.cpp:507-513 | every vote a candidate counts passed the test of the log it wins with |
| `ExchangeProof.TakenTable` | src/RaftServer.cpp:898-902 | after a success is taken every match entry is an index that its server acknowledged |
| `BackOff.RejectionSays` | src/RaftServer.cpp:658-679 | a rejection tells the follower's end plus one, or the term it holds at `prevLogIndex` with the first index of that term |
| `BackOff.BackOffIsSafe` | src/RaftServer.cpp:913-933 | after a rejection, whatever prefix leader and follower share still lies below the next index |
| `BackOff.BackOffMovesIff` | src/RaftServer.cpp:913-933 | the next index never rises, and falls exactly when the follower misses more than one entry or the leader's term at `prevLogIndex` is above the follower's |
| `BackOff.RepairedIff` | src/RaftServer.cpp:913-933 | whatever commands arrive, one of the next `m_nextIndex` exchanges as written is accepted and leaves the follower with the leader's log exactly when the follower reaches up to `prevLogIndex` and has no term above the leader's there; otherwise every exchange is rejected and changes no log |
| `BackOff.ShortFollowerIsNeverRepaired` | src/RaftServer.cpp:658-664 | a follower that ends before `prevLogIndex` rejects every later exchange with this leader, whatever commands arrive in between |
| `BackOff.HigherTermFollowerIsNeverRepaired` | src/RaftServer.cpp:917-925 | with leader terms 1, 2 and follower terms 1, 3 the next index stays where it is and no exchange ever succeeds |
| `HigherTerm.HigherTermArises` | src/RaftServer.cpp:917-925 | a run of three replicas through four terms ends in such a leader and follower |
| `BackOff.RepairedMakesProgress` | src/RaftServer.cpp:913-933 | with the scan started below `prevLogIndex` and the short-log answer used as it is, every rejection lowers the next index, and not below what the logs share |
| `BackOff.RepairLoopCopies` | src/RaftServer.cpp:913-933 | so repaired, at most `m_nextIndex` exchanges make the follower's log equal to the leader's |
| `Compaction.CompactDropsPrefix` | src/RaftServer.cpp:270-287 | a snapshot at an index in (old label, last index] drops exactly the entries up to it; last index, last term and later entries stay |
| `Compaction.EqualLabelIsOutOfBounds` | src/RaftServer.cpp:276-280 | a label equal to the current one names no entry: its position is -1 |
| `Compaction.StartCommutes` | src/RaftServer.cpp:96-114 | `Start` on the compacted log appends and answers as on the full log |
| `Compaction.ElectionCommutes` | src/RaftServer.cpp:401-418 | a compacted candidate sends the same vote request and, elected, sets up the same tables |
| `Compaction.VoteTestAgreesIff` | src/RaftServer.cpp:232-247 | the vote test of the compacted replica agrees with the full one exactly unless everything was compacted and the candidate is behind |
| `Compaction.CompactedVoterAcceptsAnyone` | src/RaftServer.cpp:237-239 | a replica whose one entry is in its snapshot accepts a candidate with an empty log, which the full replica refuses |
| `Compaction.BuildAppendCommutes` | src/RaftServer.cpp:822-851 | past the snapshot the same request is built |
| `Compaction.ReplyAppendCommutes` | src/RaftServer.cpp:646-697 | for `prevLogIndex` at or past the snapshot the compacted replica gives the same verdict and becomes the compacted form of the full replica's new state |
| `Compaction.RejectHintIsCoarser` | src/RaftServer.cpp:669-679 | the conflict index it reports is the full replica's, cut off at the snapshot |
| `Compaction.ConflictIndexCompressed` | src/RaftServer.cpp:669-679 | the upward scan finds the same entry, or the first one past the snapshot when the term begins inside it |
| `Compaction.VerdictAgreesIff` | src/RaftServer.cpp:647-650 | the two verdicts agree exactly unless the request is current, starts below the snapshot and the full log holds its previous entry |
| `Compaction.CommitCommutes` | src/RaftServer.cpp:904-911 | the commit point is the same: the clause for indexes inside the snapshot never decides |
| `Compaction.TakeSuccessCommutes` | src/RaftServer.cpp:898-911 | taking a success changes tables and commit index alike |
| `Compaction.ScanCompressed` | src/RaftServer.cpp:917-929 | the downward scan finds the same entry, or nothing when that entry is inside the snapshot |
| `Compaction.NextIndexAgreesIff` | src/RaftServer.cpp:914-933 | after a rejection both replicas set the same next index exactly when the scan on the full log ends above the snapshot, finds nothing, or ends where the follower's hint points |
| `Compaction.ApplyCommutes` | src/RaftServer.cpp:989-998 | the same entries are handed up |
| `Compaction.StepCommutes` | src/RaftServer.cpp:401-418 | each step of the compacting replica gives the full replica's answer and ends in the compacted form of its new state |
| `Compaction.CompactedRunRefines` | src/RaftServer.cpp:270-287 | over whole runs with snapshots in between, the compacting replica gives every answer that the full replica gives and ends as its compacted form |
| `Compaction.ReplyAppendAtIs` | src/RaftServer.cpp:646-697 | for every request the compacting replica becomes the compacted form of the full replica's new state, or of the adopted term alone when it rejects from below the snapshot |
| `Compaction.OnAppendResponseAtIs` | src/RaftServer.cpp:884-934 | for every reply it does as the full replica, except for where a rejection puts the peer's next index |
| `Compaction.ReplyVoteAtIs` | src/RaftServer.cpp:569-608 | a vote changes the same fields with or without the dropped entries, and is the same vote when the test looks at a history |
| `CompactingCluster.EventIsRealStep` | src/RaftServer.cpp:401-418 | every event of the cluster changes the compacted replica exactly as its handler does and sends the handler's messages: votes on any log, requests from below a snapshot and snapshots included |
| `CompactingCluster.RunIsReal` | src/RaftServer.cpp:401-418 | every step of every run is such a handler step on the compacted replicas |
| `CompactingCluster.RealAccessesInBounds` | src/RaftServer.cpp:833-911 | in every reachable state the compacted replicas take replies, build requests past their snapshot and hand up entries with every index in range |
| `CompactingCluster.RealLeaderCompleteness` | src/RaftServer.cpp:904-911 | a leader of a later term reaches as far as anything a compacted replica counts as committed, and committed entries that both still hold are the same |
| `CompactingCluster.VotesAreOnHistory` | src/RaftServer.cpp:232-247 | in every reachable state, for every request, a compacted replica votes as it would with the entries it dropped, and its log is empty only if it never held any |
| `EndToEnd.LabelsAreLate` | src/kvRaft.cpp:395-408 | the labels at which replicas compact are exactly those of the key-value layer: i is the label after i + 1 entries were handled, and it is below the last applied entry |
| `ClusterProof.RunKeepsDropped` | src/RaftServer.cpp:270-287 | no replica of a run ever loses or has not applied an entry it compacted away |
| `SnapshotInstall.SnapCommitIsBacked` | src/RaftServer.cpp:966-974 | after a snapshot was sent the commit index never falls; it rises only to an index that n - n/2 servers are listed for, inside the snapshot or of the current term, and passes over none that it may take |
| `SnapshotInstall.InstalledSnapshotIsSound` | src/RaftServer.cpp:778-796 | a kept tail belongs to a log that begins with exactly what the snapshot replaces, and the replica becomes the compacted form of that log, or of the snapshot alone |
| `SnapshotInstall.HeldSnapshotKeepsTailIff` | src/RaftServer.cpp:780-790 | a replica that holds everything in the snapshot keeps its later entries exactly when the last of them is of the snapshot's term |
| `SnapshotInstall.TailThrownAway` | src/RaftServer.cpp:782-784 | with entries of terms 1 and 2, a snapshot of the first throws the second away |
| `SnapshotInstall.SnapshotIsTakenIff` | src/RaftServer.cpp:756-808 | a snapshot is taken and handed up exactly when its term is not older and it reaches past the replica's own; a refused one at most makes the replica a follower of its term; the reply carries the term of before |
| `SnapshotInstall.SnapshotIsNoted` | src/RaftServer.cpp:955-974 | a reply of another term changes nothing; otherwise the peer is listed with the snapshot's end and a next index past the leader's log, the leader with its whole log, and all others as before |
| `RaftServer.Raft.constructor` | src/RaftServer.cpp:29-34 | a new replica has term 0, no vote, an empty log, next indexes 1 and match indexes 0 |
| `RaftServer.Raft.CheckLogUptodate` | src/RaftServer.cpp:232-247 | decides the vote test of the specification |
| `RaftServer.Raft.Start` | src/RaftServer.cpp:96-114 | refuses unless leader; else appends one entry and returns the last index before it, with the term |
| `RaftServer.Raft.BeginElection` | src/RaftServer.cpp:473-488 | a timed-out follower or candidate votes for itself without moving its term; a leader is unchanged |
| `RaftServer.Raft.FinishElection` | src/RaftServer.cpp:503-513 | the loop that makes a winner leader of the next term with every next index past its log and every match index 0; otherwise nothing changes |
| `RaftServer.Raft.BuildVoteRequest` | src/RaftServer.cpp:536-540 | the request names the term after the current one, the last index and the last term |
| `RaftServer.Raft.TakeVoteResponse` | src/RaftServer.cpp:547-564 | counts the reply and the vote, and steps down only for a term above the one asked for |
| `RaftServer.Raft.ReplyVote` | src/RaftServer.cpp:569-608 | the new state and the reply for every request: older, equal and newer terms, free or spent vote, log ahead or behind |
| `RaftServer.Raft.BuildAppend` | src/RaftServer.cpp:822-851 | the text loop sends exactly the entries past `prevLogIndex`, with their number and the term before them |
| `RaftServer.Raft.ScanDown` | src/RaftServer.cpp:915-922 | the downward loop finds the last index whose term is at most the reported one, or -1 |
| `RaftServer.Raft.TakeAppendResponse` | src/RaftServer.cpp:884-934 | the new state for every reply: stale, newer term, success, conflict found, conflict not found, short log |
| `RaftServer.Raft.AdvanceCommit` | src/RaftServer.cpp:904-911 | moves the commit index to element n/2 of the sorted table when that is an entry of the current term or inside the snapshot |
| `RaftServer.Raft.TakeSnapResponse` | src/RaftServer.cpp:955-974 | the tables and the commit index after a snapshot was sent |
| `RaftServer.Raft.ScanUp` | src/RaftServer.cpp:669-679 | the upward loop finds the first index of the conflicting term |
| `RaftServer.Raft.Overwrite` | src/RaftServer.cpp:682-689 | the two loops pop everything past `prevLogIndex` and push the received entries |
| `RaftServer.Raft.ReplyAppend` | src/RaftServer.cpp:611-697 | parses the text, then gives the state and reply of the specification for the parsed request; text that does not parse changes nothing |
| `RaftServer.Raft.TakeEntries` | src/RaftServer.cpp:681-696 | once the previous entry agrees, log and commit index become what the specification says |
| `RaftServer.Raft.ReplyAppendParsed` | src/RaftServer.cpp:626-697 | the state and reply for every parsed request: older term, below, at or past the snapshot, short log, conflict, success |
| `RaftServer.Raft.ApplyLog` | src/RaftServer.cpp:989-998 | the loop hands up every entry from the last applied to the committed one, in order, once |
| `RaftServer.Raft.RecvSnapShot` | src/RaftServer.cpp:270-287 | for every label: an older one changes nothing, one of a held entry drops the entries up to it and records its term, and any other, the current one included, reads `m_logs` out of range |
| `RaftServer.Raft.ReplyInstallSnap` | src/RaftServer.cpp:756-808 | the state, reply and hand-over for every snapshot request: older term, nothing new, kept tail, cleared log |
| `RaftServer.WireCarriesRequest` | src/RaftServer.cpp:833-836 | for a log free of ',' and ';' the parser gives the follower the entries the leader sent |
| `Text.AtoiOfIntText` | src/RaftServer.cpp:139-140 | `atoi` of `to_string` is the identity on all integers, negative ones included |
| `Text.AtoiReads` | src/RaftServer.cpp:139-140 | `atoi` passes over white space, takes a sign of either kind, and ends at the first character that is no digit |
| `Text.AtoiOfNoDigit` | src/RaftServer.cpp:139-140 | without a digit there the number is 0 |
| `Text.Tokenize` | src/RaftServer.cpp:123-130 | the token loop collects the nonempty pieces that a separator ends, and leaves the piece after the last one |
| `Text.ClosedFree` | src/RaftServer.cpp:123-130 | no token is empty or holds the separator |
| `Text.PiecesOfBoth` | src/RaftServer.cpp:123-130 | a separator between two texts puts their pieces side by side |
| `Text.ClosedAtMost` | src/RaftServer.cpp:123-130 | there is one piece more than separators, and no more tokens than separators |
| `Codec.AppendEntriesText` | src/RaftServer.cpp:833-836 | the sending loop writes the entries from a position on, and counts them |
| `Codec.CutAtComma` | src/RaftServer.cpp:132-143 | the loop over one token splits it at its first comma; without one there is no entry |
| `Codec.ParseTokens` | src/RaftServer.cpp:131-144 | the loop over the tokens gives one entry for each, in order |
| `Codec.ReadWire` | src/RaftServer.cpp:116-146 | the parser of wire text computes `GetCmdAndTerm` |
| `Codec.ReadOperation` | src/RaftServer.cpp:1013-1043 | the parser of a command computes `GetOperation` |
| `Codec.ReadState` | src/RaftServer.cpp:166-209 | the parser of persisted text computes `Deserialize` |
| `Codec.WireRoundTrip` | src/RaftServer.cpp:116-146 | the wire text of any entry list is read back exactly when no command holds ',' or ';' |
| `Codec.WireIsReadIff` | src/RaftServer.cpp:131-144 | any text is read exactly when every token has a comma; each entry's command is what is before the first comma of its token, its term the number after it |
| `Codec.CommandRoundTrip` | include/RaftServer.h:93-95 | `getCmd` is parsed back to its operation exactly when name and key are nonempty and free of blanks, and so is the value, except that a get has an empty one |
| `Codec.BlanksInValue` | src/RaftServer.cpp:1032-1039 | for any value, blanks included: a set is read back with the first word of its value, and a second and third word are taken for the ids; with none there is no operation |
| `Codec.SurplusWordsAreIgnored` | src/RaftServer.cpp:1032-1039 | whatever follows a complete command after a blank is not read |
| `Codec.ShortCommandIsRefused` | src/RaftServer.cpp:1017-1039 | with fewer than three blanks there is no operation, with three at most a get |
| `Codec.OperationSurvivesWire` | src/RaftServer.cpp:1013-1043 | an operation passes `getCmd`, the wire text and `GetOperation` unchanged exactly when it also has no ',' and ';' |
| `Codec.StateRoundTrip` | src/RaftServer.cpp:213-221 | the persisted text is read back exactly when no command holds ',', '.' or ';', for all terms, votes (-1 too), labels and entry lists (empty too) |
| `Codec.SurplusFieldsAreIgnored` | src/RaftServer.cpp:166-188 | further fields after those of a nonempty log are not read |
| `Codec.ShortStateIsRefused` | src/RaftServer.cpp:166-181 | with fewer than four separators there is no state |
| `Codec.DottedValueIsLost` | src/RaftServer.cpp:187-194 | a value with a '.' survives the wire, but a log holding it is not read back from the persisted text |
| `KvMachine.ReapplyIsIdle` | src/kvRaft.cpp:338-366 | applying an entry a second time at once changes nothing |
| `KvMachine.LateLabelRecovers` | src/kvRaft.cpp:302-366 | the state after entry k, replayed from entry k to m, is the state of a full replay to m |
| `KvMachine.OverlayReplacesIff` | src/kvRaft.cpp:120-135 | writing a snapshot over a state gives the snapshot exactly when the state has no key or client that the snapshot lacks |
| `KvMachine.MergeEqualsReplace` | src/kvRaft.cpp:120-135 | so it does on any node that is at most as far as the snapshot |
| `KvMachine.RecoveredNodeCatchesUp` | src/kvRaft.cpp:281-366 | a node at j <= k that takes the snapshot of k labelled k-1 and replays to m is in the state of a full replay |
| `KvMachine.RewindKeepsNewKeys` | src/kvRaft.cpp:126-134 | on a node already past the snapshot the overlay leaves newer keys behind |
| `KvMachine.SeqsHoldLast` | src/kvRaft.cpp:339-345 | the sequence map always holds the id of each client's last operation |
| `KvMachine.SeqsAreMaximaIff` | src/kvRaft.cpp:339-345 | it holds each client's maximum at every point of the log exactly when ids never decrease |
| `KvMachine.FreshIffUnseen` | src/kvRaft.cpp:350 | with ids in order an operation passes the test exactly when its (client, request) pair is new |
| `KvMachine.SeqsHoldLastBy` | src/kvRaft.cpp:339-345 | the map's entry of a client is the id of its last operation in the log |
| `KvMachine.FreshIsUnseenIff` | src/kvRaft.cpp:350 | the test tells a new operation from a repetition exactly when the client's previous one has a lower id just if this one is new |
| `KvMachine.SuppressionIsExactIff` | src/kvRaft.cpp:338-366 | over a whole log, exactly the new sets take effect if and only if every set is in step in that sense |
| `KvMachine.InOrderIsInStep` | src/kvRaft.cpp:338-366 | ids that never decrease keep every set in step |
| `KvMachine.InStepWithoutOrder` | src/kvRaft.cpp:338-366 | ids 3, 5, 3 are not in order and yet in step |
| `KvMachine.AtMostOnce` | src/kvRaft.cpp:338-366 | with every set in step the database is that of a machine without suppression that gets only first occurrences |
| `KvMachine.OutOfStepShows` | src/kvRaft.cpp:338-366 | a further set that changes its key's value keeps the two databases equal exactly when it is in step |
| `KvMachine.LowerFirstIsDropped` | src/kvRaft.cpp:350 | a new set with a lower id is dropped, and the databases differ |
| `KvMachine.LateCopyLetsCopyRun` | src/kvRaft.cpp:344-350 | with first requests all in order, a late copy of one lets a copy of the next overwrite another client's value |
| `KvMachine.RepetitionRunsIff` | src/kvRaft.cpp:344-350 | after an operation b of the same client and any operations of others, a repetition of a takes effect exactly when b's id is lower |
| `KvMachine.ReadIsLastFirstSet` | src/kvRaft.cpp:367-382 | with every set in step, a key's value is that of the last set of it that was not a repetition |
| `KvServer.OpContext.constructor` | src/kvRaft.cpp:13-18 | a new record carries the operation and term, is not ready and has no mark |
| `KvServer.OpContext.Settle` | src/kvRaft.cpp:330-388 | what handling an entry does to its waiter: term test, repetition mark, answer of a get, wake-up |
| `KvServer.KVServer.constructor` | src/kvRaft.cpp:20-25 | the server starts with empty maps, index 0 and nobody waiting |
| `KvServer.KVServer.Register` | src/kvRaft.cpp:151-164 | the request waits under the index `Start` returned, in a record of its own; everything else is unchanged |
| `KvServer.KVServer.FinishPut` | src/kvRaft.cpp:172-187 | the answer follows the wrong-leader mark; only a right leader removes the registration |
| `KvServer.KVServer.ReadAhead` | src/kvRaft.cpp:195-202 | the value under the key before `Start` is called, if any |
| `KvServer.KVServer.FinishGet` | src/kvRaft.cpp:222-234 | wrong leader, `isexist` and value of the answer from the record's marks and what was read ahead; the registration is always removed |
| `KvServer.KVServer.ApplyOperation` | src/kvRaft.cpp:304-390 | one entry: label, waiter, sequence map and database become what the specification says |
| `KvServer.KVServer.SettleWaiter` | src/kvRaft.cpp:314-388 | only the waiter under the entry's index changes |
| `KvServer.KVServer.HandleMessage` | src/kvRaft.cpp:281-390 | one message, snapshot or entry, is handled as specified |
| `KvServer.KVServer.RecoveryFromSnapShot` | src/kvRaft.cpp:120-135 | the two loops write the snapshot's entries over the maps and remove nothing |
| `KvServer.KVServer.GetSnapShot` | src/kvRaft.cpp:97-118 | the two loops copy both maps whole |
| `KvServer.KVServer.CheckSnapShot` | src/kvRaft.cpp:395-408 | the snapshot is the current state, labelled with the server's last applied index |
| `KvServer.SnapshotLabelIsLate` | src/kvRaft.cpp:305-308 | after any entries were handled, that label is one less than the index of the last of them, which is in the snapshot |
| `KvServer.LabelAfterRecovery` | src/kvRaft.cpp:281-299 | a server that takes a snapshot carries the snapshot's label until it handles an entry; an empty snapshot clears the maps and leaves the label; nobody waiting is touched |
| `KvServer.KVServer.ApplyLoop` | src/kvRaft.cpp:280-391 | the loop over the drained queue handles every message in order |
| `KvServer.HandleAllRuns` | src/kvRaft.cpp:302-390 | handling entries runs their operations on the machine, whoever waits, and leaves the label one below the last entry |
| `KvServer.RecoveryReplaysOneEntry` | src/RaftServer.cpp:383-387 | a node at j <= k that gets the snapshot of k and then, by its label, entry k again and all later ones, ends in the state of a full replay |
| `EndToEnd.HandedUpWasStarted` | src/RaftServer.cpp:104-111 | in every run each entry handed up was accepted by `Start` in its term, and lands one index after the one `Start` returned |
| `EndToEnd.ReplicasAgree` | src/kvRaft.cpp:302-381 | of two replicas at any two moments of a run, the one that applied more went through the other's state; with equally many entries the databases and sequence maps are equal |
| `KvServer.WaiterStays` | src/kvRaft.cpp:304-388 | while other entries are handled and other requests come and go, a waiter is untouched and the machine runs exactly those entries |
| `KvServer.MarksStay` | src/kvRaft.cpp:314-388 | whatever is handled while a request is registered, its own entry handed up again included, no mark is taken back |
| `EndToEnd.WaiterGetsItsAnswer` | src/kvRaft.cpp:151-388 | in every run, after a step in which `Start` answered yes and the request was registered under that answer, through all entries before its own and other requests in between, it is woken by its entry, marked wrong-leader exactly when the term is not the answered one; otherwise the entry is its own operation, a set is marked a repetition exactly when the same request came before, and a get carries the last effective set of its key before it |

## Left out

- Generated protobuf and gRPC code, `src/RaftRPC.cpp` and the `.proto` files: messages are plain records.
- Sockets, the TCP server, `HandleMessage` framing, `src/client.cpp`, logging and the test drivers: only input and output.
- Threads, locks, condition variables, timers and random timeouts: atomic steps in any order instead; `ThreadPool_` is a plain queue.
- Files and the restart path: only the text that `Serialize` and `Deserialize` exchange is modelled, not buffers, truncation or `ReadRaftState`.
- The size threshold of `ExceedLogSize`, and that `CheckSnapShotLoop` skips a snapshot of two empty maps.
- Leader bookkeeping after `SendInstallSnapshot` inside the cluster: the tables and the commit arithmetic are modelled in the class, but no cluster theorem covers a next index at the leader's end with the match at the snapshot; its step-down branch is unreachable and omitted.
- Snapshots that rewind a node already past them: `RewindKeepsNewKeys` shows why there is no clean statement.
- The empty `del` path.
- Waiters that are never woken, overwritten by a later request under the same index, or left dangling after a wrong leader.
- Liveness of elections, and everything that depends on real time.
- 32-bit overflow of terms, indexes, ids and `atoi`.
- EndToEnd.WaiterGetsItsAnswer: the value of a get is stated for logs in which every set is in step, because otherwise repetitions may run; `SuppressionIsExactIff` and `LateCopyLetsCopyRun` say when.
- Compaction.CompactedRunRefines: compares one replica's answers with the full replica's, so it covers runs in which they can agree: no request from or to below the snapshot that the full log would accept or send (`VerdictAgreesIff`), and no rejection whose scan ends inside the snapshot away from the hint (`NextIndexAgreesIff`). Conflict indexes of rejections are not compared, because they are coarser (`RejectHintIsCoarser`). The cluster theorems cover all of these.
- RaftServer.WireCarriesRequest: one direction only, for the whole log; `WireRoundTrip` has both directions for the entries sent.
