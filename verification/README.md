# A sharded bank on Raft and two-phase commit

The bank keeps its accounts in shards.  Each shard lives on a cluster of three
servers that replicate transfers with Raft, after sections 5.2 and 5.3 of "In
Search of an Understandable Consensus Algorithm (Extended Version)".  A routing
service coordinates transfers between shards with two-phase commit.  This
project models the server's message handlers, the routing service's coordinator
and the text of log commands, and proves what the whole system keeps over whole
runs.

## Layout

| files | content |
|---|---|
| Types, Handlers | data, and every message handler as a function from a server to its outcome |
| RaftServer, RoutingService | the same handlers as the objects they are in the program, with fields updated in place; every method is proved to do what its function says |
| Requests, Admission | what a client request does to a server, and exactly when it is taken |
| Cluster, Election, Votes, LogSafety, Replication, LogMatching, Money | layer A: one cluster in any asynchronous run, with loss, reordering, repetition and any leader changes |
| Leader, Solvency, Replies, Epoch, Reign, Service, Bounds, Repair, Bridge | layer B: the reign of one stable leader, with execution, locks and replies |
| Coordinator, Numbering, LateExpiry, Answers | layer C: the two-phase-commit coordinator, one segment between two awaits at a time |
| World, Atomicity | layers B and C together: any number of clusters and transactions |
| CommandText | layer D: log commands as printed text |
| Scenarios | runs of a cluster, from boot through its first election, that go wrong where an assumption fails |

## What the model assumes of its surroundings

The code relies on the following, and so do the theorems that name them.

- Server ids are positions in the cluster (`server_id % 3`).  The `req_fd`
  column of the log is a sequence of its own beside the log.
- A missing key of the balance or lock table reads as 0 or unlocked, as with
  `operator[]` of `unordered_map`.
- In layer A a broadcast needs matched sizes that are not negative; overlapping
  failure responses could lower them further
  (server/src/excutor/appendEntriesExecutor.cpp:141).  Under the round
  discipline of layer B this is proved (`BeatAlwaysPossible`).
- In layer B a heartbeat round's messages are delivered once or lost before the
  next broadcast: responses carry neither a round nor an index, and
  `log_granted_num_` is never reset.  `OverlappingRoundsCommitAlone` and
  `LateRequestPaysTwice` show runs that go wrong otherwise.
- Intra-shard and PREPARE requests reach only the leader, since the executors do
  not look at the role; COMMIT and ABORT may reach any server.
- Requests are well formed: accounts belong to the named clusters and amounts
  are not negative.  Each request comes on a connection of its own.
- A prepare resolves once at the coordinator: by a response, a timeout or expiry
  in the queue.  LateExpiry drops this assumption: there the timer may expire any
  prepare that was sent, answered or not, beside the coroutine that awaits it.
- `process_message_queue` runs in a thread of its own.  The model lets its run
  over one cluster's queue be one step, so it leaves out that the thread
  interleaves with the event loop inside a segment, and that a request which is
  queued while the job broadcasts is lost when it assigns the new queue
  (client/routingservice.py:392).
- A reign starts from any state that meets its invariant.  `FirstReign` shows
  that the first election leads to one.  A later leader need not meet all of it:
  it inherits pending entries without their locks (`LaterLeaderHasNoLocks`), and
  `NewLeaderLocks` says exactly when its locks are exact.  `ReignBegins` shows that every later
  leader meets the log part of it if the COMMITs and ABORTs that reached other
  servers than leaders fit the logs of the run so far; that its own log holds no
  entry of term -1 is shown only for runs with requests at leaders.
- The bank starts with clusters under their leaders, intra-shard entries only,
  and a coordinator that has seen no transaction.  `OpenedStarts` shows that the
  first elections lead there, for any number of clusters and any balances.

A server that pretends to fail takes no step.  The quorum is the literal two of
three, a vote response names no voter for the count, `voted_for_` is reset only
by a vote request of a higher term, and COMMIT and ABORT entries off the leader
carry term -1, all as in the code.

The methods of `RaftServer` ask for indices in range where the C++ code indexes
its vectors unguarded.  `IndexSafety` proves this of every message and every
leader of every run, except that matched sizes are not negative, which is the
assumption on broadcasts above; so no other call of the handlers is shut out.

Where the code and its documentation differ, the model follows the code.
The repository names the Raft paper as what it implements.  The paper's section
5.4.1 compares logs in every election; the code compares them only when the
terms are equal, and by index alone
(server/src/excutor/requestVoteExecutor.cpp:11).  The paper's follower takes the
larger commit index; the code assigns the leader's
(server/src/excutor/appendEntriesExecutor.cpp:71-73).  The header says
`log_granted_num_` counts the replications of a term
(server/include/raftState.hpp:39); it counts those of all terms.

## Properties that the code does not have

Each comes with an input that shows it, and with the condition under which the
property holds.

| property | counterexample | holds when |
|---|---|---|
| Log Matching with COMMIT or ABORT at followers | `FollowerAppendsBreakLogMatching` | exactly as in `LogMatchingExactly` over whole runs, `FollowerAppendExactly` for one request |
| no overdraft with debiting COMMITs | `DebitCanOverdraw` | exactly as in `NoOverdraftExactly` over whole reigns, `CommitOverdrawsExactly` for one COMMIT and what is logged then |
| exact locks at every leader | `LaterLeaderHasNoLocks` | exactly as in `NewLeaderLocks`, for a server that leads for the first time |
| a delayed append request pays nothing twice | `LateRequestPaysTwice` | exactly as in `LateRequestHarmsExactly` |
| expiring a prepare that was sent is harmless | `TwoResolutionsBreakIt` | exactly as in `LateExpiryHarmsExactly`, over all continuations that include the expired prepare's own answer |
| the client of a transfer gets one final answer | `TwoFinalAnswers` | exactly as in `OneFinalAnswer`, over whole runs in which each prepare resolves once |
| a majority holds what is Raft-committed, with overlapping rounds | `OverlappingRoundsCommitAlone` | in every reign (`MajorityDurability`); this is one way only |

In `LogMatchingExactly` and `FollowerAppendExactly` a request counts only when
the server will log it, which its log tells beforehand.  An entry fits another
log that is no longer than its own place, or holds another term there, or holds
the very same entry after the same entries; the last case is agreement itself at
the one new index.

## Model

| member | source | states |
|---|---|---|
| `Election.ElectionSafety` | server/src/excutor/requestVoteExecutor.cpp:11-51 | In every run, whenever two servers lead the same term, even at different moments, they are one server |
| `Election.ElectionStep` | server/src/aIOServer.cpp:36-40 | Every step keeps the voting invariant: a server stands by one candidate per term, a candidate holds one vote, a leader has its own vote and another's; nothing recorded is overwritten |
| `Votes.MessagesTrue` | server/src/aIOServer.cpp:54-104 | In every run each vote request and each heartbeat was true of its sender when it was sent: position and term of its last entry, the stretch of the log quoted from the matched size to the end, the term before it, the commit index |
| `Votes.VotesForLonger` | server/src/excutor/requestVoteExecutor.cpp:11-28 | In every run a granted vote answers a request of its term, and if the voter was in that term already, the candidate's log was longer than the voter's |
| `Votes.VoteExactly` | server/src/excutor/requestVoteExecutor.cpp:11-35 | A vote is granted exactly when the request's term is higher, or it is the voter's own, nobody has the vote and the candidate's last position is not below the voter's log size; a refusal changes nothing |
| `Votes.TimeoutExactly` | server/src/aIOServer.cpp:169-177 | Off the leader a timeout makes a follower that heard a heartbeat wait once more, and any other server stand in the next term, asking exactly the two others |
| `Votes.HeartbeatExactly` | server/src/aIOServer.cpp:80-104 | A heartbeat goes to exactly the two others, quoting the log to each from its matched size on, and sets the coming commit index to the end of the log |
| `Votes.VoteRspExactly` | server/src/excutor/requestVoteExecutor.cpp:38-51 | The whole state after a vote response, by whether it wins, deposes, or finds a leader, and what is then broadcast |
| `Votes.LeaderStarts` | server/src/excutor/requestVoteExecutor.cpp:41-44 | A server begins to lead only by a granted vote of the term in which it stands, with all matched sizes at its own log size, and tells both others at once |
| `LogSafety.IndexSafety` | server/src/excutor/appendEntriesExecutor.cpp:30-73 | In every run every entry sits at its own index, the commit index is below the log size even after a truncation, and a leader keeps commit <= coming < log size and matched sizes <= log size |
| `LogSafety.ReignCommitGrows` | server/src/excutor/appendEntriesExecutor.cpp:88-141 | While a server stays leader its commit index does not fall, its term stays and its log only grows |
| `LogSafety.RequestMoves` | server/src/excutor/appendEntriesExecutor.cpp:19-81 | When an append request is answered with success, and what it then does to log, commit index, term, role and balances; rejected, none of log, commit index and balances moves |
| `LogSafety.ResponseMoves` | server/src/excutor/appendEntriesExecutor.cpp:83-149 | A response never touches the log; it pays exactly the entries between the old and the coming commit index or nothing; it moves its sender's matched size only in the leader's own term |
| `Replication.RequestExactly` | server/src/excutor/appendEntriesExecutor.cpp:19-78 | Exactly when an append request succeeds, and the whole state after it: the log is left alone or cut at the first conflict and continued, no client waits on copied entries, each account moves by the entries between the commit indices |
| `Replication.ResponseExactly` | server/src/excutor/appendEntriesExecutor.cpp:84-149 | Exactly when a response commits (a success of the leader's term, the second since boot or later, with the last broadcast entry of that term), and the whole state after it: accounts paid, locks freed, connections cleared, matched size |
| `Replication.CommitsOwnTerm` | server/src/excutor/appendEntriesExecutor.cpp:88 | In every run, whenever a leader's commit index moves it moves forward to the end of the broadcast by a success, and the entry there is of the leader's own term |
| `Handlers.FirstMismatch` | server/src/excutor/appendEntriesExecutor.cpp:37-48 | The search stops at the first received entry that the log lacks or holds with another term, and at no earlier one |
| `LogMatching.LogMatchingTheorem` | server/src/excutor/appendEntriesExecutor.cpp:30-59 | In every run with requests at leaders only: two logs, of any moments, with the same term at the same index are identical through that index |
| `LogMatching.LogMatchingExactly` | server/src/excutor/crossShardExecutor.cpp:92-100 | In every run in which COMMIT and ABORT may reach any server: all logs of all moments match exactly when no such request, off the leader, logs its entry of term -1 where a log of the run so far holds another one |
| `LogMatching.MergeAgrees` | server/src/excutor/appendEntriesExecutor.cpp:35-59 | Accepting a stretch of an agreeing log leaves the log as it was or makes it that log's prefix; either way it begins with it |
| `Bridge.FollowerAppendsBreakLogMatching` | client/routingservice.py:307-314 | A run in which two COMMITs that are broadcast to a cluster with a leader reach its two followers in different order, and their logs no longer match |
| `LogMatching.FollowerAppendExactly` | server/src/excutor/crossShardExecutor.cpp:139-147 | A COMMIT or ABORT keeps agreement with another log exactly when it is for another cluster or was logged before, or its entry fits that log |
| `Money.Conservation` | server/src/excutor/appendEntriesExecutor.cpp:62-68 | On every server in every run: the shard total is the initial one plus what executed COMMITs carried across the border, even if a range is paid twice |
| `Money.FoldTotal` | server/src/excutor/appendEntriesExecutor.cpp:110-117 | Paying any stretch of local intra-shard entries keeps the shard total |
| `Money.MissingAccount` | server/include/raftState.hpp:43-44 | An account that is in neither table has nothing, is not locked, and holds exactly its first credit after it |
| `Requests.ClientGrows` | server/src/aIOServer.cpp:268-285 | Any client request changes nothing or appends exactly its own entry, with the term, index and id it should have, at a cluster it concerns; it sends no message and keeps every Raft variable |
| `Admission.IntraExactly` | server/src/excutor/intraShardExecutor.cpp:12-53 | A leader logs an intra-shard transfer exactly when no pending entry touches its accounts, the balance that follows from the log covers it, and its id is new; otherwise FAIL and no change |
| `Admission.PrepareExactly` | server/src/excutor/crossShardExecutor.cpp:15-73 | A leader logs a PREPARE exactly when no pending entry touches its accounts of this shard, a sender of this shard can pay, and its id was neither prepared nor aborted; otherwise NO and no change |
| `Admission.CommitExactly` | server/src/excutor/crossShardExecutor.cpp:76-120 | A COMMIT is acknowledged always, and logged with its effect on the local accounts exactly when the log has none of its id |
| `Admission.AbortExactly` | server/src/excutor/crossShardExecutor.cpp:123-155 | An ABORT is acknowledged always, and logged exactly when the log has none of its id |
| `Leader.ClientKeeps` | server/src/excutor/intraShardExecutor.cpp:12-53 | Any well-formed request at a leader keeps: an account is locked exactly when a pending entry touches it, no two pending entries share an account, balances follow the log, ids are used once per phase |
| `Leader.PrepareKeeps` | server/src/excutor/crossShardExecutor.cpp:15-73 | The same for a PREPARE, which also leaves the lock of every account of other shards as it was |
| `Leader.CommitKeeps` | server/src/excutor/crossShardExecutor.cpp:76-108 | The same for a COMMIT: balances stay a function of the log, each id counted once however often COMMIT arrives |
| `Leader.AbortKeeps` | server/src/excutor/crossShardExecutor.cpp:123-147 | The same for an ABORT: one entry per id, and it shuts out a later PREPARE |
| `Leader.AppendRspKeeps` | server/src/excutor/appendEntriesExecutor.cpp:86-117 | Raft-committing keeps the same invariant: it frees exactly the accounts of the committed entries and pays exactly those entries |
| `Leader.ClientBalances` | server/src/excutor/crossShardExecutor.cpp:102-108 | A request moves each account by the local effect of the entry it logs, which is nothing unless that is a COMMIT, and not at all when it logs none |
| `Leader.FoldIsSum` | server/src/excutor/appendEntriesExecutor.cpp:110-117 | The commit loop moves an account by the sum of the credits minus the debits of the entries it runs over |
| `Leader.ReleaseHeld` | server/src/excutor/appendEntriesExecutor.cpp:96-97 | After the commit loop an account is locked exactly when it was and no committed entry named it |
| `Solvency.BatchSolvent` | server/src/excutor/appendEntriesExecutor.cpp:110-117 | At every moment inside a commit no local balance is negative and what is still pending stays covered |
| `Solvency.ClientSolvent` | server/src/excutor/intraShardExecutor.cpp:12-22 | Any request that is no debit, or a covered one, keeps all balances non-negative and every pending transfer covered by its sender |
| `Bounds.NoOverdraftExactly` | server/src/excutor/crossShardExecutor.cpp:102-108 | Over a whole reign no balance is ever negative, nor would be after committing what is logged up to any point, exactly when every debiting COMMIT is covered when it arrives |
| `Bounds.NoOverdraft` | server/src/excutor/appendEntriesExecutor.cpp:110-117 | In every reign whose debiting COMMITs are covered, also between two entries of a commit, each balance is between 0 and the shard total, which is the initial total plus what COMMITs brought in or took out |
| `Bounds.TotalFollowsLog` | server/src/excutor/crossShardExecutor.cpp:102-108 | A leader's shard total is the initial one plus the net of the COMMIT entries of its log |
| `Scenarios.DebitCanOverdraw` | server/src/excutor/appendEntriesExecutor.cpp:92-97 | A run in which PREPARE's lock falls, the sender's money is promised again, and the COMMIT leaves nothing for that pending transfer: the leader's balance ends at -10 |
| `Solvency.CommitOverdrawsExactly` | server/src/excutor/crossShardExecutor.cpp:102-108 | A COMMIT leads to no negative balance, at once or when the entries logged are committed up to any point, exactly when it is a repetition, debits no local account, pays an account to itself, or the sender can pay it and its pending transfer to another account together |
| `Replies.AnswersSpec` | server/src/excutor/appendEntriesExecutor.cpp:99-127 | The replies of a commit each answer one entry of the batch, no two on one connection |
| `Replies.CommitAnswers` | server/src/excutor/appendEntriesExecutor.cpp:90-136 | Every reply of a commit goes to the connection waiting on an entry that enters the committed prefix with it, with that entry's id and the result of its kind |
| `Replies.CommitAnswersAll` | server/src/excutor/appendEntriesExecutor.cpp:99-127 | A commit answers every client that waits on one of its entries, a PREPARE with YES and a transfer with SUCCESS |
| `Replies.AnswersInOrder` | server/src/excutor/appendEntriesExecutor.cpp:90-128 | The replies of a commit are those of its waiting entries that hold locks, one each, in the order of the log |
| `Replies.ClientReplies` | server/src/excutor/crossShardExecutor.cpp:15-65 | A request on a fresh connection keeps: no connection answered twice, none both answered and waiting, SUCCESS and YES only for Raft-committed entries |
| `Replies.AppendRspReplies` | server/src/excutor/appendEntriesExecutor.cpp:90-136 | Raft-committing keeps the same |
| `Replies.RefusalChangesNothing` | server/src/excutor/intraShardExecutor.cpp:12-37 | A request gets at most one immediate reply; FAIL or NO leaves the server as it was; unanswered it was dropped or waits on its entry |
| `Epoch.EpochKeeps` | server/src/aIOServer.cpp:80-104 | Every step of a stable leader's cluster keeps: each follower's log agrees with the leader's, what it committed is a prefix of what the leader did, each message of the round quotes the leader truly, and some follower holds all the leader committed |
| `Epoch.HearReqFollower` | server/src/excutor/appendEntriesExecutor.cpp:30-73 | An accepted request of the round brings the follower's log up to the leader's as of the broadcast and never takes away a shared prefix; a rejected one means the matched size can still go down |
| `Epoch.HearRspLeader` | server/src/excutor/appendEntriesExecutor.cpp:86-142 | The commit index advances only when the sender holds everything up to it |
| `ReignRuns.ReignKeeps` | server/src/excutor/appendEntriesExecutor.cpp:83-142 | Throughout every reign the invariants of replication, locks, balances, ids and replies hold at once |
| `Service.AdmittedServed` | server/src/excutor/appendEntriesExecutor.cpp:90-136 | Throughout a reign every admitted request keeps its entry at its place; its client waits as long as that is not Raft-committed, and has its YES or SUCCESS as soon as it is |
| `ReignRuns.BeatAlwaysPossible` | server/src/aIOServer.cpp:80-104 | In a reign no matched size is ever negative, so the leader can always broadcast |
| `ReignRuns.MajorityDurability` | server/src/excutor/appendEntriesExecutor.cpp:86-138 | What the leader has Raft-committed begins, from then on, its log and that of one and the same follower |
| `ReignRuns.ReignForward` | server/src/excutor/appendEntriesExecutor.cpp:37-59 | Over any stretch of a reign the leader's log and commit index only grow, and no follower loses a prefix it shares with the leader |
| `ReignRuns.ReplicaAgreement` | server/src/excutor/appendEntriesExecutor.cpp:61-73 | At every moment of a reign, whatever its replicas did before, a follower's committed log is a prefix of its leader's and the intra-shard part of its balances is that prefix's fold; once it committed anything in the reign, both are the leader's as of some moment so far |
| `ReignRuns.SameCommitAgrees` | server/src/excutor/appendEntriesExecutor.cpp:61-73 | Two followers that ever hold the same commit index in a reign, at whatever moments, have the same committed log and the same intra-shard balances, whatever COMMITs they took directly before or in it |
| `ReignRuns.LatePrepareRefused` | server/src/excutor/crossShardExecutor.cpp:42-52 | Once the leader logged the ABORT of an id, every later PREPARE of it is answered NO and changes nothing |
| `Repair.RepairTerminates` | server/src/excutor/appendEntriesExecutor.cpp:138-142 | From any follower log that agrees by terms, at most matched size + 1 answered rounds make the follower's log begin with the leader's whole log |
| `Repair.RoundProgress` | server/src/raftState.cpp:16-22 | One answered round brings the follower up to the leader's whole log, or lowers the matched size by one and changes no log, commit index or balance |
| `Repair.AppendIdempotent` | server/src/excutor/appendEntriesExecutor.cpp:37-73 | Handling the same append request twice leaves the server as after once, for any request and any state |
| `Repair.LateAppendKeeps` | server/src/excutor/appendEntriesExecutor.cpp:37-59 | A late, shorter request of the same leader takes away nothing that is shared with the leader's log and never shortens a prefix of it |
| `Scenarios.LateRequestPaysTwice` | server/src/excutor/appendEntriesExecutor.cpp:61-73 | A run in which a late request lowers the follower's commit index, and the next one pays the same transfer again |
| `Repair.LateRequestHarmsExactly` | server/src/excutor/appendEntriesExecutor.cpp:61-73 | At a follower of a reign, for any accepted request of its leader, however late: the balances stay what the committed prefix and the COMMITs taken directly say exactly when the commit index does not fall, or the entries taken out of the committed prefix move no account |
| `Bridge.ReignBegins` | server/src/excutor/requestVoteExecutor.cpp:41-45 | In a run in which decisions off the leader fit the logs so far, every leader meets the log part of the reign's invariant with every server; with requests at leaders only, its log also has no entry of term -1 |
| `Bridge.FirstElection` | server/src/aIOServer.cpp:307-316 | A run that elects the first leader, who broadcasts at once |
| `Bridge.FirstReign` | server/src/raftState.cpp:3-6 | That leader, with the messages so far lost, starts a reign with every invariant |
| `Scenarios.OverlappingRoundsCommitAlone` | server/src/excutor/appendEntriesExecutor.cpp:86-90 | A run in which responses of an earlier round make a leader Raft-commit an entry that no other server has |
| `Scenarios.LaterLeaderHasNoLocks` | server/src/excutor/appendEntriesExecutor.cpp:50-59 | A run in which a follower takes over a pending transfer and is elected without its locks |
| `Bridge.NewLeaderLocks` | server/src/excutor/requestVoteExecutor.cpp:41-45 | In any run, a server that leads for the first time has exact locks exactly when none of its pending entries touches an account of the shard |
| `Bridge.NeverLedNoLocks` | server/src/excutor/crossShardExecutor.cpp:67-73 | In any run, a server that has not led before holds no lock |
| `Coordinator.DecisionConsistency` | client/routingservice.py:256-291 | Over every interleaving at the awaits, for any number of transactions: COMMIT is broadcast exactly for the ids with two YES, no id ever gets both COMMIT and ABORT, the client is told success only for a committed id and never both outcomes |
| `Coordinator.CoordKeeps` | client/routingservice.py:264-291 | Each segment keeps the counting invariant and takes no decision back |
| `Numbering.IdsUnique` | client/routingservice.py:151-186 | Over every run requests of both kinds are numbered 1, 2, 3 and so on as they come, so no two carry the same id |
| `Numbering.TransferRecorded` | client/routingservice.py:184-202 | What stands under an id, ever after, is the transfer that was asked for |
| `LateExpiry.LateExpiryHarmsExactly` | client/routingservice.py:385-391 | At any moment of any run, also after other late expiries: when a prepare that was sent expires in the queue, some continuation gives its id both COMMIT and ABORT exactly when it is committed, or its counter and the answers still awaited, this prepare's own among them, can make two |
| `LateExpiry.LateDecisionConsistency` | client/routingservice.py:256-291 | Over every interleaving with any number of late expiries: if each comes when its id can no longer commit, no id ever gets both COMMIT and ABORT |
| `LateExpiry.LateKeeps` | client/routingservice.py:264-291 | Every step with late expiries keeps the counting invariant: the counter never exceeds the YES given, two means committed, and -1 means aborted |
| `Answers.OneFinalAnswer` | client/routingservice.py:323-359 | Over every run in which each prepare resolves once: the client is told the decision and nothing else; when both sides are done it was told once, or twice exactly when a second negative outcome came while the first one's ABORT was under way |
| `Answers.TwoFinalAnswers` | client/routingservice.py:330-359 | A run in which both prepares are answered NO before the first ABORT is over, and the client is told twice |
| `Answers.AnswersCount` | client/routingservice.py:287-291 | At every moment the answers given are the broadcasts begun less those still under way |
| `Answers.ToldExactly` | client/routingservice.py:323-359 | A transaction is remembered as told success or abort exactly when such an answer was given |
| `LateExpiry.TwoResolutionsBreakIt` | client/routingservice.py:118-131 | A run in which a prepare that was drained and sent expires, and its YES during the ABORT broadcast brings the COMMIT as well |
| `World.BankKeeps` | client/routingservice.py:184-216 | Every step of the bank keeps: cross-shard entries of every leader stem from transactions of that cluster, COMMIT and ABORT entries from decisions, counted YES from YES answers |
| `Atomicity.AtomicCommit` | server/src/excutor/crossShardExecutor.cpp:74-100 | Once any leader has logged the COMMIT of an id, the leaders of both its clusters hold the PREPARE of the same transfer Raft-committed; before and after, in the whole run, no ABORT of it is broadcast or logged by a leader |
| `Atomicity.CommitMeansPrepared` | client/routingservice.py:270-278 | A decision to commit implies both PREPAREs, with the transaction's own accounts and amount, are Raft-committed |
| `Atomicity.MoneyAccounted` | server/src/excutor/crossShardExecutor.cpp:102-108 | At every moment of every run of the bank the money of all shards is the initial amount plus, for each transaction, its amount if the receiver's leader logged the COMMIT, less its amount if the sender's leader did |
| `Atomicity.MoneyConserved` | server/src/excutor/crossShardExecutor.cpp:102-108 | Whenever both leaders of each transaction have logged the same COMMITs, the money of all shards together is the initial amount, whatever decisions are still on their way to both |
| `Atomicity.NetIsGaps` | server/src/excutor/crossShardExecutor.cpp:103-108 | Summed over clusters, what their logs bring in is the gap of each transaction, counted once per id |
| `Atomicity.OpenedStarts` | server/src/raftState.cpp:3-6 | The clusters after their first elections, with an idle coordinator, are a start of the bank |
| `Atomicity.LogNet` | server/src/excutor/crossShardExecutor.cpp:77-100 | The COMMIT entries of a leader's log bring in exactly the net of the distinct transactions they name |
| `CommandText.CommandRoundTrip` | server/src/excutor/appendEntriesExecutor.cpp:91-113 | For all numbers, an intra-shard or PREPARE command that is printed and read back is the same command |
| `CommandText.PrintedKind` | server/src/excutor/crossShardExecutor.cpp:29-53 | The prefix tests recognise every printed command as what it is |
| `CommandText.PrintedText` | server/src/excutor/crossShardExecutor.cpp:61 | The texts of one command of each kind, character by character |
| `CommandText.ClassifyByPrefix` | server/src/excutor/appendEntriesExecutor.cpp:91-92 | The prefix tests on any text whatever: intra-shard exactly when it does not begin with a bracket, the others by their words |
| `CommandText.ReadIntPrinted` | server/src/excutor/intraShardExecutor.cpp:45 | A printed number, positive or negative, is read back whole before any text that does not begin with a digit |
| `ServerObject.RaftServer.constructor` | server/src/raftState.cpp:3-6 | A server at boot |
| `ServerObject.RaftServer.LastLog` | server/src/raftState.cpp:8-14 | The index and term of the last entry, -1 for an empty log; with numbered logs the index is the log size less one (`Votes.LastEntry`) |
| `ServerObject.RaftServer.BroadcastVote` | server/src/aIOServer.cpp:36-67 | The loop asks each of the two other servers once, in the new term, with the last entry |
| `ServerObject.RaftServer.OnVoteReq` | server/src/excutor/requestVoteExecutor.cpp:5-35 | The grant rule in place |
| `ServerObject.RaftServer.CountVote` | server/src/excutor/requestVoteExecutor.cpp:37-54 | The count, and becoming leader, in place |
| `ServerObject.RaftServer.HeartbeatFor` | server/src/aIOServer.cpp:86-104 | The request for one follower quotes the log from its matched size on |
| `ServerObject.RaftServer.Heartbeat` | server/src/aIOServer.cpp:69-105 | The loop sends one request to each of the two other servers; only the coming commit index changes |
| `ServerObject.RaftServer.OnVoteRsp` | server/src/aIOServer.cpp:307-316 | A leader broadcasts at once after a vote response |
| `ServerObject.RaftServer.OnTimeout` | server/src/aIOServer.cpp:169-181 | The three transitions on a timeout |
| `ServerObject.RaftServer.Replicate` | server/src/excutor/appendEntriesExecutor.cpp:35-59 | Search, pop and push leave the log merged as specified, with no connection waiting on copied entries |
| `ServerObject.RaftServer.CommitUpTo` | server/src/excutor/appendEntriesExecutor.cpp:61-73 | The follower's loop pays exactly the intra-shard entries of the range, none if the index falls |
| `ServerObject.RaftServer.OnAppendReq` | server/src/excutor/appendEntriesExecutor.cpp:12-81 | The whole request handler in place |
| `ServerObject.RaftServer.CommitComing` | server/src/excutor/appendEntriesExecutor.cpp:90-136 | The leader's loop unlocks, pays, answers and clears connections entry by entry as specified for the whole range |
| `ServerObject.RaftServer.OnAppendRsp` | server/src/excutor/appendEntriesExecutor.cpp:83-152 | The whole response handler in place |
| `ServerObject.RaftServer.OnIntra` | server/src/excutor/intraShardExecutor.cpp:9-54 | Admission by lock, balance and the scan for the id; then entry and both locks |
| `ServerObject.RaftServer.OnPrepare` | server/src/excutor/crossShardExecutor.cpp:12-73 | The same for PREPARE |
| `ServerObject.RaftServer.OnCommit` | server/src/excutor/crossShardExecutor.cpp:74-120 | COMMIT: scan, entry, local balances, acknowledgement |
| `ServerObject.RaftServer.OnAbort` | server/src/excutor/crossShardExecutor.cpp:121-156 | ABORT: scan, entry, acknowledgement |
| `ServerObject.RaftServer.OnClient` | server/src/aIOServer.cpp:267-285 | The dispatch drops requests for other clusters |
| `RoutingObject.RoutingService.HandleIntra` | client/routingservice.py:151-176 | The next id; sent, or appended to its cluster's queue, by whether that has a leader |
| `RoutingObject.RoutingService.HandleCross` | client/routingservice.py:184-210 | The next id and a counter of 0; the prepare is sent to the sender's cluster, or appended to that cluster's queue |
| `RoutingObject.RoutingService.HandleReceiver` | client/routingservice.py:212-216 | The same for the receiver's cluster, after the sender's side |
| `RoutingObject.RoutingService.OnYes` | client/routingservice.py:270-278 | COMMIT starts with the second YES only |
| `RoutingObject.RoutingService.OnNegative` | client/routingservice.py:259-268 | ABORT starts unless the counter is already -1 |
| `RoutingObject.RoutingService.GiveUp` | client/routingservice.py:290-291 | The counter becomes -1 only after the broadcast |
| `RoutingObject.RoutingService.ProcessQueue` | client/routingservice.py:374-392 | The loop over one cluster's queue keeps exactly the young requests in order and runs the expiry of each old cross-shard one |
| `RoutingObject.RoutingService.ProcessQueues` | client/routingservice.py:367-373 | The loop over all clusters does this to every queue in turn |
| `RoutingObject.ExpiryKeeps` | client/routingservice.py:374-392 | The timer job keeps the coordinator's invariant and every decision, aborts every expired cross-shard request, tells its client and sets its counter to -1, commits nothing, and leaves all other prepares awaited and all other counters as they were |
| `RoutingObject.KeptInOrder` | client/routingservice.py:374-378 | The requests that stay queued are exactly those younger than three seconds, in the order in which they came |

## Left out

- ProcessQueue: is one step of one thread, while the source's job runs beside the event loop and overwrites requests queued meanwhile; what its segments do between others' is in LateExpiry.
- ProcessQueues: takes all queues in one step, for the same reason.
- ExpiryKeeps: speaks of that one step, for the same reason; `DecisionConsistency` and `LateDecisionConsistency` hold over all interleavings of its segments.
- The io_uring event loop (server/src/asyncIO.cpp) and sockets: only message delivery and timeout steps remain.
- Loading and dumping of shard files (`load_data_shard`, `update_data_shard`): the initial table is a parameter, and what is on disk has no effect on decisions.
- Protobuf messages and the serializers: messages are datatypes.
- The client's prompt, its handler and socket helpers, process launch and scripts.
- The print executors, except that their loop bound is covered by index safety.
- Latency counters and all console output.
- Real time: election timeouts and message timeouts are steps that may happen at any moment; only the queue's three seconds are a parameter of the timer job.
- The routing service's table of leaders and the heartbeats and vote requests sent to it: whether a cluster has a leader is a parameter, and requests to the leader are an assumption.
- The exception that a timed-out prepare raises after its ABORT, when no response is there to look at: the coroutine ends there in the model as well.
- Draining of the queue when a leader appears: a queued prepare and a sent one are both awaited in the model, so it is no step of its own.
- 32-bit wrap-around: integers are unbounded; `NoOverdraft` gives the bound under which balances do not overflow.
- Exit, resume and stop messages: a stopped server takes no step.
- Leader completeness across elections: the code does not have it, because logs are compared only in equal terms.
- Follower commit indices across leaders: they may fall, because the index is assigned.
- Isolation between YES and COMMIT: locks fall when PREPARE is Raft-committed; `DebitCanOverdraw` shows a consequence.
- Agreement of followers on cross-shard balances: a COMMIT entry that is replicated first suppresses the follower's own update, so `ReplicaAgreement` speaks of the intra-shard part.
- OverlappingRoundsCommitAlone: is matched by a sufficient condition only, because what makes a response stale is not in the message; the round discipline is that condition.
- CommandRoundTrip: is for the two kinds of command that the commit loops read back; COMMIT and ABORT text is only told apart by its prefix (`PrintedKind`).
