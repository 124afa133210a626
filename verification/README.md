# NeoHA in Dafny

A model of the parts of NeoHA that decide which node leads and what happens to the data, with proofs
of what they guarantee and, where a guarantee has a limit, of exactly where the limit is.
`dafny verify dfyconfig.toml` checks everything.

Each component is modelled twice where the program updates state in place: as functions from state,
message and answers to the new state, over which the theorems are proved, and as a class or a loop
whose methods are proved to compute those functions.

| files | component |
|---|---|
| `RaftNode`, `RaftClass` | the handlers of one election node, for every role |
| `Cluster` | many nodes, with vote requests, answers and heartbeats that may be delayed or lost |
| `Replies`, `Rounds`, `Following` | why a message is answered as it is, how rounds end, whom a node follows |
| `ElectionSafety`, `Durability` | who can lead, and what a new leader holds |
| `Elections`, `Witnesses` | runs in which a node wins, and where both guarantees end |
| `Text`, `Sorting`, `Intervals`, `GtidSet` | GTID sets as text: cut, read, sort, merge, print |
| `MysqlSet` | the same texts as MySQL reads them, and the comparison of group members |
| `GtidOrder`, `LocalGtid`, `TrxCount` | comparing positions, finding a node's own transactions, counting them |
| `HaCycle`, `HaClasses` | the reconcile loop with the primary hooks and the MySQL driver |
| `HaSafety`, `HaProgress` | what the loop never does, and what every cycle achieves |
| `Membership`, `MembershipClass`, `MembershipHistory` | the member lists, the connection maps and the peers file |
| `Detector` | the ping counter that declares MySQL dead |
| `LeaderTerm`, `TermEnds`, `PurgeBound` | the counters of a leader's term: stepping down, view bumps, purging binary logs |
| `EtcdLease` | leadership through an etcd key with a lease |

The election theorems are about clusters in semi-synchronous mode whose nodes share one member list,
are not restarted, and of which at most one is started as LEADER. Every handler and every background
job is one step. The answers of MySQL, of etcd, of the coordinator and of the hook commands are
parameters, so a theorem for all runs is a theorem for all answers.

What the model shows about the program's limits:

- Two members share a won round when each counts its own failing MySQL as the other's vote; with any
  other number no two leaders ever do. docs/ha-failover.md says a down MySQL may count as a vote in
  three-node clusters; the code counts it below three members only, and the model follows the code.
- Leaders of different rounds may carry the same current view in every cluster but one of a single
  node, so uniqueness is stated for the view that the winning round's requests carried.
- One voter that is not promotable, or one idle node whose semi-sync acknowledgements the leader's
  MySQL counts, is enough to elect a node that lacks acknowledged transactions; without either none
  is ever lost.
- GTIDSetUnion denotes union unless an argument names a UUID without a number; such a UUID is printed
  so that it reads back as transaction 0.
- The semi-sync position comparison follows the log while numbers print equally wide, and the exact
  condition is proved; at the roll-over from file 999999 to 1000000 the node that is ahead loses.
- GTIDDiff, unlike the counting loop of the rebuild command, fails on a set with several UUIDs.
- CheckGTID passes a candidate that holds no transaction of the node's server, however many it lacks.
- The cached replica target survives a term as primary: a node that returns to its former primary is
  left without a replication source.
- Heartbeats copy idle nodes into the map of peers; an idle node that is then removed is refused when
  it is to be added again.
- A purge after an answer of a heartbeat round, or an empty log name, lets the next purge remove logs
  that a member still needs; with names given, only such a purge does.
- One failed lease renewal leaves an etcd key that blocks every coordinator until its lease expires.

## Model

| member | source | states |
|---|---|---|
| RaftClass.Raft.constructor | internal/election/raft/raft.go:109-192 | a started node is in view 0, has voted for nobody, takes its role from the command line or else from SuperIDLE, and leads itself only if started as LEADER |
| RaftClass.Raft.ChangeState | internal/election/raft/attr.go:140-143 | changing role forgets the leader and ends any round |
| RaftClass.Raft.ChangeView | internal/election/raft/raft.go:327-334 | a view change clears the vote and sets the leader |
| RaftClass.Raft.FollowerProcessRequestVote | internal/election/raft/follower.go:304-383 | field updates and reply are FollowerVote's: denied, older view, MySQL down, ahead of the candidate and promotable, already voted, granted |
| RaftClass.Raft.CandidateProcessRequestVote | internal/election/raft/candidate.go:196-268 | CandidateVote: as a follower, but a candidate ahead in data still catches up in view, and granting makes it a follower |
| RaftClass.Raft.LeaderProcessRequestVote | internal/election/raft/leader.go:332-393 | LeaderVote: a vote is granted for a newer view only, and ends the leadership |
| RaftClass.Raft.IdleProcessRequestVote | internal/election/raft/idle.go:169-181 | answers OK under role IDLE, which a candidate does not count, and changes nothing |
| RaftClass.Raft.InvalidProcessRequestVote | internal/election/raft/invalid.go:164-172 | always refuses and changes nothing |
| RaftClass.Raft.LearnerProcessRequestVote | internal/election/raft/learner.go:151-163 | never grants and changes nothing |
| RaftClass.Raft.ApplyView | internal/election/raft/follower.go:167-176 | a heartbeat's newer view is adopted, an equal one leaves vote and view |
| RaftClass.Raft.FollowerProcessHeartbeat | internal/election/raft/follower.go:136-290 | FollowerBeat: rejects older views, follows a new leader, turns INVALID on local commits, keeps its view when CHANGE MASTER fails |
| RaftClass.Raft.CandidateProcessHeartbeat | internal/election/raft/candidate.go:157-182 | a heartbeat of an equal or newer view makes a candidate a follower |
| RaftClass.Raft.LeaderProcessHeartbeat | internal/election/raft/leader.go:280-317 | a heartbeat of an equal or newer view ends a leadership |
| RaftClass.Raft.IdleProcessHeartbeat | internal/election/raft/idle.go:100-160 | IdleBeat: follows data and view, keeps its role, answers OK to a stale heartbeat |
| RaftClass.Raft.LearnerProcessHeartbeat | internal/election/raft/learner.go:100-142 | adopts a newer view only |
| RaftClass.Raft.SendRequestVote | internal/election/raft/candidate.go:270-288 | a round opens with the view raised by one, the vote cleared and one vote, its own, not on record |
| RaftClass.Raft.CandidateReceive | internal/election/raft/candidate.go:291-341 | one answer is counted and a unanimous vote wins; a rejection may set the view back |
| RaftClass.Raft.CandidateCheckVotes | internal/election/raft/candidate.go:93-102 | at the timeout a majority wins |
| RaftClass.Raft.PromoteToLeader | internal/election/raft/candidate.go:355-359 | the winner leads itself |
| RaftClass.Raft.FollowerTimeout | internal/election/raft/follower.go:455-474 | a follower with peers and without a change-master error becomes candidate |
| RaftClass.Raft.HATryToLeader | internal/election/raft/rpc_ha.go:98-138 | only a promotable follower or learner whose IO thread stops becomes candidate |
| RaftClass.Raft.HADisable | internal/election/raft/rpc_ha.go:31-48 | the node turns idle, and an idle node is left alone |
| RaftClass.Raft.HASetLearner | internal/election/raft/rpc_ha.go:51-65 | the node turns learner from any role |
| RaftClass.Raft.HAEnable | internal/election/raft/rpc_ha.go:68-95 | idle and learner nodes turn follower, a SuperIDLE node only forgets its leader, others stay |
| RaftClass.Raft.DegradeToFollower | internal/election/raft/leader.go:474-502 | the leader's way down keeps view and vote |
| RaftClass.Raft.LeaderBumpView | internal/election/raft/leader.go:153-156 | the view moves by two under the same leader |
| Replies.RefusalsHaveCauses | internal/election/raft/follower.go:311-346 | whatever the role, each refusal has one cause: an old view (for a leader also its own), an unreadable position, more data in a promotable node; every answer carries the view and role from before it |
| Replies.OthersAreRefused | internal/election/raft/idle.go:169-181 | strangers and requests to an INVALID node are invalid, and an idle node's OK is the only one that gives no vote |
| Replies.RefusalLeaves | internal/election/raft/candidate.go:225-246 | a refusal moves nothing but the view of a candidate that is ahead and denies a newer request |
| Replies.VoteFreezes | internal/election/raft/follower.go:325-333 | a follower stops its IO thread for every current request, granted or not, and no other role does |
| Replies.BeatAnswered | internal/election/raft/follower.go:262-283 | a heartbeat of a member that is not behind is answered OK unless the node had to change its source and could not |
| Replies.OkMeansFollowing | internal/election/raft/follower.go:136-290 | an OK means that the sender is followed in its view, exactly unless a candidate or leader gave it, or a learner that follows somebody else in that view |
| Replies.LeavesElectionExactly | internal/election/raft/follower.go:476-497 | a follower turns INVALID exactly if it has to change its source by itself and holds transactions of its own, among more than two members |
| Replies.FailedChangeLeaves | internal/election/raft/follower.go:273-284 | a failed change of the source keeps view and vote, and is remembered until a change succeeds |
| Replies.BeatRestarts | internal/election/raft/follower.go:252-260 | exactly when a heartbeat leaves the IO thread running |
| Rounds.VotesAreGivenExactly | internal/election/raft/follower.go:304-383 | in every run a request is granted exactly if a voting role gets it, it is current, the position can be read, no better data denies it and the vote of its view is free; the voter then waits as follower in that view |
| Rounds.RoundOpens | internal/election/raft/candidate.go:270-288 | a round opens one view higher, with nobody asked or counted, and with the candidate's own vote still free for another candidate of its view |
| Rounds.AnswerCounts | internal/election/raft/candidate.go:110-119 | among three or more, an answer that is no denial is one more vote, with everybody's the candidate leads at once, or it changes nothing |
| Rounds.WinsByMajority | internal/election/raft/candidate.go:93-102 | among three or more, at the timeout a candidate leads exactly with the votes of more than half of the members |
| Rounds.NoLeaderWasDenied | internal/election/raft/candidate.go:300-308 | in every run, for any number of members, no node in a round or leading by one took a denial in it |
| Rounds.DenialEndsRound | internal/election/raft/candidate.go:300-308 | a denial makes the candidate a follower of nobody at once, in the view that a rejection carried or else in its own |
| Rounds.DeniedRoundIsLost | internal/election/raft/candidate.go:300-308 | and the denied round is never won or returned to, however the run goes on |
| Following.OldBeatIsIgnored | internal/election/raft/follower.go:150-156 | in every run a heartbeat of a view below the receiver's changes nothing |
| Following.OldLeaderIsIgnored | internal/election/raft/follower.go:150-156 | hence none of a view below that of a vote reaches the voter: it stays frozen and does not follow an old leader |
| Following.FrozenUntil | internal/election/raft/follower.go:325-333 | a frozen voter's data stays as at its vote until its IO thread is started by hand, it is written to, a leader of the vote's view or a later one reaches it, or it leads |
| Following.BeatsComeFromLeaders | internal/election/raft/leader.go:397-424 | whoever's heartbeat is under way has led in its view |
| Following.FollowsOnlyLeaders | internal/election/raft/follower.go:136-290 | in every run a node comes to follow only itself as it begins to lead, or a member that led in the view the node is then in, which is not below the one it was in |
| Following.RolesChangeOnlySo | internal/election/raft/attr.go:140-143 | in every run a leader comes from a round of its own, a candidate from follower or learner, and IDLE, LEARNER and INVALID are left only as an operator orders |
| Following.RolesChangeWhenAsked | internal/election/raft/follower.go:455-474 | a timeout or an operator's order that finds the node in a role for it takes effect, exactly under the stated guards |
| Following.EnabledIdleRejoins | internal/election/raft/rpc_ha.go:68-95 | a SuperIDLE node that is enabled stays idle, and changes its source at the next heartbeat it heeds, whoever sent it |
| Following.BumpOutdates | internal/election/raft/leader.go:153-156 | a leader that raised its view goes on leading and does not heed heartbeats of the views it left behind |
| ElectionSafety.HandlerVoteEffect | internal/election/raft/follower.go:304-383 | whichever role handles a vote request, a counted grant puts the vote and the request's view on record and leaves no round running, and a refusal never lowers the view |
| ElectionSafety.InvStep | internal/election/raft/candidate.go:74-144 | every step of the cluster keeps the invariant: views stay at or above votes and rounds, tallies are backed by grants, one vote per view, a node in a round has voted in no view from that round on |
| ElectionSafety.InvRun | internal/election/raft/candidate.go:74-144 | the invariant holds in every run with three or more members |
| ElectionSafety.VoteUniqueness | internal/election/raft/follower.go:353-382 | in every run no node grants two candidates its vote in one view, although views may go back |
| ElectionSafety.ViewFloor | internal/election/raft/candidate.go:300-304 | in every run a view never falls below a view voted in or a round opened, even when a rejection sets it back |
| ElectionSafety.QuorumsMeet | internal/election/raft/attr.go:153-155 | two sets of more than half of the members share a member |
| ElectionSafety.LeaderGrantsNobody | internal/election/raft/leader.go:332-393 | a node still leading from round v has granted nobody's vote of view v |
| ElectionSafety.WinnersQuorum | internal/election/raft/candidate.go:83-119 | a leader that won a round has more than half of the members behind it |
| ElectionSafety.OneLeaderPerRound | internal/election/raft/candidate.go:83-119 | election safety: in every run two nodes that lead at the same time won rounds of different views |
| Durability.DataStep | internal/election/raft/follower.go:328-351 | every step keeps what grants say about positions, holders and acknowledgements |
| Durability.DataRun | internal/election/raft/follower.go:328-351 | and so does every run |
| Durability.AckedBeforeRoundSurvives | internal/election/raft/leader.go:772-795 | one node is enough: a candidate that held what was acknowledged when its round began, or got the vote of one promotable holder, holds it, in every run |
| Durability.EverythingAckedSurvives | internal/election/raft/follower.go:304-383 | and holds all that was ever acknowledged if that voter holds it and has taken in nothing since its vote |
| Durability.PromotableVotersSuffice | internal/election/raft/attr.go:153-155 | the quorums provide that node: promotable voters suffice while no idle node acknowledges |
| Elections.Elect | internal/election/raft/candidate.go:74-144 | in a cluster of any size from three up a follower can win a round by the votes of any half of the members, so the theorems are about reachable leaders |
| Elections.ElectOneself | internal/election/raft/candidate.go:309-331 | of two members, one whose own MySQL is down wins its second round without the other |
| Witnesses.LeadersMayShareAView | internal/election/raft/leader.go:148-156 | in every cluster of three or more any two members may lead and carry one current view |
| Witnesses.ViewsDifferExactlyAlone | internal/election/raft/leader.go:148-156 | simultaneous leaders are sure to have different current views only in a cluster of one |
| Witnesses.UnbumpedLeadersDiffer | internal/election/raft/leader.go:301-307 | leaders whose view is still that of the round they won always differ in view |
| Witnesses.CarelessVoterLoses | internal/election/raft/follower.go:328-351 | a single member that grants while it is not promotable, of any number of members, is enough to lose what was acknowledged |
| Witnesses.IdleHolderLoses | internal/election/raft/leader.go:778-793 | so is one idle node whose acknowledgements are counted |
| Witnesses.LosesNothingExactly | internal/election/raft/follower.go:328-351 | with three or more members no run loses what was acknowledged before a winning round exactly if all members grant only while promotable and no idle node acknowledges |
| Witnesses.TwoMembersShareARound | internal/election/raft/candidate.go:309-331 | two members whose own MySQL is down both win one round, and carry its view |
| Witnesses.RoundsAreSafeExactlyUnlessTwoMembers | internal/election/raft/candidate.go:309-331 | won rounds are unique for every number of members but two |
| Text.SplitJoin | internal/database/mysql/api.go:161-173 | cutting undoes joining for parts without the separator |
| Text.AtoiIntText | internal/database/mysql/api.go:181-186 | reading undoes printing for every number a Go int holds |
| Text.AtoiExactly | internal/database/mysql/api.go:181-186 | what strconv.Atoi reads: digits with at most one sign, the nearest end of the range with an error beyond it, and 0 with an error for all else |
| Text.TrimMeans | internal/neohactl/mysql.go:208-226 | trimming takes the white space at both ends and all of it |
| Text.BeforeTrichotomy | internal/database/mysql/api.go:244-254 | string comparison orders any two different strings one way |
| Text.BeforeTransitive | internal/database/mysql/api.go:244-254 | and is transitive |
| Sorting.SortSorts | internal/database/mysql/api.go:188-189 | a sort is ordered and a permutation of its input |
| Sorting.SortedUnique | internal/database/mysql/sort.go:24-42 | with a total order only one sequence is both, so any sorting algorithm gives it |
| Intervals.InOrderIsTotal | internal/database/mysql/sort.go:32-42 | Less orders intervals totally, by start and then by end |
| Intervals.MergeIntervals | internal/database/mysql/api.go:191-215 | the merging loop over sorted intervals is the function Merge, the last interval being extended or a new one appended |
| Intervals.NormalizeCovers | internal/database/mysql/api.go:188-216 | sorting and merging change no member of the set |
| Intervals.NormalizeNormal | internal/database/mysql/api.go:188-216 | the result is increasing, disjoint, with a number missing between any two intervals |
| Intervals.NormalizeNormalExactly | internal/database/mysql/api.go:188-216 | of intervals that are not reversed the result is normal exactly if at most the last of them, in order, ends with the largest Go int, where adding 1 wraps round |
| Intervals.NormalFormUnique | internal/database/mysql/api.go:188-216 | a set of numbers has one normal form |
| GtidSet.GroupByUuid | internal/database/mysql/api.go:161-173 | the loop collects under each UUID the interval texts of all its pieces, in order |
| GtidSet.ReadSorted | internal/database/mysql/api.go:177-190 | the inner loop reads the texts into the sorted intervals |
| GtidSet.PrintPiece | internal/database/mysql/api.go:217-228 | the printing loop gives "uuid:lo-hi:n" |
| GtidSet.UnionOf | internal/database/mysql/api.go:177-229 | one turn of the loop over the map prints a UUID's normalised intervals |
| GtidSet.GTIDSetUnion | internal/database/mysql/api.go:146-234 | the whole method computes UnionText for every order in which Go may walk its map |
| GtidSet.UnionTextIs | internal/database/mysql/api.go:177-233 | the result does not depend on that order |
| GtidSet.ReadUnion | internal/database/mysql/api.go:165-233 | re-reading the result gives back the normalised intervals of every UUID |
| GtidSet.UnionDenotesUnion | internal/database/mysql/api.go:146-234 | the result denotes the union of both sets exactly when no argument names a UUID without a number |
| GtidSet.UnionIsNormal | internal/database/mysql/api.go:188-228 | each UUID's printed intervals are in normal form |
| GtidSet.SameSetSameText | internal/database/mysql/api.go:146-234 | unions that denote the same set are the same string |
| GtidSet.UnionCommutes | internal/database/mysql/api.go:146-234 | the union of a and b is that of b and a, as strings, for all texts |
| GtidSet.UnionAssociates | internal/database/mysql/api.go:146-234 | on well-formed texts the union is associative as a string function, the empty string included |
| GtidSet.UnionAbsorbs | internal/database/mysql/api.go:146-234 | the union of a result with itself is that string |
| MysqlSet.PrintedMeans | internal/database/mysql/mysqlbase.go:127-131 | MySQL reads its own text of several lines back as the set it printed |
| MysqlSet.UnionInMysql | internal/database/mysql/api.go:146-234 | GTIDSetUnion denotes union in MySQL's reading too, where white space around a UUID is ignored: for all texts and numbers from 1 up |
| MysqlSet.MgrGreaterMeans | internal/database/mysql/api.go:124-143 | whatever four sets MySQL prints, a group member is ahead exactly when it executed or received a transaction the other neither executed nor received |
| GtidOrder.GreaterIrreflexive | internal/database/mysql/api.go:236-256 | no node beats itself |
| GtidOrder.GreaterTransitive | internal/database/mysql/api.go:236-256 | beating is transitive, whichever of key and lag decides |
| GtidOrder.SomeNodeUnbeaten | internal/database/mysql/api.go:236-256 | among any finite number of nodes one is beaten by none |
| GtidOrder.TiesChainUnless | internal/database/mysql/api.go:246-253 | ties chain except exactly at one position, across a node whose lag does not parse, between two whose lags do and differ |
| GtidOrder.TiesNeedNotChain | internal/database/mysql/api.go:246-253 | three such nodes |
| GtidOrder.KeyIsLogOrder | internal/database/mysql/api.go:243-246 | for file names of equal length and positions of equal width the upper-cased string order is that of (file, number) |
| GtidOrder.CaseIsIgnored | internal/database/mysql/api.go:243-246 | at one position two file names compare as equal exactly if they differ in letter case only |
| GtidOrder.GreaterIsLaterInLog | internal/database/mysql/api.go:236-256 | below 10^16 the later position wins, and equal positions are decided by the smaller lag |
| GtidOrder.ComparisonFollowsLog | internal/database/mysql/api.go:243-246 | the exact condition, on the printed widths, under which a later place in one server's logs wins |
| GtidOrder.RolloverMisordered | internal/database/mysql/api.go:243-246 | a node in file 1000000 never beats one in file 999999 |
| LocalGtid.GetLocalGTID | internal/database/mysql/api.go:258-278 | the loop returns the first piece that contains the UUID |
| LocalGtid.LocalPiece | internal/database/mysql/api.go:258-278 | in a printed set that piece is the one of this server, or nothing when there is none |
| LocalGtid.CheckGtidMeans | internal/database/mysql/api.go:281-318 | CheckGTID holds exactly when the candidate lacks an own transaction of the node and has at least one |
| TrxCount.LocalTrxCount | internal/neohactl/mysql.go:208-226 | the nested loops add up the widths of all intervals of all lines |
| TrxCount.TransactionsOf | internal/neohactl/mysql.go:208-226 | the set whose size is counted: a number in an interval of its server's piece |
| TrxCount.CountIsCardinality | internal/neohactl/mysql.go:208-226 | on every printed set the loops return the number of its transactions |
| TrxCount.GTIDDiff | internal/database/mysql/mysqlbase.go:139-172 | the loop's sum as text, "0" for the empty text, an error when a number does not parse |
| TrxCount.DiffAgrees | internal/database/mysql/mysqlbase.go:139-172 | GTIDDiff is the number of transactions for at most one UUID and fails for several |
| HaClasses.Driver.SetReadOnly | internal/database/mysql/api.go:84-96 | the option changes only when the database did |
| HaClasses.Driver.SetReadWrite | internal/database/mysql/api.go:99-111 | likewise |
| HaClasses.Driver.ApplyPrimaryMGR | internal/database/mysql/driver.go:145-168 | becoming group primary ends read-only, or fails without touching the option |
| HaClasses.Driver.ApplyPrimarySemiSync | internal/database/mysql/driver.go:250-269 | the database is opened last, after every earlier step succeeded |
| HaClasses.Driver.ApplyPrimary | internal/database/mysql/driver.go:135-143 | the replication mode decides between the two |
| HaClasses.Driver.ApplyReplica | internal/database/mysql/driver.go:271-305 | read-only first, then the source; a late failure leaves the source moved |
| HaClasses.Driver.Demote | internal/database/mysql/driver.go:307-312 | read-only, or an error |
| HaClasses.Driver.MGRClusterWritableReady | internal/database/mysql/driver.go:193-220 | the counting loop answers yes exactly when two different members are live and one of them is the primary |
| HaClasses.PrimaryHooks.EnsurePrimary | internal/ha/primary_hook.go:70-91 | the start command runs unless active or to be skipped once, and success makes the hooks active |
| HaClasses.PrimaryHooks.EnsureReplica | internal/ha/primary_hook.go:94-112 | the stop command runs whenever configured, and success makes the hooks inactive |
| HaClasses.PrimaryHooks.RunStopIfConfigured | internal/ha/primary_hook.go:115-130 | runs the stop command and leaves the hooks as they were |
| HaClasses.PrimaryHooks.RunStop | internal/ha/primary_hook.go:125-143 | one run of the stop command if configured, and its result |
| HaClasses.PrimaryHooks.SetSkipPrimaryStartOnce | internal/ha/primary_hook.go:54-59 | the next start is skipped |
| HaClasses.Reconciler.ComputeDesired | internal/ha/reconcile.go:149-179 | the node is to be primary exactly if it leads, may fail over and is promotable; and whom it would follow |
| HaClasses.Reconciler.PrimaryRef | internal/ha/reconcile.go:170-177 | the leader of the view, with its database if host and port are known, or nobody |
| HaClasses.Reconciler.RunOnce | internal/ha/reconcile.go:110-127 | a cycle's effects on reconciler, hooks and database, in order, are HaCycle.RunOnce |
| HaClasses.Reconciler.ApplyDesired | internal/ha/reconcile.go:181-227 | the same for applyDesired |
| HaClasses.Reconciler.Status | internal/database/mysql/driver.go:314-329 | the driver reports writable exactly if the option is READWRITE |
| HaClasses.Reconciler.Promote | internal/ha/reconcile.go:188-203 | only a database that is not writable is promoted, and its status read again |
| HaClasses.Reconciler.BePrimary | internal/ha/reconcile.go:187-210 | hooks start only if the last status was writable |
| HaClasses.Reconciler.BeReplica | internal/ha/reconcile.go:212-226 | stop, demote if writable, then follow; each failure ends the cycle |
| HaClasses.Reconciler.ApplyMGRPrimary | internal/ha/reconcile.go:270-297 | the same for the two phases of group replication |
| HaClasses.Reconciler.OpenWhenReady | internal/ha/reconcile.go:288-296 | the second phase: opened only if the group is ready |
| HaClasses.Reconciler.ApplyReplicaIfNeeded | internal/ha/reconcile.go:229-261 | the same for following the primary |
| HaClasses.RaftDatabase.DemoteReadOnly | internal/election/raft/dbops.go:43-51 | success and nothing else when delegated, else a demotion and its result |
| HaClasses.RaftDatabase.ChangeToMaster | internal/election/raft/dbops.go:54-63 | success and nothing else when delegated, else the change and its result |
| HaClasses.RaftDatabase.EnableReadWrite | internal/election/raft/dbops.go:66-74 | success and nothing else when delegated, else the opening and its result |
| HaSafety.WritableReadyIsReady | internal/database/mysql/driver.go:193-220 | counting live rows and finding the primary among them means two different live members, one of them the primary |
| HaSafety.CycleSound | internal/ha/reconcile.go:110-127 | every cycle keeps the order of effects and the meaning of option, hooks and cache |
| HaSafety.RunSound | internal/ha/reconcile.go:130-147 | so does every run of cycles mixed with the election's own database calls |
| HaSafety.WriteGate | internal/ha/reconcile.go:270-297 | the database opens only in a cycle that leads, may fail over and is promotable, and under group replication saw two live members with the primary |
| HaSafety.WritableSinceOpened | internal/database/mysql/driver.go:314-329 | a writable database was opened through the gate and not closed since |
| HaSafety.StartsAreSeparated | internal/ha/primary_hook.go:70-112 | between two runs of the start hook a stop has completed |
| HaSafety.StartAfterWritable | internal/ha/reconcile.go:204-209 | the start hook runs only after this cycle saw the database writable |
| HaSafety.StopBeforeDemote | internal/ha/reconcile.go:212-226 | no demotion and no new source before a stop succeeded in the cycle |
| HaSafety.ReplicaCycleEndsDark | internal/ha/reconcile.go:181-227 | an error-free cycle that wants a replica ends read-only with the hooks inactive |
| HaSafety.CachedTargetIsLatest | internal/ha/reconcile.go:229-261 | a cached target is that of the latest successful ApplyReplica, in every run |
| HaSafety.FollowedOnce | internal/ha/reconcile.go:240-252 | outside group replication, once a target was followed no later cycle with it calls for a role |
| HaSafety.FollowsUnlessStale | internal/ha/reconcile.go:229-261 | an error-free cycle leaves the node following its target exactly if the cache named another or it followed already |
| HaSafety.StaleCacheLeavesNoSource | internal/ha/reconcile.go:229-261 | after a term as primary a node that returns to its former primary has no source, for as long as that primary leads |
| HaProgress.PrimaryCycleOpensExactly | internal/ha/reconcile.go:187-210 | when a cycle that wants a primary meets no error, in terms of every answer; it then ends writable exactly if it was so, or promotion is configured and, under group replication, two members are live, the group's primary among them |
| HaProgress.StartHookRunsExactly | internal/ha/primary_hook.go:70-91 | and with the start hook applied exactly if it is open: the command ran once in the cycle unless it was applied before or is skipped once |
| HaProgress.ReplicaCycleStopsExactly | internal/ha/reconcile.go:212-226 | when a cycle that wants a replica meets no error, and how often it then ran the stop command |
| HaProgress.ReplicaCycleFollowsExactly | internal/ha/reconcile.go:229-261 | such a cycle points the database at its target once if the cache named another target or the group lost the node, and not at all otherwise |
| HaProgress.FailedPointIsRetried | internal/ha/reconcile.go:240-260 | an attempt that failed is made again in the next cycle that wants the same target, under group replication too |
| HaProgress.DefendedOnce | internal/ha/reconcile.go:118-125 | the defensive stop is over exactly once a cycle has wanted a replica, in every run |
| HaProgress.FollowsAdvertised | internal/ha/reconcile.go:170-177 | the database that the leader advertises is the one followed and the one cached |
| HaProgress.FollowsByName | internal/ha/primary_ref.go:30-51 | without one, a leader named host:port is followed at that host, at the configured port or else the named one |
| HaProgress.FollowsByConfiguration | internal/database/mysql/driver.go:271-305 | any other name is itself the key, and the configured source is used |
| Membership.SanitizeCleans | internal/election/raft/peer_json.go:28-42 | no empty name, no repetition, no name lost |
| Membership.SanitizeKeepsOrder | internal/election/raft/peer_json.go:28-42 | names keep the order of their first occurrence, and cleaning twice changes nothing |
| Membership.InvStep | internal/election/raft/api.go:24-147 | every change keeps lists clean and disjoint and every listed peer reachable |
| Membership.InvRun | internal/election/raft/raft.go:336-383 | under any sequence of changes, epoch updates and heartbeats |
| Membership.StartsWell | internal/election/raft/raft.go:217-256 | initPeers establishes this exactly if the stored lists are disjoint and the own name, which fills an empty list, is not in the other |
| Membership.MapsAreListsAndStrays | internal/election/raft/leader.go:412-415 | the maps are the lists without the node itself, plus exactly the names merged by heartbeats or left by epoch updates |
| Membership.ExactWithoutIdle | internal/election/raft/api.go:24-147 | while no idle node is known the map of peers is the list without the node itself |
| Membership.EpochCountsChanges | internal/election/raft/api.go:24-147 | an add or remove raises the epoch by one exactly if it changes a map, and is a no-op otherwise |
| Membership.RefusedAsStray | internal/election/raft/api.go:24-55 | an unlisted node is refused exactly when it is such a stray |
| Membership.DroppedIdleCannotReturn | internal/election/raft/leader.go:412-415 | add idle, heartbeat, remove idle: the node, though in no list, is refused as peer and as idle node |
| Membership.ChangeWritesFile | internal/election/raft/raft.go:385-397 | every change writes the current lists to the peers file |
| Membership.FileFollows | internal/election/raft/raft.go:385-397 | and the file stays current |
| Membership.RestartRepairs | internal/election/raft/raft.go:217-256 | a restart recovers the lists and removes all strays |
| MembershipHistory.EpochTellsHistory | internal/election/raft/raft.go:381-382 | in every run the epoch is the one last received, or the first, plus one for every add and remove since that changed a map |
| MembershipHistory.UpdateIsAdopted | internal/election/raft/raft.go:336-383 | after any run a received epoch is adopted with its lists as they are, saved, and every listed peer connected |
| MembershipHistory.ListsTellHistory | internal/election/raft/api.go:24-147 | in every run a node is listed, as peer or as idle node, exactly if something put it there and nothing took it out since |
| MembershipHistory.OrderIsKept | internal/election/raft/api.go:24-147 | adds and removes keep the order of the names that stay, and a new name comes last |
| MembershipClass.SanitizePeerList | internal/election/raft/peer_json.go:28-42 | the loop keeps each non-empty name once |
| MembershipClass.DropFirst | internal/election/raft/api.go:104-110 | the search loop removes the first occurrence |
| MembershipClass.Membership.constructor | internal/election/raft/raft.go:109-155 | a new node has the lists and maps that the peers file gives, and epoch 0 |
| MembershipClass.Membership.InitPeers | internal/election/raft/raft.go:217-256 | the two loops and the two defaults compute Start |
| MembershipClass.Membership.AddPeer | internal/election/raft/api.go:24-55 | list, map, epoch and file change together or not at all |
| MembershipClass.Membership.AddIdlePeer | internal/election/raft/api.go:58-89 | the same for idle nodes |
| MembershipClass.Membership.RemovePeer | internal/election/raft/api.go:92-118 | removal goes by the map, also of a name that is in no list |
| MembershipClass.Membership.RemoveIdlePeer | internal/election/raft/api.go:121-147 | the same for idle nodes |
| MembershipClass.Membership.UpdateEpoch | internal/election/raft/raft.go:336-383 | the four loops, with one mark set for both maps, compute UpdateEpoch |
| MembershipClass.Membership.Refreshed | internal/election/raft/raft.go:342-356 | missing names are connected, then unmarked ones dropped |
| MembershipClass.Membership.Save | internal/election/raft/attr.go:197-199 | the epoch goes up by one and the lists are written |
| MembershipClass.Membership.Broadcast | internal/election/raft/leader.go:412-415 | the merging loop changes the map of peers in place |
| Detector.ExhaustedByCount | internal/database/mysql/mysql.go:134-153 | the counter passes the limit exactly when the last limit + 2 pings, and at least one, failed |
| Detector.DeadSnoc | internal/database/mysql/mysql.go:99-153 | how one more ping changes the verdict on a history |
| Detector.StaysDead | internal/database/mysql/mysql.go:134-153 | a dead database stays dead while pings fail |
| Detector.RefusalIsRecognised | internal/database/mysql/mysql_errors.go:28-37 | a server without free connections is one whose error number is 1040, or whose error, if it has no number, says so anywhere in its text |
| Detector.Mysql.HandlePingFailure | internal/database/mysql/mysql.go:134-153 | counter, state and 1040 flag keep stating what the history of pings means |
| Detector.Mysql.Ping | internal/database/mysql/mysql.go:99-132 | the same for every ping; only a success renews the relay log name |
| Detector.Mysql.ShouldDeferFailover | internal/database/mysql/mysql.go:157-164 | failover is deferred exactly if enough pings failed in a row, the last with error 1040, without override |
| LeaderTerm.AcksAreCounted | internal/election/raft/leader.go:428-439 | while the term goes on ackGranted is one more than the OK answers of non-idle nodes since the last tick |
| LeaderTerm.CounterIsTrailing | internal/election/raft/leader.go:131-145 | lessHtAcks is the number of ticks below quorum in a row, and no longer row than the limit allows was survived |
| TermEnds.StepsDownExactly | internal/election/raft/leader.go:120-145 | after any events, for any number of members, the node still leads exactly if it did not run out of patience, did not leave, was not told of a newer view in a round whose heartbeat was sent, and the loop did not come round after the database was found down |
| LeaderTerm.DeferralEndsTerm | internal/election/raft/leader.go:397-406 | a leader whose failover stays deferred steps down all the same, since it sends no heartbeat |
| LeaderTerm.ViewBumps | internal/election/raft/leader.go:145-158 | the view grows by two at a time, by at most 2(1 + rounds in which all members answered) in a term |
| TermEnds.ViewMovesExactly | internal/election/raft/leader.go:145-158 | the view of a leader is the first one plus two for every round that was the first to be missed by a member since all had answered |
| PurgeBound.PassedExactly | internal/election/raft/leader.go:440-458 | the purge target passes a name of the latest full round exactly if that name came before the last erasure and lies before every name from the erasure to the answer that set the target |
| PurgeBound.PurgeBoundExactly | internal/election/raft/leader.go:712-734 | for given events and all non-empty names, the target stays within the latest full round exactly if no effective purge fell after an answer of that round |
| PurgeBound.CutRoundIsPassed | internal/election/raft/leader.go:712-734 | for every cut round there are names with which the target passes one of them |
| PurgeBound.PurgeMidRoundForgets | internal/election/raft/leader.go:712-734 | a short run with a purge inside a round |
| PurgeBound.EmptyNameForgets | internal/election/raft/leader.go:441-446 | a short run in which an empty name erases the smallest one |
| LeaderTermClass.Leader.HeartbeatTick | internal/election/raft/leader.go:131-159 | the tick's branches on quorum, member count, limit and view bump |
| LeaderTermClass.Leader.SendHeartbeat | internal/election/raft/leader.go:397-424 | nothing is sent for a dead database, whether deferred or reported down |
| LeaderTermClass.Leader.ProcessHeartbeatResponse | internal/election/raft/leader.go:428-463 | idle nodes are not counted, the smallest name is kept, and a full round sets the purge target |
| LeaderTermClass.Leader.PurgeBinlog | internal/election/raft/leader.go:712-734 | a successful purge forgets both names |
| LeaderTermClass.Leader.DegradeToFollower | internal/election/raft/leader.go:474-502 | so does the end of the term |
| LeaderTermClass.Leader.Loop | internal/election/raft/leader.go:97-267 | a term's events, taken one by one, compute Run |
| EtcdLease.InvStep | internal/coordination/etcd/coordinator.go:272-324 | every step of coordinators and server keeps the relation of beliefs, leases and key |
| EtcdLease.OneLeaderWithLiveLease | internal/coordination/etcd/coordinator.go:272-324 | in every run at most one coordinator believes it leads under a live lease, and the key holds its name under it |
| EtcdLease.LeadershipIsExclusive | internal/coordination/etcd/coordinator.go:299-316 | a leadership lasts, and excludes all others, until its lease expires or a renewal fails |
| EtcdLease.AttemptTells | internal/coordination/etcd/coordinator.go:295-323 | in every run an answered attempt makes its coordinator leader under its lease if the key was free, and otherwise a follower of whoever then held the key |
| EtcdLease.TwoMayBelieve | internal/coordination/etcd/coordinator.go:279-292 | among any two or more coordinators two may believe they lead, one under an expired lease |
| EtcdLease.OrphanedKeyBlocks | internal/coordination/etcd/coordinator.go:295-316 | a key nobody leads under blocks everyone until its lease expires |
| EtcdLease.FailedRenewalOrphans | internal/coordination/etcd/coordinator.go:283-292 | one failed renewal of a live lease produces such a key |
| EtcdLeaseClass.Coordinator.TryAcquireLeader | internal/coordination/etcd/coordinator.go:272-324 | one attempt renews, gives up, or adopts the answer of the transaction |

## Left out

- Group replication in the election: the join protocol around `cmtState`, the candidate's and leader's extra checks, and the MGR branch of the leader's tick; only GTID comparison and the reconciler's two phases are modelled for MGR.
- RaftClass.Raft.FollowerProcessRequestVote: the MGR status check before the vote.
- RaftClass.Raft.FollowerProcessHeartbeat: the MGR branch, the recorded database of the leader, and the epoch update, which `Membership` has.
- RaftClass.Raft.IdleProcessHeartbeat: the epoch update, which `Membership` has, and the read-only call, which concerns the database only.
- RaftClass.Raft.LearnerProcessHeartbeat: the same two.
- RaftClass.Raft.CandidateReceive: the vote counting under MGR and the answer ErrorMGRAlreadyRunningOK.
- RaftClass.Raft.HADisable: the refusal by a stopped node, since stopped nodes are not modelled.
- RaftClass.Raft.HASetLearner: the same.
- RaftClass.Raft.HAEnable: the same.
- RaftClass.Raft.DegradeToFollower: the call to read-only, which `HaClasses.RaftDatabase.DemoteReadOnly` has, and the stopping of background jobs.
- LeaderTermClass.Leader.DegradeToFollower: the same, but for the purge job, whose names are forgotten.
- LeaderTermClass.Leader.HeartbeatTick: the MGR branch.
- LeaderTermClass.Leader.ProcessHeartbeatResponse: the count of members whose MGR runs.
- LeaderTermClass.Leader.Loop: vote requests and heartbeats of others appear only as the end of the term that they may bring, and pings, which change nothing, not at all.
- Goroutines racing inside one node: each handler and each background job is one step, and an operator's role change and the switch of loops it triggers are one step.
- Restarted and stopped nodes in the cluster: views and votes are not stored, so votes are not unique across restarts.
- Changing the member list during a run of the election: `Cluster` fixes one list, `Membership` changes lists without an election, and nodes listed as idle, which are those started as SuperIDLE, stay IDLE.
- ElectionSafety.VoteUniqueness: for three or more members, since below three a down MySQL counts as a vote.
- ElectionSafety.OneLeaderPerRound: for three or more members; `Witnesses.RoundsAreSafeExactlyUnlessTwoMembers` has the other numbers.
- Rounds.WinsByMajority: for three or more members; below three a failing MySQL counts as well, as `Elections.ElectOneself` shows.
- Rounds.AnswerCounts: the same.
- Following.OldLeaderIsIgnored: for three or more members, as it rests on the uniqueness of votes.
- Following.FrozenUntil: the same.
- Durability.AckedBeforeRoundSurvives: positions are numbers, comparable across masters and only growing; RESET MASTER and diverged logs are not modelled. Which databases are writable is not modelled either, so any member may write and have its writes acknowledged.
- EtcdLease.LeadershipIsExclusive: the background keep-alive appears only as the absence of an expiry.
- Detector.Mysql.Ping: connecting and creating the replication user are left out, as are the statistics.
- Integer width of views, epochs and counters: unbounded in the model; only the 64-bit range of interval ends and of strconv.Atoi is modelled.
- Text beyond ASCII, brackets in host names, letter case of UUIDs, and white space inside GTID pieces other than around the UUID. GTIDSetUnion does not trim UUIDs and the model of it does not either; MySQL does, and `MysqlSet` is its reading.
- MysqlSet.MgrGreaterMeans: texts MySQL cannot parse, for which GTID_SUBTRACT fails and the code answers that the node is not ahead.
- Sorting algorithms: sort.Sort is any function that returns the sorted permutation; ArraySlice.Swap has no member of its own.
- SET GLOBAL read_only failing between its two statements, and a CHANGE MASTER that fails: the latter may or may not have moved the source.
- HaClasses.Driver.ApplyReplica: disabling semi-sync and setting variables, whose failures the code ignores, leave no trace in the model.
- RPC transport, timers, JSON encoding of the peers file, log output, configuration, the command line, PostgreSQL, backup, monitoring and user management.
