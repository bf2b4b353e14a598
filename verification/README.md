# A verified model of the 6.5840 labs

Dafny models of four parts of the repository, with theorems about whole runs:

- **The versioned key/value service and the lock built on it.** The server's two maps (`Kv`), a clerk call and what the
  network can do to it (`Calls`), the clerk's and the lock's retry loops as loops (`ClerkLoops`, `LockLoops`), every run of
  any number of clerks (`History`, `Versions`, `Containment`, `Accounting`, `Linearizability`, `LateWitness`), every run of
  the lock (`Lock`), of the client program that the lock guards (`LockClient`), and of the optimistic append clients
  (`Append`). What a call answers for each way of losing attempts (`Outcomes`, `Uncertainty`), which histories the checker's
  model accepts (`ModelExact`), and that clients get where they are going when they move alone (`LockProgress`,
  `LockClientProgress`, `AppendProgress`).
- **Shard rebalancing.** Loads, balance and movement (`Shards`), the configuration object with its in-place loops
  (`ShardConfig`), runs of successful changes (`ShardRuns`).
- **Raft leader election.** The handlers as written (`Raft`), every run of any number of peers (`Election`), runs that
  elect two leaders (`ElectionWitness`), for which numbers of peers there are any (`SafeElections`), and that a leader can
  always be elected (`Leadership`).
- **MapReduce.** The sequential and the split program (`MapReduce`, `KeyOrder`), the coordinator's tables (`Coordinator`),
  whole jobs with crashing workers (`Job`), runs that finish without an output (`JobWitness`), and how a job ends (`JobEnd`).

Concurrent parts are step systems: a state, a set of steps, and `Run`, which follows a list of steps and is `None` as soon as
one is not enabled. A theorem about `Run(steps)` for every `steps` is a theorem about every reachable state; one that builds
a longer run from every `steps` says what stays possible. The handlers that
a step uses are also methods of classes (`KVServer`, `Clerk`, `Lock`, `Config`, two `Server`s), proved equal to the functions
that the step systems are built from. The loops of `Clerk` and `Lock` take the network's and the other clients' actions as a
list of events, and stop inside a call when the list ends.

How the model reads the code:

- A network attempt is dropped, or executed with its reply delivered or lost. A dropped Put may still execute at any later
  time, and more than once, also after its call has returned.
- Such a late attempt can take effect after the call if the Put named a version still to come. `MayName` says that this is
  exactly what a caller must avoid for runs to stay linearizable. On a network that drops attempts for good, every run is
  linearizable.
- Versions and terms are unbounded natural numbers; keys, values and identifiers are strings or numbers. JSON is the identity.
- Sleeps, timers and random back-off are steps that may happen at any time.
- The shard count is any number up to 256: `analyze` starts its minimum at 257, which must exceed every load.
- `KvModel.Step` has no `ErrNoKey` answer for a Put, while the server gives one for an absent key and a version other than 0.
  `LinearizablePerKey` says exactly when that matters.
- `Join` compares a joining group with all groups already there, including those of the same call, so servers stay apart for
  joins of any size. A refused `Join` or `Leave` keeps what it had changed so far, does not count as a change and does not
  rebalance.
- The clientID of a lock is drawn from the clock and a random number, so it need not be unique. `ExclusionIffDistinct` says
  that uniqueness is exactly what mutual exclusion needs.
- The election does not give election safety: a new leader clears its vote in the same term, grants are counted without
  comparing terms, and the term of a request is read when it is sent. `SafeExactly` says for which numbers of peers every run
  has at most one leader in a term: fewer than two as written, fewer than three if grants were counted by term, and fewer than
  three or any even number if they were counted by election. `SafeUnaskedExactly` says the same for runs in which no winner is
  asked again in the term it won: fewer than two, fewer than four, any. `ElectionSafety`, `OneVotePerTerm` and `CountCounts`
  say what goes wrong in a single run.
- Task numbers are reused across the phases of a job and `MarkTaskDone` carries only the number. No reduce task is handed out
  early all the same (`PhaseBarrier`); but a late report of a map task can strike a reduce task off the record.
  `KeepsReduces` says that this, exactly, is what breaks the record; `DoneMeansDone` and `JobMeansSequential` hold without
  it, `AccurateIsUnstruck` says that accurate timeouts rule it out, and `DoneMeansOutputsExactly` says that otherwise every
  job with a file has a run that is Done without its first output.
- A handler of AllocateTask receives a task from the channel and only later, under a lock, has it watched; anything may happen
  in between.

## Model

| member | source | states |
|---|---|---|
| Kv.HandlePut | src/kvsrv1/server.go:59-86 | a Put succeeds exactly when it names the current version (0 for an absent key), answers ErrNoKey exactly for an absent key and another version, and touches no other key |
| Kv.KVServer.constructor | src/kvsrv1/server.go:29-36 | a new server holds no key |
| Kv.KVServer.Get | src/kvsrv1/server.go:40-53 | the handler on the two maps answers the value and version of the key, or ErrNoKey |
| Kv.KVServer.Put | src/kvsrv1/server.go:59-86 | the handler on the two maps keeps their keys equal and changes them as HandlePut says |
| Calls.Advance | src/kvsrv1/client.go:69-93 | only an executed Put changes the store; a call returns exactly when a reply is delivered; a lost or dropped attempt clears firstAttempt for good, and ErrVersion is then answered as ErrMaybe |
| ClerkLoops.Clerk.Rpc | src/labrpc/labrpc.go:238-329 | one remote call ends with its reply, lost, or unfinished, with the store and the call where the events lead |
| ClerkLoops.Clerk.Get | src/kvsrv1/client.go:32-50 | the retry loop ends in the state and answer to which any events of network and other clients lead |
| ClerkLoops.Clerk.Put | src/kvsrv1/client.go:69-93 | the loop with its firstAttempt flag does the same, folding ErrVersion on a resend into ErrMaybe |
| Outcomes.PutOutcome | src/kvsrv1/client.go:69-93 | for every store and every list of attempts dropped or executed with the reply lost, a Put is installed exactly once if it names the version and never otherwise; it answers OK or ErrMaybe by whether a reply was lost, ErrNoKey for an absent key and another version, else ErrVersion or ErrMaybe by whether any attempt was lost |
| Outcomes.GetOutcome | src/kvsrv1/client.go:32-50 | for every such list a Get answers what the store holds and changes nothing |
| Outcomes.BeatenOutcome | src/kvsrv1/client.go:55-61 | if another Put on the version executes before the answered attempt, the answer is ErrMaybe, and the value is the caller's exactly if one of its attempts had executed |
| Uncertainty.CanBeInstalled | src/kvsrv1/client.go:55-61 | from every reachable state a Put at the current version can answer ErrMaybe having been installed once |
| Uncertainty.CanBeBeaten | src/kvsrv1/client.go:55-61 | from every reachable state a Put at the current version can answer ErrMaybe without having been installed |
| LockLoops.Lock.Acquire | src/kvsrv1/lock/lock.go:39-90 | the loop with its nested switches follows the lock's step system on any events, and ends only in Held |
| LockLoops.Lock.Release | src/kvsrv1/lock/lock.go:92-112 | the loop follows the lock's step system on any events, and ends only outside the lock |
| LockLoops.SystemShowsEvents | src/kvsrv1/lock/lock.go:39-112 | along any stretch of a run of the many-client system in which a client starts no call, the store and that client are where its loops would be led by the events it sees |
| LockLoops.AcquireExcludes | src/kvsrv1/lock/lock.go:39-90 | from a call of Acquire on, the client is where the Acquire loop is led by the events it sees, and when that is in Held it holds the lock alone |
| LockProgress.CanAcquire | src/kvsrv1/lock/lock.go:39-90 | from every reachable state in which the key is absent or empty, a client outside or anywhere inside Acquire comes to hold the lock by its own steps, its clientID then being there one version on |
| LockProgress.CanAcquireBlind | src/kvsrv1/lock/lock.go:54-59 | the same by a run in which the reply to the Put is lost and the check after ErrMaybe finds the clientID |
| LockProgress.WaitsItsTurn | src/kvsrv1/lock/lock.go:82-87 | while another client has the lock, a turn of Acquire's loop changes nothing |
| LockProgress.CanRelease | src/kvsrv1/lock/lock.go:92-112 | from every reachable state a client that holds the lock, or held it and is in Release, comes out by its own steps, the key then being empty one version on if it named the client, and unchanged otherwise |
| LockProgress.HandsOver | src/kvsrv1/lock/lock.go:39-112 | from every reachable state in which the lock is free, one client can take it and give it back, and another take it then |
| LockProgress.MayExecuteLate | src/labrpc/labrpc.go:259-294 | a Put of the lock whose attempt was dropped may execute after any further steps |
| History.Invariant | src/kvsrv1/client.go:32-93 | in every run, with late attempts, every change of the store is some operation's point, every point lies after its call and, unless the operation overran, before its return and explains its answer; a client's calls do not overlap |
| Containment.TimelyIsContained | src/labrpc/labrpc.go:259-294 | a Put that names no version still to come takes effect inside its call, whatever executes late |
| Containment.PlainIsContained | src/labrpc/labrpc.go:248-311 | if no given-up attempt executes, every operation takes effect inside its call |
| Linearizability.Linearizable | src/models1/kv.go:44-67 | every run in which no given-up attempt executes, and every run whose Puts name no version still to come, has an order, without repetition, of all returned operations and some pending Puts that the sequential store accepts answer by answer, that ends in the server's store, and in which none comes before one that returned before it was called |
| LateWitness.MayName | src/labrpc/labrpc.go:259-294 | for any key, a Put may name version v of the key at version c, other Puts naming no version to come, with every run linearizable, if and only if v is at most c |
| LateWitness.NoLinearization | src/labrpc/labrpc.go:259-294 | in the run built for a v above c, no order at all is a linearization |
| Linearizability.LinearizablePerKey | src/models1/kv.go:27-67 | in those runs the order restricted to a key is accepted by KvModel, ending in the key's state, if and only if no Put on the key answered ErrNoKey |
| Linearizability.TimelyPerKey | src/models1/kv.go:27-67 | if Puts name no version still to come, KvModel accepts every key's share, whatever executes late |
| Linearizability.ModelFollows | src/models1/kv.go:49-67 | for any order the sequential store accepts, KvModel accepts a key's share if and only if it has no ErrNoKey answer |
| ModelExact.ModelExactly | src/models1/kv.go:49-67 | KvModel accepts a history of one key if and only if each Get shows the value of the last Put before it that named the number of successful ones, the empty value if none, and each Put answered OK or ErrMaybe if it named that number and ErrVersion or ErrMaybe otherwise |
| ModelExact.WinsCount | src/models1/kv.go:44-67 | the number and the value used there are the size of the set of successful Puts and the value of the latest in it |
| ModelExact.ReplayExactly | src/kvsrv1/server.go:40-86 | the same for the sequential store on all keys, with Get versions and ErrNoKey |
| ModelExact.StoreIsModel | src/models1/kv.go:27-67 | the store accepts an order without an ErrNoKey for a Put if and only if KvModel accepts each key's share and what it does not look at is right: Get versions, absent keys and Puts ahead of them |
| Accounting.AtMostOnce | src/kvsrv1/client.go:69-93 | in every run, with late attempts, a Put is installed at most once, exactly once if it answered OK, never if it answered ErrVersion; and if no given-up attempt executes or the key's Puts name no version still to come, never if it answered ErrNoKey and always inside its call |
| Accounting.MaybeMeans | src/kvsrv1/client.go:55-61 | a Put at the current version that answered ErrMaybe was not installed if and only if another Put took that version during the call |
| Accounting.SoleWriterMaybe | src/kvsrv1/kvsrv_test.go:124-126 | if one client makes all Puts on the key, and no given-up attempt executes or the key's Puts name no version still to come, such a Put was installed exactly once |
| Versions.VersionFixesValue | src/kvsrv1/server.go:59-86 | versions never decrease, and a key shows the same value whenever it shows the same version |
| Versions.OneInstallPerVersion | src/kvsrv1/server.go:59-86 | no two Puts are installed on the same version of a key |
| Accounting.VersionBounds | src/kvtest1/kvtest.go:126-140 | a key's version is the number of Puts installed on it, at least the OK answers at most the OK, ErrMaybe, ErrNoKey and unfinished ones; without ErrNoKey if no given-up attempt executes or the key's Puts name no version still to come |
| Accounting.ReliableCount | src/kvtest1/kvtest.go:126-140 | with no losses and no Put unfinished, a key's version is the number of OK answers |
| Lock.MutualExclusion | src/kvsrv1/lock/lock.go:39-112 | in every run, with losses, resends and late attempts, at most one client is between Acquire and Release, and the key then holds its clientID |
| Lock.ReleaseBound | src/kvsrv1/lock/lock.go:92-112 | Release's loop turns at most twice and puts at most in its first turn; a holder's Release ends with the key no longer naming it |
| Lock.SharedId | src/kvsrv1/lock/lock.go:24-37 | two clients with the same clientID can both hold the lock |
| Lock.ExclusionIffDistinct | src/kvsrv1/lock/lock.go:24-37 | the lock excludes in every run if and only if the clientIDs are distinct |
| LockClient.NeverFatal | src/kvsrv1/lock/lock_test.go:21-61 | no client of the guarded program ever reaches a fatal branch, at most one is inside, and the guarded key is empty while a client reads it on entry and again while it leaves |
| LockClientProgress.CanMark | src/kvsrv1/lock/lock_test.go:33-46 | from every reachable state in which a client has just acquired the lock, the guarded key is empty, and the client's own steps put its mark there one version on |
| LockClientProgress.CanClear | src/kvsrv1/lock/lock_test.go:50-53 | from there its own steps leave the key empty again, one version further on, at the end of its turn |
| LockClientProgress.CanLeave | src/kvsrv1/lock/lock_test.go:57 | at the end of its turn a client holds the lock and can call Release |
| LockClientProgress.MayExecuteLate | src/labrpc/labrpc.go:259-294 | a Put on the guarded key whose attempt was dropped may execute after any further steps |
| Append.OnlyGrows | src/kvtest1/kvtest.go:327-352 | in every run the shared list at any moment is a prefix of every later list |
| Append.AppendsPass | src/kvtest1/kvtest.go:327-390 | whatever is lost, resent or late, no client reaches a fatal branch, and once all are done the list passes CheckAppends: each client's numbers increase, gaps are covered by its ErrMaybe count, length plus one is the version |
| AppendProgress.CountsAnswers | src/kvtest1/kvtest.go:327-352 | in every run a client's counts are the numbers of OK and ErrMaybe answers delivered to it, and the number it appends is their sum |
| AppendProgress.CanFinish | src/kvtest1/kvtest.go:336-349 | from every reachable state a client in the middle of an append is done with its number by its own steps, with OK and the entry in the list, or with ErrMaybe |
| AppendProgress.CanAppend | src/kvtest1/kvtest.go:336-349 | from every reachable state a client at the top of its loop adds its entry to the end of the list by its own steps |
| AppendProgress.MayExecuteLate | src/labrpc/labrpc.go:259-294 | an append whose attempt was dropped may execute after any further steps |
| Append.CheckAppends | src/kvtest1/kvtest.go:361-390 | the loops accept a list if and only if each client's numbers strictly increase, its gaps and its last number are within its counts, and length plus one is the version |
| Shards.EnergyFalls | src/shardkv1/shardcfg/shardcfg.go:141-153 | a move from a group to one lighter by two or more lowers the sum of squared loads |
| Shards.AdoptSettles | src/shardkv1/shardcfg/shardcfg.go:131-138 | giving an orphan to a least loaded group keeps every gaining group within one of the lightest |
| Shards.MoveSettles | src/shardkv1/shardcfg/shardcfg.go:141-153 | a move from a most to a least loaded group keeps gaining groups low and losing groups high, so that no group does both |
| Shards.MovesDownhill | src/shardkv1/shardcfg/shardcfg.go:122-154 | a shard leaves a live group only for one that was lighter by two or more |
| Shards.JoinMoves | src/shardkv1/shardcfg/shardcfg.go:207-213 | from a balanced assignment, a join moves shards only from old groups to new ones |
| Shards.LeaveMoves | src/shardkv1/shardcfg/shardcfg.go:215-221 | from a balanced assignment, a leave moves exactly the shards of the groups that left |
| Shards.MinimalMovement | src/shardkv1/shardcfg/shardcfg.go:122-154 | from any assignment, no balanced assignment to the same groups is reached by moving fewer shards |
| Shards.EveryGroupServes | src/shardkv1/shardcfg/shardcfg.go:229-236 | in a balanced assignment with no more groups than shards every group has a shard |
| Shards.LeveledSettles | src/shardkv1/shardcfg/shardcfg.go:122-154 | giving away orphans to the least loaded group and then moving the first shard of the most loaded one, until balanced, is live and greedy |
| Shards.LeveledUnique | src/shardkv1/shardcfg/shardcfg.go:122-154 | what Rebalance makes of an assignment is determined by the assignment and the groups |
| ShardConfig.Config.constructor | src/shardkv1/shardcfg/shardcfg.go:44-49 | a new configuration has number 0, no groups and all shards unassigned |
| ShardConfig.Config.Analyze | src/shardkv1/shardcfg/shardcfg.go:80-111 | finds a most and a least loaded group and their loads, the smallest identifier among equals; the sentinels if there is no group |
| ShardConfig.Config.AdoptOrphans | src/shardkv1/shardcfg/shardcfg.go:131-138 | the orphan pass leaves every shard on a live group, moves only orphans, and gives each to the group that is least loaded at the time, the smallest identifier among equals |
| ShardConfig.Config.MoveOne | src/shardkv1/shardcfg/shardcfg.go:146-152 | moves the first shard of the group and no other |
| ShardConfig.Config.LevelShards | src/shardkv1/shardcfg/shardcfg.go:140-153 | the moving loop terminates, having moved, as long as loads were not within one of each other and no longer, the first shard of the most loaded group to the least loaded one |
| ShardConfig.Config.Rebalance | src/shardkv1/shardcfg/shardcfg.go:122-154 | terminates from any assignment with every shard live, loads within one of each other, no group both gaining and losing and no gainer heavier than a loser, and is the one assignment so reached; with no groups all shards are unassigned |
| ShardConfig.Config.Join | src/shardkv1/shardcfg/shardcfg.go:156-183 | succeeds if and only if there is a joining group, all are new and none shares a server with another, then adding exactly them and counting one change; a refused or fatal one has added just the groups before the one at fault, changed no other and counted nothing |
| ShardConfig.JoinAnswers | src/shardkv1/shardcfg/shardcfg.go:156-183 | fatal for no groups; without clashing servers, refused exactly if a group is there already; with clashes and only new groups, fatal |
| ShardConfig.Config.Leave | src/shardkv1/shardcfg/shardcfg.go:185-205 | succeeds if and only if the list is not empty, has no repetition and names existing groups; is fatal exactly for the empty list; a refused one has removed just the groups before the first unknown or repeated one, and counted nothing |
| ShardConfig.Config.JoinBalance | src/shardkv1/shardcfg/shardcfg.go:207-213 | changes groups and number as Join does; on success rebalances over the enlarged groups, otherwise leaves the shards alone |
| ShardConfig.Config.LeaveBalance | src/shardkv1/shardcfg/shardcfg.go:215-221 | changes groups and number as Leave does; on success rebalances over the remaining groups, otherwise leaves the shards alone |
| ShardConfig.Config.IsMember | src/shardkv1/shardcfg/shardcfg.go:229-236 | true if and only if some shard is on the group |
| ShardConfig.Config.CheckConfig | src/shardkv1/shardcfg/shardcfg.go:238-279 | accepts if and only if the groups are the expected ones, all shards are live and loads are within one of each other |
| ShardRuns.RunsAreSound | src/shardkv1/shardcfg/shardcfg.go:156-279 | every configuration of every run of successful changes passes CheckConfig, is numbered by the changes, keeps servers apart, and serves exactly its groups while they do not outnumber the shards |
| ShardRuns.RunsMoveLittle | src/shardkv1/shardcfg/shardcfg.go:207-221 | along every run a join moves only to joining groups, and from live groups if there were any; a leave that leaves groups behind moves exactly the leaving groups' shards; and both move no more shards than any balanced assignment would |
| ShardRuns.ReplicasAgree | src/shardkv1/shardcfg/shardcfg.go:89-97 | two replicas that make the same successful changes have the same configurations throughout |
| Raft.OnAsk | src/raft1/raft.go:147-181 | a request of an older term changes nothing and is refused; one of a later term makes the voter its candidate's follower; in its term a voter that has voted changes nothing and grants only to the same candidate, and one that has not grants |
| Raft.OnVote | src/raft1/raft.go:183-213 | a candidate whose granted vote goes beyond half becomes leader of its term without a vote, and nobody else does; any other grant is counted and nothing else; a refusal changes a peer exactly if its term is greater, into a follower of it |
| Raft.OnBeat | src/raft1/raft.go:231-256 | a heartbeat never touches the vote; it is refused, changing nothing, exactly for an older term, and otherwise makes its receiver a follower of its term |
| Raft.OnBeatReply | src/raft1/raft.go:214-230 | a heartbeat's reply changes its sender exactly if it is a refusal of a greater term, into a follower of that term without a vote |
| Raft.Server.constructor | src/raft1/raft.go:371-395 | a new peer is a follower of term 0 without a vote |
| Raft.Server.RequestVote | src/raft1/raft.go:147-181 | the handler updates the fields and answers as OnAsk says |
| Raft.Server.CountVote | src/raft1/raft.go:187-213 | the handling of a vote reply updates the fields as OnVote says |
| Raft.Server.AppendEntries | src/raft1/raft.go:231-256 | the handler updates the fields and answers as OnBeat says |
| Raft.Server.BeatAnswered | src/raft1/raft.go:218-230 | the handling of a heartbeat's reply updates the fields as OnBeatReply says |
| Raft.Server.Timeout | src/raft1/raft.go:304-332 | the election timer starts an election exactly when the peer is not a leader |
| Election.TermsNeverDecrease | src/raft1/raft.go:147-256 | along every run no peer's term decreases |
| Leadership.RefusalCounts | src/raft1/raft.go:202-228 | after a refusal, of a vote or of a heartbeat, has been handled, the peer's term is at least the reply's, and if it rose the peer follows without a vote |
| Leadership.HeartbeatRules | src/raft1/raft.go:231-256 | a heartbeat of the receiver's term or a later one makes it follow in that term, an older one is answered with the receiver's term |
| Leadership.CanLead | src/raft1/raft.go:299-360 | for any number of peers from two, from every reachable state a peer that is not leading can win a term above all others', after which all others follow it in that term |
| Election.OneVotePerTerm | src/raft1/raft.go:147-181 | in every run a server votes for two candidates in a term if and only if it has won that term and is then asked for its vote in it again |
| Election.CountCounts | src/raft1/raft.go:187-201 | counting a reply keeps every candidate's count equal to its backers if and only if the grant is for the election being held |
| Election.TwoWinners | src/raft1/raft.go:183-213 | in a run that counts only such grants, two winners of a term mean that a winner of that term was asked for its vote in it |
| Election.ElectionSafety | src/raft1/raft.go:325-360 | for any number of peers, in a run that counts only such grants and asks no winner of the term for its vote in it, a term has at most one winner |
| SafeElections.SafeExactly | src/raft1/raft.go:147-213 | every run has at most one leader in a term if and only if there are fewer than two peers as written, fewer than three if grants were counted by term, fewer than three or an even number if they were counted by election |
| SafeElections.SafeUnaskedExactly | src/raft1/raft.go:147-213 | the same for runs in which no winner is asked again in its term: fewer than two, fewer than four, any number |
| ElectionWitness.WinnerAsked | src/raft1/raft.go:354-360 | every odd number of peers from three elects two leaders in a term when a winner is asked again, all counts being for the election held |
| ElectionWitness.OldGrantsCounted | src/raft1/raft.go:189-198 | every number of peers from two elects two leaders in a term when grants of older terms are counted, no winner being asked |
| ElectionWitness.TermReadLate | src/raft1/raft.go:337-339 | every number of peers from four elects two leaders in a term when requests of older elections read the new term, all grants counted being of that term and no winner being asked |
| MapReduce.SortByKey | src/mr/worker.go:22-28 | some ordering by key of the same pairs |
| KeyOrder.LessMeans | src/mr/worker.go:28 | the order of keys is the lexicographic one: at the first difference the smaller character, or the end, comes first |
| MapReduce.GroupLines | src/mr/worker.go:165-181 | the i, j, k loops over sorted pairs print one line for each key, in order, reduced from all its values |
| MapReduce.Sequential | src/main/mrsequential.go:41-87 | the sequential program prints the grouped reduction of all mapped pairs, sorted in some order that keys allow |
| MapReduce.MapTask | src/mr/worker.go:109-114 | bucket r holds, in order, exactly the pairs whose key hashes to r |
| MapReduce.ReduceTask | src/mr/worker.go:138-181 | prints the grouped reduction of the concatenated inputs |
| MapReduce.ReadsItsBucket | src/mr/worker.go:138-155 | a reduce task's inputs, collected file by file, are exactly its bucket of all mapped pairs |
| MapReduce.SameMeaning | src/main/mrsequential.go:41-87 | for any files, hash, number of reduce tasks and order-insensitive reduce function, the reduce outputs together are a permutation of the sequential output, and reduce each key once from all its values |
| MapReduce.DeterminedIffUnordered | src/mr/worker.go:156-181 | the output lines are determined by the pairs if and only if the reduce function ignores the order of its values |
| Coordinator.Server.constructor | src/mr/coordinator.go:121-128 | new tables are empty |
| Coordinator.Server.AddTask | src/mr/coordinator.go:131-136 | records and queues the task, losing none |
| Coordinator.Server.ReceiveTask | src/mr/coordinator.go:54-73 | takes the first task of the channel into the handler, or waits or lets the worker leave on an empty channel, and loses no task |
| Coordinator.Server.WatchTask | src/mr/coordinator.go:56-61 | has the handler's task watched and gives it out, or panics on nil, and loses no task |
| Coordinator.Server.MarkTaskDone | src/mr/coordinator.go:75-88 | strikes the number off all tables and loses no other task |
| Coordinator.Server.Monitor | src/mr/coordinator.go:239-256 | sends again exactly the watched tasks that are silent, and loses none |
| Job.NoTaskLost | src/mr/coordinator.go:52-88 | in every run, with stale and duplicate reports and reissues, each task on record is queued in its own kind, with a handler about to have it watched, or watched, and both tables name the same tasks |
| Job.PhaseBarrier | src/mr/coordinator.go:141-176 | in every run a reduce task is queued, handed out or worked on only when every map output is in place and right, and no reduce worker misses an input |
| Job.KeepsReduces | src/mr/coordinator.go:75-88 | a step keeps every loaded reduce task on record or its output in place if and only if it is not a map task's report that strikes off an unfinished reduce task |
| Job.DoneMeansDone | src/mr/coordinator.go:106-204 | in every run without such a report, Done means that every output file is in place and holds the reduction of its buckets |
| Job.JobMeansSequential | src/mr/worker.go:97-190 | in every such run, when Done the output files together are a permutation of the sequential output |
| Job.AccurateIsUnstruck | src/mr/coordinator.go:239-256 | if timeouts fire only for unfinished tasks that are not queued, on their way to no worker and in no living worker's hands, no such report happens and no nil task is met |
| JobWitness.DoneWithoutOutput | src/mr/coordinator.go:75-88 | in every job with a file, a timeout for a slow worker can lead to a job that is Done without its first output |
| JobWitness.DoneMeansOutputsExactly | src/mr/coordinator.go:75-115 | Done means that all outputs are in place, in every run of a job, if and only if the job has no files |
| JobEnd.QueuesExits | src/mr/coordinator.go:202-215 | from every reachable state in which no reduce task is left, the main thread alone comes to Done and queues one exit task for each reduce task |
| JobEnd.TakesExit | src/mr/worker.go:52-54 | a worker whose request finds an exit task at the head of the channel exits |
| JobEnd.StaysOut | src/mr/worker.go:52-54 | and never works again, whatever happens |
| JobEnd.EveryJobCanPanic | src/mr/coordinator.go:239-256 | every job has a run in which the monitor sends nil for a task that was reported and then handed out again, and the coordinator dereferences it |

## Left out

- ClerkLoops.Clerk.Put: the loop stops when the list of events ends, since losses may go on for ever.
- LockProgress.CanAcquire: says that a client can get the lock when it moves alone, not that it will under contention; the back-off is not modelled.
- Leadership.CanLead: says that a leader can be elected, not that it will be; timers may fire in any order.
- ShardConfig.Config.Analyze: at most 256 shards, where the code has 12; beyond that its sentinel 257 is no longer above every load.
- The capacity of the coordinator's channel: a full channel only delays its sender here; that a sender may wait while holding a lock is not modelled.
- Wrap-around of Tversion and of terms.
- Raft logs, persistence, snapshots and restarts, which the repository leaves unimplemented.
- The replicated key/value service, the shard controller and the shard groups, which are unfilled stubs.
- KvModel's Partition, ShardConfig's Copy, String, FromString, GidServers and Key2Shard: they would only add easy members.
- OnePut and OneClientPut as programs: the counts they report are covered for arbitrary clients by VersionBounds and ReliableCount.
- File names, JSON, temporary files and plugins of MapReduce: files are maps from task numbers to lists, replaced at once.
- The tester, its annotations and the Porcupine search itself.
