# Verified models of a distributed-systems code base

This project models the concurrent and distributed parts of the repository in Dafny and proves what
they are for.  `dafny verify dfyconfig.toml` checks everything.

* **Linearizability checker** (`src/porcupine`, `src/models`).  The backtracking search over a
  doubly linked event list, with nodes unlinked and relinked in place, a packed set of ids and a
  cache of sets and states.  It ends and answers true exactly if a linearization exists; checking
  each key alone decides the whole history.  Files: `Bitset`, `EventList`, `Histories`, `Search`,
  `LinkedPath`, `Cache`, `Checker`, `Sorting`, `Operations`, `Locality`, `KvModel`, `KvSequential`,
  `WriteLog`.
* **Raft** (`src/raft`).  A state machine of servers and messages that may be lost, repeated, delayed
  and reordered, with crashes, restarts, trimmed logs and snapshots.  Election Safety, Log Matching,
  Leader Completeness and State Machine Safety (sections 5.2 to 5.4 of the extended Raft paper of
  Ongaro and Ousterhout, 2014) hold in every run, in spite of the fix package that compares no term
  at what the follower has applied, and of commit indices taken without a minimum.  The service
  sees no gaps.  A class with the trimmed log is proved to do what the protocol says.  A leader can
  always be elected, and brings every follower up to date in three messages, except in one exactly
  stated case in which the code never does.  Files:
  `RaftNode`, `RaftWorld`, `RaftKeeps`, `RaftQuiet`, `RaftElections`, `RaftLeaders`,
  `RaftReplication`, `RaftSafety`, `RaftStream`, `RaftServer`, `RaftProgress`, `RaftMarks`,
  `RaftCatchUp`, `RaftCommits`, `RaftStuck`, `RaftLimits`, `RaftExample`.
* **Replicated key/value store** (`src/kvraft`).  Every history of clerks and handlers on the Raft servers
  above is linearizable, in the very sense in which the checker above decides it.  Files: `KvReplica`,
  `KvRaft`, `KvHandlers`, `KvLinearizable`, `RaftLog`, `KvOverRaft`.
* **Shard controller** (`src/shardctrler`).  `rebalance` ends, is deterministic, balanced, and moves the
  fewest shards possible.  What a configuration says can be read off the operations.  Files: `Balance`,
  `Fewest`, `Allocation`, `FirstDeal`, `ShardController`, `ControllerHistory`.
* **Sharded store** (`src/shardkv`).  Over every run of requests, configuration changes and retried
  migrations at most one group serves a shard, and it holds exactly what clients have written.  Groups
  can always go on to later configurations exactly if they do not wait for one another in a circle,
  which under the controller they never do.  Files: `ShardStore`, `Migration`, `MigrationRuns`,
  `StoredValues`, `MigrationProgress`, `MigrationExample`, `ShardServer`, `ControllerPlan`.
* **MapReduce** (`src/mr`, `src/main/mrsequential.go`).  The distributed pipeline means the same as the
  sequential program, and the coordinator accepts each task once and can always finish.  Files:
  `MapReduce`, `Coordinator`, `CoordinatorProgress`.
* **Single server with a flipping bit** (`src/kvsrv`).  File: `KvServer`.

## What the models assume

Lock-held sections are single steps.  Encoding and decoding are the identity, operation numbers and
client ids are unique, and timeouts may happen at any moment.

* Checker: each operation's call time is not after its return time, there is at least one
  partition (with none `checkParallel` waits forever for a first result), there is no timeout,
  and states are compared by equality.
* Raft: a server sends appends and commits only while it leads; a reply of an earlier term is not taken
  once the server leads a later one, unless it is true of that one too, which is the exact condition
  (`RaftQuiet.ReplySafeIff`); an election counts as live until it is cancelled; an election that was
  cancelled before it began begins only at a server that does not lead and is not a candidate whose
  own election goes on, which is the exact condition (`RaftElections.LateElectSafeIff`; runs that end
  with two leaders otherwise are in `RaftLimits`); a fresh server has applied nothing but the first
  entry (`RaftLimits.FixIsSoundIff` and `RaftLimits.FixFromUncommittedMisleads` show why); the service
  makes snapshots only of what it has been sent.  A snapshot is sent only to a server that refused an
  append of the same term.
* Replicated store: a clerk has one call at a time and numbers its calls in increasing order; a handler
  may outlive its call but starts no operation after one of a later call of the same clerk, which is
  exactly what duplicate suppression needs (`KvReplica.SuppressesIffInOrder`).  The log is Raft's:
  `KvOverRaft`.
* Sharded store: the plan has a group for every shard from configuration 1 on, as the controller's has
  while there is some group (`ControllerPlan.ControllerGivesGoodPlan`); moved data for configuration n
  is applied in configuration n - 1 or n, which is the exact condition (`Migration.MoveSafeIff`; runs
  that go wrong otherwise are in `MigrationExample`); the group that holds a shard never sees an older
  request of a client than one it has recorded.
* Coordinator: worker ids are above 0 and used once.
* Single server: a request that outlives its call arrives only when the number of the client's calls
  executed since is even, which is the exact condition (`KvServer.StrayIsRepeatedIff`).

Where the code and its comments differ, the model follows the code: the "sort by shard number" in
`rebalance` (`src/shardctrler/server.go:244-247`) converts a copy and sorts nothing, which is harmless
because the shards are already in ascending order; a fix package that the follower already has is
answered with success (`src/raft/raft.go:382-390, 441-445`).

## Model

| member | source | states |
|---|---|---|
| Bitset.MembersInjective | src/porcupine/bitset.go:62-72 | word slices of the same length that represent the same set of ids are equal word by word |
| Bitset.New | src/porcupine/bitset.go:10-17 | a new slice has enough words for the ids and represents the empty set |
| Bitset.Clone | src/porcupine/bitset.go:19-23 | the copy is a fresh slice with the same words |
| Bitset.Set | src/porcupine/bitset.go:29-33 | afterwards the slice represents the old set with the id added, and nothing else changed |
| Bitset.Clear | src/porcupine/bitset.go:35-39 | afterwards the slice represents the old set with the id removed |
| Bitset.Hash | src/porcupine/bitset.go:54-60 | the hash is a function of the words alone, so equal sets have equal hashes |
| Bitset.PopcntIsSize | src/porcupine/bitset.go:46-52 | popcnt is the number of members |
| Bitset.HashMixesAll | src/porcupine/bitset.go:54-60 | each digit of the hash is that of the number of members, flipped once for every word that has it |
| Bitset.Equal | src/porcupine/bitset.go:62-72 | true exactly when the two slices have the same words |
| EventList.Lift | src/porcupine/checker.go:159-167 | the call and its return are unlinked in place: next and prev run exactly through the other nodes, and the two lifted nodes keep their links |
| EventList.Unlift | src/porcupine/checker.go:169-177 | undoes lift: the exact earlier list with all prev and next links is restored |
| EventList.LiftNext | src/porcupine/checker.go:159-167 | lifting on top of any stack of lifted calls keeps the whole stack restorable |
| EventList.UnliftLast | src/porcupine/checker.go:169-177 | unlifting in stack order restores the list as it was before the last lift, for a stack of any depth |
| Histories.LinearizableIffCompletable | src/porcupine/checker.go:179-253 | an order of all operations that respects return-before-call precedence and is accepted step by step exists exactly if the search can complete from the empty set, the initial state and the whole list |
| Search.SkipKeeps | src/porcupine/checker.go:208-213 | skipping a call whose step fails, or whose set and state are cached, never skips the only solution |
| Search.PushKeeps | src/porcupine/checker.go:190-207 | taking a call keeps the invariant of the search path |
| Search.PopKeeps | src/porcupine/checker.go:216-241 | backtracking keeps the invariant: everything below the abandoned choice is known to lead nowhere |
| Search.ReturnIsDeadEnd | src/porcupine/checker.go:214-218 | a return under the cursor means that no call before it can come next |
| Search.EmptyListCompletes | src/porcupine/checker.go:243-253 | an empty list means the calls taken are a full order |
| Search.NewPairInReach | src/porcupine/checker.go:190-213 | every new cached pair is one of the finitely many reachable sets and states, so the search ends |
| LinkedPath.MirrorsIsSound | src/porcupine/checker.go:190-243 | at every point of the search the linked list holds exactly the events of the operations that are not taken, in order |
| Cache.Contains | src/porcupine/checker.go:145-157 | true exactly if an equal set and state is in the cache |
| Cache.AddHolds | src/porcupine/checker.go:196-203 | adding to the bucket of the hash makes the cache hold exactly one pair more |
| Checker.MakeLinkedEntries | src/porcupine/checker.go:121-143 | builds the list of all events with each call matched to its return |
| Checker.InsertBefore | src/porcupine/checker.go:70-81 | links a node in front of another |
| Checker.Length | src/porcupine/checker.go:83-90 | the number of linked nodes |
| Checker.OnCall | src/porcupine/checker.go:192-213 | one iteration at a call keeps the loop invariant and gets closer to the end |
| Checker.OnReturn | src/porcupine/checker.go:214-241 | one iteration at a return answers no only if there is no linearization, and otherwise keeps the loop invariant |
| Checker.CheckSingle | src/porcupine/checker.go:179-253 | for every model and every history of matched calls and returns the search ends, answers true exactly if a linearization exists, and then gives one |
| Operations.MakeEntries | src/porcupine/checker.go:39-60 | the two events of every operation, sorted by time with calls before returns |
| Operations.EntriesWellFormed | src/porcupine/checker.go:48-60 | the sorted events are a history in which each id has one call and then one return |
| Operations.PrecedesOnClock | src/porcupine/checker.go:39-60 | one operation's return comes before another's call in the events exactly if it does on the clock |
| Operations.EventsIffOperations | src/porcupine/checker.go:48-60 | the events are linearizable exactly if the timestamped operations are |
| Operations.CheckPartition | src/porcupine/checker.go:179-253 | makeEntries and checkSingle decide linearizability of a set of operations |
| Locality.LocalityTheorem | src/porcupine/model.go:28-33 | for every cell model, a history is linearizable against the table of all keys exactly if each key's part is against a cell |
| Locality.MergeKeys | src/porcupine/model.go:28-33 | linearizations of the keys can be merged into one of the whole, by the operation that returns first |
| Locality.WholeToKey | src/porcupine/model.go:28-33 | a linearization of the whole gives one of each key |
| KvModel.Partition | src/models/kv.go:18-34 | one part for each key with that key's operations in order, keys ascending |
| KvModel.CheckParallel | src/porcupine/checker.go:274-353 | whatever order the parts finish in, the answer is Ok exactly if every part is linearizable |
| KvModel.CheckOperations | src/porcupine/checker.go:365-373 | for a non-empty history the answer is true exactly if the whole multi-key history is linearizable against one key/value table |
| KvSequential.SequentialIsLinearizableIff | src/models/kv.go:40-57 | a history in which no two operations overlap is linearizable against the model's table exactly if every operation but Put and plain Append answered with the value just before it: the last earlier Put on its key followed by the later Appends |
| KvSequential.CheckSequential | src/porcupine/checker.go:365-373 | so the checker answers true on such a history exactly if all reads are right |
| Balance.RoundLowersSquares | src/shardctrler/server.go:281-290 | moving a shard between groups that are two or more apart lowers the sum of squared loads |
| Balance.Run | src/shardctrler/server.go:249-290 | the loop ends for every placement on at least one group, with no orphans and loads at most one apart |
| Balance.RoundKeeps | src/shardctrler/server.go:249-290 | no group that has received gives, and no group that has given receives |
| Balance.RunPartition | src/shardctrler/server.go:249-290 | every shard stays in exactly one place |
| Fewest.FairIsFewest | src/shardctrler/server.go:249-290 | of all even loads with the same sum, those the loop reaches take the fewest shards away |
| Allocation.ListsOnce | src/shardctrler/server.go:240-247 | there is only one ascending list of a set of group ids |
| Allocation.RebalanceIsDeterministic | src/shardctrler/server.go:212-299 | the result depends on nothing but the old assignment and the set of groups |
| Allocation.RebalanceBalances | src/shardctrler/server.go:203-300 | for every old assignment and every set of groups: every shard at a current group and loads at most one apart, or all shards at 0 if there is no group |
| Allocation.RebalanceIsOneWay | src/shardctrler/server.go:249-290 | no group both loses a shard it had and gains another |
| Allocation.RebalanceMovesFewest | src/shardctrler/server.go:228-290 | no balanced assignment to the new groups takes fewer shards away from groups that survive |
| Allocation.RebalanceIsStable | src/shardctrler/server.go:249-299 | an assignment that is already balanced is left as it is |
| FirstDeal.OrphansAreDealt | src/shardctrler/server.go:215-299 | if no group keeps a shard, the last shard goes to the last group, the one before to the group before, and so on in turn |
| FirstDeal.FirstJoinDeals | src/shardctrler/server.go:306-329 | so after the first Join of any set of groups the place of every shard is known in closed form |
| ShardController.Scan | src/shardctrler/server.go:255-266 | finds the last group with the fewest and the last with the most shards |
| ShardController.SortByGid | src/shardctrler/server.go:240-247 | whatever order the groups came in, they end up in the one ascending order |
| ShardController.OneRound | src/shardctrler/server.go:249-290 | one iteration is one round of the specification |
| ShardController.Settle | src/shardctrler/server.go:249-290 | the loop computes what the specified rounds lead to, and ends |
| ShardController.WriteOut | src/shardctrler/server.go:292-299 | each shard is assigned to the group that holds it |
| ShardController.Rebalance | src/shardctrler/server.go:203-300 | for every order in which the map of groups is gone over the result is the specified one |
| ShardController.ReplicasAgree | src/shardctrler/server.go:302-374 | replicas that apply the same operations have the same configurations |
| ShardController.HistoryIsNumbered | src/shardctrler/server.go:302-374 | configuration i has number i and an entry for every shard |
| ShardController.JoinAndLeaveBalance | src/shardctrler/server.go:306-352 | after every Join or Leave, also after Moves to groups that do not exist, every shard is at a current group, evenly |
| ShardController.SourcesDoNotWait | src/shardctrler/server.go:306-352 | a group that another group fetches shards from has nothing to fetch itself, so migrations after a Join or Leave do not wait for one another |
| ShardController.ShardCtrler.ApplyOp | src/shardctrler/server.go:302-374 | the configurations stay those of the operations so far, and none is changed or removed |
| ShardController.ShardCtrler.Query | src/shardctrler/server.go:180-192 | the configuration with the number asked for, or the last one for -1 and for numbers not reached |
| ControllerHistory.GroupsAreThoseLastJoined | src/shardctrler/server.go:306-352 | over every history a group is in the last configuration exactly if the last Join or Leave that names it is a Join, with the servers of that Join |
| ControllerHistory.ShardIsMovedOrPlaced | src/shardctrler/server.go:306-374 | a shard is where it was last moved to, whatever group that is, until the next Join or Leave, and otherwise at a group of the configuration, or at 0 if there is none |
| ControllerHistory.LeaversHoldNothing | src/shardctrler/server.go:330-353 | after a Leave no shard is at a group that left |
| ControllerHistory.MoveMovesOne | src/shardctrler/server.go:354-374 | a Move changes the place of its shard to the given group, and nothing else |
| ShardStore.RefusedShardsDoNotMatter | src/shardkv/server.go:368-375 | removing refused shards from the shared entry changes nothing for a server that applies it in the same state |
| ShardStore.ShardByFirstChar | src/shardkv/client.go:20-27 | the shard of a key is that of its first character, consecutive characters have consecutive shards, and the empty key has shard 0 |
| ShardStore.DeletedIsGone | src/shardkv/server.go:364-394 | of a shard that may be deleted no value and no session is left, and of every other shard all |
| ShardServer.MergeData | src/shardkv/server.go:341-349 | incoming values are taken over exactly for shards that are not as recent |
| ShardServer.MergeSessions | src/shardkv/server.go:350-357 | incoming sessions are taken over exactly for shards that are not as recent, without an index |
| ShardServer.Server.ApplyChangeConfig | src/shardkv/server.go:316-335 | a later configuration is adopted whole, an earlier one is ignored |
| ShardServer.Server.ApplyMovedShards | src/shardkv/server.go:336-363 | the effect of ApplyMovement on data, sessions, served shards and last configurations |
| ShardServer.Server.ApplyDeleteShards | src/shardkv/server.go:364-394 | exactly the data and sessions of the shards that are not needed any more are removed |
| ShardServer.Server.ApplyOp | src/shardkv/server.go:282-409 | the effect of each kind of entry, and whether it took effect: a Put stores its value, an Append stores the old value followed by its own |
| ShardServer.Server.HandleCommand | src/shardkv/server.go:560-604 | the server's view of the group becomes what the entry means, stale requests only renew the session, the session of a request that may be answered is this entry, and the log record keeps the entry's number exactly if it may be answered |
| ShardServer.Server.RequestMapAndSession | src/shardkv/server.go:96-129 | answered only by a leader that has reached the configuration, with exactly the data and client sessions of the wanted shards |
| ShardServer.Server.NarrowedVec | src/shardkv/server.go:672-681 | the shards kept in the first phase |
| ShardServer.Server.ReceiveFrom | src/shardkv/server.go:423-438 | the shards to fetch from each group: all that are gained, from their old owners |
| Migration.ServingIsHolding | src/shardkv/server.go:399-401 | a group that serves a shard is the one whose acquisition of it is the latest |
| Migration.EpochBeforeMove | src/shardkv/server.go:107-111 | when the first reply for configuration n + 1 is applied, the shard was last acquired in configuration n |
| Migration.DeletableIsNotHeld | src/shardkv/server.go:368-375 | what a late suggestion may delete is not the data that counts |
| Migration.RequestKeeps | src/shardkv/server.go:282-315 | a client's request at any group keeps the invariant |
| Migration.NarrowKeeps | src/shardkv/server.go:395-402 | UpdateShardVec keeps the invariant |
| Migration.FetchKeeps | src/shardkv/server.go:96-129 | answering a fetch keeps the invariant |
| Migration.AdoptKeeps | src/shardkv/server.go:316-335 | ChangeConfig keeps the invariant |
| Migration.DeleteKeeps | src/shardkv/server.go:364-394 | DeleteShards, however late, keeps the invariant |
| MigrationRuns.ShardedStoreRefinesOneMap | src/shardkv/server.go:411-558 | in every reachable world of any number of groups and configurations, a group that serves a shard holds for it exactly what one map that received every applied write holds, and the last applied requests |
| MigrationRuns.OneServerPerShard | src/shardkv/server.go:654-752 | in every reachable world at most one group serves a shard |
| MigrationRuns.AtMostOnce | src/shardkv/server.go:560-604 | across all groups and moves, each client's requests on a shard take effect with strictly increasing numbers, so a retry takes effect at most once |
| StoredValues.StoredIsWhatWasWritten | src/shardkv/server.go:282-315 | in every reachable world and for every key, the group that serves its shard has under it the value of the last Put that took effect in any group followed by the values of the Appends since, in order, and nothing if there were none |
| StoredValues.TakesEffectIffNew | src/shardkv/server.go:560-604 | a client's request takes effect exactly if the group serves the shard and the request is above all of the client that took effect on the shard, in whatever group |
| MigrationRuns.NarrowServesWhatStays | src/shardkv/server.go:395-402 | after UpdateShardVec the group serves just the shards that it has, or nobody has, in this configuration and that it has in the next |
| MigrationProgress.CanSettleIff | src/shardkv/server.go:411-558 | from every reachable world all groups can come to a later configuration, each serving just its shards, exactly if on the way no groups gain shards from one another in a circle |
| MigrationProgress.CircleNeverGoesOn | src/shardkv/server.go:107-111 | groups that gain shards from one another in a circle never get past the configuration before, in any run |
| Migration.RetryHasLast | src/shardkv/server.go:340-361 | a group that is in the configuration that moved data is for has all of it already |
| Migration.MoveKeeps | src/shardkv/server.go:336-363 | ApplyMovement in the configuration before, or as a retry in the one it is for, keeps the invariant |
| Migration.MoveSafeIff | src/shardkv/server.go:358-361 | applying moved data keeps the invariant exactly if the group is in the configuration before or in the one the data is for; the code applies it in any |
| MigrationRuns.RetriedMoveIsHarmless | src/shardkv/server.go:340-361 | applying moved data again for the same configuration after any run, also one in which the configuration was adopted, changes no value and no session |
| MigrationRuns.LateMoveServes | src/shardkv/server.go:358-361 | moved data makes the group serve its shards and lowers their last configuration, whatever configuration the group is in |
| MigrationRuns.LateMoveUnprotects | src/shardkv/server.go:358-374 | after a late move a suggestion to delete that was refused removes a shard that the group has got back |
| MigrationExample.LateRetryGivesTwoServers | src/shardkv/server.go:358-361 | a concrete run, of all shards moving to another group and back, after which a late retry gives a shard two servers |
| MigrationExample.LateRetryLosesData | src/shardkv/server.go:358-374 | a longer run after which a late retry and a late deletion lose a client's write |
| ControllerPlan.ControllerGivesGoodPlan | src/shardctrler/server.go:302-374 | every history of the controller with at least one group, and Moves only to groups that exist, is a plan as the sharded store needs it |
| ControllerPlan.ControlledStoreHasOneServer | src/shardkv/server.go:654-752 | so the store under the controller has at most one server per shard |
| ControllerPlan.NobodyWaits | src/shardctrler/server.go:302-374 | under the controller no groups ever gain shards from one another in a circle |
| ControllerPlan.ControlledStoreCanSettle | src/shardkv/server.go:654-752 | so from every reachable world of the store under the controller all groups can reach every later configuration with all shards served |
| MigrationRuns.LateDeleteIsHarmless | src/shardkv/server.go:364-390 | a deletion in any delayed order leaves every shard that the group serves or holds |
| MigrationRuns.DeleteStaysEnabled | src/shardkv/server.go:511-548 | a suggestion that could be made once may come after any run, so late deletions are covered |
| RaftWorld.QuorumsMeet | src/raft/raft.go:762 | two majorities of the same servers have a common member |
| RaftKeeps.TooLateToChoose | src/raft/raft.go:1004-1043 | once a later leader is elected nothing new of an earlier term can be chosen |
| RaftElections.UpToDateContains | src/raft/raft.go:342-342 | a candidate that is as up to date as a voter has all that the voter confirmed and that could still be chosen |
| RaftElections.ElectKeeps | src/raft/raft.go:695-714 | beginning an election keeps the invariant |
| RaftElections.LateElectSafeIff | src/raft/raft.go:695-698 | an election that was cancelled before it begins keeps the invariant exactly if the server does not lead and is not a candidate whose own election goes on; the code looks at neither |
| RaftElections.VoteKeeps | src/raft/raft.go:317-361 | answering a vote request keeps the invariant |
| RaftLeaders.WinIsFirst | src/raft/raft.go:754-795 | a term that is won had no leader before |
| RaftLeaders.WinnerIsComplete | src/raft/raft.go:754-795 | the winner has everything of earlier terms that could have been chosen |
| RaftLeaders.WinKeeps | src/raft/raft.go:754-795 | winning keeps the invariant |
| RaftLeaders.SubmitKeeps | src/raft/raft.go:599-631 | Start keeps the invariant |
| RaftReplication.LeaderHasCertified | src/raft/raft.go:423-450 | what a server applied is in the log of every leader of the same or a later term, so a fix package may start there without comparing terms |
| RaftReplication.DeliverAdopts | src/raft/raft.go:363-474 | after AppendEntries the follower's log is as before or just what the leader sent, and keeps what it applied and what it had of the leader's log |
| RaftReplication.DeliverKeeps | src/raft/raft.go:363-474 | AppendEntries keeps the invariant, including taking LeaderCommit as it is |
| RaftReplication.SnapshotIsAhead | src/raft/raft.go:481-498 | an accepted snapshot reaches further than the server has trimmed, and comes from the leader of the server's term |
| RaftReplication.InstallKeeps | src/raft/raft.go:476-543 | InstallSnapshot keeps the invariant |
| RaftQuiet.MajorityChooses | src/raft/raft.go:1004-1043 | an entry of the leader's term that a majority has confirmed is chosen |
| RaftQuiet.CommitKeeps | src/raft/raft.go:1004-1043 | advancing the commit index keeps the invariant |
| RaftQuiet.ReplySafeIff | src/raft/raft.go:896-904 | taking a reply keeps the invariant exactly if the server does not lead or the other one has confirmed as much in the term that it leads |
| RaftQuiet.CommitCheckMayCommit | src/raft/raft.go:1004-1043 | what commitCheck does is a step of the protocol |
| RaftQuiet.CommitCheckAdvances | src/raft/raft.go:1004-1043 | in every reachable world one commitCheck commits every entry of the leader's term that a majority has confirmed |
| RaftQuiet.RestartKeeps | src/raft/raft.go:192-238 | a crash and restart from the persisted state, resuming the role, keeps the invariant |
| RaftQuiet.SendInstallKeeps | src/raft/raft.go:956-985 | sending a snapshot to a server that refused an append keeps the invariant |
| RaftSafety.StepKeeps | src/raft/raft.go:317-1043 | every step keeps the invariant |
| RaftSafety.ElectionSafety | src/raft/raft.go:658-800 | over every run with loss, duplication, delay, crashes, restarts, cancelled elections and elections that begin late where that is safe, servers that lead the same term, at the same or different times, are the same server |
| RaftSafety.LiveElection | src/raft/raft.go:754-762 | a candidate whose election is live is still in the term its ballots are for, with the log it asked for votes with |
| RaftSafety.LogMatching | src/raft/raft.go:414-450 | logs with an entry of the same term at an index agree up to it |
| RaftSafety.LeaderCompleteness | src/raft/raft.go:342-357 | what any server has applied or knows committed every leader of the same or a later term has |
| RaftSafety.StateMachineSafety | src/raft/raft.go:817-843 | whatever servers have ever applied at an index is the same entry |
| RaftProgress.CanAlwaysElect | src/raft/raft.go:658-800 | from every reachable world the servers can come to have a leader that nobody is ahead of: the server with the most up-to-date log gets every vote |
| RaftMarks.TrimmedAtCommands | src/raft/raft.go:244-273 | in every reachable world a log is trimmed at its beginning or at an entry that the service has seen |
| RaftCatchUp.CatchesUpIffNotStuck | src/raft/raft.go:847-1002 | in every reachable world, whatever a leader believes of a server that is not in a later term: three messages, with the corrections and the snapshot of handleFailedReply, bring the server to the leader's log, unless the leader has trimmed to the very entry that the server would apply next and the server's log goes as far and does not end inside the leader's; then no number of messages does |
| RaftStuck.FollowerCanBeStuck | src/raft/raft.go:938-952 | a run of three servers after which that is so |
| RaftCommits.CanCommit | src/raft/raft.go:599-1043 | in every reachable world a leader that nobody is ahead of and of which no follower is stuck can bring all to its log, commit any command and apply it |
| RaftStream.NoGaps | src/raft/raft.go:817-843 | a command about to be sent to the service has the external index after the last command or snapshot sent, over all appends, fix packages, snapshots and restarts |
| RaftStream.ServicesAgree | src/raft/raft.go:817-843 | in a whole run all services are sent the same command under the same external index |
| RaftServer.Server.ExternalIndex | src/raft/raft.go:127-136 | counts, from the trimmed log, the entries of the full log that the service sees |
| RaftServer.Server.InternalIndex | src/raft/raft.go:110-124 | finds the entry that the service knows by an external index: the inverse |
| RaftServer.Server.ReadPersist | src/raft/raft.go:192-238 | a server started from it is the restarted server, with the persisted role, term, vote and log |
| RaftServer.Server.RequestVote | src/raft/raft.go:317-361 | does to the server what the protocol says; the reply carries the candidate's term if the vote is granted and otherwise the term the server had |
| RaftServer.Server.Agreeing | src/raft/raft.go:425-440 | the loop that compares a fix package with the log finds a full agreement exactly if there is one |
| RaftServer.Server.AppendEntries | src/raft/raft.go:363-474 | does to the full log what the protocol says, for each of the five outcomes, working on the trimmed log; the reply tells where the log ended and what was applied, and its term is above the sender's exactly if the message was stale |
| RaftServer.Server.InstallSnapshot | src/raft/raft.go:476-543 | does to the full log what the protocol says, and replies with the server's term |
| RaftServer.Server.Snapshot | src/raft/raft.go:244-273 | trims up to the entry with the given external index, leaves the full log as it is, and ignores an older snapshot |
| RaftServer.Server.ElectionBegins | src/raft/raft.go:695-698 | a vote for itself in the next term, cancelled or not, without a look at the role |
| RaftServer.Server.BecomeLeader | src/raft/raft.go:762-793 | resets what is known of followers, who are to get everything from the no-op of the term on, which it appends |
| RaftServer.Server.Start | src/raft/raft.go:599-631 | a leader appends the command and returns its external index and term, others refuse |
| RaftServer.Server.MakeAppend | src/raft/raft.go:860-880 | the message holds everything from the follower's next index on, as far as the log still has it |
| RaftServer.Server.HandleSuccess | src/raft/raft.go:896-904 | the match index only grows and the next index is the one after the message |
| RaftServer.Server.HandleFailedReply | src/raft/raft.go:912-955 | gives up on a later term, and otherwise goes back to the follower's end, to what it has applied, or to the snapshot, working on the trimmed log; the unreachable end is unreachable |
| RaftServer.Server.MakeInstall | src/raft/raft.go:957-965 | the snapshot stands for the log up to where it was trimmed |
| RaftServer.Server.HandleInstallReply | src/raft/raft.go:984-995 | a later term cancels; otherwise the next index follows the snapshot's external index |
| RaftServer.Server.CommitCheck | src/raft/raft.go:1004-1043 | the loops compute exactly how far a majority has the log, and the commit index goes there if that is an entry of the leader's own term or in a snapshot, and otherwise stays |
| RaftServer.Server.ApplyOne | src/raft/raft.go:822-843 | the next committed entry is applied, and queued under its external index if it is a command |
| RaftLimits.LateElectionAtCandidate | src/raft/raft.go:695-698 | a run of three servers in which an election begins late at a candidate whose own election goes on, and which ends with two leaders of a term |
| RaftLimits.LateElectionAtLeader | src/raft/raft.go:695-698 | a run of three servers in which an election begins late at a leader, which then leads a term without a vote beside the leader elected for it |
| RaftLimits.FixIsSoundIff | src/raft/raft.go:429-450 | the log that comes of a fix package is one that leaders could have sent exactly if the follower has the leader's entry before it, at which the code does not look |
| RaftLimits.FixFromUncommittedMisleads | src/raft/raft.go:1110 | a server that counts index 1 as applied from the start ends up with a later leader's command after an earlier leader's no-op |
| RaftLog.LogGrows | src/raft/raft.go:1004-1043 | the commands chosen so far only grow |
| RaftLog.SentIsInLog | src/raft/raft.go:817-843 | what a service is sent is in that log, at its external index |
| RaftExample.Elects | src/raft/raft.go:658-793 | a server alone can elect itself |
| RaftExample.Serves | src/raft/raft.go:599-1043 | ... and can commit a command and apply |
| KvReplica.SessionIsLast | src/kvraft/server.go:188-206 | a client's session is its last operation in the log, with its index |
| KvReplica.KVServer.HandleCommand | src/kvraft/server.go:175-222 | the server's state stays what replaying its prefix of the log gives, duplicates only renewing the session |
| KvReplica.KVServer.HandleSnapshot | src/kvraft/server.go:240-255 | a restored snapshot is the state after the prefix it was made from |
| KvReplica.KVServer.AnswerFromSession | src/kvraft/server.go:87-99 | answers at once exactly if the request is the client's last one in the applied part of the log and the server has the record of its entry, with the value the server has at that moment |
| KvReplica.KVServer.AnswerWhenApplied | src/kvraft/server.go:138-163 | once the index is applied and recorded, answers OK exactly if its own operation is there in the log, and fails exactly if another one is |
| KvReplica.SuppressesIffInOrder | src/kvraft/server.go:187-206 | for every log and client, a retry of any applied request is suppressed at every moment exactly if the client's entries are in the order of its requests |
| KvReplica.OlderEntryReopens | src/kvraft/server.go:188-197 | for example, after an older entry of a client a request that was applied is applied again |
| KvRaft.StepKeeps | src/kvraft/server.go:76-255 | calls, retries, commitment, application, snapshots, restarts and answers keep the invariant |
| KvHandlers.WhileWaiting | src/kvraft/server.go:138-163 | a waiting handler answers exactly when the store's step is possible, with the value of that step |
| KvHandlers.OnRequest | src/kvraft/server.go:84-99 | a request is answered at once exactly when the store's step is possible, with the value of that step |
| KvHandlers.OnCommand | src/kvraft/server.go:175-222 | applying a command keeps the server where the store's step says |
| KvHandlers.OnSnapshot | src/kvraft/server.go:240-255 | so does restoring a snapshot |
| KvLinearizable.DuplicateIffNotFresh | src/kvraft/server.go:187-200 | an entry is suppressed as a duplicate exactly if the same request is earlier in the log |
| KvLinearizable.AcknowledgedOnce | src/kvraft/server.go:175-222 | a Put or Append that returned changed the table exactly once, within its call |
| KvLinearizable.GetReturnsCurrent | src/kvraft/server.go:138-163 | a Get returned the state after a prefix longer than what was committed when it was called and no longer than what was committed when it returned |
| KvLinearizable.KvRaftIsLinearizable | src/kvraft/client.go:45-124 | in every run the calls that returned, with the writes that took effect without returning, are linearizable against one table |
| KvLinearizable.CheckerAcceptsKvRaft | src/porcupine/porcupine.go:5-8 | the checker answers true for every history of the replicated store |
| KvOverRaft.RaftGivesLog | src/kvraft/server.go:76-255 | every step of a cluster of Raft servers is a sequence of steps of the log that the store takes for granted, and the two stay together |
| KvOverRaft.KvOverRaftIsLinearizable | src/kvraft/server.go:76-257 | the store on Raft is linearizable: in every run of clerks, handlers and Raft servers the calls are linearizable against one table |
| MapReduce.SortAndReduce | src/mr/worker.go:223-245 | one line for each distinct key, reduced with all its values |
| MapReduce.Sequential | src/main/mrsequential.go:40-86 | the output for all intermediate pairs |
| MapReduce.DoMap | src/mr/worker.go:119-145 | each bucket holds exactly the mapped pairs whose hash belongs to it |
| MapReduce.DoReduce | src/mr/worker.go:201-245 | the output for the pairs of the task's files, in whatever order they are found |
| MapReduce.Distributed | src/mr/worker.go:111-255 | all reduce tasks together produce an output for all intermediate pairs |
| MapReduce.OutputOfSame | src/mr/worker.go:223-245 | with an order-insensitive reduce function the output depends only on which pairs there are |
| MapReduce.EveryFileIsMapped | src/main/mrsequential.go:40-53 | the pairs of each file come right after those of the files before it |
| MapReduce.OutputIsUnique | src/main/mrsequential.go:62-84 | there is only one output up to the order of lines |
| MapReduce.BothWays | src/main/mrsequential.go:40-86 | for every number of reduce tasks, hash, map function and order-insensitive reduce function the lines of all reduce tasks are those of the sequential program |
| MrCoordinator.Coordinator.WorkFinish | src/mr/coordinator.go:77-102 | a report from a worker that was given up is refused; otherwise the task is done and the worker free |
| MrCoordinator.Coordinator.RecoverCrashed | src/mr/coordinator.go:160-178 | every task that is late is taken back and its worker given up |
| MrCoordinator.SweepTakesBackLate | src/mr/coordinator.go:160-178 | after the sweep exactly the late tasks that somebody had are ready again, exactly those who had them are given up, and everything else is as before |
| MrCoordinator.Coordinator.FindReady | src/mr/coordinator.go:179-204 | the first ready task if there is one, and whether somebody works on a task before it; without a ready task nobody does exactly if all tasks are done |
| MrCoordinator.Coordinator.GetFreeWorker | src/mr/coordinator.go:149-158 | a free worker if there is one |
| MrCoordinator.Coordinator.AllocRound | src/mr/coordinator.go:160-229 | a round takes back late tasks, ends the phase exactly if all tasks are done, gives a ready task to a free worker whenever there are both, and otherwise does nothing more |
| MrCoordinator.OneTaskEach | src/mr/coordinator.go:148-230 | no live worker has two tasks |
| MrCoordinator.AcceptedIsAssigned | src/mr/coordinator.go:77-102 | a report that is accepted is about a task of the present phase, from the worker the task was given to |
| MrCoordinator.EachTaskOnce | src/mr/coordinator.go:117-136 | in every run no task is accepted twice, Reduce begins only when every Map task is accepted, and the end comes only when every Reduce task is |
| MrCoordinator.ReportsAreTimely | src/mr/coordinator.go:77-102 | in every run a live worker that still believes to be doing a Map task cannot finish a Reduce task |
| MrProgress.CanAlwaysFinish | src/mr/coordinator.go:117-230 | from every reachable world, whatever workers did or failed to do, the job can still be finished with every task accepted |
| KvServer.Server.Append | src/kvsrv/server.go:47-69 | executed exactly if the bit is the expected one, and otherwise the last reply is repeated |
| KvServer.ArriveKeeps | src/kvsrv/server.go:47-69 | once a request has reached the server its call has been executed, and the server has its reply |
| KvServer.RequestsCarryBit | src/kvsrv/client.go:72-83 | the bit of a client's request is the parity of its call |
| KvServer.StrayIsRepeatedIff | src/kvsrv/server.go:57-64 | in every reachable world a stray copy of the k-th request of a client of whose calls e were executed is executed again exactly if e - k is odd |
| KvServer.AppendOnce | src/kvsrv/client.go:72-97 | for any number of clients and any loss of requests or replies, an Append that returned was executed exactly once and returned the key's value just before |
| KvServer.GetFindsWhatWasWritten | src/kvsrv/server.go:26-45 | in every reachable world a Get finds the value of the last Put executed on the key followed by those of the Appends executed since |

## Left out

- Checker.CheckSingle: does not model the kill flag, the timeout with its Unknown result, and the record of longest partial linearizations, which only feeds the visualization.
- Operations.CheckPartition: histories given as events instead of timestamped operations (`checkEvents`, `renumber`, `convertEntries`) are not modelled; they end in the same search.
- Bitset.Hash: words are natural numbers below 2^64 with their binary digits, not machine words.
- RaftProgress.CanAlwaysElect: says what can happen, not that it does; timers, condition variables and fairness are not modelled.
- RaftCatchUp.CatchesUpIffNotStuck: the leader and the follower do nothing else in between; in the steps of the protocol a leader may send from any index that it still has and a snapshot after any refusal, which covers whatever `handleFailedReply` chooses.
- RaftCommits.CanCommit: excludes stuck followers, which the code cannot bring up to date; `RaftCatchUp.CatchesUpIffNotStuck` states the exact condition.
- RaftSafety.ElectionSafety: excludes an election that begins late at a leader or at a candidate whose own election goes on, where the property is false; `RaftElections.LateElectSafeIff` states the exact condition.
- MigrationRuns.OneServerPerShard: excludes moved data applied after the group has left its configuration, where the property is false; `Migration.MoveSafeIff` states the exact condition.
- KvReplica.KVServer.HandleCommand: the removal of log records that are marked confirmed is not modelled, since nothing is ever marked.
- MigrationRuns.ShardedStoreRefinesOneMap: client answers of the sharded store are not modelled; a Get reads its value when it replies, possibly after the shard has moved.
- ShardServer.Server.HandleCommand: sessions keep the last request number, operation number, shard and index; the first character of a key is taken as a character, not as the first byte of its encoding.
- ShardController.ShardCtrler.ApplyOp: duplicate suppression and snapshots of the controller are not modelled; they are those of the replicated store.  A Move of a shard that does not exist stops the controller with an index out of range and is excluded.
- MapReduce.Distributed: files, renaming and JSON are not modelled; a reduce task reads every accepted map output.
- MrCoordinator.EachTaskOnce: the shutdown protocol after the Reduce phase is not modelled.
- KvServer.AppendOnce: the repetition of Put has no protection and nothing is claimed for it.
- The RPC and encoding libraries (`src/labrpc`, `src/labgob`), test harnesses, the visualization, the MapReduce plugins and the unrelated main programs hold no logic of this kind.
