# Verified models for the 6.5840 labs

Dafny models of the parts of this repository that carry a correctness promise,
with proofs of what they promise:

- the Porcupine linearizability checker, from recorded operations to the
  verdict, and the key/value model it is used with;
- the Raft servers, as objects and as a cluster with loss, delay, reordering
  and restarts;
- the key/value server with its retrying clerks, whose client histories the
  checker judges;
- MapReduce: what the tasks compute, against the sequential program, and the
  coordinator's phases.

To verify: `dafny verify dfyconfig.toml`.

## How it is organised

Code that changes things in place is a class or a method with loops, proved
against functions on values; what is promised over many calls is proved about
runs of a state machine whose steps are the locked sections of the code.

| modules | about |
|---|---|
| `Linearizability`, `FiniteSets`, `Options` | the definition of linearizability and of partial linearizations |
| `Entries`, `MakeEntries`, `Events`, `Sorting` | from operations or events to one entry sequence |
| `LinkedEntries`, `EntryStack` | the doubly linked list, lifted and unlifted in place |
| `Bitset`, `Cache` | sets of linearized operations and the hash buckets of configurations |
| `SearchSpec`, `Checker` | why the pruned search is exact, and the search itself |
| `KvModel`, `KvMeaning`, `Locality`, `StringKeys` | the key/value model, what it accepts, and why it may be checked key by key |
| `Verdict`, `Visualization`, `CheckHistory` | goroutines, kill flag and timer; the replay; the whole check |
| `RaftState`, `RaftNode` | one server: what each locked section does, and the object that does it |
| `RaftCluster`, `RaftElection` | the cluster, and Election Safety of every run |
| `RaftLogs`, `RaftReplication`, `RaftMatching`, `RaftTheorems`, `RaftBackup`, `RaftCatchUp` | replication when only leaders send: Log Matching, the commit rule, fast backup |
| `RaftPaths`, `RaftCampaign`, `RaftAvailable` | how runs can go on: elections, and commands that a majority commits |
| `RaftReplies` | what servers learn from replies |
| `RaftOrder`, `RaftWitnesses` | messages accepted out of order, and runs in which one of the two hypotheses fails |
| `RaftPast`, `RaftPastSteps`, `RaftCompleteness`, `RaftSafety` | Leader Completeness and State Machine Safety |
| `RaftApply`, `RaftService` | delivery to the service, alone and beside a run of the cluster |
| `KvServer`, `KvClerks`, `KvLinearizable`, `KvProgress`, `KvClients` | exactly-once execution, linearizable answers, what clients see |
| `MapReduce`, `MapReduceEquivalence` | tasks and the sequential program |
| `Coordinator`, `CoordinatorRuns`, `CoordinatorProgress`, `CoordinatorLate` | the coordinator, its runs, how they can finish, late reports |
| `MapReduceJob`, `MapReduceLate` | coordinator and workers together, and a job that loses output |

## What is assumed

- Checker: operations do not return before they are called; every id has one
  call and one later return; the state equality is a congruence for the step
  function. String equality is, and that is proved.
- Raft. Election Safety, durability and the absence of panics in handlers and
  senders: nothing. Log Matching, the commit rule and fast backup: AppendEntries
  arguments are built only while the sender is leader (`LeaderSends`); any number
  of calls may be in flight. Leader Completeness and State Machine Safety: also
  that nobody stands or votes while its log lacks something it stored in the
  latest term it stored in (`WholeVotes`). That commit indices stay inside logs,
  on which the slice of the delivering goroutine relies, and what services
  receive: that no call is accepted after a longer one of its term (`InOrder`);
  such a run is called *ordered*, and `OrderedIsWhole` says that it meets the
  weaker hypothesis. The code enforces none of the three. `RaftWitnesses` has a
  run in which only leaders send and one in which calls are accepted in order;
  each breaks theorems that need the other hypothesis. `StoredIsKept` says what a
  call accepted out of order destroys, and `WaitingIsOrdered` that a leader which
  waits for its calls never has one. A lost call is never delivered later.
- Each call is answered at most once.
- Key/value clerks: client ids are distinct, and a call that has returned is
  never executed later. What the server answers is linearizable in every run;
  what the clients see is so in the order of effects if and only if no Get was
  answered with one of the two strings that `Clerk.Get` reads as an error.
- MapReduce: the map function is deterministic and the reduce function does not
  look at the order of its values. A worker reports a task after it has written
  its files. Every output file that is there is right. When the job is finished a
  file can be missing only where a map task with that number was reported in the
  reduce phase and the reduce task was not reported; a map task reported beyond
  the reduce tasks handed out ends the coordinator with a panic.

## Where the code differs from its documents

The Raft code refers to Figure 2 of the extended Raft paper. The model follows
the code: an accepted AppendEntries cuts the log after the previous index; the
conflict scan leaves out the last entry; a conflict appends all sent entries;
a new leader probes one past the end of its log; a candidate that receives a
message of its own term stays a candidate; a reply that carries a later term
while the receiver is still leader of the term of the request only moves the
next index (`LateLeaderStays`, `StepsDownExactlyWhen`). A server without peers
never leads, because votes are counted only when a reply arrives
(`LoneServerNeverLeads`); two servers suffice (`ElectionIsPossible`). A job
without files or without reduce tasks never finishes
(`NothingToDoNeverFinishes`). A check without partitions and without a timeout
never returns, which happens for an empty key/value history (`KvCheckAnswers`).

## Model

| member | source | states |
|---|---|---|
| `Linearizability.FullPartialIsLinearization` | 6.5840-golabs-2024/src/porcupine/checker.go:244-252 | a partial linearization that has all operations is a linearization in the sense of Herlihy and Wing, and conversely |
| `Linearizability.SameLinearizability` | 6.5840-golabs-2024/src/porcupine/checker.go:39-46 | linearizability depends only on inputs, outputs and which operation returned before which was called |
| `Bitset.New` | 6.5840-golabs-2024/src/porcupine/bitset.go:10-17 | a new bitset is the empty set and has room for every number below its size |
| `Bitset.Clone` | 6.5840-golabs-2024/src/porcupine/bitset.go:19-23 | a clone is a fresh array with the same members, so later changes to either do not show in the other |
| `Bitset.Set` | 6.5840-golabs-2024/src/porcupine/bitset.go:29-33 | the set of members gains exactly the given number |
| `Bitset.Clear` | 6.5840-golabs-2024/src/porcupine/bitset.go:35-39 | the set of members loses exactly the given number |
| `Bitset.Get` | 6.5840-golabs-2024/src/porcupine/bitset.go:41-44 | true exactly for members |
| `Bitset.Popcnt` | 6.5840-golabs-2024/src/porcupine/bitset.go:46-52 | the number of members |
| `Bitset.Hash` | 6.5840-golabs-2024/src/porcupine/bitset.go:54-60 | the hash is a function of the words alone, so by MembersDetermineWords equal sets of one size have equal hashes |
| `Bitset.Equals` | 6.5840-golabs-2024/src/porcupine/bitset.go:62-72 | true exactly when sizes and members are equal |
| `Bitset.MembersDetermineWords` | 6.5840-golabs-2024/src/porcupine/bitset.go:62-72 | two bitsets of one size with the same members have the same words: comparing words compares sets |
| `Bitset.PopCountCounts` | 6.5840-golabs-2024/src/porcupine/bitset.go:46-52 | the population count of the words is the number of members |
| `Bitset.MembersAfterUpdate` | 6.5840-golabs-2024/src/porcupine/bitset.go:29-39 | setting or clearing one bit of one word adds or removes exactly that member |
| `Cache.CacheContains` | 6.5840-golabs-2024/src/porcupine/checker.go:145-152 | the search of one hash bucket answers exactly whether an equal configuration was ever stored, in any bucket |
| `Cache.AppendedRepresents` | 6.5840-golabs-2024/src/porcupine/checker.go:201-202 | after filing a configuration under its hash the buckets represent the old set of configurations plus the new one |
| `LinkedEntries.InsertBefore` | 6.5840-golabs-2024/src/porcupine/checker.go:70-81 | links a node before a mark, and its predecessor if there is one; no other pointer changes |
| `LinkedEntries.MakeLinkedEntries` | 6.5840-golabs-2024/src/porcupine/checker.go:121-138 | the nodes form one doubly linked chain in the order of the entries, and every call node knows its return node |
| `LinkedEntries.Lift` | 6.5840-golabs-2024/src/porcupine/checker.go:159-167 | on a list that misses a set of nodes, the call and its return are now missing as well and every remaining node links to its remaining neighbours |
| `LinkedEntries.Unlift` | 6.5840-golabs-2024/src/porcupine/checker.go:169-177 | undoes the latest lift: the list is the one without these two nodes missing, every next and prev restored |
| `LinkedEntries.RewiredWithout` | 6.5840-golabs-2024/src/porcupine/checker.go:159-167 | why two assignments suffice to take a node out of the remaining list |
| `LinkedEntries.RewiredBack` | 6.5840-golabs-2024/src/porcupine/checker.go:169-177 | why two assignments suffice to put a node back, given that its own links were left alone |
| `EntryStack.TakeOut` | 6.5840-golabs-2024/src/porcupine/checker.go:203-206 | lifting the chosen call keeps the list equal to the entries without the operations on the stack |
| `EntryStack.PutBack` | 6.5840-golabs-2024/src/porcupine/checker.go:235-240 | unlifting the top of the stack keeps the list equal to the entries without the remaining operations on the stack |
| `SearchSpec.PushInv` | 6.5840-golabs-2024/src/porcupine/checker.go:198-207 | linearizing a call that is not cached keeps the search invariant: every cached configuration is on the stack or fully expanded |
| `SearchSpec.AdvanceInv` | 6.5840-golabs-2024/src/porcupine/checker.go:208-213 | skipping a rejected call or a cached configuration keeps the search invariant |
| `SearchSpec.PopInv` | 6.5840-golabs-2024/src/porcupine/checker.go:235-241 | backtracking keeps the search invariant: the configuration that leaves the stack is fully expanded |
| `SearchSpec.PartialIsInUniverse` | 6.5840-golabs-2024/src/porcupine/checker.go:190-243 | the configurations the search can reach are finitely many, which bounds the number of pushes |
| `SearchSpec.EveryPartialIsCached` | 6.5840-golabs-2024/src/porcupine/checker.go:215-217 | when the stack is empty and the cursor is at a return, every partial linearization leads to a cached configuration |
| `SearchSpec.ExhaustedMeansNotLinearizable` | 6.5840-golabs-2024/src/porcupine/checker.go:215-217 | an exhausted search means that no linearization exists, in spite of pruning |
| `SearchSpec.UpdatedIsValid` | 6.5840-golabs-2024/src/porcupine/checker.go:219-234 | recording the stack keeps every recorded partial linearization valid and through its operation |
| `SearchSpec.LongestIsMaximal` | 6.5840-golabs-2024/src/porcupine/checker.go:219-234 | after an exhausted search no partial linearization through an operation is longer than the recorded one |
| `Checker.Length` | 6.5840-golabs-2024/src/porcupine/checker.go:83-90 | counts the nodes of the chain |
| `Checker.RecordLongest` | 6.5840-golabs-2024/src/porcupine/checker.go:219-234 | the loop over the stack replaces exactly the entries that are empty or shorter, by the present stack |
| `Checker.Candidate` | 6.5840-golabs-2024/src/porcupine/checker.go:198-200 | the configuration with one operation more, in a fresh array, and whether an equal one is cached |
| `Checker.File` | 6.5840-golabs-2024/src/porcupine/checker.go:201-202 | files the new configuration; the cache then represents one configuration more |
| `Checker.Linearize` | 6.5840-golabs-2024/src/porcupine/checker.go:203-207 | takes the call out of the list, sets its bit and pushes it, keeping the loop invariant |
| `Checker.Backtrack` | 6.5840-golabs-2024/src/porcupine/checker.go:235-241 | pops, clears the bit and puts the call back, keeping the loop invariant |
| `Checker.Advance` | 6.5840-golabs-2024/src/porcupine/checker.go:208-213 | moves the cursor on, keeping the loop invariant |
| `Checker.VisitCall` | 6.5840-golabs-2024/src/porcupine/checker.go:194-213 | one visit of a call node keeps the loop invariant and either moves the cursor or adds a configuration never cached before |
| `Checker.Complete` | 6.5840-golabs-2024/src/porcupine/checker.go:244-252 | the stack of a finished search is the linearization reported for every operation |
| `Checker.CheckSingle` | 6.5840-golabs-2024/src/porcupine/checker.go:179-253 | terminates, and gives up as soon as it sees the kill flag, which it reads at least once per operation before it succeeds; true only if the history is linearizable; false, unless the kill flag was seen, only if it is not; with computePartial every recorded partial linearization is valid and none through that operation is longer |
| `MakeEntries.Make` | 6.5840-golabs-2024/src/porcupine/checker.go:48-60 | the entries of the operations, in some order sorted by time with calls before returns at equal times |
| `MakeEntries.EntriesAreWellFormed` | 6.5840-golabs-2024/src/porcupine/checker.go:48-60 | for operations that do not return before their call, every such order is a history the search accepts |
| `MakeEntries.SameRealTimeOrder` | 6.5840-golabs-2024/src/porcupine/checker.go:39-46 | one operation returned before another was called by position exactly when it did by time |
| `MakeEntries.EntriesAreFaithful` | 6.5840-golabs-2024/src/porcupine/checker.go:48-60 | the entries are linearizable exactly when the recorded operations are |
| `Events.Renumber` | 6.5840-golabs-2024/src/porcupine/checker.go:92-106 | the same events with ids 0, 1, ..., two events sharing an id exactly when they did before |
| `Events.ConvertEntries` | 6.5840-golabs-2024/src/porcupine/checker.go:108-119 | one entry per event with its index as time |
| `Events.EventsAreWellFormed` | 6.5840-golabs-2024/src/porcupine/checker.go:92-119 | events with one call and one later return per id become a history the search accepts |
| `Events.OperationsOfEvents` | 6.5840-golabs-2024/src/porcupine/checker.go:92-119 | the operations searched pair each call event with the return event of the same id |
| `KvModel.OneKeyIsCongruent` | 6.5840-golabs-2024/src/porcupine/model.go:40-42 | equality of strings is an equality the search may prune with for the key/value model |
| `KvModel.StoreStepIsKvStep` | 6.5840-golabs-2024/src/models/kv.go:40-57 | a step of a whole store is the step of the key it names and leaves the other keys |
| `KvMeaning.LegalMeans` | 6.5840-golabs-2024/src/models/kv.go:40-57 | an order of operations is legal exactly when every Get and every append with result reports the value of the last Put before it followed by all values appended since |
| `KvMeaning.AnswersAreDetermined` | 6.5840-golabs-2024/src/models/kv.go:44-56 | two legal histories with the same inputs in one order have the same answers for every Get and every append with result |
| `KvModel.LegalByKey` | 6.5840-golabs-2024/src/models/kv.go:35-57 | an order is legal for the whole store exactly when its restriction to every key is legal for one string |
| `KvModel.MergeRespectsRealTime` | 6.5840-golabs-2024/src/models/kv.go:18-34 | interleaving two orders by their latest calls never puts an operation before one that returned before its call |
| `KvModel.MergeOnKey` | 6.5840-golabs-2024/src/models/kv.go:18-34 | restricting the interleaving to a key gives back the order that was interleaved |
| `Locality.WholeImpliesParts` | 6.5840-golabs-2024/src/porcupine/model.go:28-31 | a linearization of the whole restricts to one of every key |
| `Locality.PartsImplyWhole` | 6.5840-golabs-2024/src/porcupine/model.go:28-31 | linearizations of all keys combine to one of the whole |
| `Locality.GroupByKey` | 6.5840-golabs-2024/src/models/kv.go:19-23 | the map holds for each used key its operations in recorded order |
| `Locality.Partition` | 6.5840-golabs-2024/src/models/kv.go:18-34 | one sub-history per used key, keys sorted; the whole history is linearizable against a map exactly when every sub-history is linearizable against one string |
| `StringKeys.SortedKeys` | 6.5840-golabs-2024/src/models/kv.go:24-28 | the keys of a map, each once, in byte-wise order |
| `Verdict.NextInv` | 6.5840-golabs-2024/src/porcupine/checker.go:292-310 | every interleaving of goroutines, channel and timer keeps: nothing counted comes from a killed search |
| `Verdict.VerdictIsRight` | 6.5840-golabs-2024/src/porcupine/checker.go:292-352 | in every run Ok means that all partitions are linearizable, Illegal exactly that a counted one is not, and Unknown that the timer fired; after a timeout it is never Ok |
| `Verdict.CountedAnswersAreTrue` | 6.5840-golabs-2024/src/porcupine/checker.go:294-304 | while the loop runs the kill flag is clear and every answer received or waiting is that of an undisturbed search |
| `Verdict.NobodySearchesInVain` | 6.5840-golabs-2024/src/porcupine/checker.go:300-310 | once the loop has ended, every search whose answer it did not count has been told to give up |
| `Verdict.InfoIsComplete` | 6.5840-golabs-2024/src/porcupine/checker.go:312-319 | when the linearizations are wanted, no search is disturbed unless the timer fires, and at the end every search has answered |
| `Verdict.RunsAreBounded` | 6.5840-golabs-2024/src/porcupine/checker.go:280-352 | no run has more than two steps per partition and two more |
| `Verdict.StuckMeansFinished` | 6.5840-golabs-2024/src/porcupine/checker.go:292-310 | a run that cannot go on has a verdict, except exactly when there are no partitions and no timer: that job never leaves its first state |
| `CheckHistory.CheckPartition` | 6.5840-golabs-2024/src/porcupine/checker.go:365-373 | entries and search of one partition: true only if the partition is linearizable, false only if it is not or the kill flag was seen |
| `CheckHistory.CheckEvents` | 6.5840-golabs-2024/src/porcupine/checker.go:355-363 | the same for a partition given as events, with every pair of call and return an operation |
| `CheckHistory.SearchPart` | 6.5840-golabs-2024/src/porcupine/checker.go:280-286 | the goroutine of a part, which loads the kill flag at arbitrary moments of a run of the collector, sends an answer that is a step of that run |
| `CheckHistory.CheckKvHistory` | 6.5840-golabs-2024/src/porcupine/checker.go:365-373 | the answers for the parts of a key/value history are all true exactly when the whole history is linearizable against a map |
| `CheckHistory.KvVerdictIsRight` | 6.5840-golabs-2024/src/porcupine/checker.go:365-373 | over every run of the collector, Ok and Illegal tell the truth about a whole key/value history |
| `CheckHistory.KvCheckAnswers` | 6.5840-golabs-2024/src/porcupine/checker.go:292-310 | an empty key/value history without a timer never gets an answer; every other check that cannot go on has one |
| `CheckHistory.UniquePartials` | 6.5840-golabs-2024/src/porcupine/checker.go:320-338 | the distinct recorded partial linearizations |
| `CheckHistory.VisualizePartition` | 6.5840-golabs-2024/src/porcupine/visualization.go:36-85 | the replay of what a search recorded never meets a rejected step, so the panic is unreachable, and it shows the states the model goes through |
| `Visualization.ReadValues` | 6.5840-golabs-2024/src/porcupine/visualization.go:40-53 | the maps of call and return values hold the inputs and outputs of the operations |
| `Visualization.Replay` | 6.5840-golabs-2024/src/porcupine/visualization.go:64-78 | panics exactly when the order is not legal, otherwise lists the states |
| `Visualization.Largest` | 6.5840-golabs-2024/src/porcupine/visualization.go:55-79 | names for every operation in some partial linearization one of the longest that contain it |
| `RaftState.RunStart` | 6.5840-golabs-2024/src/raft/rpc.go:76-84 | the first index of the run of equal terms that ends at an index |
| `RaftState.FirstConflict` | 6.5840-golabs-2024/src/raft/rpc.go:88-104 | the offset at which the scan finds a conflict, or none; it never looks at the last entry of the log |
| `RaftState.LastWithTerm` | 6.5840-golabs-2024/src/raft/raft.go:281-287 | the last index with a term, or none |
| `RaftState.CommitPoint` | 6.5840-golabs-2024/src/raft/raft.go:345-361 | the greatest index above the commit index whose entry has the current term and is matched by a majority, or the commit index |
| `RaftNode.Persister.Copy` | 6.5840-golabs-2024/src/raft/persister.go:30-37 | a new persister with the same contents |
| `RaftNode.Raft.Make` | 6.5840-golabs-2024/src/raft/raft.go:526-564 | a server as a follower with the saved term, vote and log, everything else from scratch |
| `RaftNode.Raft.ReadPersist` | 6.5840-golabs-2024/src/raft/raft.go:131-150 | restores term, vote and log, or nothing when nothing was saved |
| `RaftNode.Raft.PersistState` | 6.5840-golabs-2024/src/raft/raft.go:119-128 | saves term, vote and log |
| `RaftNode.Raft.ConvertToFollower` | 6.5840-golabs-2024/src/raft/raft.go:396-404 | new term, no vote, follower, saved |
| `RaftNode.Raft.ConvertToLeader` | 6.5840-golabs-2024/src/raft/raft.go:405-413 | leader, with every next index one past the end of the log plus one and nothing matched |
| `RaftNode.Raft.StartElection` | 6.5840-golabs-2024/src/raft/raft.go:462-471 | candidate of the next term with its own vote, saved; the request describes its log |
| `RaftNode.Raft.CandidateRequestVote` | 6.5840-golabs-2024/src/raft/raft.go:194-202 | one vote counted, and the arguments sent to everybody |
| `RaftNode.Raft.RequestVote` | 6.5840-golabs-2024/src/raft/rpc.go:22-51 | the server and the reply after a vote request are those of the election specification |
| `RaftNode.Raft.ProcessVoteReply` | 6.5840-golabs-2024/src/raft/raft.go:210-228 | counts a granted vote of the present election and becomes leader on a majority; a later term makes a follower |
| `RaftNode.Raft.BuildAppendArgs` | 6.5840-golabs-2024/src/raft/raft.go:243-260 | the message carries the log from the next index on and the entry before it |
| `RaftNode.Raft.FindRunStart` | 6.5840-golabs-2024/src/raft/rpc.go:76-84 | the loop finds the start of the conflicting run |
| `RaftNode.Raft.AppendEntries` | 6.5840-golabs-2024/src/raft/rpc.go:53-123 | the server and the reply after a message are those of the replication specification |
| `RaftNode.Raft.StoreEntries` | 6.5840-golabs-2024/src/raft/rpc.go:88-111 | scan, cut and append give the log of the specification, saved |
| `RaftNode.Raft.CutAtConflict` | 6.5840-golabs-2024/src/raft/rpc.go:89-104 | the scan finds the first conflict of the specification and cuts the log before it |
| `RaftNode.Raft.FindLastWithTerm` | 6.5840-golabs-2024/src/raft/raft.go:281-287 | the loop finds the last entry of a term |
| `RaftNode.Raft.ProcessAppendReply` | 6.5840-golabs-2024/src/raft/raft.go:263-311 | backs up, or records a match and commits, as specified; a later term makes a follower |
| `RaftNode.Raft.CountMatches` | 6.5840-golabs-2024/src/raft/raft.go:349-354 | the leader and the others that matched an index |
| `RaftNode.Raft.CheckAndCommitLogs` | 6.5840-golabs-2024/src/raft/raft.go:341-362 | moves the commit index to the commit point |
| `RaftNode.Raft.Start` | 6.5840-golabs-2024/src/raft/raft.go:439-461 | a leader appends the command with its term at the end, saves, and tells where; anybody else refuses |
| `RaftElection.RunsNeverPanic` | 6.5840-golabs-2024/src/raft/rpc.go:53-123 | in every run, whoever sends when, no handler and no sender indexes a log or an array out of range |
| `RaftElection.NothingIsForgotten` | 6.5840-golabs-2024/src/raft/raft.go:119-150 | at every moment of every run a restart would bring back the term, the vote and the log the server has |
| `RaftElection.CastOnce` | 6.5840-golabs-2024/src/raft/rpc.go:40-50 | a server never votes for two candidates in one term, across restarts |
| `RaftElection.WinnerIsAlone` | 6.5840-golabs-2024/src/raft/raft.go:218-225 | whoever counts a majority in a term is the only one on record for it |
| `RaftElection.ElectionSafety` | 6.5840-golabs-2024/src/raft/rpc.go:22-51 | over every run with loss, delay, reordering and restarts, two leaders of one term at whatever moments are the same server |
| `RaftCampaign.UpToDateIsTotal` | 6.5840-golabs-2024/src/raft/rpc.go:37-43 | of any two servers, one would find the request of the other up to date |
| `RaftCampaign.SomeoneIsElectable` | 6.5840-golabs-2024/src/raft/rpc.go:37-50 | every nonempty group of servers has a member whose log no member would turn down |
| `RaftCampaign.LaterTermVote` | 6.5840-golabs-2024/src/raft/rpc.go:27-50 | a request of a later term moves the server to that term, and is granted exactly when the log is up to date |
| `RaftCampaign.SomeoneIsGranted` | 6.5840-golabs-2024/src/raft/rpc.go:27-50 | every nonempty group of servers has a member whose request, in any term later than theirs, all of them grant |
| `RaftCampaign.ElectionIsPossible` | 6.5840-golabs-2024/src/raft/raft.go:194-232 | every run of two or more servers can go on with steps of a given majority only, without loss or restart, until a member of it leads and no other member is ahead of it in term; the run stays led or ordered if it was |
| `RaftCampaign.LoneServerNeverLeads` | 6.5840-golabs-2024/src/raft/raft.go:203-232 | a server without peers never leads: votes are counted only when a reply arrives |
| `RaftReplies.RepeatedVoteIsTheSame` | 6.5840-golabs-2024/src/raft/rpc.go:29-50 | a repeated vote request gets the same answer and changes nothing |
| `RaftReplies.LateCandidateStepsDown` | 6.5840-golabs-2024/src/raft/raft.go:210-216 | a candidate that asks a server of a later term becomes a follower of that term, with its log and no vote |
| `RaftReplies.LateCallerStepsDown` | 6.5840-golabs-2024/src/raft/raft.go:267-275 | a server that has left the term of its call becomes a follower of the later term of the server it called |
| `RaftReplies.LateLeaderStays` | 6.5840-golabs-2024/src/raft/raft.go:267-302 | a leader that calls a server of a later term stays leader although the reply carries that term, and only goes back to the first entry |
| `RaftReplies.StepsDownExactlyWhen` | 6.5840-golabs-2024/src/raft/raft.go:267-275 | a reply of a later term makes a follower exactly of whoever is not leader of the term of the call |
| `RaftReplies.CreditedExactlyWhen` | 6.5840-golabs-2024/src/raft/raft.go:303-310 | an accepted message tells the leader that the server has its whole log and makes it commit all it may, except a heartbeat with nothing to send, which teaches nothing |
| `RaftLogs.ConflictAtFirst` | 6.5840-golabs-2024/src/raft/rpc.go:88-104 | on a message placed by the invariant the scan finds no conflict or one at the first entry |
| `RaftLogs.AcceptedIsSnapshot` | 6.5840-golabs-2024/src/raft/rpc.go:105-111 | an accepted message makes the log the one the leader had |
| `RaftLogs.BackedUpIsPositioned` | 6.5840-golabs-2024/src/raft/raft.go:276-302 | after a rejection the next index is again at or past the first difference of the logs |
| `RaftReplication.DeliverStep` | 6.5840-golabs-2024/src/raft/rpc.go:53-123 | delivering a message keeps the replication invariant |
| `RaftMatching.SendStep` | 6.5840-golabs-2024/src/raft/raft.go:243-262 | building a message while leader keeps the replication invariant, whatever else is in flight |
| `RaftMatching.LearnedStep` | 6.5840-golabs-2024/src/raft/raft.go:276-310 | what a leader learns from a reply is true: next indices stay placed and matches were stored |
| `RaftMatching.CommandStep` | 6.5840-golabs-2024/src/raft/raft.go:455-456 | appending a command keeps the replication invariant |
| `RaftMatching.WinStep` | 6.5840-golabs-2024/src/raft/raft.go:405-413 | becoming leader keeps the replication invariant |
| `RaftTheorems.LogMatching` | 6.5840-golabs-2024/src/raft/rpc.go:53-123 | Log Matching over every run in which only leaders send, with any number of calls in flight: two logs, at whatever moments, with the same term at an index are identical up to it |
| `RaftTheorems.AcceptedCopiesLeader` | 6.5840-golabs-2024/src/raft/rpc.go:88-122 | in every run in which only leaders send, an accepted message leaves the follower with the log the leader had when it built the message, and the conflict index is none or 0 |
| `RaftTheorems.CommitMoves` | 6.5840-golabs-2024/src/raft/raft.go:341-362 | a commit index moves only to the greatest index that may be committed |
| `RaftTheorems.CommitHasMajority` | 6.5840-golabs-2024/src/raft/raft.go:341-362 | in every run in which only leaders send, when a leader commits, the entry is of its term and a majority of servers each stored its log through that index in that term |
| `RaftTheorems.CommitsWhatItMay` | 6.5840-golabs-2024/src/raft/raft.go:341-362 | after an acknowledgement that carried entries every entry of the own term that more than half of the servers are known to have is committed |
| `RaftOrder.StoresExactly` | 6.5840-golabs-2024/src/raft/rpc.go:88-111 | storing keeps the log up to the previous index and adds exactly the sent entries if and only if the scan finds no conflict after the first entry |
| `RaftOrder.LateMessageShortens` | 6.5840-golabs-2024/src/raft/rpc.go:109-109 | a message delivered after a newer one cuts the log back to the older snapshot |
| `RaftOrder.StoredIsKept` | 6.5840-golabs-2024/src/raft/rpc.go:88-111 | in every run in which only leaders send, accepting a message keeps every log the server stored in that term if and only if none of them is longer than what the message leaves |
| `RaftOrder.WaitingIsOrdered` | 6.5840-golabs-2024/src/raft/raft.go:314-326 | leaders that have at most one call per server in flight never have one accepted out of order |
| `RaftOrder.OrderedIsWhole` | 6.5840-golabs-2024/src/raft/rpc.go:27-50 | when no call is accepted out of order, nobody stands or votes with a log that lost something it stored |
| `RaftWitnesses.OutOfOrderBreaksSafety` | 6.5840-golabs-2024/src/raft/raft.go:314-337 | a run of three servers in which only leaders send but a call is accepted after a longer one of its term, and the server votes with the log it cut: a chosen entry is missing from a later leader, and two servers commit different entries at one index |
| `RaftWitnesses.StraySenderBreaksMatching` | 6.5840-golabs-2024/src/raft/raft.go:243-266 | a run of three servers in which calls are accepted in order but one was built by a server that no longer leads: two logs have the same term at an index and differ before it |
| `RaftTheorems.LogsAreComparable` | 6.5840-golabs-2024/src/raft/rpc.go:53-123 | any two logs of a run in which only leaders send are such that fast backup converges on them |
| `RaftBackup.FastBackupConverges` | 6.5840-golabs-2024/src/raft/raft.go:242-312 | without losses, from the next index of a new leader: the first probe is rejected, then at most one rejection per distinct follower term, then the logs are equal |
| `RaftBackup.BackupConverges` | 6.5840-golabs-2024/src/raft/raft.go:242-312 | the same from any next index not before the first difference of the logs, with no rejection exactly when that index is accepted |
| `RaftCatchUp.CatchesUp` | 6.5840-golabs-2024/src/raft/raft.go:242-312 | from any moment of a run in which only leaders send, exchanges of a leader with a server not ahead of it in term go on as such a run, ordered if it was, and end, after at most one rejection per distinct term of the log of that server and one more, with the log and the commit index of the leader there; if the server lacked the last entry, the leader knows that it has it and has committed all it may |
| `RaftAvailable.CommandCanBeCommitted` | 6.5840-golabs-2024/src/raft/raft.go:439-461 | every run of two or more servers in which only leaders send can go on with steps of a given majority only, without loss or restart, until all of it have committed a new command at one index; the run stays ordered if it was |
| `RaftBackup.StartsCountTerms` | 6.5840-golabs-2024/src/raft/rpc.go:76-84 | counting where terms start counts the distinct terms |
| `RaftPastSteps.EveryPast` | 6.5840-golabs-2024/src/raft/rpc.go:40-50 | over every run in which only servers with whole logs stand and vote, a vote that elected a leader was cast for a log not behind the log of the voter, which still held or had replaced all it ever stored |
| `RaftCompleteness.LaterLeaderHasChosen` | 6.5840-golabs-2024/src/raft/rpc.go:42-45 | an entry that a majority stored in its own term is in the log of every leader of a later term |
| `RaftSafety.LeaderCompleteness` | 6.5840-golabs-2024/src/raft/rpc.go:42-45 | Leader Completeness over every run in which only servers with whole logs stand and vote |
| `RaftSafety.CommitInside` | 6.5840-golabs-2024/src/raft/rpc.go:112-121 | in every ordered run a commit index is inside the log |
| `RaftSafety.CommittedStays` | 6.5840-golabs-2024/src/raft/rpc.go:112-121 | in every ordered run a commit index never goes back and the entries up to it never change, except for the restart of the server |
| `RaftSafety.StateMachineSafety` | 6.5840-golabs-2024/src/raft/raft.go:341-362 | State Machine Safety over every run in which only servers with whole logs stand and vote: what two servers commit at an index, at whatever moments, is the same entry where both logs reach, which is everywhere in an ordered run |
| `RaftApply.AppliedInOrder` | 6.5840-golabs-2024/src/raft/raft.go:364-392 | in every run that keeps the commit index inside the log the service receives indices 1, 2, 3, ... without gap or repeat |
| `RaftApply.AppliedIsCommitted` | 6.5840-golabs-2024/src/raft/raft.go:364-392 | when committed entries stay, the service receives exactly the committed log in order |
| `RaftApply.BatchIsComplete` | 6.5840-golabs-2024/src/raft/raft.go:372-390 | from collecting a batch to recording it, all that was committed when it was collected is delivered |
| `RaftApply.IdleMeansDelivered` | 6.5840-golabs-2024/src/raft/raft.go:368-371 | when the delivering goroutine waits, all that is committed was delivered |
| `RaftApply.DeliversAll` | 6.5840-golabs-2024/src/raft/raft.go:364-392 | from every moment the own steps of the goroutine deliver all that is committed |
| `RaftService.ReceivesCommitted` | 6.5840-golabs-2024/src/raft/raft.go:364-392 | beside every ordered run of the cluster, the service of a server receives what the server has committed, in order: committed entries stay, by CommittedStays |
| `RaftService.ReceivesAll` | 6.5840-golabs-2024/src/raft/raft.go:364-392 | beside every ordered run, at any later moment before a restart, the delivery can go on so that the service has received exactly the messages for all that the server has committed |
| `RaftService.CommandReachesService` | 6.5840-golabs-2024/src/raft/raft.go:364-392 | every ordered run of two or more servers can go on with steps of a given majority only until the service of any of its servers, with whatever it received before, receives a new command |
| `RaftService.ServicesAgree` | 6.5840-golabs-2024/src/raft/raft.go:364-392 | what the services of two servers receive at an index is the same message, at whatever moments, and also for two incarnations of one server |
| `KvServer.KVServer.StartKVServer` | 6.5840-golabs-2024/src/kvsrv/server.go:96-106 | an empty store |
| `KvServer.KVServer.Get` | 6.5840-golabs-2024/src/kvsrv/server.go:27-37 | the stored value, empty for a missing key |
| `KvServer.KVServer.Put` | 6.5840-golabs-2024/src/kvsrv/server.go:39-59 | executes the next request of a client, answers an old one from memory, ignores one too far ahead |
| `KvServer.KVServer.Append` | 6.5840-golabs-2024/src/kvsrv/server.go:62-86 | the same, returning the value before the append |
| `KvServer.KVServer.Delete` | 6.5840-golabs-2024/src/kvsrv/server.go:89-94 | forgets the saved reply of a client and nothing else |
| `KvServer.Clerk.Get` | 6.5840-golabs-2024/src/kvsrv/client.go:47-61 | whatever calls are lost and whatever other clients write or delete after each of them, the value the server has when the last call executes, with the two error strings read as empty |
| `KvServer.Clerk.PutAppend` | 6.5840-golabs-2024/src/kvsrv/client.go:71-85 | whatever calls are lost and whatever other clients write or delete after each of them, the server executes the request once, between some of their requests, and the reply is that of this execution |
| `KvServer.Once` | 6.5840-golabs-2024/src/kvsrv/server.go:44-57 | the first attempt takes effect; a later one, after any requests of other clients, changes nothing and repeats the reply |
| `KvServer.ServesOnlyNext` | 6.5840-golabs-2024/src/kvsrv/server.go:44-57 | a write with the next number of its client takes effect, one with an earlier number changes nothing and is answered from memory, and one too far ahead changes nothing and gets no answer |
| `KvServer.NumbersCountUp` | 6.5840-golabs-2024/src/kvsrv/server.go:44-57 | whatever arrives, repeated, reordered or skipped, the number the server has for a client is how far the numbers that arrived count up without a gap |
| `KvClerks.ExecuteWriteOk` | 6.5840-golabs-2024/src/kvsrv/server.go:44-57 | executing a request leaves the server with its number and reply, and changes nothing when it had executed before |
| `KvClerks.NextClerks` | 6.5840-golabs-2024/src/kvsrv/client.go:71-85 | every interleaving of clerks and losses keeps: a write has been executed exactly when it took effect, and its reply is remembered until the clerk asks to forget it |
| `KvLinearizable.RetryIsHarmless` | 6.5840-golabs-2024/src/kvsrv/server.go:44-47 | a repeated Put or Append changes nothing and returns the reply of the first execution |
| `KvLinearizable.EveryMomentLinearizes` | 6.5840-golabs-2024/src/kvsrv/server.go:39-94 | in every run and at every moment the operations that took effect include all that returned, each once, the answers of the server in that order are a legal history of the store that respects real time, and it leads to the value the server has |
| `KvLinearizable.OtherAnswersAreIllegal` | 6.5840-golabs-2024/src/kvsrv/server.go:27-86 | at every moment of every run, with any one answer of a Get or an Append changed the order of effects is no legal history |
| `KvLinearizable.DeletedIsForgotten` | 6.5840-golabs-2024/src/kvsrv/server.go:89-94 | at every moment of every run, once the Delete of a write was executed and until the write returns, the server remembers no reply for its client |
| `KvLinearizable.ServerHistoryLinearizable` | 6.5840-golabs-2024/src/kvsrv/server.go:27-94 | when all operations have returned, the answers of the server are linearized by the order of effects |
| `KvProgress.EverybodyCanReturn` | 6.5840-golabs-2024/src/kvsrv/client.go:47-85 | from every moment of every run, steps without loss let all operations return that were asked for, and then the answers of the server are linearized by the order of effects |
| `KvClients.SeenIsLegal` | 6.5840-golabs-2024/src/kvsrv/client.go:56-60 | an order that explains the answers of the server explains what the clients saw if and only if no Get in it was answered with one of the two error strings |
| `KvClients.EveryMomentSeen` | 6.5840-golabs-2024/src/kvsrv/client.go:47-61 | the same for the order of effects at every moment of every run |
| `KvClients.ClientHistoryLinearizable` | 6.5840-golabs-2024/src/kvsrv/client.go:47-85 | when all operations have returned, the order of effects linearizes what the clients saw if and only if no Get read an error string |
| `KvClients.CheckerAcceptsClients` | 6.5840-golabs-2024/src/kvsrv/test_test.go:298-312 | when no Get read an error string, the checker never calls what the clients saw Illegal, and calls it Ok unless its timer fires |
| `KvClients.ErrorStringBreaksHistory` | 6.5840-golabs-2024/src/kvsrv/client.go:56-58 | a run in which a clerk puts an error string and gets it back: what it saw has no linearization in any order |
| `MapReduce.GroupValues` | 6.5840-golabs-2024/src/mr/worker.go:66-70 | the map holds for each key its values in order |
| `MapReduce.DoMapTask` | 6.5840-golabs-2024/src/mr/worker.go:66-80 | partition r has each key of this task that hashes to r once, with all its values, and no other key |
| `MapReduce.ReadFile` | 6.5840-golabs-2024/src/mr/worker.go:133-144 | adds the values of one file to the storage |
| `MapReduce.DoReduceTask` | 6.5840-golabs-2024/src/mr/worker.go:116-158 | one line per key of the partition in key order, with the result for all its collected values |
| `MapReduce.GroupIsAll` | 6.5840-golabs-2024/src/main/mrsequential.go:70-77 | a group of the sorted pairs has all values of its key |
| `MapReduce.ScanGroups` | 6.5840-golabs-2024/src/main/mrsequential.go:68-84 | the nested loops give one line per key in key order, with the result for all its values |
| `MapReduce.Sequential` | 6.5840-golabs-2024/src/main/mrsequential.go:38-84 | the output of the sequential program for the pairs of all files |
| `MapReduceEquivalence.RunMaps` | 6.5840-golabs-2024/src/mr/worker.go:82-99 | map tasks executed in any order and any number of times leave the files of one execution each |
| `MapReduceEquivalence.PartitionValues` | 6.5840-golabs-2024/src/mr/worker.go:75-80 | a partition has every value of its keys over all tasks, and nothing of other keys |
| `MapReduceEquivalence.ListingDoesNotMatter` | 6.5840-golabs-2024/src/mr/worker.go:121-146 | the values collected from files do not depend on the order in which the files are listed, up to their order |
| `MapReduceEquivalence.MapReduceIsSequential` | 6.5840-golabs-2024/src/mr/worker.go:66-158 | for a reduce function insensitive to the order of values, a line is in some reduce output exactly when it is in the sequential output, and only in the partition of its key |
| `MapReduceEquivalence.Job` | 6.5840-golabs-2024/src/mr/worker.go:33-165 | a whole job for any positive number of partitions and any schedule that covers the map tasks prints the lines of the sequential program |
| `MapReduceJob.OutputsAreExact` | 6.5840-golabs-2024/src/mr/worker.go:168-210 | at every moment of every interleaving of coordinator and workers, the lines in output files are exactly the lines of the sequential program whose partition has its file |
| `MapReduceJob.MissingOutput` | 6.5840-golabs-2024/src/mr/coordinator.go:100-156 | when the job is finished, a file is missing only where a map task hit the slot late and the reduce task is not reported |
| `MapReduceJob.FinishedJobIsSequential` | 6.5840-golabs-2024/src/mr/worker.go:168-210 | a finished job leaves exactly the lines of the sequential program if and only if every slot that was hit late and has such a line has its file as well |
| `MapReduceJob.ReportedJobIsSequential` | 6.5840-golabs-2024/src/mr/worker.go:168-210 | when every reduce task was reported, late hits or not, the output files together have the lines of the sequential program |
| `MapReduceLate.LateReportLosesOutput` | 6.5840-golabs-2024/src/mr/coordinator.go:100-106 | a run of coordinator and workers that finishes without any output file although the sequential program prints a line |
| `Coordinator.Server.MakeCoordinator` | 6.5840-golabs-2024/src/mr/coordinator.go:188-202 | all files waiting, map phase |
| `Coordinator.Server.AllTaskDone` | 6.5840-golabs-2024/src/mr/coordinator.go:123-134 | there are tasks and all are completed |
| `Coordinator.Server.Check` | 6.5840-golabs-2024/src/mr/coordinator.go:135-156 | moves to the next phase exactly when every task of this one was handed out, is completed and none waits to be handed out again |
| `Coordinator.Server.HandleTimeOutTask` | 6.5840-golabs-2024/src/mr/coordinator.go:107-122 | queues the first late task again |
| `Coordinator.Server.AssignedTask` | 6.5840-golabs-2024/src/mr/coordinator.go:33-97 | the next file or reduce number, else a task to repeat, else wait; Finished in the last phase |
| `Coordinator.Server.MarkTaskDone` | 6.5840-golabs-2024/src/mr/coordinator.go:100-106 | marks the task with that number in the present list, and panics exactly when there is none |
| `CoordinatorRuns.CoordinatorInvariant` | 6.5840-golabs-2024/src/mr/coordinator.go:33-156 | over every interleaving: in the map phase the assigned names followed by the waiting files are the input, tasks are numbered by position, at most one is waiting to be repeated, and the reduce phase starts only after every map task was reported |
| `CoordinatorRuns.HandedOutIsInput` | 6.5840-golabs-2024/src/mr/coordinator.go:42-62 | a worker that gets map task m gets the m-th input file |
| `CoordinatorRuns.CrashExactly` | 6.5840-golabs-2024/src/mr/coordinator.go:104-104 | the coordinator panics in a run if and only if a map task is reported after the map phase with a number beyond the reduce tasks handed out so far |
| `CoordinatorRuns.EverySlots` | 6.5840-golabs-2024/src/mr/coordinator.go:100-156 | after the map phase, a slot is completed if and only if its reduce task was reported or a map task with its number was reported in the reduce phase |
| `CoordinatorRuns.FinishMeansReported` | 6.5840-golabs-2024/src/mr/coordinator.go:135-156 | in every run, when the job is finished all map tasks were reported, and every reduce task was reported or a map task with its number was reported in the reduce phase |
| `CoordinatorProgress.ToldWhatToDo` | 6.5840-golabs-2024/src/mr/coordinator.go:33-97 | in every reachable state a worker is told a map task with its file and the number of parts, or a reduce task, started now; to wait only when all was handed out; and to stop exactly when the job is finished and nothing waits to be repeated |
| `CoordinatorProgress.LateTaskIsRepeated` | 6.5840-golabs-2024/src/mr/coordinator.go:107-122 | in every reachable state in which all was handed out, when a task has been worked on for more than ten seconds two requests hand out such a task, in the kind of the phase |
| `CoordinatorProgress.JobCanFinish` | 6.5840-golabs-2024/src/mr/coordinator.go:33-156 | from every moment before a crash workers that do at once what they are given can finish the job, whatever was lost before |
| `CoordinatorProgress.FinishIsPossible` | 6.5840-golabs-2024/src/mr/coordinator.go:33-156 | every run that has not crashed, with at least one file and one reduce task, goes on to the last phase by requests and by reports of tasks handed out from then on only |
| `CoordinatorProgress.NothingToDoNeverFinishes` | 6.5840-golabs-2024/src/mr/coordinator.go:123-156 | without files or without reduce tasks no run ever reaches the last phase |
| `CoordinatorLate.LateReportFinishesTooEarly` | 6.5840-golabs-2024/src/mr/coordinator.go:100-106 | a run in which a map task reported late finishes the job while its reduce task is owed and not reported |
| `CoordinatorLate.LateReportCrashes` | 6.5840-golabs-2024/src/mr/coordinator.go:104-104 | a run in which a map task reported late makes the coordinator panic |

## Left out

- Raft snapshots and InstallSnapshot: the code has an empty body.
- Election timers, heartbeats and sleeps: steps are taken in any order, and nothing is said about when.
- That a Raft cluster, a clerk or a job goes on: with the timers left out it is proved that it can from every moment, not that it will.
- The byte encoding of persisted state and of messages: saving and restoring are taken to be inverse.
- `GetState`, which reads without the lock, and all other memory races: a locked section is one step.
- RaftNode.Raft.CandidateRequestVote: returns the arguments; sending them to every peer is a step of RaftCluster.
- RaftSafety.StateMachineSafety: whole voters are sufficient, not necessary: a vote with a cut log is harmless when nothing chosen was cut.
- RaftTheorems.LogMatching: only leaders sending is sufficient, not necessary: a stray message that is rejected, or carries what the leader would have sent, does no harm.
- RaftApply.AppliedIsCommitted: takes it as given that committed entries stay; RaftService.ReceivesCommitted proves it of the cluster.
- Goroutines of a server that go on after its restart: a restart forgets them.
- Bitset words are numbers below 2 to the 64 with recursively defined bit operations, not machine words.
- CheckHistory.UniquePartials: compares recorded partial linearizations by content, the code by pointer, so the code may draw equal ones twice.
- Checker.CheckSingle: the kill flag is a function of how often it was read, and the channel and goroutines around it are steps of `Verdict`.
- `DescribeOperation`, `DescribeState` and the page the visualizer writes.
- Strings are sequences of characters and are ordered by character.
- Verdict.VerdictIsRight: the list of partial linearizations that is returned with a verdict is described by CheckHistory.UniquePartials and CheckHistory.VisualizePartition instead.
- RaftApply.AppliedInOrder: within one incarnation; a restarted server delivers from the start again.
- KvServer.Clerk.Get: other clients act between the calls of this method, not during one; all interleavings are in KvClerks.
- KvServer.Clerk.PutAppend: the same, and other clients have other ids and delete only their own replies.
- MapReduceEquivalence.ReadDirectory: lists the files by task; the theorem allows every order.
- Files, names, JSON and regular expressions of the MapReduce workers, and errors of the file system: a file is a value under its task and partition.
- The hash function of the MapReduce workers: any function from keys to numbers.
- Worker loops, sockets and RPC of MapReduce, and the plugins.
- `kvraft`, `shardctrler` and `shardkv`: handlers without bodies.
- `labrpc` and `labgob`: only their promises are used, as listed above.
- `gintest`: web handlers over libraries.
