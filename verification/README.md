# Verification of vectory

vectory serves FAISS indexes that are cut into shards, and every shard lives on the nodes that a
consistent hash ring assigns to its replicas.  When a new revision of an index is published, the
nodes download it, keep it staged beside what they serve, and switch together once all of them are
ready.  This project models that machinery in Dafny and proves what it does, and where it does not
do what `docs/cluster-revision-consistency.md` says.

Run `dafny verify --resource-limit 2000000 --verification-time-limit 0 dfyconfig.toml`.

## What is modelled

**The cluster-wide reload as interleaved steps** (`RevisionProtocol`).  A state holds the published
revision, the store of every node with what each shard serves and has staged, the ready keys, the
commit events still to be handled, and one program counter for each callback or commit handler in
flight.  Every etcd call, every lookup of one replica key in the ring, every visit of one shard and
every critical section of `stagedMu` is a step; failed calls, lost leases, repeated and stale events,
and changes of placement are steps too.  On top of it:

- `ProtocolInvariant`, `NobodyLeftBehind`: what every interleaving keeps, for any number of
  revisions.
- `Restaging`: two stronger readings that fail, each with exactly the steps that end it, and in
  `SideBySideExample` runs from rest that do.
- `AllOrNothing`: in the cycle of one new revision, the first or any later one, no shard switches before
  all have it in memory.
- `Settling`: whatever fails in a cycle, a cluster at rest has switched as a whole or not at all, and the
  commit key tells which.
- `Signals`, `Quiescence`: a round of callbacks in which no signal is lost switches everyone, whatever was lost
  before it, and with failed stagings, repeated events and failed deletions in it.  `LostSignals` shows
  that what it excludes does leave clusters unswitched until the next round; `RetryExample` runs both.
- `Lifetime`: one reload after another, faults first and then a round without, for any number of them.
- `LateJoin`: exactly when the whole cluster switches, and what a node that joins in the middle does
  to a cycle.  `LateJoinExample` runs such a cycle to its end.
- `Provenance`: where a served revision comes from, with ring changes and rebalances anywhere.
- `RingChanges`: when the owners that were looked up one by one are the owners by a ring, and in
  `MixedRingExample` what happens when they are not.

**The same protocol as one node runs it** (`Coordination`, `EtcdKeys`, `CommitReplay`): signalReady,
checkAndCommit, commitIndex and the watch as methods over string keys and FaissIndex objects.
`ProtocolRefinement` and `ReloadRefinement`, with the help of `Traces`, prove that these methods, run without interruption, are
runs of the steps above, and `PlacedByRebalance` that Rebalance establishes the placement that the
end of a cycle relies on.

**One shard** twice: under concurrency (`FaissThreads`, `FaissThreadsSafety`,
`FaissThreadsProgress`, `FaissThreadsRevisions`, `LateSearchExample`), with two locks, a flag and handles
freed by hand, Delete included; and used by one thread at a time (`FaissIndexes`, `Downloads`), for the
accounting of handles and revisions.  `FaissThreadsRefinement` proves that every schedule is a sequence of
calls of the one-thread object, and `FaissThreadsOutcomes` which calls each operation makes and when.

**Search** (`Orders`, `PriorityQueues`, `MergeLists`, `Searches`): the array heap, the capped merge that
finds the list to advance by value, and the answer built from the answers of the shards.

**Placement and routing** (`HashRings`, `Placement`, `PlacementLaws`, `ClusterNodes`, `ShardRouting`):
the differently shaped loops over one ring and why they agree; `NodeStatuses` has what a node reports.

**Keys** (`Text`, `ShardKeys`, `RevisionPaths`): printing, parsing and prefix reads.

## Assumptions

- Published revisions are not negative and do not go down.
- Shards, Replicas and their product fit in an int32; a manifest does not change under its name.
- Shards reload through the callback of manager.go:601-611 only, and every index in the store is a
  FaissIndex; the branches for the mock index type have no counterpart.
- The ring library places a key on a member of a nonempty ring; how it hashes is left open.  No node
  has the empty string for its id, which the code uses for "no owner".
- `less` is a strict weak order, and scores are reals, so there is no NaN.
- A search item is known by the address of its protobuf message, which is what the merge compares.
- Files, etcd, S3 and FAISS appear as their answers: parameters that say what is read and which
  calls fail.  A successful put is seen by every watch.  A missing cluster manager at the end of
  commitIndex counts as a failed delete of the ready key.
- One state machine is one index.  Other indexes write other keys, which the lemmas of
  `RevisionPaths` show for names without a slash.
- FromString returns the changed receiver.  An object in the store of `Placement` is a number and the
  shard it was made for.

## What the code does otherwise than one may expect

- `docs/cluster-revision-consistency.md:118-120` says that a commit waits until a node that joins is
  ready.  The code never commits that revision: the new node loads it directly, finds nothing to stage,
  and never puts a ready key, whether it joins before the others stage or in the middle (`LateJoin`).
- `docs/cluster-revision-consistency.md:55` and `:124` call restaging harmless.  A shard that restages
  lets the commit of the older revision pass, and shards of one index then serve different
  revisions until the next commit.  `Restaging.KeptIff` says that nothing else does this.  What holds
  always is `NobodyLeftBehind.SwitchedMeansEverywhere`.
- A ready key does not mean that the shards are staged at its revision: a restaging ends that, and
  with a single revision the commit does, because the ready key is deleted last
  (`Restaging.StagedExactlyIff`).
- A late event of an older commit commits nothing, but its handler deletes the ready key of the new
  revision at the end.  After that, a failed etcd call or a lost lease the cluster may rest without
  switching (`LostSignals`), until the shards' next callbacks, which stage and signal again.  It has
  switched if and only if the commit key was put, and then every shard has
  (`Settling.CycleEndsAllOrNothing`); and a next round of callbacks in which nothing is lost switches
  it (`Quiescence.Recovers`, `RetryExample`).
- checkAndCommit asks the ring for each replica key on its own.  If the ring changes in between, the
  owners it compares need not be the owners by any one ring (`MixedRingExample`).
- manager.go:530-532 takes a shard out of the store before it deletes it, so that no search uses freed
  memory.  Exactly the searches that have fetched the object already and get its lock after the
  Delete still do (`FaissThreadsSafety`, `LateSearchExample`).
- A load that failed and then succeeded on retry leaves its pending record, and the node stays
  Unhealthy (`PlacementLaws.HealthyIff`, `RetriedSuccessStaysPending`).
- A node that went inactive and is modified back to another status is not put back on the ring
  (`ClusterNodes.OnTheRingIff`).  A deletion event takes its node off only if it still carries the
  meta (`ClusterNodes.DeletionTakesOffIff`).
- Index names with a colon are misread from shard keys, and names and node ids with a slash from
  revision keys (`FromShardKeyIff`, `FromUniqueShardKeyIff`, `ParseCommitIff`, `LastSegmentIff`,
  `PrefixSelectsIff`).
- The downloader compares the first read of the revision only (`Downloads.GateHoldsIff`).
- A revision file that ends in a newline cannot be read by the local downloader
  (`Text.NewlineIsRejected`; internal/engine/local_dl.go:84), while the S3 one trims it
  (internal/engine/s3_dl.go:147).
- A response from a remote shard replaces the error of the same call, and a shard without an answer
  contributes nothing: its error is only in the merged error text.
- The merge takes the lowest scores for the best.  For an inner-product index the lists come in
  descending order, and the answer begins with the best item if and only if the best items of all
  shards score the same (`Searches.InnerProductBestFirstIff`; two shards in `InnerProductExample`).
  In general the answer is sorted if and only if what it has taken of each list is
  (`MergeLists.MergeSortedLists`).

## Model

| member | source | states |
|---|---|---|
| ProtocolInvariant.StepKeeps | internal/engine/manager.go:638-780 | every step that moves no shard, faults and repeated events included, keeps the invariant through the half-finished shard check and the stale ready snapshot, and no shard falls back in what it serves or has in memory |
| ProtocolInvariant.InvariantOverRuns | internal/engine/manager.go:638-824 | the same over every run |
| ProtocolInvariant.KeysTellTheTruth | internal/engine/manager.go:651-740 | from a cluster at rest: a ready key at r means every loaded shard of its node has max(serving, staged) >= r, and a commit key ever put at r means it of every loaded shard of every node |
| NobodyLeftBehind.SwitchedMeansEverywhere | internal/engine/faiss.go:268-285 | with any number of revisions: as soon as one shard serves something new, every shard of the cluster has that or something newer in memory |
| Restaging.KeptIff | internal/engine/faiss.go:250-261 | once every shard serves r or something newer or has r staged, a step that moves no shard ends that if and only if a shard that serves less replaces its staged r |
| Restaging.KeptThroughoutIff | internal/engine/faiss.go:250-285 | it lasts over a whole run if and only if no step of the run does so |
| Restaging.CommittedIsKeptIff | internal/engine/manager.go:718-780 | in a reachable state with a commit key at r: every shard serves r or newer or has it staged, if and only if none is left behind r with something newer staged |
| Restaging.StagedExactlyIff | internal/engine/faiss.go:256-285 | while all shards of a node are staged at exactly r, a step ends that if and only if one stages another revision or is committed at r |
| SideBySideExample.StagedExactlyIsNotKept | internal/engine/faiss.go:256-261 | a run from rest ends with the ready key at 1 and a shard staged at 2 |
| SideBySideExample.CommitEndsStagedExactly | internal/engine/manager.go:755-778 | a run from rest with one revision ends with the ready key at 1 and a shard with nothing staged |
| SideBySideExample.OldAndNewSideBySide | internal/engine/faiss.go:272-277 | a run from rest ends with one shard serving 1 and another serving 0 with only 2 staged |
| AllOrNothing.CommittedIsEverywhere | internal/engine/manager.go:718-732 | in the cycle of one new revision: once the commit key is put, every shard has switched or has the revision staged |
| AllOrNothing.SwitchIsAllOrNothing | internal/engine/manager.go:638-824 | in the cycle of one new revision, with any faults and any earlier revisions and keys behind it: every shard serves the old or the new one, and once one has switched all have switched or have it staged |
| Settling.RestsAllOrNothing | internal/engine/manager.go:638-824 | from anywhere in a cycle, any shards having joined at the new revision, with any faults and stale events: a cluster that comes to rest serves the new revision everywhere with nothing staged if the commit key was put, and else what it served, the old one except where shards joined |
| Settling.CycleEndsAllOrNothing | internal/engine/manager.go:638-824 | from the start of a cycle, with any faults: a cluster at rest has switched if and only if the commit key was put, and else every shard serves the old revision |
| Quiescence.EveryoneSwitches | internal/engine/manager.go:601-824 | when every shard has finished a reload callback and nothing is in flight, all serve the new revision with nothing staged: over runs with failed and retried stagings, commit events handled again and ready keys that could not be deleted |
| Quiescence.Recovers | internal/engine/manager.go:601-824 | the same from the middle of a cycle, whatever failed calls, lost leases and stale events it has had: when every shard has finished one more callback, nothing was lost meanwhile and nothing is in flight, all serve the new revision |
| Lifetime.NextCycleStarts | internal/engine/manager.go:601-824 | the rest that any cycle with a commit key ends in, faults included, is a start for the cycle of any newer revision, published already or not |
| Lifetime.RoundSettles | internal/engine/manager.go:601-824 | faults until the cluster rests, then a round of callbacks without: all serve the new revision, no key is newer, and the placement is as it was |
| Lifetime.EveryRoundSwitches | internal/engine/manager.go:601-824 | the same over any number of such reloads one after another |
| LostSignals.FailedCallLosesSignal | internal/engine/manager.go:671-678 | a failed put of the ready key can leave a resting cluster unswitched until the next callback; the condition is that of Settling.CycleEndsAllOrNothing |
| LostSignals.LostLeaseLosesSignal | internal/engine/manager.go:671-674 | so can a lost lease |
| LostSignals.OldEventLosesSignal | internal/engine/manager.go:774-779 | and so can the event of an older commit, whose handler deletes the ready key |
| RetryExample.NextCallbackSwitches | internal/engine/faiss.go:236-263 | after the failed put the next callback of the shard stages and signals again, and the cluster switches |
| LateJoin.LateJoinBlocks | internal/engine/faiss.go:77-90 | anywhere in a cycle, others being staged and ready: if a node has a shard that serves the new revision without a commit and has not signalled, no run, with or without faults, commits it, and no other shard switches |
| LateJoin.JoiningIsStuck | internal/engine/faiss.go:77-90 | ring changes in the middle of staging that give a new node its place, and its load of the published revision, lead to such a state |
| LateJoin.EarlyShardsBlock | internal/engine/faiss.go:236-247 | so are shards that served the new revision at the start of the cycle |
| LateJoin.WholeClusterSwitchesIff | internal/engine/manager.go:601-824 | a cycle at rest that lost no signal has switched the whole cluster if and only if no shard or every shard served the new revision at its start |
| LateJoinExample.RestsUnswitched | internal/engine/faiss.go:236-247 | such a cycle with one early shard of two does come to rest, with both revisions served |
| Provenance.StepFrom | internal/engine/manager.go:470-740 | every step, ring changes between two lookups, loads, unloads and signals of removed shards included, keeps the record of where revisions come from |
| Provenance.ServedRevisionsAreBacked | internal/engine/manager.go:692-732 | over whole runs: a served revision is the one the shard was loaded at, or one put as a commit key by a checkAndCommit that had looked up every replica key and whose snapshot had every owner it found at exactly that revision |
| RingChanges.OwnRingBacks | internal/engine/manager.go:627-732 | while the ring that a node sees does not change, every commit key it puts has all owners by that ring behind it, whatever else changes |
| RingChanges.OneRingBacks | internal/engine/manager.go:627-632 | the same for a commit whose lookups all saw one ring |
| RingChanges.MissesOwnerIff | internal/engine/manager.go:627-727 | a commit key misses an owner by a ring if and only if each replica key the ring gives that owner was looked up in a ring that gives it to another node, and the keys that were read do not hold the owner at the committed revision |
| RingChanges.SpeaksForRingIff | internal/engine/manager.go:627-727 | so over any run whatever, all owners by a ring are behind a commit key if and only if each was found under a key of its own or was ready all the same |
| MixedRingExample.OwnersAreMissed | internal/cluster/node.go:462-474 | from rest: with ring changes between the lookups a commit key is put without an owner by the ring before and without one by the ring after |
| RevisionProtocol.FoundIsOwners | internal/engine/manager.go:627-632 | a loop over an unchanged ring collects its owners |
| FaissThreadsSafety.InvariantOverRuns | internal/engine/faiss.go:103-312 | locks, flag and handle ownership stay in order, and the flag is set exactly while some operation holds it, over every schedule of Search, StageReload, CommitStaged, DiscardStaged, StagedRevision, Reload and Delete |
| FaissThreadsSafety.SearchesNeverTouchFreedHandles | internal/engine/faiss.go:103-130 | in every schedule without Delete a search in flight holds the serving handle, not freed, whose load revision is the revision served; no handle is freed twice |
| FaissThreadsSafety.SearchesFreedIffDeleted | internal/engine/faiss.go:132-139 | in every schedule, Delete included, a search in flight holds the serving handle, and that has been freed if and only if a Delete has freed it |
| FaissThreadsSafety.NothingIsDeletedUnderASearch | internal/engine/faiss.go:135-138 | no step deletes the handle of a search that is inside, so the searches that reach a freed handle are those that get the lock after the Delete |
| FaissThreadsRefinement.StepIsCall | internal/engine/faiss.go:103-312 | every step of every operation leaves the object alone or is exactly one call of it: staging a handle, CommitStaged with what is expected, discarding, freeing or overwriting what is served |
| FaissThreadsOutcomes.SchedulesAreCalls | internal/engine/faiss.go:103-312 | so over any schedule the object is what its calls make of it one after another |
| FaissThreadsOutcomes.CommitDecides | internal/engine/faiss.go:268-292 | in any schedule CommitStaged makes the one call that swaps to the expected revision if that is what is staged when it gets stagedMu, however long it waits for the readers then, and no call otherwise |
| FaissThreadsOutcomes.CommitServesExpected | internal/engine/faiss.go:268-285 | a thread that began as CommitStaged(e) changes what is served only to e, and only when exactly that is staged |
| FaissThreadsOutcomes.StageDecides | internal/engine/faiss.go:221-263 | in any schedule StageReload stages what it has downloaded if nobody else was reloading when it tried the flag and that is newer than the revision it has read, and makes no other call |
| FaissThreadsOutcomes.ReloadDecides | internal/engine/faiss.go:179-213 | in any schedule Reload serves what it got if nobody else was reloading when it tried the flag and neither the download nor the read failed, and makes no other call |
| FaissThreadsOutcomes.OthersCall | internal/engine/faiss.go:103-312 | searches and StagedRevision change nothing, DiscardStaged discards, and Delete discards and then frees what is served |
| FaissThreadsRevisions.ServedNeverFalls | internal/engine/faiss.go:221-304 | over every schedule without Reload: between any two moments the served revision stays with its handle or rises, and what is staged is newer than what is served |
| LateSearchExample.LateSearchReachesFreed | internal/engine/manager.go:528-536 | there is such a schedule |
| FaissThreadsSafety.NothingLeaksWithoutReload | internal/engine/faiss.go:221-304 | when all operations are over, without Delete and without a handle overwritten by Reload, exactly the serving and the staged handle are open |
| FaissThreadsProgress.WriterOrReaderMoves | internal/engine/faiss.go:135-285 | whoever is in front of or inside rw can be unblocked, although a waiting writer keeps new readers out |
| FaissThreadsProgress.SomebodyCanMove | internal/engine/faiss.go:103-312 | deadlock freedom, Delete included: with an unfinished operation some thread can take a step |
| FaissThreadsProgress.RunsAreBounded | internal/engine/faiss.go:103-312 | no schedule is longer than the sum of what its operations have in front of them |
| FaissThreadsProgress.EverythingFinishes | internal/engine/faiss.go:103-312 | a schedule that cannot be continued has finished every operation |
| FaissIndexes.FaissIndex.StageReload | internal/engine/faiss.go:221-264 | the error or the staged revision, and the whole new state: the previous staged handle freed, the fields set, nothing changed by a failure; it succeeds at p if and only if nobody is reloading, the downloader works, the first read shows something newer, the second shows p with its file there, and that can be read |
| FaissIndexes.PublishedIsStaged | internal/engine/faiss.go:221-285 | a published revision that is newer than the served one, there and readable is staged, and served once it is committed |
| FaissIndexes.StagingFailsWith | internal/engine/faiss.go:230-254 | each other attempt fails with the error of what was missing, and changes nothing |
| Downloads.FailsWith | internal/engine/local_dl.go:25-67 | which error goes with which reads of the revision file and which shard file |
| FaissIndexes.FaissIndex.CommitStaged | internal/engine/faiss.go:268-292 | succeeds if and only if something is staged at exactly the expected revision; which error otherwise; the old handle is freed and the staged fields cleared |
| FaissIndexes.FaissIndex.DiscardStaged | internal/engine/faiss.go:295-304 | frees what is staged, once, and clears the fields |
| FaissIndexes.FaissIndex.Delete | internal/engine/faiss.go:132-139 | frees what is staged and what is served |
| FaissIndexes.OnlyLiveHandlesUnfreed | internal/engine/faiss.go:250-303 | after any calls, failed ones included: the handles not freed are exactly the serving one and the staged one, every other was freed once |
| FaissIndexes.DeleteFreesTheRest | internal/engine/faiss.go:132-139 | after any calls and one Delete, every handle ever returned has been freed exactly once |
| FaissIndexes.RevisionsRise | internal/engine/faiss.go:238-285 | over any stagings, commits and discards: the served revision never goes down and rises with every swap; nothing staged if and only if stagedRevision is 0; staged is newer than served |
| FaissIndexes.ActsAsSlot | internal/engine/faiss.go:221-312 | a shard of the step relation is this object: the same effect of commit, staging and failed staging, and the same StagedRevision |
| Downloads.GateHoldsIff | internal/engine/local_dl.go:42-67 | whatever is served, what is delivered is newer, if and only if the published revision did not go down between the two reads or what it went down to is not there |
| Downloads.ReadsWhatWasPublished | internal/engine/local_dl.go:69-96 | a printed revision is read back as itself |
| Coordination.Coordinator.LocalShardsStaged | internal/engine/manager.go:645-668 | the check loop answers whether all shards of the index that are here are staged at the revision |
| Coordination.Coordinator.SignalReady | internal/engine/manager.go:638-682 | exactly what is written to etcd, for any names and any pattern of failing calls: nothing, the ready key, or the ready key and then the commit key; and which outcome |
| Coordination.Coordinator.CheckAndCommit | internal/engine/manager.go:686-740 | the commit key is put, at the given revision, if and only if there are owners, each was read to be ready at the revision, and no call fails; and which outcome |
| Coordination.ReadCommitIff | internal/engine/manager.go:799-813 | a watch reads a commit out of an event if and only if its key is the commit key of a slash-free, nonempty name and its value holds the revision |
| Coordination.CommitsOfSignal | internal/engine/manager.go:671-732 | what a watch reads out of the puts of signalReady: the signalled revision of this index if the commit key was put, and nothing else |
| Coordination.SignalSwitches | internal/engine/manager.go:730-820 | handling the put of the commit key makes every shard of the index that has the signalled revision staged serve it and leaves the others alone; a ready key changes nothing |
| Coordination.AgreedIff | internal/engine/manager.go:697-727 | for names without a slash the owners are read to be ready if and only if the ready key of each holds the revision |
| Coordination.SignalStaysWellKeyed | internal/engine/manager.go:671-732 | what signalReady writes keeps the watched prefix in order |
| Coordination.Coordinator.ReloadCallback | internal/engine/manager.go:601-611 | a shard that is reloading already or fails to stage changes nothing; otherwise this shard is staged and the node signals with its revision |
| Coordination.Coordinator.CommitIndex | internal/engine/manager.go:743-780 | every shard of the index that is here is committed, others are not touched, and the node's ready key goes |
| Coordination.Coordinator.HandleWatchEvent | internal/engine/manager.go:798-820 | deletions, keys that are no commit keys and undecodable values change nothing; a commit key commits its revision |
| EtcdKeys.CollectedIsReady | internal/engine/manager.go:697-716 | that map holds node n at r if and only if n's ready key for this index holds r: string keys refine the map of the step relation |
| EtcdKeys.WritesStayWellKeyed | internal/engine/manager.go:672-732 | the keys the protocol writes and deletes keep the watched prefix in order |
| CommitReplay.EventsCommitOnce | internal/engine/manager.go:743-772 | under any sequence of commit events each shard swaps at most once, to what it had staged |
| CommitReplay.OrderAndRepeatsDoNotMatter | internal/engine/manager.go:743-824 | two sequences of commit events for the same revisions have the same effect |
| CommitReplay.TwiceIsOnce | internal/engine/manager.go:743-780 | handling a commit event twice is handling it once |
| CommitReplay.StrayEventsIff | internal/engine/faiss.go:272-277 | commit events change nothing that is served or staged if and only if none is for a revision that a shard of the index has staged |
| ProtocolRefinement.SignalReadyRefines | internal/engine/manager.go:638-740 | signalReady over string keys, uninterrupted, is a run of protocol steps with the same writes, whichever calls fail, and the commits that watches read out of the writes are the events that the run adds |
| ProtocolRefinement.LooksUpInOrder | internal/engine/manager.go:627-632 | the lookups of the protocol go through the replica keys in the order of GenerateShards |
| ProtocolRefinement.DecisionAgrees | internal/engine/manager.go:718-727 | the comparison over etcd keys and the placement loops is the comparison of the step relation |
| ProtocolRefinement.OwnersAgree | internal/engine/manager.go:615-634 | the owner set of the step relation is nodesOwningIndex |
| ReloadRefinement.StageReloadRefines | internal/engine/faiss.go:221-264 | every StageReload of an object, with a publication between the two reads and failing wherever it may, is a run of protocol steps, and which steps |
| ReloadRefinement.CommitIndexRefines | internal/engine/manager.go:743-780 | commitIndex of a node is a run of protocol steps |
| PlacedByRebalance.RebalancedIsPlaced | internal/engine/manager.go:485-538 | when every node holds what it owns, the nodes the commit waits for are the nodes with shards |
| PlacedByRebalance.RebalancedClusterSwitchesIff | internal/engine/manager.go:448-824 | from Rebalance to the end of a reload that lost no signal: the whole cluster switches if and only if no shard or every shard served the new revision at the start |
| Placement.IndexManager.MarkShardPending | internal/engine/manager.go:271-277 | the record is added and a Healthy node becomes Unhealthy |
| Placement.IndexManager.UnmarkShardPending | internal/engine/manager.go:279-293 | the record goes, and an Unhealthy node becomes Healthy if it was the last |
| Placement.IndexManager.Rebalance | internal/engine/manager.go:448-556 | for any store, records and load failures: every shard of a known manifest is settled, nothing else changes, exactly which records are left, and the final status |
| Placement.IndexManager.LoadIndex | internal/engine/manager.go:186-235 | what was there stays; a missing shard appears if and only if the load of some replica key that is wanted here succeeds, for the first such; which failures are recorded; the counts are the shards added and the loads tried; and the status |
| Placement.IndexManager.DeleteIndex | internal/engine/manager.go:237-269 | the manifest and exactly its shards go; an unknown index changes nothing |
| Placement.IndexManager.NodesOwningIndex | internal/engine/manager.go:615-634 | exactly the owners of replica keys; nothing for an unknown index |
| PlacementLaws.RebalanceIsExact | internal/engine/manager.go:485-538 | no unowned shard stays, owned shards keep the very same object, an owned missing shard has a record, a new object is for the first replica that hashes here |
| PlacementLaws.HealthyHoldsOwned | internal/engine/manager.go:454-466 | a node that ends Healthy holds exactly what it owns |
| PlacementLaws.RecordsIff | internal/engine/manager.go:454-556 | the records after a rebalance are the old ones whose own replica key hashes here and the shards whose load failed this time |
| PlacementLaws.HealthyIff | internal/engine/manager.go:454-466 | it ends Healthy if and only if no load failed this time and no old record hashes here |
| PlacementLaws.RetriedSuccessStaysPending | internal/engine/manager.go:470-482 | a record whose key hashes here survives any number of rebalances, successful loads included |
| PlacementLaws.SecondRebalanceChangesNothing | internal/engine/manager.go:448-556 | without failures a second rebalance changes neither store nor records |
| PlacementLaws.OwnedStoreStays | internal/engine/manager.go:485-538 | a store that holds exactly what is owned is left as it is |
| PlacementLaws.LoadedShard | internal/engine/manager.go:204-232 | whatever loads fail: a shard appears if and only if some replica is taken here and its load succeeds, created for the first such replica; on a node without a cluster all replicas are taken |
| PlacementLaws.LoadRecords | internal/engine/manager.go:204-222 | the records added are exactly the loads that were tried and failed |
| PlacementLaws.LoadAgrees | internal/engine/manager.go:186-232 | without failures loadIndex adds in a cluster exactly the owned shards of the manifest, for the replicas Rebalance would choose, and on a node without one all shards, as replica 0; it touches nothing else |
| PlacementLaws.LoadThenRebalance | internal/engine/manager.go:204-232 | loadIndex on a store without unowned shards leads to a store that Rebalance leaves as it is, forgetting only the records that hash elsewhere |
| PlacementLaws.DeleteUndoesLoad | internal/engine/manager.go:186-269 | deleting an index undoes its loading |
| PlacementLaws.EveryShardIsCovered | internal/engine/manager.go:485-538 | every shard is on at least 1 and at most min(Replicas, ring size) nodes |
| PlacementLaws.OwnersAreHolders | internal/engine/manager.go:615-634 | nodesOwningIndex is exactly the set of nodes that hold some shard of the index |
| ClusterNodes.EtcdManager.Discover | internal/cluster/node.go:246-276 | an undecodable entry fails before there is a ring; otherwise the ring is the registered nodes that are not inactive, and the meta map gains all registered nodes |
| ClusterNodes.EtcdManager.HandleEvent | internal/cluster/node.go:287-335 | one event, decodable or not, changes ring and meta map together |
| ClusterNodes.DeletionTakesOffIff | internal/cluster/node.go:289-324 | a deletion takes a node off the ring if and only if its event carries that node's meta |
| ClusterNodes.EtcdManager.GetNode | internal/cluster/node.go:368-403 | the owner of the key if its meta is known and its status takes requests, otherwise which error and whether the owner comes with it |
| ClusterNodes.MembersStayKnown | internal/cluster/node.go:287-335 | over any sequence of events every ring member has a meta at event boundaries |
| ClusterNodes.OnTheRingIff | internal/cluster/node.go:287-335 | after any events the ring members are those who joined and have not left since; a node that becomes active again is not put back |
| ClusterNodes.MetaIff | internal/cluster/node.go:287-335 | after any events a node has the meta that was announced of it last, by a creation or modification or before them all, if it was not deleted since |
| ClusterNodes.LatestMetaIff | internal/cluster/node.go:246-266 | after the first listing a node has the meta of its last entry, or the one known before |
| ClusterNodes.AnswerErrors | internal/cluster/node.go:368-403 | which owners, by meta and status, come with which error |
| ClusterNodes.RoutesByLastStatus | internal/cluster/node.go:287-403 | after any events a key goes to its owner if and only if the status announced last for the owner is Healthy, Unhealthy or Rebalancing |
| ClusterNodes.RouteFailsIff | internal/cluster/node.go:368-403 | then a key fails to route if and only if its owner takes no requests |
| ShardRouting.ResolveUniqueShard | internal/engine/manager.go:558-592 | an error if and only if the index or the shard does not exist; otherwise the routable owners of the replica keys, in replica order |
| ShardRouting.RouterAgreesWithPlacer | internal/engine/manager.go:558-592 | after any events: exactly the nodes that take requests, by what was announced of them last, among those on which Rebalance places the shard |
| ShardRouting.RoutedInOrder | internal/engine/manager.go:578-590 | one entry for each replica that routes, in replica order |
| PriorityQueues.PriorityQueue.Push | internal/utils/utils.go:44-47 | keeps the heap and adds the element |
| PriorityQueues.PriorityQueue.Pop | internal/utils/utils.go:49-55 | keeps the heap and takes out one element, a minimum |
| PriorityQueues.RootIsMinimum | internal/utils/utils.go:34-55 | heap order makes the root a minimum |
| PriorityQueues.DownOnce | internal/utils/utils.go:36-42 | one swap of sifting down moves the only possible disorder one level down |
| PriorityQueues.UpOnce | internal/utils/utils.go:36-42 | one swap of sifting up moves it one level up |
| MergeLists.AdvanceFirst | internal/utils/utils.go:75-84 | some list has the popped head, the first one loses it, and the heap is again the multiset of the heads |
| MergeLists.Round | internal/utils/utils.go:71-84 | one round keeps elements, suffixes, order and that nothing left is below the result |
| MergeLists.MergeSortedLists | internal/utils/utils.go:58-87 | for any lists: length min(cap, total); result and rest are the original multiset; every list is a suffix of what it was; the result begins with a lowest head, and it is sorted if and only if what was taken of each list is, so without a cap if and only if the lists are; for sorted lists it is the cap smallest elements |
| MergeLists.DescendingBestFirstIff | internal/utils/utils.go:58-87 | a merge of descending lists begins with a highest element if and only if the heads tie |
| MergeLists.TopKOfTopKs | internal/utils/utils.go:58-87 | the k best of the k best of each source are the k best of everything |
| Orders.TopKUnique | internal/utils/utils.go:58-87 | two lists of the k best differ in ties only |
| Searches.HandleQuery | internal/processor/search.go:75-137 | the answer for one vector from the answers of its shards, single and merged branch, with the errors |
| Searches.ErrorsReadBack | internal/processor/search.go:115-133 | cut at the bars, the merged error text gives the errors of all shards in order |
| Searches.Handle | internal/processor/search.go:43-141 | when the request fails and how, and one answer for each vector |
| Searches.InnerProductBestFirstIff | internal/processor/search.go:114-137 | when the shards answer in descending order, the merged answer begins with a highest-scored item if and only if the shards' best items score the same |
| Searches.InnerProductExample | internal/processor/search.go:114-137 | answers 5, 1 and 4, 2 with limit 1 give 4 |
| Searches.AnswerIsGlobalTopK | internal/processor/search.go:114-137 | if each shard contributes its own k lowest-scored items in order, the answer is the k lowest-scored of all their items |
| ShardKeys.FromShardKeyIff | internal/engine/index.go:147-176 | FromString on a zero Shard inverts ShardKey if and only if the name has no colon |
| ShardKeys.FromUniqueShardKeyIff | internal/engine/index.go:153-176 | the same for UniqueShardKey of replica 0 |
| ShardKeys.ShardKeyInjective | internal/engine/index.go:147-149 | different shards have different keys, colons or not |
| ShardKeys.UniqueShardKeyInjective | internal/engine/index.go:153-155 | different unique shards have different unique keys |
| ShardKeys.FromStringByParts | internal/engine/index.go:157-176 | keys of one, two and three parts on any receiver: what is set, what stays, ids that wrap around, and parts that are no numbers |
| ShardKeys.FromStringOfMany | internal/engine/index.go:157-176 | with more parts the receiver stays as it was |
| ShardKeys.GenerateShards | internal/engine/index.go:193-207 | all replicas of all shards, in order |
| ShardKeys.RowsAt | internal/engine/index.go:193-207 | where each replica comes: those of a shard together, in order, after all shards before it |
| ShardKeys.GenerateUniqueShards | internal/engine/index.go:211-222 | each shard once, as replica 0 |
| ShardKeys.GenerateReplicaKeys | internal/engine/index.go:178-187 | the keys of all replicas in order, none for a shard without a name |
| Text.AtoiFormat | internal/engine/index.go:157-176 | parsing inverts printing on 64-bit integers |
| Text.AtoiIff | internal/engine/local_dl.go:84-93 | a number is accepted if and only if it is a sign or none and then digits only, within 64 bits |
| RevisionPaths.ParsesIff | internal/engine/manager.go:828-840 | for any key at all: the parser reads an index name out of it if and only if it is the commit key of that name, which has no slash |
| RevisionPaths.ParseCommitIff | internal/engine/manager.go:828-840 | the parser inverts the commit path if and only if the index name has no slash; otherwise it finds no commit key |
| RevisionPaths.ParseReadyIsEmpty | internal/engine/manager.go:828-840 | a ready key under the watched prefix is never taken for a commit key |
| RevisionPaths.PrefixSelectsReady | internal/config/path.go:39-45 | a prefix read for one index selects exactly that index's ready keys |
| RevisionPaths.PrefixSkipsCommit | internal/config/path.go:39-49 | and no commit key |
| RevisionPaths.PrefixSelectsIff | internal/config/path.go:39-45 | with any other name in the store, a prefix read selects the index's own ready keys and those of all names that begin with it and "/ready" |
| RevisionPaths.SlashedIndexIsMisread | internal/engine/manager.go:697-716 | such a key is read as a ready key of the index, for a node of the same name |
| RevisionPaths.LastSegmentIff | internal/engine/manager.go:710-715 | the last segment of a ready key is the node id if and only if the id has no slash |
| RevisionPaths.ReadyPathInjective | internal/config/path.go:43-45 | ready keys of different nodes or indexes differ |

## Left out

- Quiescence.Recovers: no handler of an older commit is in flight when the round begins; it would delete a ready key at its end.
- Quiescence.EveryoneSwitches: that a cycle comes to rest is a hypothesis; nothing forces a cron job to fire or etcd to answer.
- ProtocolInvariant.KeysTellTheTruth: for a fixed placement; when shards move, Provenance.ServedRevisionsAreBacked and RingChanges.OwnRingBacks are what is proved.
- LateJoin.JoiningIsStuck: nobody has looked up owners before the new node is on the rings; such a commit goes through without it.
- Coordination.AgreedIff: for index names without a slash; RevisionPaths says exactly what a prefix read selects with others.
- FaissIndexes.DeleteFreesTheRest: Delete comes last; the code neither clears the field nor removes the cron entry, and what later calls then do is only told for searches, in FaissThreadsSafety.
- ClusterNodes.EtcdManager.HandleEvent: the rebalance hook, the locking of the ring, and values of which only a part can be decoded.
- FaissThreadsSafety.NothingLeaksWithoutReload: Reload drops the handle it overwrites without freeing it (internal/engine/faiss.go:207-210), so runs in which it did are excluded from the accounting.
- FaissThreadsRevisions.ServedNeverFalls: without Reload, which serves what it reads, newer or not.
- FaissIndexes.RevisionsRise: without Reload, which mixed with CommitStaged can overwrite a newer revision.
- Reload of an index that is up to date goes on with an empty path (internal/engine/faiss.go:196-201); what reading it does is up to FAISS.
- The load path on which startReload fails after the handle was read (internal/engine/faiss.go:92-98).
- The nil, empty-input and dimension checks of Search (internal/engine/faiss.go:107-117), and the labels: branches without state.
- Rebalance running while other goroutines use the same maps; its effect is proved for a run of its own, and its steps interleave in RevisionProtocol as loads and unloads.
- Placement.IndexManager.DeleteIndex: the freeing of handles is in FaissIndexes; the objects of Placement have no fields.
- Load reporting and Routing.Weight, InitManager, configuration, logging, tracing and HTTP: outside calls or floating point without a promise behind it.
- The content of a remote SearchShard call: its answer is a given list or error.
- SearchShard and Search of the manager: the choice between a local and a remote shard is an input of Searches.
- The S3 downloader, whose gate is the same as that of the local one.
