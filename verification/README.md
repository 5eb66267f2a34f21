# Pallet: planner, plan store, scheduling cycle and quiet timers

Pallet delays the pods of a pod set until a trigger fires, plans a node for every pod of the set,
stores the plan, and lets a kube-scheduler plugin follow it. This project models the four parts of
that path in Dafny and proves what holds of all their runs.

| file | what it models |
|---|---|
| `Cluster.dfy` | pods, nodes, quantities: the values read from the Kubernetes API |
| `Selection.dfy` | `selectNode`: reservoir sampling over equal scores, and the count of draw sequences per choice |
| `Parallel.dfy` | the chunked worker pool as a step system, against a sequential pass |
| `DuplicateKeys.dfy`, `Resources.dfy`, `Filters.dfy` | the three filters, `mergePods`, and the arithmetic behind them |
| `Planner.dfy` | the planner object, and a planning call as a run: one legal step per pod |
| `PlannerRuns.dfy` | theorems over every run: safety, maximality, agreement, spread |
| `PlannerTotality.dfy` | every request has an undisturbed run, so those theorems are never vacuous |
| `PlannerExamples.dfy` | concrete requests, among them those the planner handles worse than documented |
| `PlannerHistory.dfy` | the planner's index over any sequence of requests and pod updates |
| `StorageKey.dfy`, `Plans.dfy`, `PlanStore.dfy` | storage names, plan lists, and clients reading and writing one versioned store in any interleaving |
| `SchedulingCycle.dfy` | PreScore, Reserve and Unreserve of the plugin over that store |
| `RetryQueue.dfy` | deletions of terminated pods and their retries over time, among other clients |
| `PlanAndIndex.dfy` | whole cycles of one pod in a row, over the stored plan and the planner's index |
| `QuietTimer.dfy` | mutex, timer map, goroutines, quit channel and timer channel of the trigger controller, as a step system |

How to read it. A planning call is nondeterministic: workers finish in any order, a pass may be cut
short by its context, random draws are arbitrary. The methods of `PodSetPlanner` leave these choices
open (`:|`, `if *`), and `BuildPlan` promises that whatever happened is a run in the sense of
`IsRun`: each pod was skipped, kept, placed or left out, legally for the index at that point. The
theorems are then about all runs. A step is `calm` when none of its parallel passes was cut short.
The two concurrent parts (`PlanStore`, `QuietTimer`) are step systems whose theorems quantify over
all sequences of steps; the client and plugin objects are tied to the same step functions by their
contracts. Automatic induction is off in every lemma: inductive proofs are written out.

What is taken as given. One planning call sees one snapshot: nodes, the pod listing and the pods
listed on a node do not change during it (the planner holds its lock, the API reads are not
repeated consistently in the program). Listings have one namespace and no repeated names, node names
are unique, resource versions are never reused: guarantees of the API server. Label selectors,
tolerations, node affinity, scores and the name hash are arbitrary functions. `Coherent` states,
where it is needed, that a pod listed on a node under a listed pod's name is that pod.

Where code and documentation differ, the model follows the code, gives an input, and says exactly
when the two meet.

- A cached node wins over the node list of a new request, although the plugin asks again because the
  cached node is no longer eligible: `CachedNodeWinsOverList`, `ChoiceIsEligible`, `UnofferedNodeIsChosen`.
- Duplicates are equal key lists, not one shared image, and pods without owners always count:
  `CodeMatchesCommentIff`, `OneSharedImageIsMissed`, `OwnerlessPodsAreDuplicates`.
- Ephemeral storage is never credited to a node but is asked for by init containers:
  `FitIsCoverageIff`, `EphemeralInitRequestFitsNowhere`.
- `UpdateAssignment` ignores a pod that is not in the stored plan: `ReserveAgreesIff`, `DisturbedCycle`.
- `Update` leaves entries it does not name in the plan if all it names are stored already:
  `UpdateReplacesPlanIff`, `UpdateKeepsStaleEntry`.
- Reserve corrects the stored plan but not the planner's index: `PlanAgreesWithIndexIff`,
  `UnofferedNodeIsChosen`.
- Deleting the last pod of a plan removes the whole object without checking its version:
  `EmptyingDeleteIsAtomicIff`, `StaleDeleteLosesAnEntry`.
- Anti-affinity is checked from the later pod towards the earlier ones only, so `PairwiseSafety` is
  one-sided: `SafeBothWaysIff`, `RepellingPairMeetsIff`, `OneSidedAntiAffinity`.
- A pod whose host address matches no eligible node is planned again and is invisible to the filters,
  so `PairwiseSafety` asks for an empty host address of the earlier pod: `PlacedIsVisibleIff`,
  `HostedPodIsJoined`, `HostedDuplicate`.

Anti-affinity takes every node for a topology of its own, and node fit looks at the pod's own request
and not at what the node's pods already use; no claim is made beyond that. Nothing resets a quiet
timer when a pod is created, so the documented "time since the last pod was created" is not claimed.

## Model

| member | source | states |
|---|---|---|
| `Selection.SelectNode` | internal/pkg/planner/planner.go:595-620 | fails exactly on an empty list; otherwise the node that `Pick` determines from the draws, each draw below the current tie count |
| `Selection.PickIsBest` | internal/pkg/planner/planner.go:600-617 | whatever the draws, the chosen entry has the highest score of the list |
| `Selection.FairTieBreaking` | internal/pkg/planner/planner.go:604-617 | counting all draw sequences: each of the m entries with the highest score is chosen by exactly one in m of them, every other entry by none, whatever lower maxima came before |
| `Selection.TiesCountsMaxima` | internal/pkg/planner/planner.go:602-610 | the running count is the number of entries that reach the maximum |
| `Selection.DrawsExist` | internal/pkg/planner/planner.go:613-615 | the counted space of draw sequences is never empty |
| `Parallel.ChunkSize` | pkg/parallelize/parallelism.go:46-56 | at least 1, and for at least one piece at most its square root and at most an even share plus one |
| `Parallel.ChunkSizeIsLargest` | pkg/parallelize/parallelism.go:46-56 | no larger size is within both limits |
| `Parallel.ParallelRefinesSequential` | vendor/k8s.io/client-go/util/workqueue/parallelizer.go:46-97 | in every interleaving of the workers the collected pieces are a permutation of what a sequential pass collects; after a cancellation, a sub-multiset |
| `Parallel.ChunkBounds` | vendor/k8s.io/client-go/util/workqueue/parallelizer.go:60-88 | consecutive chunks meet without gap or overlap and the last one ends with the pieces |
| `DuplicateKeys.GetPodContainerKeys` | pkg/podpredicates/duplicates.go:100-121 | the nested loops yield the sorted joined keys of all owner and container pairs |
| `DuplicateKeys.SortEqualsIffPermutation` | pkg/podpredicates/duplicates.go:118-120 | sorted lists are equal exactly when the lists are permutations |
| `DuplicateKeys.DuplicateMeansSameOrigins` | pkg/podpredicates/duplicates.go:82-95 | with slash-free namespace, kind and owner, two pods are duplicates exactly when their multisets of (namespace, kind, owner, image) are equal |
| `DuplicateKeys.CodeMatchesCommentIff` | pkg/podpredicates/duplicates.go:54-56 | code and comment agree on a pair of pods exactly if it is a documented duplicate with every (owner, image) pair equally often in both, or is not one and has a pod with a key |
| `DuplicateKeys.UndocumentedDuplicateIff` | pkg/podpredicates/duplicates.go:100-121 | the code finds a duplicate the comment does not describe exactly if both pods are without owner or container |
| `DuplicateKeys.MissedDuplicateIff` | pkg/podpredicates/duplicates.go:82-95 | the code misses a documented duplicate exactly if some (owner, image) pair occurs a different number of times |
| `DuplicateKeys.OneOwnerEach` | pkg/podpredicates/duplicates.go:82-95 | pods of one owner each are duplicates exactly if namespace, owner and image multiset are the same; with one container each, code and comment agree |
| `DuplicateKeys.OneSharedImageIsMissed` | pkg/podpredicates/duplicates.go:54-56 | two concrete pods of one owner that share one of two images: documented duplicates, not found |
| `DuplicateKeys.OwnerlessPodsAreDuplicates` | pkg/podpredicates/duplicates.go:54-56 | two concrete pods without owners and with different images: found, not documented |
| `Resources.Resource.Add` | pkg/podpredicates/nodefit.go:52-79 | adds every listed quantity once in any iteration order, with 64-bit wrap-around, skipping ephemeral storage |
| `Resources.AddExactly` | pkg/podpredicates/nodefit.go:52-79 | resource by resource: CPU in thousandths, memory, pods and scalars go up by the listed quantity, ephemeral storage never |
| `Resources.Resource.SetMaxResource` | pkg/podpredicates/nodefit.go:136-167 | raises every listed field to its maximum in any iteration order, ephemeral storage included, pod count not |
| `Resources.SetMaxExactly` | pkg/podpredicates/nodefit.go:136-167 | resource by resource: raised to the listed quantity, the pod count never |
| `Resources.ComputePodResourceRequest` | pkg/podpredicates/nodefit.go:169-182 | sum over containers, then maxima over init containers |
| `Resources.RequestClosedForm` | pkg/podpredicates/nodefit.go:169-182 | for non-negative, non-overflowing quantities the request is max(sum over containers, max over init containers); for ephemeral storage only the latter |
| `Resources.SumAppends` | pkg/podpredicates/nodefit.go:169-182 | one more container asks for its listed quantity on top |
| `Resources.PeakAppends` | pkg/podpredicates/nodefit.go:169-182 | one more init container raises the peak to its listed quantity, if that is higher |
| `Resources.CheckResources` | pkg/podpredicates/nodefit.go:230-268 | succeeds exactly when the zero-request shortcut or every comparison passes |
| `Resources.FitClosedForm` | pkg/podpredicates/nodefit.go:230-268 | for non-negative allocatable amounts the check, shortcut included, passes exactly when every need is at most what the node offers, no node offering ephemeral storage |
| `Resources.EphemeralInitRequestFitsNowhere` | pkg/podpredicates/nodefit.go:154-157 | a pod with a positive init-container request for ephemeral storage is rejected by every node |
| `Resources.FitIsCoverageIff` | pkg/podpredicates/nodefit.go:230-268 | the check never accepts more than a check that credits ephemeral storage, and agrees with it exactly if a covered pod needs none for its init containers |
| `Filters.MergePods` | pkg/podpredicates/utils.go:24-46 | all pods of the first list, then those of the second whose key is not among them |
| `Filters.InMerged` | pkg/podpredicates/utils.go:24-46 | membership: in the first list, or in the second under a key the first does not have |
| `Filters.GetPodAntiAffinityTerms` | pkg/podpredicates/antiaffinity.go:122-142 | required terms followed by all preferred terms |
| `Filters.CheckAntiAffinity` | pkg/podpredicates/antiaffinity.go:93-118 | allows exactly when every term's selector parses and repels no present pod of another name |
| `Filters.CheckDuplicates` | pkg/podpredicates/duplicates.go:82-97 | allows exactly when no present, non-terminating pod has the same keys |
| `Filters.RunFilterPredicates` | pkg/podpredicates/predicate.go:190-203 | succeeds exactly when every filter allows the pod next to the merged pods of the node |
| `Filters.EveryFilterDecides` | pkg/podpredicates/predicate.go:190-203 | a node is accepted exactly if each filter of the list, on its own, accepts it |
| `Filters.AntiAffinityExactly` | pkg/podpredicates/antiaffinity.go:91-142 | the anti-affinity filter accepts exactly if every required and every preferred term parses and selects no present pod of another name in its namespaces, or in the pod's own if it has none |
| `Filters.DuplicatesExactly` | pkg/podpredicates/duplicates.go:82-97 | the duplicate filter accepts exactly if every present pod with the pod's keys is terminating |
| `Filters.NodeFitExactly` | pkg/podpredicates/nodefit.go:210-268 | the node-fit filter accepts exactly if the node is tolerated, matches, and covers every need, none of ephemeral storage |
| `Filters.OneCpuRequest` | pkg/podpredicates/nodefit.go:230-268 | a pod of one container that asks for CPU only fits exactly if it asks for at most the allocatable thousandths |
| `Filters.AllowsIsAntitone` | pkg/podpredicates/predicate.go:190-203 | a node that allows a pod next to more pods allows it next to fewer |
| `Filters.FilterOrderIsIrrelevant` | pkg/podpredicates/predicate.go:276-289 | the verdict is the same for every order of the filters |
| `Planner.GetEligibleNodes` | internal/pkg/planner/planner.go:131-163 | the nodes without hard taint, in order; if there are none, the hard-tainted ones with a soft taint |
| `Planner.EligibleIff` | internal/pkg/planner/planner.go:131-163 | if some node has neither NoSchedule nor NoExecute, exactly such nodes are eligible; otherwise exactly the nodes with PreferNoSchedule |
| `Planner.EligibleInOrder` | internal/pkg/planner/planner.go:131-163 | eligible nodes keep the order of the listing |
| `Planner.PodSetPlanner.GetNodeName` | internal/pkg/planner/planner.go:509-543 | the index entry for pods without host address, else the first eligible node with that address |
| `Planner.NodeOfExactly` | internal/pkg/planner/planner.go:509-543 | without host address a pod is where the index says; with one on the first eligible node that has the address, and nowhere exactly if none has it |
| `Planner.HostAddressDecides` | internal/pkg/planner/planner.go:524-543 | an address that one eligible node has puts the pod on that node |
| `Planner.PodSetPlanner.List` | internal/pkg/planner/podset_handler.go:46-57 | the listed pods whose node name is the given one, in list order |
| `Planner.PodSetPlanner.HandlePodUpdate` | internal/pkg/planner/planner.go:201-216 | drops the pod from the index exactly when it starts running or starts terminating; in the latter case also from the stored plan, or queues that deletion |
| `Planner.PodSetPlanner.ProcessUpdate` | internal/pkg/planner/planner.go:291-312 | one turn of the retry worker: the first queued deletion is repeated, and queued again if its write fails |
| `Planner.TerminatedPodIsForgotten` | internal/pkg/planner/planner.go:212-263 | after a termination the stored plan has no entry of the pod, or the deletion is queued, or the plan could not be read; no other entry of any plan comes or goes |
| `RetryQueue.TerminatedPodStaysSettled` | internal/pkg/planner/planner.go:201-312 | over any sequence of pod updates, retry turns and writes of others: a terminated pod has no stored entry or a queued deletion, unless a deletion of it could not read the plan or another client stored it again |
| `RetryQueue.UpdateExactly` | internal/pkg/planner/planner.go:201-263 | what every pod update does to index, store and queue, in the pod's own fields; a pod that starts running and terminating at once stays in the stored plan |
| `RetryQueue.AnsweredTurnsDrain` | internal/pkg/planner/planner.go:291-312 | answered turns empty the queue in as many turns as it has entries, and none of their pods is left in a plan |
| `Planner.PodSetPlanner.FindNodesThatPassFilters` | pkg/podpredicates/predicate.go:206-236 | every returned node was given, passes all filters, and is returned once; if the pass was not cut short, every passing node is returned |
| `Planner.WorkersDeliverFilterPass` | pkg/podpredicates/predicate.go:206-236 | every run of the worker pool, with the computed chunk size, delivers exactly that, each node once |
| `Filters.SumScores` | pkg/podpredicates/predicate.go:250-263 | the 64-bit sum of the scores of a node, passing over predicates that fail |
| `Filters.ScorerAddsItsScore` | pkg/podpredicates/predicate.go:250-263 | one more score predicate adds its score, or nothing if it has none, as long as 64 bits hold the sum |
| `Filters.ScoreOrderIsIrrelevant` | pkg/podpredicates/predicate.go:250-263 | the sum is the same for every order of the score predicates, wrap-around included |
| `Planner.PodSetPlanner.RunScorePredicates` | pkg/podpredicates/predicate.go:240-274 | every entry is a given node with its score sum, no more entries than nodes; if not cut short, every node has one and there are as many entries as nodes |
| `Planner.WorkersDeliverScorePass` | pkg/podpredicates/predicate.go:240-274 | every run of the worker pool over the nodes delivers exactly those entries |
| `Planner.PodSetPlanner.FindFit` | internal/pkg/planner/planner.go:545-593 | on success records a named, eligible node in the index, a best-scored one if undisturbed; undisturbed failure means an empty list or a name that is not eligible, and changes nothing |
| `Planner.PodSetPlanner.PlanPod` | internal/pkg/planner/planner.go:408-441 | one pod's outcome is legal for the index before it and the index changes accordingly |
| `Planner.PodSetPlanner.BuildPlan` | internal/pkg/planner/planner.go:383-452 | the call is a run over the list; index, returned map and failed pods are those of the run |
| `Planner.PodSetPlanner.BuildSchedulePlan` | internal/pkg/planner/planner.go:456-506 | the run is over the listing with the scheduled pod swapped to the front and its node list given; a failed listing changes nothing |
| `PlannerRuns.NodeStays` | internal/pkg/planner/planner.go:408-441 | a pod that has a node at some point of a run has the same node at every later point |
| `PlannerRuns.FiltersOnlyTighten` | internal/pkg/planner/planner.go:408-441 | a node that accepts a pod late in a run would have accepted it at every earlier point |
| `PlannerRuns.PlacementIsSafe` | internal/pkg/planner/planner.go:420-440 | a filtered placement neither repels nor duplicates any pod of the set already on the node, from this run or before |
| `PlannerRuns.PairwiseSafety` | internal/pkg/planner/planner.go:408-441 | of two pods one call places on one node the later repels neither the earlier nor duplicates it, the unfiltered scheduled pod included |
| `PlannerRuns.PlacedIsVisibleIff` | internal/pkg/planner/planner.go:525-542 | after its placement a pod is on its node for all later filters exactly if it has no host address; otherwise on no node |
| `PlannerExamples.HostedPodIsJoined` | internal/pkg/planner/planner.go:525-542 | for every pod with a host address and every pod after it, duplicates and repelled ones included, a request on one node that places both |
| `PlannerExamples.HostedDuplicate` | internal/pkg/planner/planner.go:525-542 | a concrete request in which a pod with a host address and its duplicate are placed on one node |
| `PlannerRuns.SafeBothWaysIff` | pkg/podpredicates/antiaffinity.go:91-116 | of two pods placed on one node neither repels the other exactly if the earlier repels the later only where it is repelled itself |
| `PlannerRuns.AlikePodsAreSafeBothWays` | pkg/podpredicates/antiaffinity.go:91-116 | in particular of two pods with the same namespace, labels and anti-affinity neither repels the other |
| `PlannerExamples.RepellingPairMeetsIff` | pkg/podpredicates/antiaffinity.go:91-116 | for every pair of pods with different keys: a request that schedules the first can put both on one node although one repels the other exactly if the first repels the second and is not repelled by it |
| `PlannerExamples.UnrepelledPodJoins` | pkg/podpredicates/antiaffinity.go:91-116 | for every pair of pods with different keys the second of which does not repel the first, a request on one node that places both |
| `PlannerExamples.OneSidedAntiAffinity` | pkg/podpredicates/antiaffinity.go:91-116 | a concrete request in which the earlier pod repels the later one and both are placed on one node |
| `PlannerRuns.OnlyFirstIsGiven` | internal/pkg/planner/planner.go:498-501 | after the swap only the first pod of the list can bypass the filters |
| `PlannerRuns.ScheduledPodIsEligible` | internal/pkg/planner/planner.go:481-501 | the scheduled pod is placed only on a node of its own list; undisturbed and without earlier node, exactly when that list is non-empty and all eligible |
| `PlannerRuns.GreedyMaximality` | internal/pkg/planner/planner.go:420-436 | a pod left out by an undisturbed step is still rejected by every eligible node in the final state of the call |
| `PlannerRuns.IndexAgreesWithResult` | internal/pkg/planner/planner.go:408-451 | for every unskipped pod without host address index and returned map agree, both absent or both present and equal; absent exactly for failed pods, kept exactly for pods indexed before |
| `PlannerRuns.SkippedIff` | internal/pkg/planner/planner.go:408-411 | in every run exactly the pods that failed or are terminating are skipped |
| `PlannerRuns.AnswerOfCall` | internal/pkg/planner/planner.go:408-451 | skipped pods are neither planned nor reported nor touched in the index; every other listed pod is planned or reported, and one that had a node is planned there |
| `PlannerRuns.RunningPodIsReported` | internal/pkg/planner/planner.go:413-418 | a listed running pod whose host address one eligible node has is in the answer with that node |
| `PlannerRuns.PlacedPassesFilters` | internal/pkg/planner/planner.go:420-440 | every placement is on an eligible node that is in the pod's list or passes all filters next to the pods there by then |
| `PlannerRuns.PlacedIsBest` | internal/pkg/planner/planner.go:545-593 | no node an undisturbed placement could have taken has a higher score sum than the one it took |
| `PlannerRuns.PlacedNodeCovers` | pkg/podpredicates/nodefit.go:210-268 | with the node-fit filter every filtered placement is on a node that is tolerated, matches, and covers each need of the pod |
| `PlannerRuns.ScheduledPodPlacedIff` | internal/pkg/planner/planner.go:545-570 | undisturbed, a scheduled pod without node is placed exactly if its list is non-empty and names only eligible nodes |
| `PlannerRuns.ExactSpread` | internal/pkg/planner/planner.go:408-441 | k unassigned replicas over m eligible nodes that would each take any of them: exactly min(k, m) are placed, all on different eligible nodes |
| `PlannerTotality.CalmStepExists` | internal/pkg/planner/planner.go:408-441 | in every index the loop has an undisturbed next step for every pod: a skip, its own node, a best-scored candidate or a failure |
| `PlannerTotality.CalmCallExists` | internal/pkg/planner/planner.go:454-507 | every request, on every cluster, index and listing, can run to its end undisturbed |
| `PlannerExamples.ThreeReplicasOverTwoNodes` | internal/pkg/planner/planner.go:408-441 | a concrete undisturbed request for three replicas and two nodes, which fills both nodes and places two replicas |
| `PlannerHistory.RequestKeeps` | internal/pkg/planner/planner.go:408-441 | a request leaves assigned pods and pods outside its list as they were |
| `PlannerHistory.AssignmentSticks` | internal/pkg/planner/planner.go:201-216 | an assignment survives every sequence of events without release of the pod |
| `PlannerHistory.StickyPlans` | internal/pkg/planner/planner.go:509-593 | any two plans that include a pod, with no release and no host address in between, give it the same node |
| `PlannerHistory.CachedNodeWinsOverList` | internal/pkg/planner/planner.go:413-418 | a scheduled pod that had a node is planned on it whatever list came with the request; so its planned node is in the list exactly if it had none or one in the list |
| `PlannerExamples.SecondRequestKeepsOldNode` | internal/pkg/planner/planner.go:413-418 | a concrete history of two requests: the second offers only another node and is answered with the old one |
| `StorageKey.NamesAreDistinct` | internal/pkg/client/utils.go:26-35 | namespace and storage name are equal exactly when namespace and pod set are, whatever the hash |
| `StorageKey.PlanKeyIff` | internal/pkg/client/scheduleplan_client.go:60-73 | two pods share a stored plan exactly if namespace and pod-set label are the same |
| `StorageKey.NameOfWeb` | internal/pkg/client/utils.go:26-35 | a concrete name: pod set, dash, encoded digits of the hash |
| `Plans.FindPod` | internal/pkg/client/scheduleplan_client.go:305-322 | the node of the first entry that names the pod |
| `Plans.LookupIsFirst` | internal/pkg/client/scheduleplan_client.go:315-319 | on any plan the first entry that names the pod is found, and none exactly if no entry names it |
| `Plans.LookupIsMembership` | internal/pkg/client/scheduleplan_client.go:315-319 | without repetitions, first match, membership and the map view agree |
| `Plans.PlanUpdate` | internal/pkg/client/scheduleplan_client.go:76-145 | creation, no change, or replacement by unchanged then new entries, for any map order |
| `Plans.PlanAssignment` | internal/pkg/client/scheduleplan_client.go:161-230 | creation, no change, or replacement with the pod's entry moved to the new node |
| `Plans.PlanDelete` | internal/pkg/client/scheduleplan_client.go:246-292 | error, no change, removal of the plan, or replacement without the pod |
| `Plans.StoredComesFirst` | internal/pkg/client/scheduleplan_client.go:118-145 | a rewritten plan lists entries stored before in front of new ones |
| `Plans.IntentIsAtomic` | internal/pkg/client/scheduleplan_client.go:76-302 | what each operation decides to write is its atomic map operation on the plan it read, free of repetitions, and never empty unless an empty assignment is stored |
| `PlanStore.NextKeepsInv` | internal/pkg/client/scheduleplan_client.go:76-302 | every step keeps versions and contents in agreement, and plans free of repetitions |
| `PlanStore.StepIsEffect` | internal/pkg/client/scheduleplan_client.go:76-302 | every step of every client is, on the stored maps, nothing, one atomic operation, or a wipe |
| `PlanStore.StoreIsReplay` | internal/pkg/client/scheduleplan_client.go:76-302 | in every interleaving the store equals the effects replayed one after the other |
| `PlanStore.OperationLinearizes` | internal/pkg/client/scheduleplan_client.go:76-302 | a successful operation takes effect exactly once between its read and its write; a refused one takes none |
| `PlanStore.OnlyWipesLoseUnreadEntries` | internal/pkg/client/scheduleplan_client.go:271-290 | no step but a wipe drops an entry that its client had not read |
| `PlanStore.EmptyingDeleteIsAtomicIff` | internal/pkg/client/scheduleplan_client.go:271-290 | an emptying deletion always removes the stored object; on the stored maps this equals the atomic deletion exactly if the plan still holds only its pod |
| `PlanStore.StaleDeleteLosesAnEntry` | internal/pkg/client/scheduleplan_client.go:271-290 | a reachable run in which another client's new entry is lost this way |
| `PlanStore.StoredPlansAreWellFormed` | internal/pkg/client/scheduleplan_client.go:118-145 | in every reachable state plans name each pod once, are not empty if no empty assignment is stored, and first match is the map |
| `SchedulingCycle.PluginPlansAreWellFormed` | internal/pkg/scheduler/plugin.go:421-424 | in every interleaving of plugins and planners stored plans name each pod once and are never empty |
| `PlanStore.PodSetIsolation` | internal/pkg/client/scheduleplan_client.go:60-73 | a write for one pod set leaves the object of every other pod set as it was |
| `SchedulingCycle.OtherPodSetsUntouched` | internal/pkg/client/scheduleplan_client.go:60-302 | PreScore, Reserve and Unreserve of a pod leave the stored plan of every pod of another namespace or pod-set label as it was |
| `RetryQueue.TerminationTouchesOnePlan` | internal/pkg/planner/planner.go:218-263 | so does the deletion of a terminated pod |
| `PlanStore.UndisturbedIsAtomic` | internal/pkg/client/scheduleplan_client.go:76-302 | without interference a successful operation is its atomic operation, deletions included, and a refused one changes nothing |
| `PlanStore.RunSucceedsIff` | internal/pkg/client/scheduleplan_client.go:76-302 | exactly when an undisturbed operation succeeds, with lost reads, refused and unanswered writes |
| `PlanStore.UpdateReplacesPlanIff` | internal/pkg/client/scheduleplan_client.go:118-145 | a successful update leaves exactly its assignments exactly if one of them was new or the stored plan had nothing beyond them; otherwise it changes nothing |
| `PlanStore.UpdateKeepsStaleEntry` | internal/pkg/client/scheduleplan_client.go:138-145 | a concrete update that names one of two stored pods and keeps the other |
| `PlanStore.SchedulePlannerClient.Update` | internal/pkg/client/scheduleplan_client.go:76-158 | one read and one write of the store, for some order of the assignments |
| `PlanStore.SchedulePlannerClient.UpdateAssignment` | internal/pkg/client/scheduleplan_client.go:161-243 | one read and one write of the store |
| `PlanStore.SchedulePlannerClient.Delete` | internal/pkg/client/scheduleplan_client.go:246-302 | one read and one write of the store; asks for a retry exactly if the plan was read and the write failed |
| `PlanStore.RemovedIsGone` | internal/pkg/client/scheduleplan_client.go:246-302 | an undisturbed deletion that asks for no retry and read the plan leaves no entry of its pod; other entries neither come nor go |
| `PlanStore.SchedulePlannerClient.CheckIfPodPresent` | internal/pkg/client/scheduleplan_client.go:305-322 | the first match in the stored plan, nothing if the read fails |
| `SchedulingCycle.PodSetPlugin.FindFit` | internal/pkg/scheduler/plugin.go:358-434 | label, trigger, stored plan, planner and store consulted in that order, with the effect of `Fitted` |
| `SchedulingCycle.PodSetPlugin.PreScore` | internal/pkg/scheduler/plugin.go:218-245 | the cycle holds an assignment exactly when a node was chosen; pods without pod set or planner pass without one |
| `SchedulingCycle.PreScoreExactly` | internal/pkg/scheduler/plugin.go:389-433 | with the trigger fired: a stored node that is offered is kept without a write; otherwise an error or a plan without the pod is refused, and without planners the pod passes |
| `SchedulingCycle.NoPodSetPasses` | internal/pkg/scheduler/plugin.go:359-362 | a pod without pod set passes PreScore and Reserve and changes nothing |
| `SchedulingCycle.PodSetPlugin.Reserve` | internal/pkg/scheduler/plugin.go:293-327 | the stored assignment is corrected only on a mismatch, and failure to do so fails the reservation |
| `SchedulingCycle.ReserveExactly` | internal/pkg/scheduler/plugin.go:293-327 | exactly when a Reserve succeeds, and what the cycle then holds |
| `SchedulingCycle.PodSetPlugin.Unreserve` | internal/pkg/scheduler/plugin.go:331-356 | the pod is deleted from the plan and the cycle's assignment dropped only if that succeeds |
| `SchedulingCycle.UnreserveExactly` | internal/pkg/scheduler/plugin.go:331-356 | the assignment is dropped exactly if the plan can be read and the pod is not in it or the write is answered; then the pod has no entry and no other entry changed; otherwise it is kept |
| `SchedulingCycle.AnsweredUnreserve` | internal/pkg/scheduler/plugin.go:347-355 | answered, Unreserve of a stored pod takes it out and drops the assignment |
| `SchedulingCycle.PreScoreStores` | internal/pkg/scheduler/plugin.go:358-434 | whenever PreScore leaves an assignment, the stored plan maps the pod to it |
| `SchedulingCycle.PreScoreIssues` | internal/pkg/scheduler/plugin.go:404-431 | PreScore writes at most one update, whose assignments contain its pod |
| `SchedulingCycle.CycleAgreement` | internal/pkg/scheduler/plugin.go:293-356 | in an undisturbed cycle with an assignment, a successful Reserve leaves the plan mapping the pod to the reserved node and nothing else changed; the following Unreserve succeeds exactly if its requests are answered, and removes exactly that pod |
| `SchedulingCycle.ReserveAgreesIff` | internal/pkg/scheduler/plugin.go:312-324 | disturbed, a successful mismatching Reserve agrees exactly when no plan is stored or the pod is still in it |
| `SchedulingCycle.ReserveMissesPod` | internal/pkg/client/scheduleplan_client.go:223-227 | if the pod has dropped out of the stored plan, a mismatching Reserve succeeds and stores nothing |
| `SchedulingCycle.DisturbedCycle` | internal/pkg/scheduler/plugin.go:293-327 | such a cycle from an empty store: PreScore stores the pod, others delete it and store their own plan, Reserve succeeds, and the pod is in no plan |
| `SchedulingCycle.ChoiceIsEligible` | internal/pkg/scheduler/plugin.go:389-433 | the chosen node is one the scheduler offered exactly if it is the stored one, or the planner had no node for the pod, or had an offered one |
| `PlanAndIndex.NothingBeforeTrigger` | internal/pkg/scheduler/plugin.go:364-381 | however many cycles a pod of a pod set goes through, all are refused and stored plan and index stay as they were until its trigger is read as Schedule |
| `PlanAndIndex.CycleAgreesIff` | internal/pkg/scheduler/plugin.go:312-324 | a completed cycle that starts in agreement, or with no stored node for the pod, ends with stored plan and planner index in agreement exactly if Reserve took the planned node |
| `PlanAndIndex.PlanAgreesWithIndexIff` | internal/pkg/scheduler/plugin.go:293-434 | after any number of completed cycles the stored plan holds the node reserved last and the index the node planned first; they agree exactly if these are equal |
| `PlanAndIndex.UnofferedNodeIsChosen` | internal/pkg/scheduler/plugin.go:389-433 | two concrete cycles: in the second only another node is offered, the old one is chosen all the same, and after its reservation plan and index differ |
| `QuietTimer.StepKeepsInv` | controllers/planner/scheduletrigger_controller.go:97-202 | every step keeps map, goroutines and counters consistent |
| `QuietTimer.EntriesAreGoroutines` | controllers/planner/scheduletrigger_controller.go:134-202 | in every run, whenever the mutex is free, map entries and live goroutines correspond one to one |
| `QuietTimer.ResetActsOnLiveTimer` | controllers/planner/scheduletrigger_controller.go:97-108 | every re-arming acts on a timer in the map whose goroutine is live |
| `QuietTimer.TransitionsNeverExceedArmings` | controllers/planner/scheduletrigger_controller.go:110-132 | no reference begins more transitions than its timer was armed, and at most one is in flight |
| `QuietTimer.NoTransitionAfterStop` | controllers/planner/scheduletrigger_controller.go:134-146 | once the entry is dropped no reference of that key has a transition in flight or ever begins one |
| `QuietTimer.StopCallStops` | controllers/planner/scheduletrigger_controller.go:134-178 | when a reconcile of a trigger that cannot be read or has no quiet time has returned, the entry is gone, every reference of the key is dead for good and begins no transition, and other timers are as before |
| `QuietTimer.QuietTimeCallArms` | controllers/planner/scheduletrigger_controller.go:180-202 | when a reconcile with a quiet time has returned, the trigger has a timer of that duration, armed anew exactly if new or changed; other timers are as before |
| `QuietTimer.UnparsedCallDoesNothing` | controllers/planner/scheduletrigger_controller.go:173-178 | a quiet time that does not parse arms nothing and changes no timer |
| `QuietTimer.ResetCallRearms` | controllers/planner/scheduletrigger_controller.go:97-108 | a reset arms a present timer once more, with its duration, and does nothing for an absent one |
| `QuietTimer.ArmedTimerTransitions` | controllers/planner/scheduletrigger_controller.go:61-132 | an armed timer fires, its tick begins a transition, and that writes the trigger exactly if it was read in another state than Schedule |
| `QuietTimer.StopTimerDisarms` | controllers/planner/scheduletrigger_controller.go:110-122 | a goroutine that took the quit signal stops its timer, which never fires again |
| `QuietTimer.HandoverNeverDeadlocks` | controllers/planner/scheduletrigger_controller.go:115-131 | while a sender is blocked its goroutine is live and always has a step |
| `QuietTimer.BoundedHandover` | controllers/planner/scheduletrigger_controller.go:161-178 | while blocked, the goroutine ends at most three transitions, begins at most two, and takes with its timer at most as many steps as its rank at the start, nine at most; after that many only taking the signal is left |

## Left out

- gRPC, informers, contexts and timeouts: only their effect on a call is kept, as a pass cut short or a request lost.
- Label selectors, tolerations, node affinity and quantity parsing: library code, arbitrary functions here.
- Score predicates: none is built in; a list of arbitrary functions of pod, node and assigned pods stands for them.
- Filters registered from outside the tree: the filter list holds the three built-in ones in any order and number.
- The rate limiting of the retry queue behind a failed plan deletion: queued deletions are repeated in order.
- `PlannerList.Invoke`: some planner's map, an error, or no planner.
- The kube-scheduler framework around the plugin, its scoring and post-filter hooks: easy reads of the cycle state.
- Whether a trigger eventually reaches Schedule: a failed write after a tick is not repeated, so it need not.
- Node listing errors: the lister reads a local cache; a failed pod listing is modelled.
- The controller's objects in `QuietTimer` are values changed by steps, not a class: each step is one atomic action of some goroutine, which a method body cannot interleave.
- Other pods between the cycles in `PlanAndIndex`: their updates replace the whole stored plan, which `StoreIsReplay` covers.
- Parallel.ChunkSize: takes the number of pieces from the range in which the floating-point root, cut to an integer, is the integer root.
