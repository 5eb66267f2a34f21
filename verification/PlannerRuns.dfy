/** What holds of every planning run: assignments stay, filters only tighten, and from these
    pairwise safety, greedy maximality, agreement of index and result, and exact spread. */
module PlannerRuns {
  import opened Cluster
  import opened Filters
  import opened Planner
  import DuplicateKeys

  // ----- Assignments stay, filters tighten -----

  lemma {:induction false} DistinctIds(pods: seq<Pod>, i: nat, j: nat)
    requires Listing(pods) && i < |pods| && j < |pods| && i != j
    ensures pods[i].Id() != pods[j].Id() && pods[i].name != pods[j].name
  {
  }

  /** A key the steps from `i` to `j` do not place keeps its entry. */
  lemma {:induction false} IndexFrame(m: Index, pods: seq<Pod>, steps: seq<Step>, i: nat, j: nat, k: Key)
    requires i <= j <= |pods| == |steps|
    requires forall t :: i <= t < j && steps[t].outcome.Placed? ==> pods[t].Id() != k
    ensures k in IndexAt(m, pods, steps, j) <==> k in IndexAt(m, pods, steps, i)
    ensures k in IndexAt(m, pods, steps, i) ==> IndexAt(m, pods, steps, j)[k] == IndexAt(m, pods, steps, i)[k]
    decreases j - i
  {
    if i < j {
      IndexFrame(m, pods, steps, i, j - 1, k);
    }
  }

  /** Once a pod of the list has a node, it keeps it to the end of the run. */
  lemma {:induction false} NodeStays(w: World, m: Index, pods: seq<Pod>, given: map<Key, seq<string>>,
      steps: seq<Step>, i: nat, j: nat, q: Pod)
    requires Listing(pods) && IsRun(w, m, pods, given, steps) && i <= j <= |pods| && q in pods
    requires NodeOf(w, IndexAt(m, pods, steps, i), q).Some?
    ensures NodeOf(w, IndexAt(m, pods, steps, j), q) == NodeOf(w, IndexAt(m, pods, steps, i), q)
    decreases j - i
  {
    hide LegalStep, RunSoFar, Listing, EligibleNodes, NodeAt;
    if i < j {
      NodeStays(w, m, pods, given, steps, i, j - 1, q);
      if steps[j - 1].outcome.Placed? {
        PlacedWasFree(w, m, pods, given, steps, j - 1);
      }
      var k :| 0 <= k < |pods| && pods[k] == q;
      if k != j - 1 {
        DistinctIds(pods, k, j - 1);
      }
    }
  }

  lemma {:induction false} PlacedWasFree(w: World, m: Index, pods: seq<Pod>, given: map<Key, seq<string>>,
      steps: seq<Step>, i: nat)
    requires IsRun(w, m, pods, given, steps) && i < |pods| && steps[i].outcome.Placed?
    ensures NodeOf(w, IndexAt(m, pods, steps, i), pods[i]) == None && !Ignored(pods[i])
  {
    assert LegalStep(w, IndexAt(m, pods, steps, i), pods, given, pods[i], steps[i]);
  }

  lemma {:induction false} PresentGrows(w: World, m: Index, pods: seq<Pod>, given: map<Key, seq<string>>,
      steps: seq<Step>, i: nat, j: nat, node: Node, q: Pod)
    requires Listing(pods) && IsRun(w, m, pods, given, steps) && i <= j <= |pods|
    requires q in Present(w, IndexAt(m, pods, steps, i), pods, node)
    ensures q in Present(w, IndexAt(m, pods, steps, j), pods, node)
  {
    var a, b := IndexAt(m, pods, steps, i), IndexAt(m, pods, steps, j);
    InMerged(w.podsOn(node.name), Assigned(w, a, pods, node.name), q);
    InMerged(w.podsOn(node.name), Assigned(w, b, pods, node.name), q);
    InAssigned(w, a, pods, node.name, q);
    InAssigned(w, b, pods, node.name, q);
    if q in pods && NodeOf(w, a, q).Some? {
      NodeStays(w, m, pods, given, steps, i, j, q);
    }
  }

  /** A node that rejects a pod during a run rejects it to the end of the run. */
  lemma {:induction false} FiltersOnlyTighten(w: World, m: Index, pods: seq<Pod>, given: map<Key, seq<string>>,
      steps: seq<Step>, i: nat, j: nat, pod: Pod, node: Node)
    requires Listing(pods) && IsRun(w, m, pods, given, steps) && i <= j <= |pods|
    requires Fits(w, IndexAt(m, pods, steps, j), pods, pod, node)
    ensures Fits(w, IndexAt(m, pods, steps, i), pods, pod, node)
  {
    var fewer := Present(w, IndexAt(m, pods, steps, i), pods, node);
    var more := Present(w, IndexAt(m, pods, steps, j), pods, node);
    forall q | q in fewer
      ensures q in more
    {
      PresentGrows(w, m, pods, given, steps, i, j, node, q);
    }
    AllowsIsAntitone(w, pod, node, fewer, more);
  }

  // ----- The pod being scheduled -----

  lemma {:induction false} SameMembers(a: seq<Pod>, b: seq<Pod>)
    requires multiset(a) == multiset(b)
    ensures forall p :: p in a <==> p in b
  {
    assert forall p :: p in a <==> p in multiset(a);
    assert forall p :: p in b <==> p in multiset(b);
  }

  /** Only the first pod of an arranged list can come with a node list of its own. */
  lemma {:induction false} OnlyFirstIsGiven(items: seq<Pod>, scheduled: string, names: seq<string>, i: nat)
    requires Listing(items) && 0 < i < |items|
    ensures Arranged(items, scheduled)[i].Id() !in Given(items, scheduled, names)
  {
    var pods := Arranged(items, scheduled);
    ArrangedIsListing(items, scheduled);
    GivenOnlyScheduled(items, scheduled, names);
    DistinctIds(pods, 0, i);
    assert pods[i] in multiset(items);
  }

  /** In a call that starts with no node for it, the pod being scheduled is placed on a node of
      its own list; undisturbed, exactly when that list is usable. */
  lemma {:induction false} ScheduledPodIsEligible(w: World, m: Index, items: seq<Pod>, scheduled: string,
      names: seq<string>, steps: seq<Step>)
    requires Listing(items) && IsCall(w, m, items, scheduled, names, steps)
    requires exists p :: p in items && p.name == scheduled
    ensures var p := Arranged(items, scheduled)[0];
      && p.name == scheduled
      && (steps[0].outcome.Placed? ==> steps[0].outcome.node in names)
      && (!Ignored(p) && NodeOf(w, m, p) == None && steps[0].calm ==>
            (steps[0].outcome.Placed? <==> Usable(w, names)))
  {
    ArrangedIsListing(items, scheduled);
    GivenOnlyScheduled(items, scheduled, names);
    var pods := Arranged(items, scheduled);
    assert pods[0] in multiset(items);
    assert LegalStep(w, IndexAt(m, pods, steps, 0), pods, Given(items, scheduled, names), pods[0], steps[0]);
  }

  // ----- Safety -----

  /** One snapshot: a pod that a node lists under the name of a listed pod is that pod. */
  ghost predicate Coherent(w: World, pods: seq<Pod>) {
    forall node, v, p :: v in w.podsOn(node) && p in pods && v.Id() == p.Id() ==> v == p
  }

  lemma {:induction false} AssignedIsPresent(w: World, m: Index, pods: seq<Pod>, node: Node, q: Pod)
    requires Coherent(w, pods) && q in pods && NodeOf(w, m, q) == Some(node.name)
    ensures q in Present(w, m, pods, node)
  {
    InMerged(w.podsOn(node.name), Assigned(w, m, pods, node.name), q);
    InAssigned(w, m, pods, node.name, q);
    if q.Id() in Ids(w.podsOn(node.name)) {
      var v :| v in w.podsOn(node.name) && v.Id() == q.Id();
      assert v == q;
    }
  }

  /** A filtered placement is safe next to every pod of the set already on the node, whether
      this run or an earlier one put it there. */
  lemma {:induction false} PlacementIsSafe(w: World, m: Index, pods: seq<Pod>, given: map<Key, seq<string>>,
      steps: seq<Step>, j: nat, q: Pod)
    requires Listing(pods) && Coherent(w, pods) && IsRun(w, m, pods, given, steps)
    requires j < |pods| && pods[j].Id() !in given && steps[j].outcome.Placed?
    requires q in pods && NodeOf(w, IndexAt(m, pods, steps, j), q) == Some(steps[j].outcome.node)
    ensures PodAntiAffinity in w.filters ==>
      forall t :: t in AntiAffinityTerms(pods[j]) ==> !Repels(w, pods[j], t, q)
    ensures PodIsADuplicate in w.filters && !q.terminating ==>
      DuplicateKeys.ContainerKeys(q) != DuplicateKeys.ContainerKeys(pods[j])
  {
    var at := IndexAt(m, pods, steps, j);
    assert LegalStep(w, at, pods, given, pods[j], steps[j]);
    var node: Node :| node.name == steps[j].outcome.node && Candidate(w, at, pods, given, pods[j], node);
    AssignedIsPresent(w, at, pods, node, q);
    var present := Present(w, at, pods, node);
    assert PodAntiAffinity in w.filters ==> FilterAllows(w, PodAntiAffinity, pods[j], node, present);
    assert PodIsADuplicate in w.filters ==> FilterAllows(w, PodIsADuplicate, pods[j], node, present);
  }

  lemma {:induction false} PairwiseSafetyInRun(w: World, m: Index, pods: seq<Pod>, given: map<Key, seq<string>>,
      steps: seq<Step>, i: nat, j: nat)
    requires Listing(pods) && Coherent(w, pods) && IsRun(w, m, pods, given, steps)
    requires PodAntiAffinity in w.filters && PodIsADuplicate in w.filters
    requires i < j < |steps| && steps[i].outcome.Placed? && steps[j].outcome == steps[i].outcome
    requires pods[i].hostIP == "" && pods[j].Id() !in given
    ensures forall t :: t in AntiAffinityTerms(pods[j]) ==> !Repels(w, pods[j], t, pods[i])
    ensures DuplicateKeys.ContainerKeys(pods[i]) != DuplicateKeys.ContainerKeys(pods[j])
  {
    hide LegalStep, RunSoFar, Listing, Coherent, EligibleNodes, Repels, DuplicateKeys.ContainerKeys;
    PlacedWasFree(w, m, pods, given, steps, i);
    assert NodeOf(w, IndexAt(m, pods, steps, i + 1), pods[i]) == Some(steps[i].outcome.node);
    NodeStays(w, m, pods, given, steps, i + 1, j, pods[i]);
    PlacementIsSafe(w, m, pods, given, steps, j, pods[i]);
  }

  /** Pairwise safety of a call: two pods it places on one node never have the later repel the
      earlier, nor duplicate it. The unfiltered pod being scheduled is covered because it is
      always first. */
  lemma {:induction false} PairwiseSafety(w: World, m: Index, items: seq<Pod>, scheduled: string,
      names: seq<string>, steps: seq<Step>, i: nat, j: nat)
    requires Listing(items) && Coherent(w, items) && IsCall(w, m, items, scheduled, names, steps)
    requires PodAntiAffinity in w.filters && PodIsADuplicate in w.filters
    requires i < j < |steps| && steps[i].outcome.Placed? && steps[j].outcome == steps[i].outcome
    requires Arranged(items, scheduled)[i].hostIP == ""
    ensures var pods := Arranged(items, scheduled);
      && (forall t :: t in AntiAffinityTerms(pods[j]) ==> !Repels(w, pods[j], t, pods[i]))
      && DuplicateKeys.ContainerKeys(pods[i]) != DuplicateKeys.ContainerKeys(pods[j])
  {
    hide LegalStep, RunSoFar, Listing, Repels, DuplicateKeys.ContainerKeys, Given, AntiAffinityTerms;
    ArrangedIsListing(items, scheduled);
    SameMembers(Arranged(items, scheduled), items);
    OnlyFirstIsGiven(items, scheduled, names, j);
    PairwiseSafetyInRun(w, m, Arranged(items, scheduled), Given(items, scheduled, names), steps, i, j);
  }

  /** Later filters see a placed pod on its node exactly if it has no host address; with one, it is
      on no node at all, so `PairwiseSafety` asks for an empty one. */
  lemma {:induction false} PlacedIsVisibleIff(w: World, m: Index, pods: seq<Pod>, given: map<Key, seq<string>>,
      steps: seq<Step>, i: nat, j: nat)
    requires Listing(pods) && IsRun(w, m, pods, given, steps)
    requires i < j <= |pods| && steps[i].outcome.Placed?
    ensures NodeOf(w, IndexAt(m, pods, steps, j), pods[i]) ==
      if pods[i].hostIP == "" then Some(steps[i].outcome.node) else None
  {
    hide LegalStep, RunSoFar, Listing, EligibleNodes;
    PlacedWasFree(w, m, pods, given, steps, i);
    if pods[i].hostIP == "" {
      NodeStays(w, m, pods, given, steps, i + 1, j, pods[i]);
    }
  }

  /** Some anti-affinity term of `p` forbids `q` as a neighbour. */
  ghost predicate CanRepel(w: World, p: Pod, q: Pod) {
    exists t :: t in AntiAffinityTerms(p) && Repels(w, p, t, q)
  }

  /** The check looks from the later pod at the earlier one only. Two pods placed on one node are
      safe both ways exactly if the earlier repels the later only where it is repelled itself. */
  lemma {:induction false} SafeBothWaysIff(w: World, m: Index, items: seq<Pod>, scheduled: string,
      names: seq<string>, steps: seq<Step>, i: nat, j: nat)
    requires Listing(items) && Coherent(w, items) && IsCall(w, m, items, scheduled, names, steps)
    requires PodAntiAffinity in w.filters && PodIsADuplicate in w.filters
    requires i < j < |steps| && steps[i].outcome.Placed? && steps[j].outcome == steps[i].outcome
    requires Arranged(items, scheduled)[i].hostIP == ""
    ensures var p, q := Arranged(items, scheduled)[i], Arranged(items, scheduled)[j];
      !CanRepel(w, p, q) && !CanRepel(w, q, p) <==> (CanRepel(w, p, q) ==> CanRepel(w, q, p))
  {
    PairwiseSafety(w, m, items, scheduled, names, steps, i, j);
  }

  /** The two pods cannot be told apart by an anti-affinity term, names aside. */
  predicate Alike(p: Pod, q: Pod) {
    p.namespace == q.namespace && p.labels == q.labels && p.antiAffinity == q.antiAffinity
  }

  /** Between replicas of one template the one-sided check is enough: neither repels the other. */
  lemma {:induction false} AlikePodsAreSafeBothWays(w: World, m: Index, items: seq<Pod>, scheduled: string,
      names: seq<string>, steps: seq<Step>, i: nat, j: nat)
    requires Listing(items) && Coherent(w, items) && IsCall(w, m, items, scheduled, names, steps)
    requires PodAntiAffinity in w.filters && PodIsADuplicate in w.filters
    requires i < j < |steps| && steps[i].outcome.Placed? && steps[j].outcome == steps[i].outcome
    requires var pods := Arranged(items, scheduled); pods[i].hostIP == "" && Alike(pods[i], pods[j])
    ensures var pods := Arranged(items, scheduled);
      !CanRepel(w, pods[i], pods[j]) && !CanRepel(w, pods[j], pods[i])
  {
    CallIsRun(w, m, items, scheduled, names, steps);
    hide IsCall, Listing, Coherent, Arranged;
    SafeBothWaysIff(w, m, items, scheduled, names, steps, i, j);
    AlikeRepelAlike(w, Arranged(items, scheduled)[i], Arranged(items, scheduled)[j]);
  }

  lemma {:induction false} AlikeRepelAlike(w: World, p: Pod, q: Pod)
    requires Alike(p, q)
    ensures CanRepel(w, p, q) ==> CanRepel(w, q, p)
  {
    if t :| t in AntiAffinityTerms(p) && Repels(w, p, t, q) {
      assert t in AntiAffinityTerms(q) && Repels(w, q, t, p);
    }
  }

  // ----- Maximality -----

  lemma {:induction false} UnplacedMeansRejected(w: World, m: Index, pods: seq<Pod>, given: map<Key, seq<string>>,
      steps: seq<Step>, i: nat, node: Node)
    requires IsRun(w, m, pods, given, steps) && i < |pods| && steps[i] == Step(Unplaced, true)
    requires pods[i].Id() !in given && node in EligibleNodes(w)
    ensures !Fits(w, IndexAt(m, pods, steps, i), pods, pods[i], node)
  {
    assert LegalStep(w, IndexAt(m, pods, steps, i), pods, given, pods[i], steps[i]);
  }

  /** Greedy maximality: a pod left without a node by a calm step is still rejected by every
      eligible node at the end of the call. */
  lemma {:induction false} GreedyMaximality(w: World, m: Index, items: seq<Pod>, scheduled: string,
      names: seq<string>, steps: seq<Step>, i: nat, node: Node)
    requires Listing(items) && IsCall(w, m, items, scheduled, names, steps)
    requires i < |steps| && steps[i] == Step(Unplaced, true) && Arranged(items, scheduled)[i].name != scheduled
    requires node in EligibleNodes(w)
    ensures var pods := Arranged(items, scheduled);
      !Fits(w, IndexAt(m, pods, steps, |pods|), pods, pods[i], node)
  {
    var pods, given := Arranged(items, scheduled), Given(items, scheduled, names);
    ArrangedIsListing(items, scheduled);
    GivenOnlyScheduled(items, scheduled, names);
    UnplacedMeansRejected(w, m, pods, given, steps, i, node);
    hide *;
    CallIsRun(w, m, items, scheduled, names, steps);
    if Fits(w, IndexAt(m, pods, steps, |pods|), pods, pods[i], node) {
      FiltersOnlyTighten(w, m, pods, given, steps, i, |pods|, pods[i], node);
    }
  }

  // ----- Index and result -----

  lemma {:induction false} AssignmentOf(pods: seq<Pod>, steps: seq<Step>, i: nat, j: nat)
    requires Listing(pods) && |steps| == |pods| && i < j <= |pods|
    ensures var o := steps[i].outcome;
      if o.Kept? || o.Placed?
      then pods[i].name in Assignments(pods, steps, j) && Assignments(pods, steps, j)[pods[i].name] == o.node
      else pods[i].name !in Assignments(pods, steps, j)
    decreases j
  {
    if j > i + 1 {
      AssignmentOf(pods, steps, i, j - 1);
      DistinctIds(pods, i, j - 1);
    } else {
      AssignedNamesAreSeen(pods, steps, i);
      forall t | 0 <= t < i
        ensures pods[t].name != pods[i].name
      {
        DistinctIds(pods, t, i);
      }
    }
  }

  lemma {:induction false} AssignedNamesAreSeen(pods: seq<Pod>, steps: seq<Step>, i: nat)
    requires |steps| == |pods| && i <= |pods|
    ensures forall name :: name in Assignments(pods, steps, i) ==> exists t :: 0 <= t < i && pods[t].name == name
  {
    if i > 0 {
      AssignedNamesAreSeen(pods, steps, i - 1);
      assert pods[i - 1].name == pods[i - 1].name;
    }
  }

  lemma {:induction false} OutcomeByIndex(w: World, m: Index, pods: seq<Pod>, given: map<Key, seq<string>>,
      steps: seq<Step>, i: nat)
    requires IsRun(w, m, pods, given, steps) && i < |pods| && pods[i].hostIP == "" && !Ignored(pods[i])
    ensures var at, o := IndexAt(m, pods, steps, i), steps[i].outcome;
      && !o.Skipped?
      && (o.Kept? ==> pods[i].Id() in at && at[pods[i].Id()] == o.node)
      && (o.Placed? || o.Unplaced? ==> pods[i].Id() !in at)
  {
    assert LegalStep(w, IndexAt(m, pods, steps, i), pods, given, pods[i], steps[i]);
  }

  /** At the end of a run the index and the returned map agree on every pod that was not skipped
      and has no host address: both name the same node, or neither has one. */
  lemma {:induction false} IndexAgreesWithResult(w: World, m: Index, pods: seq<Pod>, given: map<Key, seq<string>>,
      steps: seq<Step>, i: nat)
    requires Listing(pods) && IsRun(w, m, pods, given, steps)
    requires i < |pods| && pods[i].hostIP == "" && !Ignored(pods[i])
    ensures var index, plan := IndexAt(m, pods, steps, |pods|), Assignments(pods, steps, |pods|);
      && (pods[i].Id() in index <==> pods[i].name in plan)
      && (pods[i].Id() in index ==> index[pods[i].Id()] == plan[pods[i].name])
      && (steps[i].outcome.Unplaced? <==> pods[i].name !in plan)
      && (steps[i].outcome.Kept? <==> pods[i].Id() in m)
  {
    hide LegalStep, RunSoFar, Listing, NodeAt, EligibleNodes;
    var k := pods[i].Id();
    AssignmentOf(pods, steps, i, |pods|);
    OutcomeByIndex(w, m, pods, given, steps, i);
    forall t | 0 <= t < |pods| && t != i
      ensures pods[t].Id() != k
    {
      DistinctIds(pods, t, i);
    }
    IndexFrame(m, pods, steps, 0, i, k);
    IndexFrame(m, pods, steps, i + 1, |pods|, k);
  }

  // ----- The answer to a request, pod by pod -----

  /** The loop skips exactly the pods that failed or are terminating. */
  lemma {:induction false} SkippedIff(w: World, m: Index, pods: seq<Pod>, given: map<Key, seq<string>>,
      steps: seq<Step>, i: nat)
    requires IsRun(w, m, pods, given, steps) && i < |pods|
    ensures steps[i].outcome.Skipped? <==> pods[i].phase == Failed || pods[i].terminating
  {
    assert LegalStep(w, IndexAt(m, pods, steps, i), pods, given, pods[i], steps[i]);
  }

  lemma {:induction false} InFailedPods(pods: seq<Pod>, steps: seq<Step>, i: nat, p: Pod)
    requires i <= |pods| && i <= |steps|
    ensures p in FailedPods(pods, steps, i) <==> exists t :: 0 <= t < i && pods[t] == p && steps[t].outcome.Unplaced?
  {
    if i > 0 {
      InFailedPods(pods, steps, i - 1, p);
      assert pods[i - 1] == p && steps[i - 1].outcome.Unplaced? ==> p in FailedPods(pods, steps, i);
    }
  }

  lemma {:induction false} AnswerAt(w: World, m: Index, pods: seq<Pod>, given: map<Key, seq<string>>,
      steps: seq<Step>, i: nat)
    requires Listing(pods) && IsRun(w, m, pods, given, steps) && i < |pods|
    ensures var p, o := pods[i], steps[i].outcome;
      && (o.Skipped? <==> p.phase == Failed || p.terminating)
      && (p in FailedPods(pods, steps, |pods|) <==> o.Unplaced?)
      && (p.name in Assignments(pods, steps, |pods|) <==> o.Kept? || o.Placed?)
      && (!o.Skipped? && NodeOf(w, m, p).Some? ==>
            p.name in Assignments(pods, steps, |pods|)
            && NodeOf(w, m, p) == Some(Assignments(pods, steps, |pods|)[p.name]))
  {
    SkippedIff(w, m, pods, given, steps, i);
    InFailedPods(pods, steps, |pods|, pods[i]);
    AssignmentOf(pods, steps, i, |pods|);
    assert LegalStep(w, IndexAt(m, pods, steps, i), pods, given, pods[i], steps[i]);
    assert forall t :: 0 <= t < |pods| && pods[t] == pods[i] ==> t == i;
    hide FailedPods, Assignments, RunSoFar, NodeOf;
    if NodeOf(w, m, pods[i]).Some? {
      NodeStays(w, m, pods, given, steps, 0, i, pods[i]);
    }
  }

  /** The answer to a request: no failed or terminating pod is planned, reported as failed, or touched
      in the index; every other listed pod is either planned or reported; and one that was on a node
      before is planned there. */
  lemma {:induction false} AnswerOfCall(w: World, m: Index, items: seq<Pod>, scheduled: string, names: seq<string>,
      steps: seq<Step>, p: Pod)
    requires Listing(items) && IsCall(w, m, items, scheduled, names, steps) && p in items
    ensures |steps| == |Arranged(items, scheduled)|
    ensures var pods := Arranged(items, scheduled);
      var plan, failed, index :=
        Assignments(pods, steps, |pods|), FailedPods(pods, steps, |pods|), IndexAt(m, pods, steps, |pods|);
      && (p.phase == Failed || p.terminating ==>
            && p.name !in plan && p !in failed
            && (p.Id() in index <==> p.Id() in m) && (p.Id() in m ==> index[p.Id()] == m[p.Id()]))
      && (p.phase != Failed && !p.terminating ==>
            && (p in failed <==> p.name !in plan)
            && (NodeOf(w, m, p).Some? ==> p.name in plan && NodeOf(w, m, p) == Some(plan[p.name])))
  {
    var pods, given := Arranged(items, scheduled), Given(items, scheduled, names);
    ArrangedIsListing(items, scheduled);
    SameMembers(pods, items);
    CallIsRun(w, m, items, scheduled, names, steps);
    hide *;
    var i :| 0 <= i < |pods| && pods[i] == p;
    AnswerAt(w, m, pods, given, steps, i);
    if p.phase == Failed || p.terminating {
      forall t | 0 <= t < |pods| && steps[t].outcome.Placed?
        ensures pods[t].Id() != p.Id()
      {
        if t != i { DistinctIds(pods, t, i); }
      }
      IndexAtStart(m, pods, steps);
      IndexFrame(m, pods, steps, 0, |pods|, p.Id());
    }
  }

  lemma {:induction false} IndexAtStart(m: Index, pods: seq<Pod>, steps: seq<Step>)
    ensures IndexAt(m, pods, steps, 0) == m
  {
  }

  /** In particular a listed pod that runs, and whose host address one eligible node has, is in the
      answer with that node. */
  lemma {:induction false} RunningPodIsReported(w: World, m: Index, items: seq<Pod>, scheduled: string,
      names: seq<string>, steps: seq<Step>, p: Pod, node: Node)
    requires Listing(items) && IsCall(w, m, items, scheduled, names, steps) && p in items
    requires p.phase == Running && !p.terminating && p.hostIP != ""
    requires node in EligibleNodes(w) && p.hostIP in node.addresses
    requires forall n :: n in EligibleNodes(w) && p.hostIP in n.addresses ==> n == node
    ensures |steps| == |Arranged(items, scheduled)|
    ensures var pods := Arranged(items, scheduled);
      p.name in Assignments(pods, steps, |pods|) && Assignments(pods, steps, |pods|)[p.name] == node.name
  {
    HostAddressDecides(w, m, p, node);
    AnswerOfCall(w, m, items, scheduled, names, steps, p);
  }

  /** An undisturbed placement is on a node with the highest score among those the pod could have had:
      the eligible nodes of its list, or the eligible nodes the filters accept at that point. */
  lemma {:induction false} PlacedIsBest(w: World, m: Index, pods: seq<Pod>, given: map<Key, seq<string>>,
      steps: seq<Step>, i: nat, other: Node)
    requires IsRun(w, m, pods, given, steps) && i < |pods| && steps[i].outcome.Placed? && steps[i].calm
    requires other in EligibleNodes(w)
    requires var at := IndexAt(m, pods, steps, i);
      if pods[i].Id() in given then other.name in given[pods[i].Id()]
      else Allows(w, pods[i], other, Merged(w.podsOn(other.name), Assigned(w, at, pods, other.name)))
    ensures var at := IndexAt(m, pods, steps, i);
      exists node ::
        && node in EligibleNodes(w) && node.name == steps[i].outcome.node
        && ScoreSum(w.scorers, pods[i], other, Assigned(w, at, pods, other.name)) <=
           ScoreSum(w.scorers, pods[i], node, Assigned(w, at, pods, node.name))
  {
    LegalAt(w, m, pods, given, steps, i);
    hide EligibleNodes, Allows, Assigned, ScoreSum, RunSoFar, IndexAt, Merged;
    var at := IndexAt(m, pods, steps, i);
    assert Candidate(w, at, pods, given, pods[i], other);
    hide Fits, Present;
    var node: Node :| node.name == steps[i].outcome.node && Candidate(w, at, pods, given, pods[i], node)
      && Score(w, at, pods, pods[i], other) <= Score(w, at, pods, pods[i], node);
  }

  /** Every placement is on an eligible node: one of the pod's own list, or one that passes all filters
      next to the pods that are there by then. */
  lemma {:induction false} PlacedPassesFilters(w: World, m: Index, pods: seq<Pod>, given: map<Key, seq<string>>,
      steps: seq<Step>, i: nat)
    requires IsRun(w, m, pods, given, steps) && i < |pods| && steps[i].outcome.Placed?
    ensures var at := IndexAt(m, pods, steps, i);
      exists node ::
        && node in EligibleNodes(w) && node.name == steps[i].outcome.node
        && (pods[i].Id() in given ==> node.name in given[pods[i].Id()])
        && (pods[i].Id() !in given ==>
              Allows(w, pods[i], node, Merged(w.podsOn(node.name), Assigned(w, at, pods, node.name))))
  {
    LegalAt(w, m, pods, given, steps, i);
    hide EligibleNodes, Allows, Assigned, RunSoFar, IndexAt, Merged;
    var at := IndexAt(m, pods, steps, i);
    var node: Node :| node.name == steps[i].outcome.node && Candidate(w, at, pods, given, pods[i], node);
  }

  /** Undisturbed, a pod that is scheduled and has no node is placed exactly if its list is not empty and
      every name in it is the name of an eligible node. */
  lemma {:induction false} ScheduledPodPlacedIff(w: World, m: Index, items: seq<Pod>, scheduled: string,
      names: seq<string>, steps: seq<Step>, p: Pod)
    requires Listing(items) && IsCall(w, m, items, scheduled, names, steps) && p in items && p.name == scheduled
    requires p.phase != Failed && !p.terminating && NodeOf(w, m, p) == None
    ensures |steps| == |Arranged(items, scheduled)| > 0
    ensures var plan := Assignments(Arranged(items, scheduled), steps, |steps|);
      && (p.name in plan ==> plan[p.name] in names)
      && (steps[0].calm ==>
            (p.name in plan <==>
               names != [] && forall name :: name in names ==> exists n :: n in EligibleNodes(w) && n.name == name))
  {
    var pods := Arranged(items, scheduled);
    ArrangedIsListing(items, scheduled);
    SameMembers(pods, items);
    CallIsRun(w, m, items, scheduled, names, steps);
    ScheduledPodIsEligible(w, m, items, scheduled, names, steps);
    var k :| 0 <= k < |pods| && pods[k] == p;
    assert k == 0;
    AssignmentOf(pods, steps, 0, |pods|);
    IndexAtStart(m, pods, steps);
    LegalAt(w, m, pods, Given(items, scheduled, names), steps, 0);
    hide EligibleNodes, Arranged, Given, IsCall, Listing, Assignments;
  }

  lemma {:induction false} LegalAt(w: World, m: Index, pods: seq<Pod>, given: map<Key, seq<string>>,
      steps: seq<Step>, i: nat)
    requires IsRun(w, m, pods, given, steps) && i < |pods|
    ensures LegalStep(w, IndexAt(m, pods, steps, i), pods, given, pods[i], steps[i])
  {
    hide LegalStep;
  }

  /** With the node-fit filter, every filtered placement is on a node that the pod tolerates and
      matches, and that covers each of its needs. */
  lemma {:induction false} PlacedNodeCovers(w: World, m: Index, pods: seq<Pod>, given: map<Key, seq<string>>,
      steps: seq<Step>, i: nat)
    requires IsRun(w, m, pods, given, steps) && i < |pods| && steps[i].outcome.Placed?
    requires PodFitsNode in w.filters && pods[i].Id() !in given
    requires forall n :: n in EligibleNodes(w) ==> SoundQuantities(w, pods[i], n)
    ensures exists node ::
      && node in EligibleNodes(w) && node.name == steps[i].outcome.node
      && w.tolerates(pods[i], node) && w.matchesNode(pods[i], node) && NodeCovers(w, pods[i], node)
  {
    var at := IndexAt(m, pods, steps, i);
    LegalAt(w, m, pods, given, steps, i);
    hide EligibleNodes, Present, SoundQuantities, NodeCovers, RunSoFar;
    var node: Node :| node.name == steps[i].outcome.node && Candidate(w, at, pods, given, pods[i], node);
    EveryFilterDecides(w, pods[i], node, Present(w, at, pods, node));
    hide Allows;
    var v := w.(filters := [PodFitsNode]);
    SameQuantities(w, v, pods[i], node);
    NodeFitExactly(v, pods[i], node, Present(w, at, pods, node));
  }

  lemma {:induction false} SameQuantities(w: World, v: World, pod: Pod, node: Node)
    requires v == w.(filters := v.filters)
    ensures SoundQuantities(w, pod, node) == SoundQuantities(v, pod, node)
    ensures NodeCovers(w, pod, node) == NodeCovers(v, pod, node)
  {
  }

  // ----- Exact spread -----

  /** Names of the nodes the first `i` steps placed pods on. */
  function Used(steps: seq<Step>, i: nat): set<string>
    requires i <= |steps|
  {
    if i == 0 then {}
    else Used(steps, i - 1) + if steps[i - 1].outcome.Placed? then {steps[i - 1].outcome.node} else {}
  }

  function PlacedCount(steps: seq<Step>, i: nat): nat
    requires i <= |steps|
  {
    if i == 0 then 0 else PlacedCount(steps, i - 1) + if steps[i - 1].outcome.Placed? then 1 else 0
  }

  function EligibleNames(w: World): set<string> {
    set n | n in EligibleNodes(w) :: n.name
  }

  /** Unassigned, schedulable pods with equal duplicate keys, each of which would pass every
      filter on every eligible node as the nodes are now. */
  ghost predicate FreshReplicas(w: World, m: Index, pods: seq<Pod>) {
    && (forall p :: p in pods ==> !Ignored(p) && p.hostIP == "" && p.Id() !in m)
    && (forall p, q :: p in pods && q in pods ==> DuplicateKeys.ContainerKeys(p) == DuplicateKeys.ContainerKeys(q))
    && (forall p, n :: p in pods && n in EligibleNodes(w) ==> Allows(w, p, n, w.podsOn(n.name)))
  }

  /** A pod of the list is on a node exactly when an earlier step placed it there. */
  lemma {:induction false} OnNodeMeansPlaced(w: World, m: Index, pods: seq<Pod>, steps: seq<Step>, i: nat, q: Pod,
      n: string)
    requires i <= |steps| == |pods| && q in pods && q.hostIP == "" && q.Id() !in m
    ensures NodeOf(w, IndexAt(m, pods, steps, i), q) == Some(n) ==> n in Used(steps, i)
  {
    if i > 0 {
      OnNodeMeansPlaced(w, m, pods, steps, i - 1, q, n);
    }
  }

  lemma {:induction false} UsedHasPod(m: Index, pods: seq<Pod>, steps: seq<Step>, i: nat, n: string)
    requires i <= |steps| == |pods| && n in Used(steps, i)
    ensures exists t :: 0 <= t < i && steps[t].outcome == Placed(n)
  {
    if steps[i - 1].outcome == Placed(n) {
    } else {
      UsedHasPod(m, pods, steps, i - 1, n);
    }
  }

  /** While no replica is on a node, it accepts every replica. */
  lemma {:induction false} FreeNodeFits(w: World, m: Index, pods: seq<Pod>, steps: seq<Step>, i: nat, pod: Pod,
      node: Node)
    requires |steps| == |pods| && i <= |pods| && FreshReplicas(w, m, pods)
    requires pod in pods && node in EligibleNodes(w) && node.name !in Used(steps, i)
    ensures Fits(w, IndexAt(m, pods, steps, i), pods, pod, node)
  {
    var at := IndexAt(m, pods, steps, i);
    var on := w.podsOn(node.name);
    forall q | q in Present(w, at, pods, node)
      ensures q in on
    {
      InMerged(on, Assigned(w, at, pods, node.name), q);
      InAssigned(w, at, pods, node.name, q);
      if q in pods {
        OnNodeMeansPlaced(w, m, pods, steps, i, q, node.name);
      }
    }
    AllowsIsAntitone(w, pod, node, Present(w, at, pods, node), on);
  }

  /** Once a replica is on a node, the node rejects all others. */
  lemma {:induction false} UsedNodeRejects(w: World, m: Index, pods: seq<Pod>, given: map<Key, seq<string>>,
      steps: seq<Step>, i: nat, pod: Pod, node: Node)
    requires Listing(pods) && Coherent(w, pods) && IsRun(w, m, pods, given, steps) && FreshReplicas(w, m, pods)
    requires PodIsADuplicate in w.filters
    requires i <= |pods| && pod in pods && node.name in Used(steps, i)
    ensures !Fits(w, IndexAt(m, pods, steps, i), pods, pod, node)
  {
    hide LegalStep, RunSoFar, Listing, Coherent, EligibleNodes, DuplicateKeys.ContainerKeys;
    UsedHasPod(m, pods, steps, i, node.name);
    var t :| 0 <= t < i && steps[t].outcome == Placed(node.name);
    var q := pods[t];
    assert q in pods;
    assert NodeOf(w, IndexAt(m, pods, steps, t + 1), q) == Some(node.name);
    NodeStays(w, m, pods, given, steps, t + 1, i, q);
    AssignedIsPresent(w, IndexAt(m, pods, steps, i), pods, node, q);
    var present := Present(w, IndexAt(m, pods, steps, i), pods, node);
    assert !FilterAllows(w, PodIsADuplicate, pod, node, present);
  }

  /** One replica's step: placed on an unused node if there is one, otherwise not placed. */
  lemma {:induction false} SpreadStep(w: World, m: Index, pods: seq<Pod>, given: map<Key, seq<string>>,
      steps: seq<Step>, i: nat)
    requires Listing(pods) && Coherent(w, pods) && IsRun(w, m, pods, given, steps) && FreshReplicas(w, m, pods)
    requires PodIsADuplicate in w.filters && i < |pods| && steps[i].calm
    requires i > 0 ==> pods[i].Id() !in given
    requires pods[i].Id() in given ==> Usable(w, given[pods[i].Id()])
    requires Used(steps, i) <= EligibleNames(w)
    ensures steps[i].outcome.Placed? ==> steps[i].outcome.node in EligibleNames(w) - Used(steps, i)
    ensures !steps[i].outcome.Placed? ==> Used(steps, i) == EligibleNames(w)
  {
    var at := IndexAt(m, pods, steps, i);
    var pod := pods[i];
    assert pod in pods;
    assert LegalStep(w, at, pods, given, pod, steps[i]);
    forall t | 0 <= t < i ensures pods[t].Id() != pod.Id() { DistinctIds(pods, t, i); }
    IndexFrame(m, pods, steps, 0, i, pod.Id());
    if steps[i].outcome.Placed? {
      var node: Node :| node.name == steps[i].outcome.node && Candidate(w, at, pods, given, pod, node);
      if node.name in Used(steps, i) {
        UsedNodeRejects(w, m, pods, given, steps, i, pod, node);
      }
    } else {
      forall node | node in EligibleNodes(w)
        ensures node.name in Used(steps, i)
      {
        if node.name !in Used(steps, i) {
          FreeNodeFits(w, m, pods, steps, i, pod, node);
        }
      }
    }
  }

  lemma {:induction false} SpreadSoFar(w: World, m: Index, pods: seq<Pod>, given: map<Key, seq<string>>,
      steps: seq<Step>, i: nat)
    requires Listing(pods) && Coherent(w, pods) && IsRun(w, m, pods, given, steps) && FreshReplicas(w, m, pods)
    requires PodIsADuplicate in w.filters && i <= |pods|
    requires forall t :: 0 <= t < |pods| ==> steps[t].calm && (t > 0 ==> pods[t].Id() !in given)
    requires forall t :: 0 <= t < |pods| && pods[t].Id() in given ==> Usable(w, given[pods[t].Id()])
    ensures Used(steps, i) <= EligibleNames(w)
    ensures |Used(steps, i)| == PlacedCount(steps, i)
    ensures PlacedCount(steps, i) == if i < |EligibleNames(w)| then i else |EligibleNames(w)|
  {
    hide LegalStep, RunSoFar, Listing, Coherent, FreshReplicas, Usable, EligibleNames;
    if i > 0 {
      SpreadSoFar(w, m, pods, given, steps, i - 1);
      SpreadStep(w, m, pods, given, steps, i - 1);
      SubsetSize(Used(steps, i), EligibleNames(w));
      SubsetSize(Used(steps, i - 1), EligibleNames(w));
    }
  }

  lemma {:induction false} SubsetSize(a: set<string>, b: set<string>)
    requires a <= b
    ensures |a| <= |b| && (|a| == |b| ==> a == b)
  {
    assert b == a + (b - a);
    assert |b| == |a| + |b - a|;
    if |a| == |b| {
      assert b - a == {};
    }
  }

  /** Exact spread: a calm call over k fresh replicas and m eligible nodes places exactly
      min(k, m) of them, all on different nodes. */
  lemma {:induction false} ExactSpread(w: World, m: Index, items: seq<Pod>, scheduled: string, names: seq<string>,
      steps: seq<Step>)
    requires Listing(items) && Coherent(w, items) && FreshReplicas(w, m, items)
    requires IsCall(w, m, items, scheduled, names, steps) && PodIsADuplicate in w.filters
    requires forall t :: 0 <= t < |steps| ==> steps[t].calm
    requires (exists p :: p in items && p.name == scheduled) ==> Usable(w, names)
    ensures var k, n := |items|, |EligibleNames(w)|;
      PlacedCount(steps, |steps|) == if k < n then k else n
    ensures |Used(steps, |steps|)| == PlacedCount(steps, |steps|)
    ensures Used(steps, |steps|) <= EligibleNames(w)
  {
    hide *;
    var pods, given := Arranged(items, scheduled), Given(items, scheduled, names);
    ArrangedIsListing(items, scheduled);
    SameMembers(pods, items);
    SameReplicas(w, m, items, pods);
    assert IsRun(w, m, pods, given, steps) && |steps| == |pods| by {
      CallIsRun(w, m, items, scheduled, names, steps);
    }
    forall t | 0 <= t < |pods|
      ensures steps[t].calm && (t > 0 ==> pods[t].Id() !in given)
      ensures pods[t].Id() in given ==> Usable(w, given[pods[t].Id()])
    {
      GivenListIsUsable(w, items, scheduled, names, t);
    }
    SpreadSoFar(w, m, pods, given, steps, |pods|);
  }

  lemma {:induction false} CallIsRun(w: World, m: Index, items: seq<Pod>, scheduled: string, names: seq<string>,
      steps: seq<Step>)
    requires IsCall(w, m, items, scheduled, names, steps)
    ensures IsRun(w, m, Arranged(items, scheduled), Given(items, scheduled, names), steps)
    ensures |steps| == |Arranged(items, scheduled)|
  {
  }

  lemma {:induction false} SameReplicas(w: World, m: Index, a: seq<Pod>, b: seq<Pod>)
    requires forall p :: p in b <==> p in a
    ensures Coherent(w, a) ==> Coherent(w, b)
    ensures FreshReplicas(w, m, a) ==> FreshReplicas(w, m, b)
  {
    hide DuplicateKeys.ContainerKeys, Allows, EligibleNodes;
  }

  lemma {:induction false} GivenListIsUsable(w: World, items: seq<Pod>, scheduled: string, names: seq<string>, t: nat)
    requires Listing(items) && t < |Arranged(items, scheduled)|
    requires (exists p :: p in items && p.name == scheduled) ==> Usable(w, names)
    ensures var pods, given := Arranged(items, scheduled), Given(items, scheduled, names);
      && (t > 0 ==> pods[t].Id() !in given)
      && (pods[t].Id() in given ==> Usable(w, given[pods[t].Id()]))
  {
    hide Usable, Listing;
    ArrangedIsListing(items, scheduled);
    SameMembers(Arranged(items, scheduled), items);
    GivenOnlyScheduled(items, scheduled, names);
    if t > 0 {
      OnlyFirstIsGiven(items, scheduled, names, t);
    }
    assert Arranged(items, scheduled)[t] in items;
  }
}
