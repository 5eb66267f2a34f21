/** The planner always has a next step: every request, on every cluster, index and listing, can
    run to its end undisturbed. The theorems about runs are therefore never vacuous. */
module PlannerTotality {
  import opened Cluster
  import opened Filters
  import opened Planner
  import opened PlannerRuns

  /** Among the candidates of a node list, one has the best score. */
  lemma {:induction false} BestCandidate(w: World, m: Index, pods: seq<Pod>, given: map<Key, seq<string>>, pod: Pod,
      nodes: seq<Node>, some: Node) returns (best: Node)
    requires some in nodes && Candidate(w, m, pods, given, pod, some)
    ensures best in nodes && Candidate(w, m, pods, given, pod, best)
    ensures forall n :: n in nodes && Candidate(w, m, pods, given, pod, n) ==>
      Score(w, m, pods, pod, n) <= Score(w, m, pods, pod, best)
    decreases |nodes|
  {
    hide Candidate, Score;
    var last, rest := nodes[|nodes| - 1], nodes[..|nodes| - 1];
    assert nodes == rest + [last];
    if other :| other in rest && Candidate(w, m, pods, given, pod, other) {
      best := BestCandidate(w, m, pods, given, pod, rest, other);
      if Candidate(w, m, pods, given, pod, last)
        && Score(w, m, pods, pod, best) < Score(w, m, pods, pod, last) {
        best := last;
      }
    } else {
      best := last;
    }
  }

  /** In every index there is an undisturbed legal step for every pod. */
  lemma {:induction false} CalmStepExists(w: World, m: Index, pods: seq<Pod>, given: map<Key, seq<string>>, pod: Pod)
    returns (step: Step)
    ensures step.calm && LegalStep(w, m, pods, given, pod, step)
  {
    hide Fits, Score, EligibleNodes, NodeOf;
    if Ignored(pod) {
      return Step(Skipped, true);
    }
    if NodeOf(w, m, pod).Some? {
      return Step(Kept(NodeOf(w, m, pod).value), true);
    }
    if pod.Id() in given && !Usable(w, given[pod.Id()]) {
      return Step(Unplaced, true);
    }
    if pod.Id() in given {
      assert given[pod.Id()][0] in given[pod.Id()];
    }
    if some :| some in EligibleNodes(w) && Candidate(w, m, pods, given, pod, some) {
      var best := BestCandidate(w, m, pods, given, pod, EligibleNodes(w), some);
      step := Step(Placed(best.name), true);
    } else {
      step := Step(Unplaced, true);
    }
  }

  lemma {:induction false} CalmPrefixExists(w: World, m: Index, pods: seq<Pod>, given: map<Key, seq<string>>, n: nat)
    returns (steps: seq<Step>)
    requires n <= |pods|
    ensures |steps| == n && RunSoFar(w, m, pods, given, steps)
    ensures forall t :: 0 <= t < n ==> steps[t].calm
  {
    if n == 0 {
      return [];
    }
    hide LegalStep, RunSoFar, Recorded, After;
    steps := CalmPrefixExists(w, m, pods, given, n - 1);
    var step := CalmStepExists(w, IndexAt(m, pods, steps, n - 1), pods, given, pods[n - 1]);
    RunGrows(w, m, pods, given, steps, step);
    steps := steps + [step];
  }

  /** Every request has an undisturbed run. */
  lemma {:induction false} CalmCallExists(w: World, m: Index, items: seq<Pod>, scheduled: string, names: seq<string>)
    returns (steps: seq<Step>)
    ensures IsCall(w, m, items, scheduled, names, steps)
    ensures |steps| == |items| && forall t :: 0 <= t < |steps| ==> steps[t].calm
  {
    hide RunSoFar, Arranged, Given;
    ArrangedIsListing(items, scheduled);
    var pods := Arranged(items, scheduled);
    steps := CalmPrefixExists(w, m, pods, Given(items, scheduled, names), |pods|);
  }
}
