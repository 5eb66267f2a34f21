/** The greedy planner. Each placement changes the index the filters of later pods read, so a
    whole call is described as a run: one step per pod, each legal in the index it starts from. */
module Planner {
  import opened Cluster
  import opened Filters
  import opened Selection
  import Parallel
  import PlanStore
  import StorageKey

  type Index = map<Key, string>

  // ----- Eligible nodes -----

  predicate HardTaint(node: Node) {
    NoSchedule in node.taints || NoExecute in node.taints
  }

  function Untainted(nodes: seq<Node>): seq<Node> {
    if nodes == [] then []
    else Untainted(nodes[..|nodes| - 1]) + if HardTaint(nodes[|nodes| - 1]) then [] else [nodes[|nodes| - 1]]
  }

  function SoftlyTainted(nodes: seq<Node>): seq<Node> {
    if nodes == [] then []
    else
      var n := nodes[|nodes| - 1];
      SoftlyTainted(nodes[..|nodes| - 1]) + if HardTaint(n) && PreferNoSchedule in n.taints then [n] else []
  }

  /** Nodes without a hard taint; if there are none, the hard-tainted ones that also carry a soft taint. */
  function EligibleNodes(w: World): seq<Node> {
    if Untainted(w.nodes) == [] then SoftlyTainted(w.nodes) else Untainted(w.nodes)
  }

  method GetEligibleNodes(w: World) returns (r: seq<Node>)
    ensures r == EligibleNodes(w)
  {
    var eligible, soft: seq<Node> := [], [];
    for i := 0 to |w.nodes|
      invariant eligible == Untainted(w.nodes[..i]) && soft == SoftlyTainted(w.nodes[..i])
    {
      var node := w.nodes[i];
      var preferNoSchedule, noSchedule := false, false;
      for j := 0 to |node.taints|
        invariant preferNoSchedule == (PreferNoSchedule in node.taints[..j])
        invariant noSchedule == (NoSchedule in node.taints[..j] || NoExecute in node.taints[..j])
      {
        if node.taints[j] == PreferNoSchedule {
          preferNoSchedule := true;
        } else if node.taints[j] == NoSchedule || node.taints[j] == NoExecute {
          noSchedule := true;
        }
      }
      assert node.taints[..|node.taints|] == node.taints;
      assert w.nodes[..i + 1][..i] == w.nodes[..i];
      if !noSchedule {
        eligible := eligible + [node];
      } else if preferNoSchedule {
        soft := soft + [node];
      }
    }
    assert w.nodes[..|w.nodes|] == w.nodes;
    r := if eligible == [] then soft else eligible;
  }

  // ----- Where a pod is -----

  function NodeAt(nodes: seq<Node>, ip: string): Option<string> {
    if nodes == [] then None
    else if ip in nodes[0].addresses then Some(nodes[0].name)
    else NodeAt(nodes[1..], ip)
  }

  /** `GetNodeName`: the index answers for pods without a host address, the addresses of the
      eligible nodes for all others. */
  function NodeOf(w: World, m: Index, pod: Pod): Option<string> {
    if pod.hostIP == "" then if pod.Id() in m then Some(m[pod.Id()]) else None
    else NodeAt(EligibleNodes(w), pod.hostIP)
  }

  function Assigned(w: World, m: Index, pods: seq<Pod>, node: string): seq<Pod> {
    if pods == [] then []
    else
      var n := |pods| - 1;
      Assigned(w, m, pods[..n], node) + if NodeOf(w, m, pods[n]) == Some(node) then [pods[n]] else []
  }

  lemma {:induction false} InAssigned(w: World, m: Index, pods: seq<Pod>, node: string, p: Pod)
    ensures p in Assigned(w, m, pods, node) <==> p in pods && NodeOf(w, m, p) == Some(node)
  {
    if pods != [] {
      var n := |pods| - 1;
      InAssigned(w, m, pods[..n], node, p);
      assert pods == pods[..n] + [pods[n]];
    }
  }

  /** The pods the filters see on a node: the API listing and this pod set's assignments. */
  function Present(w: World, m: Index, pods: seq<Pod>, node: Node): seq<Pod> {
    Merged(w.podsOn(node.name), Assigned(w, m, pods, node.name))
  }

  predicate Fits(w: World, m: Index, pods: seq<Pod>, pod: Pod, node: Node) {
    Allows(w, pod, node, Present(w, m, pods, node))
  }

  function Score(w: World, m: Index, pods: seq<Pod>, pod: Pod, node: Node): int {
    ScoreSum(w.scorers, pod, node, Assigned(w, m, pods, node.name))
  }

  lemma {:induction false} InUntainted(nodes: seq<Node>, n: Node)
    ensures n in Untainted(nodes) <==> n in nodes && NoSchedule !in n.taints && NoExecute !in n.taints
    ensures n in SoftlyTainted(nodes) <==>
      n in nodes && (NoSchedule in n.taints || NoExecute in n.taints) && PreferNoSchedule in n.taints
  {
    if nodes != [] {
      var l := |nodes| - 1;
      InUntainted(nodes[..l], n);
      assert nodes == nodes[..l] + [nodes[l]];
    }
  }

  /** Taints decide eligibility: no node with a hard taint is eligible, unless every node has one;
      then those with a soft taint besides are. */
  lemma {:induction false} EligibleIff(w: World, n: Node)
    ensures n in EligibleNodes(w) <==>
      && n in w.nodes
      && if exists o :: o in w.nodes && NoSchedule !in o.taints && NoExecute !in o.taints
         then NoSchedule !in n.taints && NoExecute !in n.taints
         else PreferNoSchedule in n.taints
  {
    InUntainted(w.nodes, n);
    if o :| o in w.nodes && NoSchedule !in o.taints && NoExecute !in o.taints {
      InUntainted(w.nodes, o);
    } else if Untainted(w.nodes) != [] {
      InUntainted(w.nodes, Untainted(w.nodes)[0]);
    }
  }

  /** Node `i` has the address, and no node before it. */
  predicate FirstWith(nodes: seq<Node>, ip: string, i: int) {
    && 0 <= i < |nodes| && ip in nodes[i].addresses
    && forall j :: 0 <= j < i ==> ip !in nodes[j].addresses
  }

  /** `a` is listed before `b`. */
  predicate Before(nodes: seq<Node>, a: Node, b: Node) {
    exists p, q :: 0 <= p < q < |nodes| && nodes[p] == a && nodes[q] == b
  }

  lemma {:induction false} TaintsKeepOrder(nodes: seq<Node>)
    ensures forall i, j :: 0 <= i < j < |Untainted(nodes)| ==> Before(nodes, Untainted(nodes)[i], Untainted(nodes)[j])
    ensures forall i, j :: 0 <= i < j < |SoftlyTainted(nodes)| ==>
      Before(nodes, SoftlyTainted(nodes)[i], SoftlyTainted(nodes)[j])
  {
    if nodes != [] {
      var l := |nodes| - 1;
      var rest := nodes[..l];
      TaintsKeepOrder(rest);
      forall a, b | Before(rest, a, b) ensures Before(nodes, a, b) {
        var p, q :| 0 <= p < q < |rest| && rest[p] == a && rest[q] == b;
        assert nodes[p] == a && nodes[q] == b;
      }
      forall a | a in Untainted(rest) || a in SoftlyTainted(rest) ensures Before(nodes, a, nodes[l]) {
        UntaintedAreListed(rest, a);
        var p :| 0 <= p < |rest| && rest[p] == a;
        assert nodes[p] == a;
      }
      hide Before;
    }
  }

  /** Eligible nodes come in the order of the listing. */
  lemma {:induction false} EligibleInOrder(w: World, i: nat, j: nat)
    requires i < j < |EligibleNodes(w)|
    ensures Before(w.nodes, EligibleNodes(w)[i], EligibleNodes(w)[j])
  {
    TaintsKeepOrder(w.nodes);
  }

  lemma {:induction false} NodeAtIsFirst(nodes: seq<Node>, ip: string)
    ensures NodeAt(nodes, ip).None? <==> forall n :: n in nodes ==> ip !in n.addresses
    ensures NodeAt(nodes, ip).Some? ==>
      exists i :: FirstWith(nodes, ip, i) && NodeAt(nodes, ip) == Some(nodes[i].name)
  {
    if nodes != [] {
      NodeAtIsFirst(nodes[1..], ip);
      assert nodes == [nodes[0]] + nodes[1..];
      if ip !in nodes[0].addresses && NodeAt(nodes[1..], ip).Some? {
        var i :| FirstWith(nodes[1..], ip, i) && NodeAt(nodes[1..], ip) == Some(nodes[1..][i].name);
        forall j | 0 <= j < i + 1 ensures ip !in nodes[j].addresses {
          if j > 0 { assert nodes[1..][j - 1] == nodes[j]; }
        }
        assert FirstWith(nodes, ip, i + 1);
      } else if ip in nodes[0].addresses {
        assert FirstWith(nodes, ip, 0);
      }
    }
  }

  /** Where a pod is: without host address where the index says, otherwise on the first eligible node
      that has the address. */
  lemma {:induction false} NodeOfExactly(w: World, m: Index, pod: Pod)
    ensures pod.hostIP == "" ==>
      (NodeOf(w, m, pod).Some? <==> pod.Id() in m) && (pod.Id() in m ==> NodeOf(w, m, pod) == Some(m[pod.Id()]))
    ensures pod.hostIP != "" ==>
      (NodeOf(w, m, pod).None? <==> forall n :: n in EligibleNodes(w) ==> pod.hostIP !in n.addresses)
    ensures pod.hostIP != "" && NodeOf(w, m, pod).Some? ==>
      exists i :: FirstWith(EligibleNodes(w), pod.hostIP, i) && NodeOf(w, m, pod) == Some(EligibleNodes(w)[i].name)
  {
    NodeAtIsFirst(EligibleNodes(w), pod.hostIP);
  }

  /** An address that one eligible node has puts the pod there. */
  lemma {:induction false} HostAddressDecides(w: World, m: Index, pod: Pod, node: Node)
    requires pod.hostIP != "" && node in EligibleNodes(w) && pod.hostIP in node.addresses
    requires forall n :: n in EligibleNodes(w) && pod.hostIP in n.addresses ==> n == node
    ensures NodeOf(w, m, pod) == Some(node.name)
  {
    NodeOfExactly(w, m, pod);
    hide EligibleNodes, NodeOf;
  }

  // ----- Runs -----

  /** What happened to one pod of the list. */
  datatype Outcome = Skipped | Kept(node: string) | Placed(node: string) | Unplaced

  /** `calm`: no parallel pass of this step was cut short by its context. */
  datatype Step = Step(outcome: Outcome, calm: bool)

  predicate Ignored(pod: Pod) {
    pod.phase == Failed || pod.terminating
  }

  /** The node names a pod may be placed on: the given list, if there is one, or the nodes that
      pass the filters now. */
  predicate Candidate(w: World, m: Index, pods: seq<Pod>, given: map<Key, seq<string>>, pod: Pod, node: Node) {
    && node in EligibleNodes(w)
    && if pod.Id() in given then node.name in given[pod.Id()] else Fits(w, m, pods, pod, node)
  }

  /** A given list is usable when it is not empty and names only eligible nodes. */
  predicate Usable(w: World, names: seq<string>) {
    names != [] && forall name :: name in names ==> exists node :: node in EligibleNodes(w) && node.name == name
  }

  ghost predicate LegalStep(w: World, m: Index, pods: seq<Pod>, given: map<Key, seq<string>>, pod: Pod, step: Step) {
    match step.outcome
    case Skipped => Ignored(pod)
    case Kept(n) => !Ignored(pod) && NodeOf(w, m, pod) == Some(n)
    case Placed(n) =>
      && !Ignored(pod) && NodeOf(w, m, pod) == None
      && (pod.Id() in given ==> Usable(w, given[pod.Id()]))
      && exists node: Node :: node.name == n && Candidate(w, m, pods, given, pod, node)
           && (step.calm ==> forall other :: Candidate(w, m, pods, given, pod, other) ==>
                 Score(w, m, pods, pod, other) <= Score(w, m, pods, pod, node))
    case Unplaced =>
      && !Ignored(pod) && NodeOf(w, m, pod) == None
      && (step.calm ==>
            if pod.Id() in given then !Usable(w, given[pod.Id()])
            else forall node :: node in EligibleNodes(w) ==> !Fits(w, m, pods, pod, node))
  }

  function After(m: Index, pod: Pod, step: Step): Index {
    if step.outcome.Placed? then m[pod.Id() := step.outcome.node] else m
  }

  /** The index after the first `i` steps. */
  function IndexAt(m: Index, pods: seq<Pod>, steps: seq<Step>, i: nat): Index
    requires i <= |pods| && i <= |steps|
  {
    if i == 0 then m else After(IndexAt(m, pods, steps, i - 1), pods[i - 1], steps[i - 1])
  }

  ghost predicate RunSoFar(w: World, m: Index, pods: seq<Pod>, given: map<Key, seq<string>>, steps: seq<Step>) {
    && |steps| <= |pods|
    && forall i :: 0 <= i < |steps| ==> LegalStep(w, IndexAt(m, pods, steps, i), pods, given, pods[i], steps[i])
  }

  ghost predicate IsRun(w: World, m: Index, pods: seq<Pod>, given: map<Key, seq<string>>, steps: seq<Step>) {
    |steps| == |pods| && RunSoFar(w, m, pods, given, steps)
  }

  /** The assignment map the call returns. */
  function Assignments(pods: seq<Pod>, steps: seq<Step>, i: nat): map<string, string>
    requires i <= |pods| && i <= |steps|
  {
    if i == 0 then map[]
    else Recorded(Assignments(pods, steps, i - 1), pods[i - 1], steps[i - 1].outcome)
  }

  function Recorded(plan: map<string, string>, pod: Pod, o: Outcome): map<string, string> {
    if o.Kept? || o.Placed? then plan[pod.name := o.node] else plan
  }

  /** The pods reported as not planned. */
  function FailedPods(pods: seq<Pod>, steps: seq<Step>, i: nat): seq<Pod>
    requires i <= |pods| && i <= |steps|
  {
    if i == 0 then []
    else FailedPods(pods, steps, i - 1) + if steps[i - 1].outcome.Unplaced? then [pods[i - 1]] else []
  }

  /** What the API guarantees about one listing: one namespace, names not repeated. */
  ghost predicate Listing(pods: seq<Pod>) {
    && (forall i, j :: 0 <= i < j < |pods| ==> pods[i].name != pods[j].name)
    && (forall i, j :: 0 <= i < |pods| && 0 <= j < |pods| ==> pods[i].namespace == pods[j].namespace)
  }

  ghost predicate UniqueNodes(w: World) {
    forall i, j :: 0 <= i < j < |w.nodes| ==> w.nodes[i].name != w.nodes[j].name
  }

  /** A pod leaves the index when it starts running or starts terminating. */
  predicate Releases(before: Pod, after: Pod) {
    || (before.phase != Running && after.phase == Running)
    || (!before.terminating && after.terminating)
  }

  function Updated(m: Index, before: Pod, after: Pod): Index {
    if Releases(before, after) then m - {after.Id()} else m
  }

  /** The event that also takes the pod out of the stored plan; a pod that starts running and
      terminating at once only leaves the index. */
  predicate Terminates(before: Pod, after: Pod) {
    (before.phase == Running || after.phase != Running) && !before.terminating && after.terminating
  }

  /** The store and the retry queue after taking out a terminated pod. */
  function Forgotten(hash: (string, string) -> nat, pod: Pod, s: PlanStore.Server, queue: seq<PlanStore.Deletion>,
      lost: bool, fate: PlanStore.Fate): (PlanStore.Server, seq<PlanStore.Deletion>) {
    if StorageKey.PodSet(pod) == "" then (s, queue)
    else
      var d := PlanStore.Deletion(StorageKey.PlanKey(hash, pod), pod.name);
      var (t, again) := PlanStore.Removed(s, d, lost, fate);
      (t, if again then queue + [d] else queue)
  }

  function Retried(s: PlanStore.Server, queue: seq<PlanStore.Deletion>, lost: bool, fate: PlanStore.Fate)
    : (PlanStore.Server, seq<PlanStore.Deletion>)
  {
    if queue == [] then (s, queue)
    else
      var (t, again) := PlanStore.Removed(s, queue[0], lost, fate);
      (t, if again then queue[1..] + [queue[0]] else queue[1..])
  }

  /** Once the update handler is through with a terminated pod of a pod set, the stored plan has no
      entry of it, or its deletion is queued, or the plan could not be read. */
  lemma {:induction false} TerminatedPodIsForgotten(hash: (string, string) -> nat, pod: Pod, s: PlanStore.Server,
      queue: seq<PlanStore.Deletion>, lost: bool, fate: PlanStore.Fate)
    requires PlanStore.GoodServer(s) && StorageKey.PodSet(pod) != ""
    ensures var d := PlanStore.Deletion(StorageKey.PlanKey(hash, pod), pod.name);
      var (t, queue') := Forgotten(hash, pod, s, queue, lost, fate);
      var c := PlanStore.Contents(t);
      && (queue' == queue + [d] || (queue' == queue && (lost || d.key !in c || d.pod !in c[d.key])))
      && (forall k, p: string :: p != d.pod || k != d.key ==>
            (k in c && p in c[k] <==> k in PlanStore.Contents(s) && p in PlanStore.Contents(s)[k]))
  {
    PlanStore.RemovedIsGone(s, PlanStore.Deletion(StorageKey.PlanKey(hash, pod), pod.name), lost, fate);
    hide PlanStore.Removed, PlanStore.Contents, PlanStore.GoodServer;
  }

  // ----- The planner object -----

  predicate NoRepeats(nodes: seq<Node>) {
    forall i, j :: 0 <= i < j < |nodes| ==> nodes[i] != nodes[j]
  }

  function Positions(n: nat): (r: set<int>)
    ensures forall i :: i in r <==> 0 <= i < n
    ensures |r| == n
  {
    if n == 0 then {} else Positions(n - 1) + {n - 1}
  }

  class PodSetPlanner {
    const client: PlanStore.SchedulePlannerClient
    const hash: (string, string) -> nat
    var podToNodeMap: Index
    var updateQueue: seq<PlanStore.Deletion>

    constructor (client: PlanStore.SchedulePlannerClient, hash: (string, string) -> nat)
      ensures this.client == client && this.hash == hash && podToNodeMap == map[] && updateQueue == []
    {
      this.client, this.hash, podToNodeMap, updateQueue := client, hash, map[], [];
    }

    /** The informer's update handler. A pod that starts running leaves the index and stays in the
        stored plan; one that starts terminating leaves both. */
    method HandlePodUpdate(before: Pod, after: Pod, lost: bool, fate: PlanStore.Fate)
      modifies this, client
      ensures podToNodeMap == Updated(old(podToNodeMap), before, after)
      ensures (client.Remote(), updateQueue) ==
        if Terminates(before, after) then Forgotten(hash, after, old(client.Remote()), old(updateQueue), lost, fate)
        else (old(client.Remote()), old(updateQueue))
    {
      if before.phase != Running && after.phase == Running {
        podToNodeMap := podToNodeMap - {after.Id()};
      } else if !before.terminating && after.terminating {
        podToNodeMap := podToNodeMap - {after.Id()};
        RemovePodFromPlanner(after, lost, fate);
      }
    }

    method RemovePodFromPlanner(pod: Pod, lost: bool, fate: PlanStore.Fate)
      modifies this`updateQueue, client
      ensures (client.Remote(), updateQueue) ==
        Forgotten(hash, pod, old(client.Remote()), old(updateQueue), lost, fate)
    {
      if StorageKey.PodSet(pod) == "" {
        return;
      }
      var key := StorageKey.PlanKey(hash, pod);
      var _, retry := client.Delete(key, pod.name, lost, fate);
      if retry {
        updateQueue := updateQueue + [PlanStore.Deletion(key, pod.name)];
      }
    }

    /** One turn of the retry worker: a deletion that fails again goes back to the queue. */
    method ProcessUpdate(lost: bool, fate: PlanStore.Fate)
      modifies this`updateQueue, client
      ensures (client.Remote(), updateQueue) == Retried(old(client.Remote()), old(updateQueue), lost, fate)
    {
      if updateQueue == [] {
        return;
      }
      var item := updateQueue[0];
      updateQueue := updateQueue[1..];
      var _, retry := client.Delete(item.key, item.pod, lost, fate);
      if retry {
        updateQueue := updateQueue + [item];
      }
    }

    /** Looks the pod up in the index, or its host address among the eligible nodes. */
    method GetNodeName(w: World, pod: Pod) returns (node: Option<string>)
      ensures node == NodeOf(w, podToNodeMap, pod)
    {
      if pod.hostIP == "" {
        if pod.Id() in podToNodeMap {
          return Some(podToNodeMap[pod.Id()]);
        }
        return None;
      }
      var nodes := GetEligibleNodes(w);
      for i := 0 to |nodes|
        invariant NodeAt(nodes, pod.hostIP) == NodeAt(nodes[i..], pod.hostIP)
      {
        for j := 0 to |nodes[i].addresses|
          invariant pod.hostIP !in nodes[i].addresses[..j]
        {
          if nodes[i].addresses[j] == pod.hostIP {
            assert pod.hostIP in nodes[i..][0].addresses;
            return Some(nodes[i].name);
          }
        }
        assert nodes[i].addresses[..|nodes[i].addresses|] == nodes[i].addresses;
        assert nodes[i..][1..] == nodes[i + 1..];
      }
      node := None;
    }

    /** `podSetHandlerImpl.List`: the pods of the set that are assigned to the node. */
    method List(w: World, pods: seq<Pod>, node: string) returns (r: seq<Pod>)
      ensures r == Assigned(w, podToNodeMap, pods, node)
    {
      r := [];
      for i := 0 to |pods|
        invariant r == Assigned(w, podToNodeMap, pods[..i], node)
      {
        assert pods[..i + 1][..i] == pods[..i];
        var name := GetNodeName(w, pods[i]);
        if name == Some(node) {
          r := r + [pods[i]];
        }
      }
      assert pods[..|pods|] == pods;
    }

    /** Runs the filters on every node, in whatever order the workers come to them; `calm` is
        false if the pass was cut short. */
    method FindNodesThatPassFilters(w: World, pods: seq<Pod>, pod: Pod, nodes: seq<Node>)
      returns (passed: seq<Node>, calm: bool)
      ensures forall n :: n in passed ==> n in nodes && Fits(w, podToNodeMap, pods, pod, n)
      ensures calm ==> forall n :: n in nodes && Fits(w, podToNodeMap, pods, pod, n) ==> n in passed
      ensures NoRepeats(nodes) ==> NoRepeats(passed)
    {
      passed, calm := [], true;
      var todo := Positions(|nodes|);
      ghost var all := todo;
      while todo != {}
        invariant todo <= all
        invariant forall n :: n in passed ==> n in nodes && Fits(w, podToNodeMap, pods, pod, n)
        invariant NoRepeats(nodes) ==> NoRepeats(passed) && forall i :: i in todo ==> nodes[i] !in passed
        invariant calm ==> forall i :: 0 <= i < |nodes| && i !in todo && Fits(w, podToNodeMap, pods, pod, nodes[i]) ==>
          nodes[i] in passed
      {
        var i :| i in todo;
        if * {
          calm := false;
        } else {
          var placed := List(w, pods, nodes[i].name);
          var ok := RunFilterPredicates(w, pod, nodes[i], placed);
          if ok {
            passed := passed + [nodes[i]];
          }
        }
        todo := todo - {i};
      }
    }

    /** Scores the candidates; a cut-short pass may miss some. */
    method RunScorePredicates(w: World, pods: seq<Pod>, pod: Pod, nodes: seq<Node>)
      returns (scores: seq<NodeScore>, calm: bool)
      ensures forall s :: s in scores ==>
        exists n :: n in nodes && s == NodeScore(n.name, Score(w, podToNodeMap, pods, pod, n))
      ensures calm ==> forall n :: n in nodes ==> NodeScore(n.name, Score(w, podToNodeMap, pods, pod, n)) in scores
      ensures |scores| <= |nodes| && (calm ==> |scores| == |nodes|)
    {
      scores, calm := [], true;
      var todo := Positions(|nodes|);
      ghost var all := todo;
      while todo != {}
        invariant todo <= all && |scores| + |todo| <= |nodes|
        invariant calm ==> |scores| + |todo| == |nodes|
        invariant forall s :: s in scores ==>
          exists n :: n in nodes && s == NodeScore(n.name, Score(w, podToNodeMap, pods, pod, n))
        invariant calm ==> forall i :: 0 <= i < |nodes| && i !in todo ==>
          NodeScore(nodes[i].name, Score(w, podToNodeMap, pods, pod, nodes[i])) in scores
      {
        var i :| i in todo;
        if * {
          calm := false;
        } else {
          var placed := List(w, pods, nodes[i].name);
          var sum := SumScores(w.scorers, pod, nodes[i], placed);
          scores := scores + [NodeScore(nodes[i].name, sum)];
        }
        todo := todo - {i};
      }
    }

    /** Picks the best of the named nodes and records it in the index. */
    method FindFit(w: World, pods: seq<Pod>, pod: Pod, nodes: seq<Node>, names: seq<string>)
      returns (r: Option<string>, calm: bool)
      requires UniqueNodes(w) && nodes == EligibleNodes(w)
      modifies this`podToNodeMap
      ensures r.None? ==> podToNodeMap == old(podToNodeMap) && (calm ==> !Usable(w, names))
      ensures r.Some? ==> podToNodeMap == old(podToNodeMap)[pod.Id() := r.value]
      ensures r.Some? ==> Usable(w, names) && exists node: Node ::
        BestNamed(w, old(podToNodeMap), pods, pod, names, node, calm) && node.name == r.value
    {
      r, calm := None, true;
      if names == [] {
        return;
      }
      var byName: map<string, Node> := map[];
      for i := 0 to |nodes|
        invariant forall name :: name in byName ==> byName[name] in nodes && byName[name].name == name
        invariant forall n :: n in nodes[..i] ==> n.name in byName
      {
        byName := byName[nodes[i].name := nodes[i]];
      }
      assert nodes[..|nodes|] == nodes;
      var candidates: seq<Node> := [];
      for i := 0 to |names|
        invariant |candidates| == i
        invariant forall k :: 0 <= k < i ==> candidates[k] in nodes && candidates[k].name == names[k]
      {
        if names[i] !in byName {
          assert names[i] in names;
          return;
        }
        candidates := candidates + [byName[names[i]]];
      }
      assert Usable(w, names);
      var scores;
      scores, calm := RunScorePredicates(w, pods, pod, candidates);
      var selected;
      ghost var draws;
      selected, draws := SelectNode(scores);
      if scores == [] {
        assert candidates[0] in candidates;
        return;
      }
      ghost var pick := Pick(scores, draws);
      PickIsBest(scores, draws);
      assert scores[pick] in scores;
      ghost var node :| node in candidates
        && scores[pick] == NodeScore(node.name, Score(w, podToNodeMap, pods, pod, node));
      assert node.name in names && node in nodes;
      SameNameSameNode(w);
      assert BestNamed(w, podToNodeMap, pods, pod, names, node, calm) by {
        if calm {
          forall other | other in nodes && other.name in names
            ensures Score(w, podToNodeMap, pods, pod, other) <= Score(w, podToNodeMap, pods, pod, node)
          {
            var k :| 0 <= k < |names| && names[k] == other.name;
            assert candidates[k] == other && other in candidates;
            var i :| 0 <= i < |scores| && scores[i] == NodeScore(other.name, Score(w, podToNodeMap, pods, pod, other));
          }
        }
      }
      assert selected.value == node.name && node.name in byName;
      if selected.value !in byName {
        assert false;
      }
      podToNodeMap := podToNodeMap[pod.Id() := byName[selected.value].name];
      r := Some(byName[selected.value].name);
    }

    /** The body of the planning loop for one pod: skip it, keep its node, or find one. */
    method PlanPod(w: World, pods: seq<Pod>, pod: Pod, nodes: seq<Node>, ghost given: map<Key, seq<string>>,
                   schedulingMap: map<Key, seq<string>>)
      returns (outcome: Outcome, calm: bool, schedulingMap': map<Key, seq<string>>)
      requires UniqueNodes(w) && nodes == EligibleNodes(w)
      requires pod.Id() in schedulingMap <==> pod.Id() in given
      requires pod.Id() in given ==> schedulingMap[pod.Id()] == given[pod.Id()]
      modifies this`podToNodeMap
      ensures LegalStep(w, old(podToNodeMap), pods, given, pod, Step(outcome, calm))
      ensures podToNodeMap == After(old(podToNodeMap), pod, Step(outcome, calm))
      ensures schedulingMap' == schedulingMap
        || (pod.Id() !in given && AddsKey(schedulingMap, schedulingMap', pod.Id()))
    {
      schedulingMap', calm := schedulingMap, true;
      if pod.phase == Failed || pod.terminating {
        return Skipped, true, schedulingMap;
      }
      var node := GetNodeName(w, pod);
      if node.Some? {
        return Kept(node.value), true, schedulingMap;
      }
      var names: seq<string>;
      if pod.Id() in schedulingMap {
        names := schedulingMap[pod.Id()];
      } else {
        var passed;
        passed, calm := FindNodesThatPassFilters(w, pods, pod, nodes);
        if passed == [] {
          return Unplaced, calm, schedulingMap;
        }
        names := seq(|passed|, k requires 0 <= k < |passed| => passed[k].name);
        schedulingMap' := schedulingMap[pod.Id() := names];
        PassedNames(w, podToNodeMap, pods, pod, passed, names, calm);
      }
      var selected, calm' := FindFit(w, pods, pod, nodes, names);
      outcome := if selected.None? then Unplaced else Placed(selected.value);
      calm := calm && calm';
    }

    /** The greedy loop over the pod list. `given` holds the node list of the pod being scheduled. */
    method BuildPlan(w: World, pods: seq<Pod>, given: map<Key, seq<string>>)
      returns (assignmentMap: map<string, string>, failed: seq<Pod>, ghost steps: seq<Step>)
      requires Listing(pods) && UniqueNodes(w)
      modifies this`podToNodeMap
      ensures IsRun(w, old(podToNodeMap), pods, given, steps)
      ensures podToNodeMap == IndexAt(old(podToNodeMap), pods, steps, |pods|)
      ensures assignmentMap == Assignments(pods, steps, |pods|)
      ensures failed == FailedPods(pods, steps, |pods|)
    {
      assignmentMap, failed, steps := map[], [], [];
      var nodes := GetEligibleNodes(w);
      var schedulingMap := given;
      ghost var m := podToNodeMap;
      assert PlannedSoFar(w, m, pods, given, steps, podToNodeMap, assignmentMap, failed, schedulingMap);
      hide LegalStep, PlannedSoFar, Listing, UniqueNodes, EligibleNodes, Recorded, After, AddsKey;
      for i := 0 to |pods|
        invariant |steps| == i
        invariant PlannedSoFar(w, m, pods, given, steps, podToNodeMap, assignmentMap, failed, schedulingMap)
      {
        var outcome, calm;
        ghost var was, index := schedulingMap, podToNodeMap;
        GivenNow(w, m, pods, given, steps, index, assignmentMap, failed, schedulingMap);
        outcome, calm, schedulingMap := PlanPod(w, pods, pods[i], nodes, given, schedulingMap);
        PlanGrows(w, m, pods, given, steps, index, assignmentMap, failed, was, Step(outcome, calm), schedulingMap);
        assignmentMap := Recorded(assignmentMap, pods[i], outcome);
        failed := failed + if outcome.Unplaced? then [pods[i]] else [];
        steps := steps + [Step(outcome, calm)];
      }
      PlanIsDone(w, m, pods, given, steps, podToNodeMap, assignmentMap, failed, schedulingMap);
    }

    /** Lists the pod set, moves the pod being scheduled to the front and plans the list. A
        failed listing ends the call before anything changes. */
    method BuildSchedulePlan(w: World, listing: Option<seq<Pod>>, scheduledPod: string, eligibleNodes: seq<string>)
      returns (r: Option<map<string, string>>, ghost steps: seq<Step>)
      requires listing.Some? ==> Listing(listing.value)
      requires UniqueNodes(w)
      modifies this`podToNodeMap
      ensures r.Some? <==> listing.Some?
      ensures r.None? ==> podToNodeMap == old(podToNodeMap)
      ensures r.Some? ==> IsCall(w, old(podToNodeMap), listing.value, scheduledPod, eligibleNodes, steps)
      ensures r.Some? ==>
        var pods := Arranged(listing.value, scheduledPod);
        podToNodeMap == IndexAt(old(podToNodeMap), pods, steps, |pods|) && r.value == Assignments(pods, steps, |pods|)
    {
      if listing.None? {
        return None, [];
      }
      var items := listing.value;
      var podList: seq<Pod>, schedulingMap: map<Key, seq<string>>, index := [], map[], 0;
      for i := 0 to |items|
        invariant podList == items[..i]
        invariant index == FrontIndex(items[..i], scheduledPod)
        invariant schedulingMap == Given(items[..i], scheduledPod, eligibleNodes)
      {
        assert items[..i + 1][..i] == items[..i];
        podList := podList + [items[i]];
        if items[i].name == scheduledPod {
          index := i;
          schedulingMap := schedulingMap[items[i].Id() := eligibleNodes];
        }
      }
      assert items[..|items|] == items;
      if index > 0 {
        podList := podList[0 := podList[index]][index := podList[0]];
      }
      ArrangedIsListing(items, scheduledPod);
      var plan, failed;
      plan, failed, steps := BuildPlan(w, podList, schedulingMap);
      r := Some(plan);
    }
  }

  /** Position of the pod being scheduled, 0 if it is not listed. */
  function FrontIndex(items: seq<Pod>, scheduled: string): (r: nat)
    ensures items != [] ==> r < |items|
    ensures (exists i :: 0 <= i < |items| && items[i].name == scheduled) ==> r < |items| && items[r].name == scheduled
  {
    if items == [] then 0
    else if items[|items| - 1].name == scheduled then |items| - 1
    else FrontIndex(items[..|items| - 1], scheduled)
  }

  function Arranged(items: seq<Pod>, scheduled: string): seq<Pod> {
    var k := FrontIndex(items, scheduled);
    if k > 0 then items[0 := items[k]][k := items[0]] else items
  }

  /** The node list that comes with the request belongs to the pod being scheduled. */
  function Given(items: seq<Pod>, scheduled: string, names: seq<string>): map<Key, seq<string>> {
    if items == [] then map[]
    else
      var prev := Given(items[..|items| - 1], scheduled, names);
      if items[|items| - 1].name == scheduled then prev[items[|items| - 1].Id() := names] else prev
  }

  lemma {:induction false} GivenOnlyScheduled(items: seq<Pod>, scheduled: string, names: seq<string>)
    ensures forall k :: k in Given(items, scheduled, names) ==>
      k.name == scheduled && Given(items, scheduled, names)[k] == names
    ensures forall p :: p in items && p.name == scheduled ==> p.Id() in Given(items, scheduled, names)
  {
    if items != [] {
      GivenOnlyScheduled(items[..|items| - 1], scheduled, names);
    }
  }

  lemma {:induction false} ArrangedIsListing(items: seq<Pod>, scheduled: string)
    ensures |Arranged(items, scheduled)| == |items|
    ensures multiset(Arranged(items, scheduled)) == multiset(items)
    ensures Listing(items) ==> Listing(Arranged(items, scheduled))
    ensures items != [] && (exists p :: p in items && p.name == scheduled) ==>
      Arranged(items, scheduled)[0].name == scheduled
  {
    var k := FrontIndex(items, scheduled);
    if k > 0 {
      SwapKeeps(items, k);
    }
    if p :| p in items && p.name == scheduled {
      var i :| 0 <= i < |items| && items[i] == p;
      assert items[i].name == scheduled;
    }
  }

  lemma {:induction false} SwapKeeps(items: seq<Pod>, k: nat)
    requires 0 < k < |items|
    ensures multiset(items[0 := items[k]][k := items[0]]) == multiset(items)
    ensures Listing(items) ==> Listing(items[0 := items[k]][k := items[0]])
  {
  }

  /** One whole request: the listing arranged, then planned. */
  ghost predicate IsCall(w: World, m: Index, items: seq<Pod>, scheduled: string, names: seq<string>, steps: seq<Step>) {
    IsRun(w, m, Arranged(items, scheduled), Given(items, scheduled, names), steps)
  }

  /** One finished run of the worker pool over the nodes, with the chunk size the parallelizer
      computes. */
  ghost predicate IsPass(nodes: seq<Node>, parallelism: int, j: Parallel.Job, states: seq<Parallel.Pool>,
      actions: seq<Parallel.Action>)
  {
    && j.pieces == |nodes| > 0 && j.chunk == Parallel.ChunkSize(|nodes|, Parallel.Parallelism(parallelism))
    && Parallel.IsRun(j, states, actions)
    && forall k :: 0 <= k < |states[|actions|].workers| ==> states[|actions|].workers[k] == Parallel.Gone
  }

  /** What `FindNodesThatPassFilters` promises is what the worker pool delivers: in every pass the
      collected nodes passed the filters, none is collected twice, and no passing node is missing
      unless the context was cancelled. */
  lemma {:induction false} WorkersDeliverFilterPass(
      w: World, m: Index, pods: seq<Pod>, pod: Pod, nodes: seq<Node>, parallelism: int,
      j: Parallel.Job, states: seq<Parallel.Pool>, actions: seq<Parallel.Action>, passed: seq<Node>)
    requires IsPass(nodes, parallelism, j, states, actions)
    requires forall i: nat :: j.accepts(i) <==> i < |nodes| && Fits(w, m, pods, pod, nodes[i])
    requires |passed| == |states[|actions|].found|
    requires forall k :: 0 <= k < |passed| ==>
      states[|actions|].found[k] < |nodes| && passed[k] == nodes[states[|actions|].found[k]]
    ensures forall n :: n in passed ==> n in nodes && Fits(w, m, pods, pod, n)
    ensures !states[|actions|].cancelled ==> forall n :: n in nodes && Fits(w, m, pods, pod, n) ==> n in passed
    ensures NoRepeats(nodes) ==> NoRepeats(passed)
  {
    hide Fits;
    var found := states[|actions|].found;
    Parallel.FoundPieces(j, states, actions);
    forall n | n in passed
      ensures n in nodes && Fits(w, m, pods, pod, n)
    {
      var k :| 0 <= k < |passed| && passed[k] == n;
      assert found[k] in found;
    }
    if !states[|actions|].cancelled {
      forall n | n in nodes && Fits(w, m, pods, pod, n)
        ensures n in passed
      {
        var i: nat :| i < |nodes| && nodes[i] == n;
        assert j.accepts(i);
        var k :| 0 <= k < |found| && found[k] == i;
        assert passed[k] == n;
      }
    }
  }

  /** The same for `RunScorePredicates`: every entry scores a given node, there are no more entries
      than nodes, and, unless the context was cancelled, as many, and one for every node. */
  lemma {:induction false} WorkersDeliverScorePass(
      w: World, m: Index, pods: seq<Pod>, pod: Pod, nodes: seq<Node>, parallelism: int,
      j: Parallel.Job, states: seq<Parallel.Pool>, actions: seq<Parallel.Action>, scores: seq<NodeScore>)
    requires IsPass(nodes, parallelism, j, states, actions)
    requires forall i: nat :: j.accepts(i) <==> i < |nodes|
    requires |scores| == |states[|actions|].found|
    requires forall k :: 0 <= k < |scores| ==>
      && states[|actions|].found[k] < |nodes|
      && var n := nodes[states[|actions|].found[k]];
         scores[k] == NodeScore(n.name, Score(w, m, pods, pod, n))
    ensures forall s :: s in scores ==> exists n :: n in nodes && s == NodeScore(n.name, Score(w, m, pods, pod, n))
    ensures !states[|actions|].cancelled ==>
      forall n :: n in nodes ==> NodeScore(n.name, Score(w, m, pods, pod, n)) in scores
    ensures |scores| <= |nodes| && (!states[|actions|].cancelled ==> |scores| == |nodes|)
  {
    hide Score;
    var found := states[|actions|].found;
    Parallel.FoundPieces(j, states, actions);
    Parallel.FoundCount(j, states, actions);
    forall s | s in scores
      ensures exists n :: n in nodes && s == NodeScore(n.name, Score(w, m, pods, pod, n))
    {
      var k :| 0 <= k < |scores| && scores[k] == s;
      assert nodes[found[k]] in nodes;
    }
    if !states[|actions|].cancelled {
      forall n | n in nodes
        ensures NodeScore(n.name, Score(w, m, pods, pod, n)) in scores
      {
        var i: nat :| i < |nodes| && nodes[i] == n;
        assert j.accepts(i);
        var k :| 0 <= k < |found| && found[k] == i;
        assert scores[k] == NodeScore(n.name, Score(w, m, pods, pod, n));
      }
    }
  }

  /** `node` is an eligible node of the list and, in a calm pass, one with the best score. */
  ghost predicate BestNamed(w: World, m: Index, pods: seq<Pod>, pod: Pod, names: seq<string>, node: Node, calm: bool) {
    && node in EligibleNodes(w) && node.name in names
    && (calm ==> forall other :: other in EligibleNodes(w) && other.name in names ==>
          Score(w, m, pods, pod, other) <= Score(w, m, pods, pod, node))
  }

  /** The names of the nodes that passed: usable, and naming exactly what passed. */
  lemma {:induction false} PassedNames(w: World, m: Index, pods: seq<Pod>, pod: Pod, passed: seq<Node>,
      names: seq<string>, calm: bool)
    requires UniqueNodes(w) && passed != [] && |names| == |passed|
    requires forall k :: 0 <= k < |passed| ==> names[k] == passed[k].name
    requires forall n :: n in passed ==> n in EligibleNodes(w) && Fits(w, m, pods, pod, n)
    requires calm ==> forall n :: n in EligibleNodes(w) && Fits(w, m, pods, pod, n) ==> n in passed
    ensures Usable(w, names)
    ensures forall n :: n in EligibleNodes(w) && n.name in names ==> Fits(w, m, pods, pod, n)
    ensures calm ==> forall n :: n in EligibleNodes(w) && Fits(w, m, pods, pod, n) ==> n.name in names
  {
    SameNameSameNode(w);
    forall name | name in names
      ensures exists n :: n in EligibleNodes(w) && n.name == name && n in passed
    {
      var k :| 0 <= k < |names| && names[k] == name;
      assert passed[k] in passed;
    }
    forall n | n in passed
      ensures n.name in names
    {
      var k :| 0 <= k < |passed| && passed[k] == n;
      assert names[k] == n.name;
    }
  }

  /** `b` is `a` with an entry for the key. */
  ghost predicate AddsKey(a: map<Key, seq<string>>, b: map<Key, seq<string>>, key: Key) {
    b.Keys == a.Keys + {key} && forall k :: k in a ==> b[k] == a[k]
  }

  /** For the pods still to come, the scheduling map holds the given lists and no others. */
  ghost predicate GivenFrom(pods: seq<Pod>, given: map<Key, seq<string>>, schedulingMap: map<Key, seq<string>>,
      i: nat) {
    && (forall j :: i <= j < |pods| ==> (pods[j].Id() in schedulingMap <==> pods[j].Id() in given))
    && (forall k :: k in given ==> k in schedulingMap && schedulingMap[k] == given[k])
  }

  /** What the planning loop keeps: its variables are those of the run so far. */
  ghost predicate PlannedSoFar(w: World, m: Index, pods: seq<Pod>, given: map<Key, seq<string>>, steps: seq<Step>,
      index: Index, plan: map<string, string>, failed: seq<Pod>, schedulingMap: map<Key, seq<string>>)
  {
    && RunSoFar(w, m, pods, given, steps)
    && index == IndexAt(m, pods, steps, |steps|)
    && plan == Assignments(pods, steps, |steps|)
    && failed == FailedPods(pods, steps, |steps|)
    && GivenFrom(pods, given, schedulingMap, |steps|)
  }

  lemma {:induction false} GivenNow(w: World, m: Index, pods: seq<Pod>, given: map<Key, seq<string>>,
      steps: seq<Step>, index: Index, plan: map<string, string>, failed: seq<Pod>,
      schedulingMap: map<Key, seq<string>>)
    requires |steps| < |pods| && PlannedSoFar(w, m, pods, given, steps, index, plan, failed, schedulingMap)
    ensures var k := pods[|steps|].Id();
      (k in schedulingMap <==> k in given) && (k in given ==> schedulingMap[k] == given[k])
  {
  }

  lemma {:induction false} PlanGrows(w: World, m: Index, pods: seq<Pod>, given: map<Key, seq<string>>,
      steps: seq<Step>, index: Index, plan: map<string, string>, failed: seq<Pod>,
      schedulingMap: map<Key, seq<string>>, step: Step, next: map<Key, seq<string>>)
    requires |steps| < |pods| && PlannedSoFar(w, m, pods, given, steps, index, plan, failed, schedulingMap)
    requires Listing(pods) && LegalStep(w, index, pods, given, pods[|steps|], step)
    requires next == schedulingMap
      || (pods[|steps|].Id() !in given && AddsKey(schedulingMap, next, pods[|steps|].Id()))
    ensures PlannedSoFar(w, m, pods, given, steps + [step], After(index, pods[|steps|], step),
      Recorded(plan, pods[|steps|], step.outcome),
      failed + if step.outcome.Unplaced? then [pods[|steps|]] else [], next)
  {
    hide LegalStep, RunSoFar, After, Recorded, GivenFrom, Listing, AddsKey, IndexAt, Assignments, FailedPods;
    SchedulingMapGrows(pods, given, schedulingMap, next, |steps|);
    RunGrows(w, m, pods, given, steps, step);
  }

  lemma {:induction false} PlanIsDone(w: World, m: Index, pods: seq<Pod>, given: map<Key, seq<string>>,
      steps: seq<Step>, index: Index, plan: map<string, string>, failed: seq<Pod>,
      schedulingMap: map<Key, seq<string>>)
    requires |steps| == |pods| && PlannedSoFar(w, m, pods, given, steps, index, plan, failed, schedulingMap)
    ensures IsRun(w, m, pods, given, steps) && index == IndexAt(m, pods, steps, |pods|)
    ensures plan == Assignments(pods, steps, |pods|) && failed == FailedPods(pods, steps, |pods|)
  {
  }

  lemma {:induction false} SchedulingMapGrows(pods: seq<Pod>, given: map<Key, seq<string>>,
      a: map<Key, seq<string>>, b: map<Key, seq<string>>, i: nat)
    requires Listing(pods) && i < |pods| && GivenFrom(pods, given, a, i)
    requires a == b || AddsKey(a, b, pods[i].Id())
    ensures GivenFrom(pods, given, b, i + 1)
  {
  }

  /** The results of the first `i` steps depend on nothing later. */
  lemma {:induction false} PrefixDecides(m: Index, pods: seq<Pod>, steps: seq<Step>, step: Step, i: nat)
    requires i <= |steps| && i <= |pods|
    ensures IndexAt(m, pods, steps, i) == IndexAt(m, pods, steps + [step], i)
    ensures Assignments(pods, steps, i) == Assignments(pods, steps + [step], i)
    ensures FailedPods(pods, steps, i) == FailedPods(pods, steps + [step], i)
  {
    if i > 0 {
      PrefixDecides(m, pods, steps, step, i - 1);
    }
  }

  lemma {:induction false} RunGrows(w: World, m: Index, pods: seq<Pod>, given: map<Key, seq<string>>,
      steps: seq<Step>, step: Step)
    requires |steps| < |pods| && RunSoFar(w, m, pods, given, steps)
    requires LegalStep(w, IndexAt(m, pods, steps, |steps|), pods, given, pods[|steps|], step)
    ensures RunSoFar(w, m, pods, given, steps + [step])
    ensures IndexAt(m, pods, steps + [step], |steps| + 1) ==
      After(IndexAt(m, pods, steps, |steps|), pods[|steps|], step)
    ensures Assignments(pods, steps + [step], |steps| + 1) ==
      Recorded(Assignments(pods, steps, |steps|), pods[|steps|], step.outcome)
    ensures FailedPods(pods, steps + [step], |steps| + 1) ==
      FailedPods(pods, steps, |steps|) + if step.outcome.Unplaced? then [pods[|steps|]] else []
  {
    hide LegalStep, After, Recorded;
    forall k | 0 <= k <= |steps|
      ensures LegalStep(w, IndexAt(m, pods, steps + [step], k), pods, given, pods[k], (steps + [step])[k])
    {
      PrefixDecides(m, pods, steps, step, k);
    }
    PrefixDecides(m, pods, steps, step, |steps|);
  }

  lemma {:induction false} UntaintedAreListed(nodes: seq<Node>, n: Node)
    ensures n in Untainted(nodes) || n in SoftlyTainted(nodes) ==> n in nodes
  {
    if nodes != [] {
      UntaintedAreListed(nodes[..|nodes| - 1], n);
    }
  }

  lemma {:induction false} SameNameSameNode(w: World)
    requires UniqueNodes(w)
    ensures forall a, b :: a in EligibleNodes(w) && b in EligibleNodes(w) && a.name == b.name ==> a == b
  {
    forall a | a in EligibleNodes(w)
      ensures a in w.nodes
    {
      UntaintedAreListed(w.nodes, a);
    }
  }
}
