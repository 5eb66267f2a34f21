/** Concrete requests: the theorems about runs are not vacuous, and the planner is no better than
    they say. */
module PlannerExamples {
  import opened Cluster
  import opened Filters
  import opened Planner
  import opened PlannerRuns
  import opened PlannerHistory
  import opened PlannerTotality
  import DuplicateKeys

  // ----- A concrete cluster -----

  function Replica(name: string): Pod {
    Pod("default", name, Pending, false, "", map["planner.ciena.io/pod-set" := "web"],
        [Owner("ReplicaSet", "web")], [Container("nginx", map[])], [], None)
  }

  /** Two empty nodes and the duplicate filter. */
  function TwoNodes(): World {
    World([Node("n1", [], [], map[]), Node("n2", [], [], map[])], _ => [], [PodIsADuplicate],
      _ => true, (_, _) => false, (_, _) => true, (_, _) => true, _ => false, [])
  }

  function ThreeReplicas(): seq<Pod> {
    [Replica("a"), Replica("b"), Replica("c")]
  }

  lemma {:induction false} ThreeReplicasAreFresh()
    ensures Listing(ThreeReplicas()) && Coherent(TwoNodes(), ThreeReplicas())
    ensures FreshReplicas(TwoNodes(), map[], ThreeReplicas())
  {
    hide DuplicateKeys.ContainerKeys, EligibleNodes, Allows;
    var w, pods := TwoNodes(), ThreeReplicas();
    assert Listing(pods) by {
      assert "a"[0] != "b"[0] && "b"[0] != "c"[0] && "a"[0] != "c"[0];
    }
    forall p, q | p in pods && q in pods
      ensures DuplicateKeys.ContainerKeys(p) == DuplicateKeys.ContainerKeys(q)
    {
      SameKeys(p.name, q.name);
    }
    forall p, n: Node ensures Allows(w, p, n, w.podsOn(n.name)) { EmptyNodeAllows(p, n); }
  }

  lemma {:induction false} EmptyNodeAllows(p: Pod, n: Node)
    ensures Allows(TwoNodes(), p, n, [])
  {
    hide DuplicateKeys.ContainerKeys;
  }

  lemma {:induction false} SameKeys(a: string, b: string)
    ensures DuplicateKeys.ContainerKeys(Replica(a)) == DuplicateKeys.ContainerKeys(Replica(b))
  {
  }

  lemma {:induction false} TwoEligibleNames()
    ensures EligibleNames(TwoNodes()) == {"n1", "n2"} && |EligibleNames(TwoNodes())| == 2
    ensures Usable(TwoNodes(), ["n1"]) && Usable(TwoNodes(), ["n2"])
  {
    var w := TwoNodes();
    var a, b := w.nodes[0], w.nodes[1];
    assert w.nodes[..1] == [a] && [a][..0] == [];
    assert Untainted([a]) == [a];
    assert EligibleNodes(w) == [a, b];
    assert "n1"[1] != "n2"[1];
    assert a in EligibleNodes(w) && b in EligibleNodes(w);
  }

  /** Three replicas over two nodes: an undisturbed call exists, and it places two of them, on
      different nodes. */
  lemma {:induction false} ThreeReplicasOverTwoNodes() returns (steps: seq<Step>)
    ensures IsCall(TwoNodes(), map[], ThreeReplicas(), "b", ["n1"], steps)
    ensures PlacedCount(steps, |steps|) == 2 && Used(steps, |steps|) == {"n1", "n2"}
  {
    hide *;
    var w, pods := TwoNodes(), ThreeReplicas();
    ThreeReplicasAreFresh();
    TwoEligibleNames();
    FilterAndSize();
    steps := CalmCallExists(w, map[], pods, "b", ["n1"]);
    ExactSpread(w, map[], pods, "b", ["n1"], steps);
    SubsetSize(Used(steps, |steps|), EligibleNames(w));
  }

  lemma {:induction false} FilterAndSize()
    ensures PodIsADuplicate in TwoNodes().filters && |ThreeReplicas()| == 3
  {
  }

  // ----- A cached node that is not offered -----

  /** Two requests for one pod, each offering one node. */
  lemma {:induction false} SecondRequestKeepsOldNode() returns (ms: seq<Index>, es: seq<Event>)
    ensures |es| == 2 && IsHistory(ms, es) && es[0].Request? && es[1].Request?
    ensures es[0].names == ["n1"] && es[1].names == ["n2"]
    ensures forall i | 0 <= i < 2 :: |es[i].steps| == |Arranged(es[i].items, es[i].scheduled)|
    ensures Plan(es[0]) == Plan(es[1]) == map["a" := "n1"]
  {
    hide Plan, Next, Legal, Arranged;
    var first := OnePlanned(map[], "n1");
    var second := OnePlanned(first.1, "n2");
    ms, es := [map[], first.1, second.1], [first.0, second.0];
  }

  lemma {:induction false} OnePlanned(m: Index, name: string) returns (r: (Event, Index))
    requires name in {"n1", "n2"} && (Replica("a").Id() in m ==> m[Replica("a").Id()] == "n1")
    ensures r.0.Request? && Legal(m, r.0) && r.1 == Next(m, r.0)
    ensures r.0.items == [Replica("a")] && r.0.scheduled == "a" && r.0.names == [name]
    ensures |r.0.steps| == |Arranged(r.0.items, r.0.scheduled)|
    ensures var node := if Replica("a").Id() in m then "n1" else name;
      Plan(r.0) == map["a" := node] && Replica("a").Id() in r.1 && r.1[Replica("a").Id()] == node
  {
    var w, pod := TwoNodes(), Replica("a");
    var items := [pod];
    var steps := CalmCallExists(w, m, items, "a", [name]);
    var e := Request(w, items, "a", [name], steps);
    OneItem(pod, [name]);
    TwoEligibleNames();
    assert LegalStep(w, IndexAt(m, items, steps, 0), items, Given(items, "a", [name]), pod, steps[0]);
    var node := if pod.Id() in m then "n1" else name;
    assert steps[0].outcome == if pod.Id() in m then Kept(node) else Placed(node) by {
      hide EligibleNodes;
    }
    hide LegalStep, EligibleNodes, Legal, TwoNodes;
    assert Listing(items);
    assert Plan(e) == Recorded(Assignments(items, steps, 0), pod, steps[0].outcome);
    assert Next(m, e) == After(IndexAt(m, items, steps, 0), pod, steps[0]);
    r := (e, Next(m, e));
  }

  lemma {:induction false} OneItem(pod: Pod, names: seq<string>)
    ensures Arranged([pod], pod.name) == [pod] && Given([pod], pod.name, names) == map[pod.Id() := names]
  {
    assert [pod][..0] == [];
  }

  // ----- What pairwise safety does not cover -----

  /** One empty node; label selection and selector parsing are any. */
  function OneNode(parses: string -> bool, selects: (string, map<string, string>) -> bool): World {
    World([Node("n", [], [], map[])], _ => [], [PodAntiAffinity, PodIsADuplicate],
      parses, selects, (_, _) => true, (_, _) => true, _ => false, [])
  }

  /** Two pods, the first being scheduled, on a cluster of one node: if the filters let the second
      pod onto the node as they see it, both land there. */
  lemma {:induction false} BothOnOneNode(w: World, p: Pod, q: Pod, node: Node) returns (steps: seq<Step>)
    requires EligibleNodes(w) == [node] && Listing([p, q]) && !Ignored(p) && !Ignored(q)
    requires NodeOf(w, map[], p) == None && NodeOf(w, map[p.Id() := node.name], q) == None
    requires Fits(w, map[p.Id() := node.name], [p, q], q, node)
    ensures IsCall(w, map[], [p, q], p.name, [node.name], steps) && |steps| == 2
    ensures Arranged([p, q], p.name) == [p, q]
    ensures steps[0].outcome == Placed(node.name) == steps[1].outcome
  {
    steps := CalmCallExists(w, map[], [p, q], p.name, [node.name]);
    TwoItems(p, q, [node.name]);
    hide Fits, NodeOf, EligibleNodes;
    var given := map[p.Id() := [node.name]];
    assert LegalStep(w, IndexAt(map[], [p, q], steps, 0), [p, q], given, p, steps[0]);
    assert node in EligibleNodes(w);
    assert Usable(w, [node.name]);
    assert IndexAt(map[], [p, q], steps, 1) == map[p.Id() := node.name];
    assert LegalStep(w, IndexAt(map[], [p, q], steps, 1), [p, q], given, q, steps[1]);
  }

  lemma {:induction false} TwoItems(p: Pod, q: Pod, names: seq<string>)
    requires p.name != q.name
    ensures Arranged([p, q], p.name) == [p, q] && Given([p, q], p.name, names) == map[p.Id() := names]
  {
    assert [p, q][..1] == [p];
    OneItem(p, names);
  }

  predicate Parse(parses: string -> bool, pod: Pod) {
    forall t :: t in AntiAffinityTerms(pod) ==> parses(t.selector)
  }

  lemma {:induction false} FitsOneNode(parses: string -> bool, selects: (string, map<string, string>) -> bool,
      m: Index, pods: seq<Pod>, q: Pod)
    requires Parse(parses, q)
    requires forall x :: x in pods && NodeOf(OneNode(parses, selects), m, x) == Some("n") ==>
      !CanRepel(OneNode(parses, selects), q, x) && DuplicateKeys.ContainerKeys(x) != DuplicateKeys.ContainerKeys(q)
    ensures Fits(OneNode(parses, selects), m, pods, q, OneNode(parses, selects).nodes[0])
  {
    hide DuplicateKeys.ContainerKeys, NodeOf, Repels, AntiAffinityTerms;
    var w := OneNode(parses, selects);
    forall x | x in Present(w, m, pods, w.nodes[0])
      ensures !CanRepel(w, q, x) && DuplicateKeys.ContainerKeys(x) != DuplicateKeys.ContainerKeys(q)
    {
      InMerged(w.podsOn("n"), Assigned(w, m, pods, "n"), x);
      InAssigned(w, m, pods, "n", x);
    }
    hide Present;
    assert AntiAffinityAllows(w, q, Present(w, m, pods, w.nodes[0]));
  }

  lemma {:induction false} OneEligible(parses: string -> bool, selects: (string, map<string, string>) -> bool)
    ensures EligibleNodes(OneNode(parses, selects)) == OneNode(parses, selects).nodes
  {
    assert OneNode(parses, selects).nodes[..0] == [];
  }

  /** Both pods are placed on the one node by a request that schedules `p`. */
  ghost predicate Together(w: World, p: Pod, q: Pod, steps: seq<Step>) {
    && IsCall(w, map[], [p, q], p.name, ["n"], steps) && |steps| == 2 && Arranged([p, q], p.name) == [p, q]
    && steps[0].outcome == Placed("n") == steps[1].outcome
  }

  /** A pod with the address of no eligible node is invisible: any pod joins it on the node,
      duplicates and pods that repel it included. */
  lemma {:induction false} HostedPodIsJoined(parses: string -> bool, selects: (string, map<string, string>) -> bool,
      p: Pod, q: Pod) returns (steps: seq<Step>)
    requires Listing([p, q]) && !Ignored(p) && !Ignored(q) && p.hostIP != "" && q.hostIP == "" && Parse(parses, q)
    ensures Together(OneNode(parses, selects), p, q, steps)
  {
    hide DuplicateKeys.ContainerKeys, Fits, EligibleNodes, IsCall, Arranged, Parse, CanRepel;
    var w := OneNode(parses, selects);
    OneEligible(parses, selects);
    assert NodeAt(w.nodes, p.hostIP) == None;
    assert [p, q][0].name != [p, q][1].name;
    FitsOneNode(parses, selects, map[p.Id() := "n"], [p, q], q);
    steps := BothOnOneNode(w, p, q, w.nodes[0]);
  }

  /** Two pods with different keys are placed together if `q` does not repel `p`, whatever `p`
      itself forbids. */
  lemma {:induction false} UnrepelledPodJoins(parses: string -> bool,
      selects: (string, map<string, string>) -> bool, p: Pod, q: Pod) returns (steps: seq<Step>)
    requires Listing([p, q]) && !Ignored(p) && !Ignored(q) && p.hostIP == q.hostIP == "" && Parse(parses, q)
    requires DuplicateKeys.ContainerKeys(p) != DuplicateKeys.ContainerKeys(q)
    requires !CanRepel(OneNode(parses, selects), q, p)
    ensures Together(OneNode(parses, selects), p, q, steps)
  {
    hide DuplicateKeys.ContainerKeys, Fits, EligibleNodes, IsCall, Arranged, Parse, CanRepel;
    var w := OneNode(parses, selects);
    OneEligible(parses, selects);
    assert [p, q][0].name != [p, q][1].name;
    FitsOneNode(parses, selects, map[p.Id() := "n"], [p, q], q);
    steps := BothOnOneNode(w, p, q, w.nodes[0]);
  }

  /** For every pair of pods with different keys: a request that schedules `p` can put them on one
      node although one repels the other exactly if `p` repels `q` and `q` does not repel `p`. */
  lemma {:induction false} RepellingPairMeetsIff(parses: string -> bool,
      selects: (string, map<string, string>) -> bool, p: Pod, q: Pod)
    requires Listing([p, q]) && !Ignored(p) && !Ignored(q) && p.hostIP == q.hostIP == "" && Parse(parses, q)
    requires DuplicateKeys.ContainerKeys(p) != DuplicateKeys.ContainerKeys(q)
    ensures var w := OneNode(parses, selects);
      (exists steps :: Together(w, p, q, steps) && (CanRepel(w, p, q) || CanRepel(w, q, p)))
      <==> CanRepel(w, p, q) && !CanRepel(w, q, p)
  {
    hide DuplicateKeys.ContainerKeys, Listing, Parse, CanRepel;
    var w := OneNode(parses, selects);
    if steps :| Together(w, p, q, steps) {
      SafeBothWaysIff(w, map[], [p, q], p.name, ["n"], steps, 0, 1);
    }
    if CanRepel(w, p, q) && !CanRepel(w, q, p) {
      var steps := UnrepelledPodJoins(parses, selects, p, q);
    }
  }

  function Hosted(name: string): Pod {
    Replica(name).(hostIP := "10.0.0.9")
  }

  /** A replica with a host address, and its duplicate on the same node. */
  lemma {:induction false} HostedDuplicate() returns (steps: seq<Step>)
    ensures Together(OneNode(_ => true, (_, _) => false), Hosted("a"), Replica("b"), steps)
    ensures DuplicateKeys.ContainerKeys(Hosted("a")) == DuplicateKeys.ContainerKeys(Replica("b"))
  {
    assert "a"[0] != "b"[0];
    steps := HostedPodIsJoined(_ => true, (_, _) => false, Hosted("a"), Replica("b"));
    hide Together, DuplicateKeys.Sort, DuplicateKeys.JoinAll;
  }

  /** The scheduled pod must not share a node with pods its term selects; the pod after it has no
      term and is placed next to it. */
  lemma {:induction false} OneSidedAntiAffinity() returns (steps: seq<Step>)
    ensures var w := OneNode(_ => true, (_, _) => true);
      Together(w, Repelling("a"), OwnedBy("b", "db"), steps) && CanRepel(w, Repelling("a"), OwnedBy("b", "db"))
  {
    var w, p, q := OneNode(_ => true, (_, _) => true), Repelling("a"), OwnedBy("b", "db");
    OtherOwner();
    hide DuplicateKeys.ContainerKeys;
    assert Term({}, "app") in AntiAffinityTerms(p) && Repels(w, p, Term({}, "app"), q);
    steps := UnrepelledPodJoins(_ => true, (_, _) => true, p, q);
  }

  lemma {:induction false} OtherOwner()
    ensures var p, q := Repelling("a"), OwnedBy("b", "db");
      p.name != q.name && DuplicateKeys.ContainerKeys(p) != DuplicateKeys.ContainerKeys(q)
  {
    hide DuplicateKeys.ContainerKeys, DuplicateKeys.SameImages;
    var p, q := Repelling("a"), OwnedBy("b", "db");
    assert "a"[0] != "b"[0] && "web"[0] != "db"[0];
    assert p.owners[0] != q.owners[0];
    assert DuplicateKeys.PlainPod(p) && DuplicateKeys.PlainPod(q);
    DuplicateKeys.OneOwnerEach(p, q);
  }

  function Repelling(name: string): Pod {
    Replica(name).(antiAffinity := Some(AntiAffinity([Term({}, "app")], [])))
  }

  function OwnedBy(name: string, owner: string): Pod {
    Replica(name).(owners := [Owner("ReplicaSet", owner)])
  }
}
