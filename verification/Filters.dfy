/** The filters that decide whether a pod may be planned onto a node, over the pods the node
    already hosts and the pods this pod set has already placed there. */
module Filters {
  import opened Cluster
  import DuplicateKeys
  import Resources

  datatype Filter = PodAntiAffinity | PodIsADuplicate | PodFitsNode

  /** One snapshot of the cluster, with the library decisions the program only asks for. */
  datatype World = World(
    nodes: seq<Node>,
    podsOn: string -> seq<Pod>,
    filters: seq<Filter>,
    parses: string -> bool,
    selects: (string, map<string, string>) -> bool,
    tolerates: (Pod, Node) -> bool,
    matchesNode: (Pod, Node) -> bool,
    isScalar: ResourceName -> bool,
    scorers: seq<Scorer>)

  /** A score predicate: a score for the pod on the node next to the pods planned there, or none. */
  type Scorer = (Pod, Node, seq<Pod>) -> Option<int>

  /** The sum of the scores in 64 bits; predicates without a score are passed over. */
  function ScoreSum(scorers: seq<Scorer>, pod: Pod, node: Node, placed: seq<Pod>): int {
    if scorers == [] then 0
    else
      var n := |scorers| - 1;
      var sum, score := ScoreSum(scorers[..n], pod, node, placed), scorers[n](pod, node, placed);
      if score.None? then sum else Resources.Add64(sum, score.value)
  }

  method SumScores(scorers: seq<Scorer>, pod: Pod, node: Node, placed: seq<Pod>) returns (sum: int)
    ensures sum == ScoreSum(scorers, pod, node, placed)
  {
    sum := 0;
    for i := 0 to |scorers|
      invariant sum == ScoreSum(scorers[..i], pod, node, placed)
    {
      assert scorers[..i + 1][..i] == scorers[..i];
      var score := scorers[i](pod, node, placed);
      if score.Some? {
        sum := Resources.Add64(sum, score.value);
      }
    }
    assert scorers[..|scorers|] == scorers;
  }

  /** Scores as a scorer gives them: 64-bit integers, or none. */
  ghost predicate SmallScores(scorers: seq<Scorer>, pod: Pod, node: Node, placed: seq<Pod>) {
    forall s :: s in scorers && s(pod, node, placed).Some? ==>
      -Resources.TWO_63 <= s(pod, node, placed).value < Resources.TWO_63
  }

  function Scored(s: Scorer, pod: Pod, node: Node, placed: seq<Pod>): int {
    if s(pod, node, placed).None? then 0 else s(pod, node, placed).value
  }

  /** The sum in unbounded integers. */
  function PlainSum(scorers: seq<Scorer>, pod: Pod, node: Node, placed: seq<Pod>): int {
    if scorers == [] then 0
    else PlainSum(scorers[..|scorers| - 1], pod, node, placed) + Scored(scorers[|scorers| - 1], pod, node, placed)
  }

  lemma {:induction false} SumWraps(scorers: seq<Scorer>, pod: Pod, node: Node, placed: seq<Pod>) returns (k: int)
    requires SmallScores(scorers, pod, node, placed)
    ensures -Resources.TWO_63 <= ScoreSum(scorers, pod, node, placed) < Resources.TWO_63
    ensures ScoreSum(scorers, pod, node, placed) == PlainSum(scorers, pod, node, placed) + k * Resources.TWO_64
  {
    k := 0;
    if scorers != [] {
      var n := |scorers| - 1;
      k := SumWraps(scorers[..n], pod, node, placed);
      assert scorers[n] in scorers;
      var sum := ScoreSum(scorers[..n], pod, node, placed) + Scored(scorers[n], pod, node, placed);
      k := if sum >= Resources.TWO_63 then k - 1 else if sum < -Resources.TWO_63 then k + 1 else k;
    }
  }

  /** One more predicate adds its score, or nothing, as long as nothing overflows. */
  lemma {:induction false} ScorerAddsItsScore(scorers: seq<Scorer>, s: Scorer, pod: Pod, node: Node, placed: seq<Pod>)
    ensures ScoreSum([], pod, node, placed) == 0
    ensures var sum, score := ScoreSum(scorers, pod, node, placed), s(pod, node, placed);
      && (score.None? ==> ScoreSum(scorers + [s], pod, node, placed) == sum)
      && (score.Some? && -0x8000_0000_0000_0000 <= sum + score.value < 0x8000_0000_0000_0000 ==>
            ScoreSum(scorers + [s], pod, node, placed) == sum + score.value)
  {
    assert (scorers + [s])[..|scorers|] == scorers;
  }

  lemma {:induction false} PlainSumSplits(a: seq<Scorer>, s: Scorer, b: seq<Scorer>, pod: Pod, node: Node,
      placed: seq<Pod>)
    ensures PlainSum(a + [s] + b, pod, node, placed) ==
      PlainSum(a + b, pod, node, placed) + Scored(s, pod, node, placed)
  {
    var l := a + [s] + b;
    if b == [] {
      assert l[..|l| - 1] == a + b && a + b == a;
    } else {
      var n := |b| - 1;
      PlainSumSplits(a, s, b[..n], pod, node, placed);
      assert l[..|l| - 1] == a + [s] + b[..n];
      assert (a + b)[..|a + b| - 1] == a + b[..n];
    }
  }

  lemma {:induction false} PlainSumPermutes(a: seq<Scorer>, b: seq<Scorer>, pod: Pod, node: Node, placed: seq<Pod>)
    requires multiset(a) == multiset(b)
    ensures PlainSum(a, pod, node, placed) == PlainSum(b, pod, node, placed)
  {
    assert |multiset(a)| == |a| && |multiset(b)| == |b|;
    if a != [] {
      var n := |a| - 1;
      assert a == a[..n] + [a[n]] && a[n] in multiset(b);
      var k :| 0 <= k < |b| && b[k] == a[n];
      var l, r := b[..k], b[k + 1..];
      assert b == l + [a[n]] + r;
      assert multiset(l + r) + multiset{a[n]} == multiset(b) == multiset(a[..n]) + multiset{a[n]};
      assert multiset(l + r) == multiset(a[..n]) by { RemoveSame(multiset(l + r), multiset(a[..n]), a[n]); }
      PlainSumPermutes(a[..n], l + r, pod, node, placed);
      PlainSumSplits(l, a[n], r, pod, node, placed);
    }
  }

  lemma {:induction false} RemoveSame(a: multiset<Scorer>, b: multiset<Scorer>, s: Scorer)
    requires a + multiset{s} == b + multiset{s}
    ensures a == b
  {
    assert a == a + multiset{s} - multiset{s} && b == b + multiset{s} - multiset{s};
  }

  /** The registry may yield the score predicates in any order. */
  lemma {:induction false} ScoreOrderIsIrrelevant(a: seq<Scorer>, b: seq<Scorer>, pod: Pod, node: Node,
      placed: seq<Pod>)
    requires multiset(a) == multiset(b) && SmallScores(a, pod, node, placed)
    ensures ScoreSum(a, pod, node, placed) == ScoreSum(b, pod, node, placed)
  {
    assert forall s :: s in b ==> s in multiset(a);
    var k := SumWraps(a, pod, node, placed);
    var l := SumWraps(b, pod, node, placed);
    PlainSumPermutes(a, b, pod, node, placed);
  }

  // ----- Merging the two sources of pods -----

  function Ids(pods: seq<Pod>): (r: set<Key>)
    ensures forall p :: p in pods ==> p.Id() in r
  {
    set p | p in pods :: p.Id()
  }

  function Unseen(seen: set<Key>, pods: seq<Pod>): seq<Pod> {
    if pods == [] then []
    else
      var n := |pods| - 1;
      Unseen(seen, pods[..n]) + if pods[n].Id() in seen then [] else [pods[n]]
  }

  function Merged(a: seq<Pod>, b: seq<Pod>): seq<Pod> {
    a + Unseen(Ids(a), b)
  }

  method MergePods(set1: seq<Pod>, set2: seq<Pod>) returns (res: seq<Pod>)
    ensures res == Merged(set1, set2)
  {
    res := [];
    var present: set<Key> := {};
    for i := 0 to |set1|
      invariant res == set1[..i]
      invariant present == Ids(set1[..i])
    {
      res := res + [set1[i]];
      present := present + {set1[i].Id()};
      assert set1[..i + 1] == set1[..i] + [set1[i]];
    }
    assert set1[..|set1|] == set1;
    for i := 0 to |set2|
      invariant res == set1 + Unseen(present, set2[..i])
    {
      assert set2[..i + 1][..i] == set2[..i];
      if set2[i].Id() !in present {
        res := res + [set2[i]];
      }
    }
    assert set2[..|set2|] == set2;
  }

  lemma {:induction false} InUnseen(seen: set<Key>, pods: seq<Pod>, p: Pod)
    ensures p in Unseen(seen, pods) <==> p in pods && p.Id() !in seen
  {
    if pods != [] {
      var n := |pods| - 1;
      InUnseen(seen, pods[..n], p);
      assert pods == pods[..n] + [pods[n]];
    }
  }

  /** A pod set pod is visible unless the node's own listing already has a pod of that name. */
  lemma {:induction false} InMerged(a: seq<Pod>, b: seq<Pod>, p: Pod)
    ensures p in Merged(a, b) <==> p in a || (p in b && p.Id() !in Ids(a))
  {
    InUnseen(Ids(a), b, p);
  }

  // ----- Anti-affinity -----

  function Unweighted(ts: seq<WeightedTerm>): seq<Term> {
    if ts == [] then [] else Unweighted(ts[..|ts| - 1]) + [ts[|ts| - 1].term]
  }

  /** Required terms, then preferred ones, which are honoured as if required. */
  function AntiAffinityTerms(pod: Pod): seq<Term> {
    match pod.antiAffinity
    case None => []
    case Some(a) => a.required + Unweighted(a.preferred)
  }

  method GetPodAntiAffinityTerms(a: AntiAffinity) returns (terms: seq<Term>)
    ensures terms == a.required + Unweighted(a.preferred)
  {
    var preferred: seq<Term> := [];
    for i := 0 to |a.preferred|
      invariant preferred == Unweighted(a.preferred[..i])
    {
      assert a.preferred[..i + 1][..i] == a.preferred[..i];
      preferred := preferred + [a.preferred[i].term];
    }
    assert a.preferred[..|a.preferred|] == a.preferred;
    terms := a.required + preferred;
  }

  /** A term without namespaces speaks about the pod's own. */
  function TermNamespaces(pod: Pod, term: Term): set<string> {
    if term.namespaces == {} then {pod.namespace} else term.namespaces
  }

  /** `term` of `pod` forbids `other` as a neighbour; pods are told apart by name only. */
  predicate Repels(w: World, pod: Pod, term: Term, other: Pod) {
    && other.name != pod.name
    && other.namespace in TermNamespaces(pod, term)
    && w.selects(term.selector, other.labels)
  }

  predicate AntiAffinityAllows(w: World, pod: Pod, present: seq<Pod>) {
    forall t :: t in AntiAffinityTerms(pod) ==>
      w.parses(t.selector) && forall q :: q in present ==> !Repels(w, pod, t, q)
  }

  method CheckAntiAffinity(w: World, pod: Pod, present: seq<Pod>) returns (ok: bool)
    ensures ok == AntiAffinityAllows(w, pod, present)
  {
    if pod.antiAffinity.None? {
      return true;
    }
    var terms := GetPodAntiAffinityTerms(pod.antiAffinity.value);
    for i := 0 to |terms|
      invariant forall t :: t in terms[..i] ==>
        w.parses(t.selector) && forall q :: q in present ==> !Repels(w, pod, t, q)
    {
      var term := terms[i];
      assert term in AntiAffinityTerms(pod);
      if !w.parses(term.selector) {
        return false;
      }
      for j := 0 to |present|
        invariant forall q :: q in present[..j] ==> !Repels(w, pod, term, q)
      {
        if Repels(w, pod, term, present[j]) {
          return false;
        }
      }
    }
    ok := true;
  }

  // ----- Duplicates -----

  predicate NoDuplicate(pod: Pod, present: seq<Pod>) {
    forall q :: q in present && !q.terminating ==>
      DuplicateKeys.ContainerKeys(q) != DuplicateKeys.ContainerKeys(pod)
  }

  method CheckDuplicates(pod: Pod, present: seq<Pod>) returns (ok: bool)
    ensures ok == NoDuplicate(pod, present)
  {
    var given := DuplicateKeys.GetPodContainerKeys(pod);
    for i := 0 to |present|
      invariant forall q :: q in present[..i] && !q.terminating ==>
        DuplicateKeys.ContainerKeys(q) != DuplicateKeys.ContainerKeys(pod)
    {
      if !present[i].terminating {
        var keys := DuplicateKeys.GetPodContainerKeys(present[i]);
        if keys == given {
          return false;
        }
      }
    }
    ok := true;
  }

  // ----- All filters -----

  predicate FitsNode(w: World, pod: Pod, node: Node) {
    && w.tolerates(pod, node)
    && w.matchesNode(pod, node)
    && Resources.ResourcesFit(Resources.Request(w.isScalar, pod), Resources.Allocatable(w.isScalar, node))
  }

  predicate FilterAllows(w: World, f: Filter, pod: Pod, node: Node, present: seq<Pod>) {
    match f
    case PodAntiAffinity => AntiAffinityAllows(w, pod, present)
    case PodIsADuplicate => NoDuplicate(pod, present)
    case PodFitsNode => FitsNode(w, pod, node)
  }

  predicate Allows(w: World, pod: Pod, node: Node, present: seq<Pod>) {
    forall f :: f in w.filters ==> FilterAllows(w, f, pod, node, present)
  }

  /** Runs the filters in list order and stops at the first failure. `placed` are the pod set
      pods planned onto the node. */
  method RunFilterPredicates(w: World, pod: Pod, node: Node, placed: seq<Pod>) returns (ok: bool)
    ensures ok == Allows(w, pod, node, Merged(w.podsOn(node.name), placed))
  {
    for i := 0 to |w.filters|
      invariant forall f :: f in w.filters[..i] ==>
        FilterAllows(w, f, pod, node, Merged(w.podsOn(node.name), placed))
    {
      match w.filters[i] {
        case PodAntiAffinity =>
          var present := MergePods(w.podsOn(node.name), placed);
          ok := CheckAntiAffinity(w, pod, present);
        case PodIsADuplicate =>
          var present := MergePods(w.podsOn(node.name), placed);
          ok := CheckDuplicates(pod, present);
        case PodFitsNode =>
          ok := w.tolerates(pod, node) && w.matchesNode(pod, node);
          if ok {
            ok := Resources.CheckResources(pod, node, w.isScalar);
          }
      }
      assert ok == FilterAllows(w, w.filters[i], pod, node, Merged(w.podsOn(node.name), placed));
      if !ok {
        return;
      }
    }
    ok := true;
  }

  /** Filters only become stricter as more pods are present. */
  lemma {:induction false} AllowsIsAntitone(w: World, pod: Pod, node: Node, fewer: seq<Pod>, more: seq<Pod>)
    requires forall q :: q in fewer ==> q in more
    requires Allows(w, pod, node, more)
    ensures Allows(w, pod, node, fewer)
  {
    forall f | f in w.filters
      ensures FilterAllows(w, f, pod, node, fewer)
    {
      assert FilterAllows(w, f, pod, node, more);
    }
  }

  /** The verdict does not depend on the order in which the registry yields the filters. */
  lemma {:induction false} FilterOrderIsIrrelevant(w: World, filters: seq<Filter>, pod: Pod, node: Node,
      present: seq<Pod>)
    requires multiset(filters) == multiset(w.filters)
    ensures Allows(w, pod, node, present) == Allows(w.(filters := filters), pod, node, present)
  {
    var v := w.(filters := filters);
    assert forall f :: f in filters <==> f in w.filters by {
      assert forall f :: f in filters <==> f in multiset(filters);
    }
    assert forall f :: FilterAllows(v, f, pod, node, present) == FilterAllows(w, f, pod, node, present);
  }

  // ----- What each filter accepts -----

  /** All filters have to accept, each on its own. */
  lemma {:induction false} EveryFilterDecides(w: World, pod: Pod, node: Node, present: seq<Pod>)
    ensures Allows(w, pod, node, present) <==>
      forall f :: f in w.filters ==> Allows(w.(filters := [f]), pod, node, present)
  {
    hide AntiAffinityAllows, NoDuplicate, FitsNode;
    forall f | f in w.filters
      ensures Allows(w.(filters := [f]), pod, node, present) <==> FilterAllows(w, f, pod, node, present)
    {
      OneFilter(w, f, pod, node, present);
    }
  }

  lemma {:induction false} OneFilter(w: World, f: Filter, pod: Pod, node: Node, present: seq<Pod>)
    ensures Allows(w.(filters := [f]), pod, node, present) <==> FilterAllows(w, f, pod, node, present)
  {
    var v := w.(filters := [f]);
    assert f in v.filters;
    assert FilterAllows(v, f, pod, node, present) == FilterAllows(w, f, pod, node, present);
  }

  lemma {:induction false} InUnweighted(ts: seq<WeightedTerm>, t: Cluster.Term)
    ensures t in Unweighted(ts) <==> exists p :: p in ts && p.term == t
  {
    if ts != [] {
      var n := |ts| - 1;
      InUnweighted(ts[..n], t);
      assert ts == ts[..n] + [ts[n]];
    }
  }

  /** The anti-affinity filter: every required and every preferred term, whatever its weight, must
      parse and select no present pod of another name in its namespaces, or in the pod's own if it
      names none. */
  lemma {:induction false} AntiAffinityExactly(w: World, pod: Pod, node: Node, present: seq<Pod>)
    requires w.filters == [PodAntiAffinity]
    ensures Allows(w, pod, node, present) <==>
      (pod.antiAffinity.Some? ==>
        var a := pod.antiAffinity.value;
        forall t :: t in a.required || (exists p :: p in a.preferred && p.term == t) ==>
          && w.parses(t.selector)
          && forall q :: q in present && w.selects(t.selector, q.labels) ==>
               || q.name == pod.name
               || (q.namespace !in t.namespaces && (t.namespaces != {} || q.namespace != pod.namespace)))
  {
    OneFilter(w, PodAntiAffinity, pod, node, present);
    if pod.antiAffinity.Some? {
      var a := pod.antiAffinity.value;
      forall t
        ensures t in AntiAffinityTerms(pod) <==> t in a.required || exists p :: p in a.preferred && p.term == t
      {
        InUnweighted(a.preferred, t);
      }
    }
  }

  /** The duplicate filter: no present pod that is not terminating has the pod's keys. */
  lemma {:induction false} DuplicatesExactly(w: World, pod: Pod, node: Node, present: seq<Pod>)
    requires w.filters == [PodIsADuplicate]
    ensures Allows(w, pod, node, present) <==>
      forall q :: q in present && DuplicateKeys.ContainerKeys(q) == DuplicateKeys.ContainerKeys(pod) ==> q.terminating
  {
    OneFilter(w, PodIsADuplicate, pod, node, present);
  }

  /** The needs of the pod are within what the node offers, which is no ephemeral storage at all. */
  ghost predicate NodeCovers(w: World, pod: Pod, node: Node) {
    forall name: ResourceName ::
      name == CPU || name == Memory || name == EphemeralStorage || (name.Other? && w.isScalar(name)) ==>
        Resources.Needed(pod, name) <= if name == EphemeralStorage then 0 else Resources.Amount(node.allocatable, name)
  }

  /** Quantities for which the arithmetic is exact. */
  ghost predicate SoundQuantities(w: World, pod: Pod, node: Node) {
    && (forall name: ResourceName :: name == CPU || name == Memory || (name.Other? && w.isScalar(name)) ==>
          Resources.Sound(pod, name))
    && (forall name :: name in node.allocatable ==>
          0 <= Resources.Amount(node.allocatable, name) < Resources.TWO_63)
  }

  /** The node-fit filter: the node is tolerated, matches, and covers every need of the pod. */
  lemma {:induction false} NodeFitExactly(w: World, pod: Pod, node: Node, present: seq<Pod>)
    requires w.filters == [PodFitsNode] && SoundQuantities(w, pod, node)
    ensures Allows(w, pod, node, present) <==>
      w.tolerates(pod, node) && w.matchesNode(pod, node) && NodeCovers(w, pod, node)
  {
    OneFilter(w, PodFitsNode, pod, node, present);
    Resources.FitClosedForm(w.isScalar, pod, node);
    hide Resources.Needed, Resources.Amount, Resources.ResourcesFit, Resources.Request, Resources.Allocatable;
    forall name: ResourceName
      ensures Resources.Counted(w.isScalar, name) <==>
        name == CPU || name == Memory || name == EphemeralStorage || (name.Other? && w.isScalar(name))
    {
    }
  }

  /** A pod of one container that asks for CPU only, on a node that offers CPU only. */
  lemma {:induction false} OneCpuRequest(w: World, pod: Pod, node: Node, present: seq<Pod>, image: string,
      q: Quantity, r: Quantity)
    requires w.filters == [PodFitsNode] && w.tolerates(pod, node) && w.matchesNode(pod, node)
    requires pod.containers == [Container(image, map[CPU := q])] && pod.initContainers == []
    requires node.allocatable == map[CPU := r]
    requires 0 <= q.milli < Resources.TWO_63 && 0 <= r.milli < Resources.TWO_63
    ensures Allows(w, pod, node, present) <==> q.milli <= r.milli
  {
    var c := pod.containers[0];
    forall name: ResourceName
      ensures Resources.Sum(pod.containers, name) == if name == CPU then q.milli else 0
      ensures Resources.Needed(pod, name) == if name == CPU then q.milli else 0
    {
      assert [] + [c] == pod.containers;
      Resources.SumAppends([], c, name);
      Resources.PeakAppends([], c, name);
    }
    NodeFitExactly(w, pod, node, present);
    hide Resources.Needed, Resources.Sum;
    assert Resources.Needed(pod, CPU) <= Resources.Amount(node.allocatable, CPU) <==> q.milli <= r.milli;
  }
}
