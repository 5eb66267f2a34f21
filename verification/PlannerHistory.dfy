/** The planner's index over its whole life: requests and pod updates in any order. */
module PlannerHistory {
  import opened Cluster
  import opened Filters
  import opened Planner
  import opened PlannerRuns

  datatype Event =
    | Request(w: World, items: seq<Pod>, scheduled: string, names: seq<string>, steps: seq<Step>)
    | PodUpdate(before: Pod, after: Pod)

  ghost predicate Legal(m: Index, e: Event) {
    e.Request? ==> Listing(e.items) && IsCall(e.w, m, e.items, e.scheduled, e.names, e.steps)
  }

  ghost function Next(m: Index, e: Event): Index
    requires Legal(m, e)
  {
    match e
    case Request(_, items, scheduled, _, steps) =>
      IndexAt(m, Arranged(items, scheduled), steps, |Arranged(items, scheduled)|)
    case PodUpdate(before, after) =>
      Updated(m, before, after)
  }

  /** The plan a request answers with. */
  ghost function Plan(e: Event): map<string, string>
    requires e.Request? && |e.steps| == |Arranged(e.items, e.scheduled)|
  {
    Assignments(Arranged(e.items, e.scheduled), e.steps, |e.steps|)
  }

  ghost predicate IsHistory(ms: seq<Index>, es: seq<Event>) {
    && |ms| == |es| + 1
    && forall i :: 0 <= i < |es| ==> Legal(ms[i], es[i]) && ms[i + 1] == Next(ms[i], es[i])
  }

  /** The event leaves the pod's assignment alone: it does not release the pod, and does not list
      it with a host address. */
  ghost predicate Spares(e: Event, k: Key) {
    match e
    case Request(_, items, _, _, _) => forall p :: p in items && p.Id() == k ==> p.hostIP == ""
    case PodUpdate(before, after) => after.Id() == k ==> !Releases(before, after)
  }

  /** A request never moves an assigned pod, and never touches pods outside its list. */
  lemma {:induction false} RequestKeeps(m: Index, e: Event, k: Key)
    requires e.Request? && Legal(m, e)
    requires (k in m && Spares(e, k)) || forall p :: p in e.items ==> p.Id() != k
    ensures k in Next(m, e) <==> k in m
    ensures k in m ==> Next(m, e)[k] == m[k]
  {
    var pods, given := Arranged(e.items, e.scheduled), Given(e.items, e.scheduled, e.names);
    ArrangedIsListing(e.items, e.scheduled);
    SameMembers(pods, e.items);
    forall t | 0 <= t < |pods| && e.steps[t].outcome.Placed?
      ensures pods[t].Id() != k
    {
      if pods[t].Id() == k {
        assert pods[t] in e.items;
        NodeStays(e.w, m, pods, given, e.steps, 0, t, pods[t]);
        PlacedWasFree(e.w, m, pods, given, e.steps, t);
      }
    }
    IndexFrame(m, pods, e.steps, 0, |pods|, k);
  }

  lemma {:induction false} EventKeeps(m: Index, e: Event, k: Key)
    requires Legal(m, e) && k in m && Spares(e, k)
    ensures k in Next(m, e) && Next(m, e)[k] == m[k]
  {
    if e.Request? {
      RequestKeeps(m, e, k);
    }
  }

  /** An assignment survives any stretch of events that spare it. */
  lemma {:induction false} AssignmentSticks(ms: seq<Index>, es: seq<Event>, i: nat, j: nat, k: Key)
    requires IsHistory(ms, es) && i <= j < |ms| && k in ms[i]
    requires forall t :: i <= t < j ==> Spares(es[t], k)
    ensures k in ms[j] && ms[j][k] == ms[i][k]
    decreases j - i
  {
    hide Legal, Next, Spares;
    if i < j {
      AssignmentSticks(ms, es, i, j - 1, k);
      EventKeeps(ms[j - 1], es[j - 1], k);
    }
  }

  /** The plan's entry for a listed pod without host address is what the index says afterwards. */
  lemma {:induction false} PlanIsIndex(m: Index, e: Event, pod: Pod)
    requires e.Request? && Legal(m, e) && pod in e.items && pod.hostIP == ""
    requires |e.steps| == |Arranged(e.items, e.scheduled)| && pod.name in Plan(e)
    ensures pod.Id() in Next(m, e) && Next(m, e)[pod.Id()] == Plan(e)[pod.name]
  {
    var pods, given := Arranged(e.items, e.scheduled), Given(e.items, e.scheduled, e.names);
    ArrangedIsListing(e.items, e.scheduled);
    SameMembers(pods, e.items);
    var i :| 0 <= i < |pods| && pods[i] == pod;
    AssignmentOf(pods, e.steps, i, |pods|);
    assert LegalStep(e.w, IndexAt(m, pods, e.steps, i), pods, given, pods[i], e.steps[i]);
    hide LegalStep;
    IndexAgreesWithResult(e.w, m, pods, given, e.steps, i);
  }

  /** Sticky plans: in any history, two requests that both plan a pod, with only sparing events
      from the first to the second, plan it onto the same node. */
  lemma {:induction false} StickyPlans(ms: seq<Index>, es: seq<Event>, a: nat, b: nat, p: Pod, q: Pod)
    requires IsHistory(ms, es) && a < b < |es| && es[a].Request? && es[b].Request?
    requires p in es[a].items && q in es[b].items && p.Id() == q.Id()
    requires forall t :: a <= t <= b ==> Spares(es[t], p.Id())
    requires |es[a].steps| == |Arranged(es[a].items, es[a].scheduled)| && p.name in Plan(es[a])
    requires |es[b].steps| == |Arranged(es[b].items, es[b].scheduled)| && q.name in Plan(es[b])
    ensures Plan(es[a])[p.name] == Plan(es[b])[q.name]
  {
    hide Listing, IsCall, Plan, Next;
    PlanIsIndex(ms[a], es[a], p);
    AssignmentSticks(ms, es, a + 1, b + 1, p.Id());
    PlanIsIndex(ms[b], es[b], q);
  }

  /** The node of the pod being scheduled. A node it had before wins over the node list of the
      request, so the plan names a node of the list exactly if it had none or one in the list. */
  lemma {:induction false} CachedNodeWinsOverList(m: Index, e: Event, pod: Pod)
    requires e.Request? && Legal(m, e) && pod in e.items && pod.name == e.scheduled
    ensures |e.steps| == |Arranged(e.items, e.scheduled)|
    ensures var was, plan := NodeOf(e.w, m, pod), Plan(e);
      && (!Ignored(pod) && was.Some? ==> pod.name in plan && plan[pod.name] == was.value)
      && (pod.name in plan ==> !Ignored(pod) && (plan[pod.name] in e.names <==> (was.Some? ==> was.value in e.names)))
  {
    var pods, given := Arranged(e.items, e.scheduled), Given(e.items, e.scheduled, e.names);
    ArrangedIsListing(e.items, e.scheduled);
    SameMembers(pods, e.items);
    ScheduledPodIsEligible(e.w, m, e.items, e.scheduled, e.names, e.steps);
    var k :| 0 <= k < |pods| && pods[k] == pod;
    assert k == 0;
    AssignmentOf(pods, e.steps, 0, |pods|);
    assert LegalStep(e.w, IndexAt(m, pods, e.steps, 0), pods, given, pods[0], e.steps[0]);
  }
}
