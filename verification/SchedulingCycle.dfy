/** One scheduling cycle of the kube-scheduler plugin: PreScore, Reserve and Unreserve over the
    plan store. Everything the plugin asks from outside is an input. */
module SchedulingCycle {
  import opened Cluster
  import opened Plans
  import opened PlanStore
  import opened StorageKey
  import Planner
  import PlannerHistory

  const SCHEDULE := "Schedule"

  /** What the planner services answer: none registered, an error, or some planner's map. */
  datatype Reply = NoPlanners | PlannerError | Planned(assignments: map<string, string>)

  /** What one PreScore reads: the trigger's state (`None` if it cannot be read), the planners'
      reply, and how its store requests fare. */
  datatype Inputs = Inputs(trigger: Option<string>, peekLost: bool, reply: Reply, readLost: bool, fate: Fate)

  datatype FitError = NoPodSetFound | NoPlannersFound | OtherError

  datatype Fit = Chosen(node: string) | Unfit(error: FitError)

  datatype Status = Success | Unschedulable | Error

  function Peek(s: Server, key: Key, pod: string, lost: bool): Option<string> {
    if lost || key !in s.objects then None else Lookup(s.objects[key].plan, pod)
  }

  predicate InPlan(s: Server, key: Key, pod: Pod, eligible: seq<string>, i: Inputs) {
    var peek := Peek(s, key, pod.name, i.peekLost);
    peek.Some? && peek.value in eligible
  }

  predicate TriggerFired(i: Inputs) { i.trigger == Some(SCHEDULE) }

  predicate AsksPlanner(s: Server, key: Key, pod: Pod, eligible: seq<string>, i: Inputs) {
    PodSet(pod) != "" && TriggerFired(i) && !InPlan(s, key, pod, eligible, i)
  }

  /** The store operation by which PreScore records a new plan, if it gets that far. */
  function Issued(s: Server, key: Key, pod: Pod, eligible: seq<string>, i: Inputs): Option<Op> {
    if AsksPlanner(s, key, pod, eligible, i) && i.reply.Planned? && pod.name in i.reply.assignments
    then Some(Update(i.reply.assignments)) else None
  }

  /** `findFit` of the plugin: the stored node if it is still eligible, else a new plan. */
  function Fitted(s: Server, key: Key, pod: Pod, eligible: seq<string>, i: Inputs, order: seq<string>): (Server, Fit)
    requires i.reply.Planned? ==> forall p :: p in order ==> p in i.reply.assignments
  {
    if PodSet(pod) == "" then (s, Unfit(NoPodSetFound))
    else if !TriggerFired(i) then (s, Unfit(OtherError))
    else if InPlan(s, key, pod, eligible, i) then (s, Chosen(Peek(s, key, pod.name, i.peekLost).value))
    else
      match i.reply
      case NoPlanners => (s, Unfit(NoPlannersFound))
      case PlannerError => (s, Unfit(OtherError))
      case Planned(a) =>
        if pod.name !in a then (s, Unfit(OtherError))
        else
          var (t, ok) := Run(s, key, Update(a), order, i.readLost, i.fate);
          (t, if ok then Chosen(a[pod.name]) else Unfit(OtherError))
  }

  /** `PreScore`: the new store, the cycle's assignment, and the status. */
  function PreScored(s: Server, key: Key, pod: Pod, nodes: seq<string>, cycle: Option<string>, i: Inputs,
      order: seq<string>)
    : (Server, Option<string>, Status)
    requires i.reply.Planned? ==> forall p :: p in order ==> p in i.reply.assignments
  {
    if nodes == [] then (s, cycle, Unschedulable)
    else
      var (t, fit) := Fitted(s, key, pod, nodes, i, order);
      match fit
      case Chosen(node) => (t, Some(node), Success)
      case Unfit(e) => (t, cycle, if e == OtherError then Unschedulable else Success)
  }

  function Reserved(s: Server, key: Key, pod: Pod, cycle: Option<string>, node: string, lost: bool, fate: Fate)
    : (Server, Option<string>, Status)
  {
    if cycle.None? then (s, cycle, Success)
    else if PodSet(pod) == "" then (s, cycle, Error)
    else if cycle.value == node then (s, cycle, Success)
    else
      var (t, ok) := Run(s, key, UpdateAssignment(pod.name, node), [], lost, fate);
      if ok then (t, Some(node), Success) else (t, cycle, Error)
  }

  function Unreserved(s: Server, key: Key, pod: Pod, cycle: Option<string>, lost: bool, fate: Fate): (Server,
      Option<string>) {
    if cycle.None? || PodSet(pod) == "" then (s, cycle)
    else
      var (t, ok) := Run(s, key, Delete(pod.name), [], lost, fate);
      (t, if ok then None else cycle)
  }

  lemma {:induction false} SomeOrder(keys: set<string>) returns (order: seq<string>)
    ensures IsOrder(order, keys)
  {
    if keys == {} {
      order := [];
    } else {
      var k :| k in keys;
      order := SomeOrder(keys - {k});
      order := order + [k];
    }
  }

  /** The plugin with its client and the state of one cycle. */
  class PodSetPlugin {
    const client: SchedulePlannerClient
    const hash: (string, string) -> nat
    var cycle: Option<string>

    constructor (client: SchedulePlannerClient, hash: (string, string) -> nat)
      ensures this.client == client && this.hash == hash && cycle == None
    {
      this.client, this.hash, cycle := client, hash, None;
    }

    method FindFit(pod: Pod, eligible: seq<string>, i: Inputs) returns (fit: Fit, ghost order: seq<string>)
      modifies client
      ensures i.reply.Planned? ==> IsOrder(order, i.reply.assignments.Keys)
      ensures (client.Remote(), fit) == Fitted(old(client.Remote()), PlanKey(hash, pod), pod, eligible, i, order)
    {
      order := SomeOrder(if i.reply.Planned? then i.reply.assignments.Keys else {});
      if PodSet(pod) == "" {
        return Unfit(NoPodSetFound), order;
      }
      if i.trigger.None? || i.trigger.value != SCHEDULE {
        return Unfit(OtherError), order;
      }
      var key := PlanKey(hash, pod);
      var stored := client.CheckIfPodPresent(key, pod.name, i.peekLost);
      if stored.Some? {
        for k := 0 to |eligible|
          invariant stored.value !in eligible[..k]
        {
          if eligible[k] == stored.value {
            return Chosen(stored.value), order;
          }
        }
        assert eligible[..|eligible|] == eligible;
      }
      match i.reply
      case NoPlanners => fit := Unfit(NoPlannersFound);
      case PlannerError => fit := Unfit(OtherError);
      case Planned(a) =>
        if pod.name !in a {
          return Unfit(OtherError), order;
        }
        var ok;
        ok, order := client.Update(key, a, i.readLost, i.fate);
        fit := if ok then Chosen(a[pod.name]) else Unfit(OtherError);
    }

    method PreScore(pod: Pod, nodes: seq<string>, i: Inputs) returns (status: Status, ghost order: seq<string>)
      modifies this, client
      ensures i.reply.Planned? ==> IsOrder(order, i.reply.assignments.Keys)
      ensures (client.Remote(), cycle, status) ==
        PreScored(old(client.Remote()), PlanKey(hash, pod), pod, nodes, old(cycle), i, order)
    {
      order := SomeOrder(if i.reply.Planned? then i.reply.assignments.Keys else {});
      if nodes == [] {
        return Unschedulable, order;
      }
      var fit;
      fit, order := FindFit(pod, nodes, i);
      match fit
      case Chosen(node) =>
        cycle := Some(node);
        status := Success;
      case Unfit(e) =>
        status := if e == NoPodSetFound || e == NoPlannersFound then Success else Unschedulable;
    }

    method Reserve(pod: Pod, node: string, lost: bool, fate: Fate) returns (status: Status)
      modifies this, client
      ensures (client.Remote(), cycle, status) ==
        Reserved(old(client.Remote()), PlanKey(hash, pod), pod, old(cycle), node, lost, fate)
    {
      if cycle.None? {
        return Success;
      }
      if PodSet(pod) == "" {
        return Error;
      }
      if cycle.value != node {
        var ok := client.UpdateAssignment(PlanKey(hash, pod), pod.name, node, lost, fate);
        if !ok {
          return Error;
        }
        cycle := Some(node);
      }
      status := Success;
    }

    method Unreserve(pod: Pod, lost: bool, fate: Fate)
      modifies this, client
      ensures (client.Remote(), cycle) ==
        Unreserved(old(client.Remote()), PlanKey(hash, pod), pod, old(cycle), lost, fate)
    {
      if cycle.None? || PodSet(pod) == "" {
        return;
      }
      var ok, _ := client.Delete(PlanKey(hash, pod), pod.name, lost, fate);
      if ok {
        cycle := None;
      }
    }
  }

  // ----- The plan follows the cycle -----

  /** The stored plan of `key` maps the pod to the node. */
  predicate Maps(s: Server, key: Key, pod: string, node: string) {
    var v := At(Contents(s), key);
    v.Some? && pod in v.value && v.value[pod] == node
  }

  /** After a PreScore that leaves an assignment, the stored plan holds that assignment. */
  lemma {:induction false} PreScoreStores(s: Server, key: Key, pod: Pod, nodes: seq<string>, i: Inputs,
      order: seq<string>)
    requires GoodServer(s) && (i.reply.Planned? ==> IsOrder(order, i.reply.assignments.Keys))
    ensures var (t, cycle, status) := PreScored(s, key, pod, nodes, None, i, order);
      && GoodServer(t)
      && (cycle.Some? ==> status == Success && PodSet(pod) != "" && Maps(t, key, pod.name, cycle.value))
  {
    hide Run, Contents, Lookup;
    if i.reply.Planned? && pod.name in i.reply.assignments {
      UpdateStores(s, key, i.reply.assignments, pod.name, order, i.readLost, i.fate);
    }
    if InPlan(s, key, pod, nodes, i) {
      PeekIsMap(s, key, pod.name, i.peekLost);
    }
  }

  /** PreScore writes nothing but the one operation it issues, and that is never an empty plan. */
  lemma {:induction false} PreScoreIssues(s: Server, key: Key, pod: Pod, nodes: seq<string>, cycle: Option<string>,
      i: Inputs, order: seq<string>)
    requires i.reply.Planned? ==> forall p :: p in order ==> p in i.reply.assignments
    ensures var op := Issued(s, key, pod, nodes, i);
      && PreScored(s, key, pod, nodes, cycle, i, order).0 ==
           (if nodes == [] || op.None? then s else Run(s, key, op.value, order, i.readLost, i.fate).0)
      && (op.Some? ==> NonEmpty(op.value) && pod.name in op.value.assignments)
  {
    hide Run, InPlan;
  }

  /** The operation comes from some cycle of the plugin, or from a planner's deletion. */
  ghost predicate FromPlugin(op: Op) {
    op.Update? ==> exists s, key, pod, nodes, i :: Issued(s, key, pod, nodes, i) == Some(op)
  }

  /** In every interleaving of plugins and planners, stored plans name each pod once and are never
      empty. */
  lemma {:induction false} PluginPlansAreWellFormed(states: seq<State>, labels: seq<Label>, n: nat, key: Key)
    requires IsRun(states, labels) && n < |states| && key in states[n].server.objects
    requires forall i :: 0 <= i < |labels| && labels[i].Get? ==> FromPlugin(labels[i].op)
    ensures Distinct(states[n].server.objects[key].plan) && states[n].server.objects[key].plan != []
  {
    forall i | 0 <= i < |labels| && labels[i].Get?
      ensures NonEmpty(labels[i].op)
    {
      assert FromPlugin(labels[i].op);
    }
    StoredPlansAreWellFormed(states, labels, n, key);
  }

  lemma {:induction false} UpdateStores(s: Server, key: Key, a: map<string, string>, pod: string,
      order: seq<string>, lost: bool, fate: Fate)
    requires GoodServer(s) && IsOrder(order, a.Keys) && pod in a
    ensures var (t, ok) := Run(s, key, Update(a), order, lost, fate);
      GoodServer(t) && (ok ==> Maps(t, key, pod, a[pod]))
  {
    UndisturbedIsAtomic(s, key, Update(a), order, lost, fate);
    hide Run;
    var v := At(Contents(s), key);
    if v.Some? && a.Items <= v.value.Items {
      assert (pod, a[pod]) in v.value.Items;
    }
  }

  lemma {:induction false} PeekIsMap(s: Server, key: Key, pod: string, lost: bool)
    requires GoodServer(s) && Peek(s, key, pod, lost).Some?
    ensures Maps(s, key, pod, Peek(s, key, pod, lost).value)
  {
    LookupIsMembership(s.objects[key].plan, pod, Peek(s, key, pod, lost).value);
  }

  /** Cycle agreement: in an undisturbed cycle whose PreScore left an assignment, a successful
      Reserve leaves the plan mapping the pod to exactly the reserved node and changes no other
      entry of any plan; a following successful Unreserve takes out exactly that pod. */
  lemma {:induction false} CycleAgreement(s: Server, key: Key, pod: Pod, nodes: seq<string>, i: Inputs,
      order: seq<string>, node: string, lost: bool, fate: Fate, lost': bool, fate': Fate)
    requires GoodServer(s) && (i.reply.Planned? ==> IsOrder(order, i.reply.assignments.Keys))
    requires PreScored(s, key, pod, nodes, None, i, order).1.Some?
    ensures var (t, planned, _) := PreScored(s, key, pod, nodes, None, i, order);
      var (u, cycle, status) := Reserved(t, key, pod, planned, node, lost, fate);
      var (v, cycle') := Unreserved(u, key, pod, cycle, lost', fate');
      && At(Contents(t), key).Some?
      && (status == Success ==>
            && cycle == Some(node)
            && Contents(u) == Contents(t)[key := Contents(t)[key][pod.name := node]]
            && (cycle' == None <==> !lost' && fate' == Answered)
            && (cycle' == None ==> Contents(v) == Set(Contents(u), key, Atomic(Delete(pod.name), At(Contents(u), key)))
                                   && !(exists n :: Maps(v, key, pod.name, n))
                                   && (forall p, n :: p != pod.name ==> (Maps(v, key, p, n) <==> Maps(u, key, p, n)))))
  {
    PreScoreStores(s, key, pod, nodes, i, order);
    var (t, planned, _) := PreScored(s, key, pod, nodes, None, i, order);
    hide PreScored, Fitted;
    ReserveAgrees(t, key, pod, planned.value, node, lost, fate);
    var (u, cycle, status) := Reserved(t, key, pod, planned, node, lost, fate);
    hide Reserved;
    if status == Success {
      UnreserveUndoes(u, key, pod, node, lost', fate');
    }
  }

  lemma {:induction false} ReserveAgrees(t: Server, key: Key, pod: Pod, planned: string, node: string, lost: bool,
      fate: Fate)
    requires GoodServer(t) && PodSet(pod) != "" && Maps(t, key, pod.name, planned)
    ensures var (u, cycle, status) := Reserved(t, key, pod, Some(planned), node, lost, fate);
      && GoodServer(u)
      && (status == Success ==>
           cycle == Some(node) && Contents(u) == Contents(t)[key := Contents(t)[key][pod.name := node]])
  {
    UndisturbedIsAtomic(t, key, UpdateAssignment(pod.name, node), [], lost, fate);
    hide Run;
    if planned == node {
      assert Contents(t)[key][pod.name := node] == Contents(t)[key];
      assert Contents(t) == Contents(t)[key := Contents(t)[key]];
    }
  }

  lemma {:induction false} UnreserveUndoes(u: Server, key: Key, pod: Pod, node: string, lost: bool, fate: Fate)
    requires GoodServer(u) && PodSet(pod) != "" && Maps(u, key, pod.name, node)
    ensures var (v, cycle) := Unreserved(u, key, pod, Some(node), lost, fate);
      (cycle == None <==> !lost && fate == Answered) && (cycle == None ==>
        && Contents(v) == Set(Contents(u), key, Atomic(Delete(pod.name), At(Contents(u), key)))
        && !(exists n :: Maps(v, key, pod.name, n))
        && (forall p, n :: p != pod.name ==> (Maps(v, key, p, n) <==> Maps(u, key, p, n))))
  {
    UnreserveExactly(u, key, pod, node, lost, fate);
    UndisturbedIsAtomic(u, key, Delete(pod.name), [], lost, fate);
    hide Run, Contents, GoodServer, Set, Atomic;
  }

  /** Unreserve drops the cycle's assignment exactly if the plan can be read and the pod is not in it or
      the write is answered. Then the stored plan has no entry of the pod, and all other entries stay;
      otherwise the cycle keeps its assignment. */
  lemma {:induction false} UnreserveExactly(s: Server, key: Key, pod: Pod, node: string, lost: bool, fate: Fate)
    requires GoodServer(s) && PodSet(pod) != ""
    ensures var (t, cycle) := Unreserved(s, key, pod, Some(node), lost, fate);
      && (cycle == None <==>
            !lost && key in Contents(s) && (pod.name !in Contents(s)[key] || fate == Answered))
      && (cycle != None ==> cycle == Some(node))
      && (cycle == None ==>
            && !(exists n :: Maps(t, key, pod.name, n))
            && forall k, p, n :: k != key || p != pod.name ==> (Maps(t, k, p, n) <==> Maps(s, k, p, n)))
  {
    RunSucceedsIff(s, key, Delete(pod.name), [], lost, fate);
    UndisturbedIsAtomic(s, key, Delete(pod.name), [], lost, fate);
    assert key in s.objects <==> key in Contents(s);
    hide Run, Contents, GoodServer, Maps, Set;
    var (t, cycle) := Unreserved(s, key, pod, Some(node), lost, fate);
    if cycle == None {
      DeletionMaps(s, t, key, pod.name);
    }
  }

  lemma {:induction false} DeletionMaps(s: Server, t: Server, key: Key, pod: string)
    requires Contents(t) == Set(Contents(s), key, Atomic(Delete(pod), At(Contents(s), key)))
    ensures !(exists n :: Maps(t, key, pod, n))
    ensures forall k, p, n :: k != key || p != pod ==> (Maps(t, k, p, n) <==> Maps(s, k, p, n))
  {
    hide Contents;
  }

  /** Answered in time, Unreserve of a pod in the stored plan takes it out. */
  lemma {:induction false} AnsweredUnreserve(s: Server, key: Key, pod: Pod, node: string)
    requires GoodServer(s) && PodSet(pod) != "" && Maps(s, key, pod.name, node)
    ensures var (t, cycle) := Unreserved(s, key, pod, Some(node), false, Answered);
      cycle == None && !(exists n :: Maps(t, key, pod.name, n))
  {
    UnreserveExactly(s, key, pod, node, false, Answered);
    hide Unreserved, GoodServer, Contents;
  }

  /** When Reserve succeeds: without assignment or with the planned node always, and then without
      touching the store; on another node exactly if the store accepts the new assignment. */
  lemma {:induction false} ReserveExactly(s: Server, key: Key, pod: Pod, planned: string, node: string, lost: bool,
      fate: Fate)
    requires GoodServer(s) && PodSet(pod) != ""
    ensures Reserved(s, key, pod, None, node, lost, fate) == (s, None, Success)
    ensures Reserved(s, key, pod, Some(node), node, lost, fate) == (s, Some(node), Success)
    ensures planned != node ==>
      var (t, cycle, status) := Reserved(s, key, pod, Some(planned), node, lost, fate);
      && (status == Success <==>
            if lost || key !in Contents(s) then key !in Contents(s) && fate == Answered
            else fate == Answered || pod.name !in Contents(s)[key] || Contents(s)[key][pod.name] == node)
      && (status == Success ==> cycle == Some(node))
      && (status != Success ==> status == Error && cycle == Some(planned))
  {
    RunSucceedsIff(s, key, UpdateAssignment(pod.name, node), [], lost, fate);
    assert key in s.objects <==> key in Contents(s);
    hide Run, GoodServer;
    if key in Contents(s) && pod.name in Contents(s)[key] {
      var c := Contents(s)[key];
      hide Contents;
      assert c[pod.name := node] == c <==> c[pod.name] == node by {
        if c[pod.name := node] == c { assert c[pod.name := node][pod.name] == node; }
      }
    }
  }

  /** Disturbed, agreement can fail: a Reserve on a different node that reports success leaves the
      plan mapping the pod to that node exactly when no plan is stored or the pod is still in it. */
  lemma {:induction false} ReserveAgreesIff(t: Server, key: Key, pod: Pod, planned: string, node: string,
      lost: bool, fate: Fate)
    requires GoodServer(t) && PodSet(pod) != "" && planned != node
    requires Reserved(t, key, pod, Some(planned), node, lost, fate).2 == Success
    ensures var (u, cycle, _) := Reserved(t, key, pod, Some(planned), node, lost, fate);
      var v := At(Contents(t), key);
      Maps(u, key, pod.name, node) <==> v.None? || pod.name in v.value
  {
    UndisturbedIsAtomic(t, key, UpdateAssignment(pod.name, node), [], lost, fate);
    hide Run;
  }

  /** Answered in time, an operation on the current store succeeds; a deletion needs a plan. */
  lemma {:induction false} AnsweredSucceeds(s: Server, key: Key, op: Op, order: seq<string>)
    requires GoodServer(s) && (op.Update? ==> IsOrder(order, op.assignments.Keys))
    requires op.Delete? ==> key in s.objects
    ensures Run(s, key, op, order, false, Answered).1
    ensures var t := Run(s, key, op, order, false, Answered).0;
      GoodServer(t) && Contents(t) == Set(Contents(s), key, Atomic(op, At(Contents(s), key)))
  {
    UndisturbedIsAtomic(s, key, op, order, false, Answered);
    IntentIsAtomic(op, PlanOf(Read(s, key, false)), order);
    hide Intended, Atomic, Distinct, Contents;
  }

  /** A Reserve on another node than planned succeeds and stores nothing if the pod has dropped out
      of the stored plan. */
  lemma {:induction false} ReserveMissesPod(t: Server, key: Key, pod: Pod, planned: string, node: string)
    requires GoodServer(t) && PodSet(pod) != "" && planned != node
    requires At(Contents(t), key).Some? && pod.name !in Contents(t)[key]
    ensures var (u, cycle, status) := Reserved(t, key, pod, Some(planned), node, false, Answered);
      status == Success && cycle == Some(node) && Contents(u) == Contents(t) && !Maps(u, key, pod.name, node)
  {
    AnsweredSucceeds(t, key, UpdateAssignment(pod.name, node), []);
    hide Run;
    assert Contents(t)[key := Contents(t)[key]] == Contents(t);
  }

  lemma {:induction false} EmptyStore(s: Server)
    requires s.objects == map[]
    ensures GoodServer(s) && Contents(s) == map[]
  {
  }

  lemma {:induction false} PlanIsThere(s: Server, key: Key)
    ensures key in Contents(s) <==> key in s.objects
  {
  }

  /** Such a cycle, from an empty store: PreScore stores the pod's node `m`; before Reserve, the pod's
      entry is deleted and a plan for another pod stored. Reserve on `n` then reports success, and
      the stored plan does not name the pod. */
  lemma {:induction false} DisturbedCycle(key: Key, pod: Pod, other: string, m: string, n: string)
    requires PodSet(pod) != "" && other != pod.name && m != n
    ensures var i := Inputs(Some(SCHEDULE), false, Planned(map[pod.name := m]), false, Answered);
      var (t, cycle, _) := PreScored(Server(map[], 0), key, pod, [m, n], None, i, [pod.name]);
      var u := Run(t, key, Delete(pod.name), [], false, Answered).0;
      var v := Run(u, key, Update(map[other := m]), [other], false, Answered).0;
      var (w, cycle', status) := Reserved(v, key, pod, cycle, n, false, Answered);
      && cycle == Some(m) && Maps(t, key, pod.name, m)
      && status == Success && cycle' == Some(n)
      && key in Contents(w) && Contents(w)[key] == map[other := m] && !Maps(w, key, pod.name, n)
  {
    hide Run, Contents;
    var s, a, b := Server(map[], 0), map[pod.name := m], map[other := m];
    EmptyStore(s);
    AnsweredSucceeds(s, key, Update(a), [pod.name]);
    var t := Run(s, key, Update(a), [pod.name], false, Answered).0;
    assert Contents(t) == map[key := a];
    PlanIsThere(t, key);
    AnsweredSucceeds(t, key, Delete(pod.name), []);
    var u := Run(t, key, Delete(pod.name), [], false, Answered).0;
    assert a.Keys == {pod.name};
    assert Contents(u) == map[];
    AnsweredSucceeds(u, key, Update(b), [other]);
    var v := Run(u, key, Update(b), [other], false, Answered).0;
    assert Contents(v) == map[key := b];
    ReserveMissesPod(v, key, pod, m, n);
  }

  // ----- Trigger gate and eligibility -----

  /** A pod of a pod set passes PreScore only if its trigger was read as Schedule; otherwise it is
      refused, and neither the store nor the cycle's assignment changes. */
  lemma {:induction false} TriggerGate(s: Server, key: Key, pod: Pod, nodes: seq<string>, cycle: Option<string>,
      i: Inputs, order: seq<string>)
    requires i.reply.Planned? ==> forall p :: p in order ==> p in i.reply.assignments
    requires PodSet(pod) != ""
    ensures PreScored(s, key, pod, nodes, cycle, i, order).2 == Success ==> i.trigger == Some(SCHEDULE) && nodes != []
    ensures i.trigger != Some(SCHEDULE) ==> PreScored(s, key, pod, nodes, cycle, i, order) == (s, cycle, Unschedulable)
  {
  }

  /** A pod without pod set passes: PreScore leaves everything as it was, and so does Reserve. */
  lemma {:induction false} NoPodSetPasses(s: Server, key: Key, pod: Pod, nodes: seq<string>, i: Inputs,
      order: seq<string>, node: string, lost: bool, fate: Fate)
    requires i.reply.Planned? ==> forall p :: p in order ==> p in i.reply.assignments
    requires "planner.ciena.io/pod-set" !in pod.labels || pod.labels["planner.ciena.io/pod-set"] == ""
    ensures nodes != [] ==> PreScored(s, key, pod, nodes, None, i, order) == (s, None, Success)
    ensures Reserved(s, key, pod, None, node, lost, fate) == (s, None, Success)
  {
  }

  /** Once the trigger was read as Schedule, a stored node that is offered is kept, and nothing is
      written; otherwise a planner error, or a plan without the pod, is refused, and a cluster without
      planners lets the pod pass without assignment. */
  lemma {:induction false} PreScoreExactly(s: Server, key: Key, pod: Pod, nodes: seq<string>, cycle: Option<string>,
      i: Inputs, order: seq<string>)
    requires i.reply.Planned? ==> forall p :: p in order ==> p in i.reply.assignments
    requires GoodServer(s) && PodSet(pod) != "" && nodes != [] && i.trigger == Some("Schedule")
    ensures forall n :: Maps(s, key, pod.name, n) && n in nodes && !i.peekLost ==>
      PreScored(s, key, pod, nodes, cycle, i, order) == (s, Some(n), Success)
    ensures i.peekLost || !(exists n :: Maps(s, key, pod.name, n) && n in nodes) ==>
      var r := PreScored(s, key, pod, nodes, cycle, i, order);
      match i.reply
      case NoPlanners => r == (s, cycle, Success)
      case PlannerError => r == (s, cycle, Unschedulable)
      case Planned(a) =>
        if pod.name !in a then r == (s, cycle, Unschedulable)
        else
          var (t, ok) := Run(s, key, Update(a), order, i.readLost, i.fate);
          r == (t, if ok then Some(a[pod.name]) else cycle, if ok then Success else Unschedulable)
  {
    hide Run;
    if key in s.objects {
      forall n
        ensures Maps(s, key, pod.name, n) <==> Lookup(s.objects[key].plan, pod.name) == Some(n)
      {
        LookupIsMembership(s.objects[key].plan, pod.name, n);
      }
    }
    assert InPlan(s, key, pod, nodes, i) <==> !i.peekLost && exists n :: Maps(s, key, pod.name, n) && n in nodes;
    hide Contents, GoodServer, Lookup;
  }

  // ----- Pod sets -----

  /** The two pods belong to different pod sets. */
  predicate OtherPodSet(p: Pod, q: Pod) {
    || p.namespace != q.namespace
    || (if "planner.ciena.io/pod-set" in p.labels then p.labels["planner.ciena.io/pod-set"] else "") !=
       (if "planner.ciena.io/pod-set" in q.labels then q.labels["planner.ciena.io/pod-set"] else "")
  }

  /** No operation for a pod changes the stored plan of a pod of another namespace or pod set. */
  lemma {:induction false} OtherPodSetsUntouched(hash: (string, string) -> nat, s: Server, p: Pod, q: Pod,
      nodes: seq<string>, cycle: Option<string>, i: Inputs, order: seq<string>, node: string, lost: bool, fate: Fate)
    requires i.reply.Planned? ==> forall p :: p in order ==> p in i.reply.assignments
    requires OtherPodSet(p, q)
    ensures SameObject(s, PreScored(s, PlanKey(hash, p), p, nodes, cycle, i, order).0, PlanKey(hash, q))
    ensures SameObject(s, Reserved(s, PlanKey(hash, p), p, cycle, node, lost, fate).0, PlanKey(hash, q))
    ensures SameObject(s, Unreserved(s, PlanKey(hash, p), p, cycle, lost, fate).0, PlanKey(hash, q))
  {
    PlanKeyIff(hash, p, q);
    var key, k := PlanKey(hash, p), PlanKey(hash, q);
    hide PlanKey, Run, InPlan;
    if i.reply.Planned? {
      RunTouchesOnlyKey(s, key, Update(i.reply.assignments), order, i.readLost, i.fate, k);
    }
    RunTouchesOnlyKey(s, key, UpdateAssignment(p.name, node), [], lost, fate, k);
    RunTouchesOnlyKey(s, key, Delete(p.name), [], lost, fate, k);
  }

  /** The plugin's planner was asked in the index `m` and answered with the plan of the call. */
  ghost predicate AnswersCall(pod: Pod, nodes: seq<string>, i: Inputs, m: Planner.Index, call: PlannerHistory.Event) {
    && call.Request? && PlannerHistory.Legal(m, call)
    && pod in call.items && call.scheduled == pod.name && call.names == nodes
    && |call.steps| == |Planner.Arranged(call.items, pod.name)|
    && (i.reply.Planned? ==> i.reply.assignments == PlannerHistory.Plan(call))
  }

  /** The chosen node is one the scheduler offered exactly if it is the stored one, or the planner
      had no node for the pod, or had one that is offered. */
  lemma {:induction false} ChoiceIsEligible(s: Server, key: Key, pod: Pod, nodes: seq<string>, i: Inputs,
      order: seq<string>, m: Planner.Index, call: PlannerHistory.Event)
    requires i.reply.Planned? ==> forall p :: p in order ==> p in i.reply.assignments
    requires AsksPlanner(s, key, pod, nodes, i) && i.reply.Planned? ==> AnswersCall(pod, nodes, i, m, call)
    requires Fitted(s, key, pod, nodes, i, order).1.Chosen?
    ensures InPlan(s, key, pod, nodes, i) ==> Fitted(s, key, pod, nodes, i, order).1.node in nodes
    ensures !InPlan(s, key, pod, nodes, i) ==>
      var was := Planner.NodeOf(call.w, m, pod);
      Fitted(s, key, pod, nodes, i, order).1.node in nodes <==> (was.Some? ==> was.value in nodes)
  {
    if !InPlan(s, key, pod, nodes, i) {
      PlannerHistory.CachedNodeWinsOverList(m, call, pod);
    }
  }
}
