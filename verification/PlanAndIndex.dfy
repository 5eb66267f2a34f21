/** Scheduling cycles of one pod, one after the other, over both the stored plan and the planner's
    index. Reserve corrects the stored plan and never the index, and this is what comes of it. */
module PlanAndIndex {
  import opened Cluster
  import opened Plans
  import opened PlanStore
  import opened StorageKey
  import opened SchedulingCycle
  import Planner
  import PlannerHistory
  import PlannerExamples

  datatype Stage = Stage(store: Server, index: Planner.Index)

  /** PreScore with the nodes the scheduler offers, then Reserve on a node. `call` is what happens
      in the planner if it is asked. */
  datatype Cycle = Cycle(
    nodes: seq<string>, inputs: Inputs, order: seq<string>, call: PlannerHistory.Event,
    node: string, lost: bool, fate: Fate)

  predicate Asks(s: Stage, key: Key, pod: Pod, c: Cycle) {
    c.nodes != [] && AsksPlanner(s.store, key, pod, c.nodes, c.inputs) && !c.inputs.reply.NoPlanners?
  }

  ghost predicate LegalCycle(s: Stage, key: Key, pod: Pod, c: Cycle) {
    && (c.inputs.reply.Planned? ==> IsOrder(c.order, c.inputs.reply.assignments.Keys))
    && (Asks(s, key, pod, c) ==> AnswersCall(pod, c.nodes, c.inputs, s.index, c.call))
  }

  ghost function Scored(s: Stage, key: Key, pod: Pod, c: Cycle): (Server, Option<string>, Status)
    requires LegalCycle(s, key, pod, c)
  {
    PreScored(s.store, key, pod, c.nodes, None, c.inputs, c.order)
  }

  /** The scheduler goes on to Reserve only if PreScore succeeds. */
  ghost function Ended(s: Stage, key: Key, pod: Pod, c: Cycle): (Server, Option<string>, Status)
    requires LegalCycle(s, key, pod, c)
  {
    var scored := Scored(s, key, pod, c);
    if scored.2 == Success then Reserved(scored.0, key, pod, scored.1, c.node, c.lost, c.fate) else scored
  }

  ghost function After(s: Stage, key: Key, pod: Pod, c: Cycle): Stage
    requires LegalCycle(s, key, pod, c)
  {
    Stage(Ended(s, key, pod, c).0, if Asks(s, key, pod, c) then PlannerHistory.Next(s.index, c.call) else s.index)
  }

  /** The cycle had an assignment, and the reservation succeeded. */
  ghost predicate Completed(s: Stage, key: Key, pod: Pod, c: Cycle)
    requires LegalCycle(s, key, pod, c)
  {
    Scored(s, key, pod, c).1.Some? && Ended(s, key, pod, c).2 == Success
  }

  ghost predicate IsHistory(ss: seq<Stage>, cs: seq<Cycle>, key: Key, pod: Pod) {
    && |ss| == |cs| + 1 && GoodServer(ss[0].store)
    && forall i :: 0 <= i < |cs| ==> LegalCycle(ss[i], key, pod, cs[i]) && ss[i + 1] == After(ss[i], key, pod, cs[i])
  }

  // ----- Before the trigger fires -----

  /** For a pod of a pod set, nothing is planned and nothing stored before its trigger is read as
      Schedule, however many cycles go by. */
  lemma {:induction false} NothingBeforeTrigger(ss: seq<Stage>, cs: seq<Cycle>, key: Key, pod: Pod, n: nat)
    requires IsHistory(ss, cs, key, pod) && n <= |cs| && PodSet(pod) != ""
    requires forall i :: 0 <= i < n ==> cs[i].inputs.trigger != Some(SCHEDULE)
    ensures ss[n] == ss[0]
    ensures forall i :: 0 <= i < n ==> Ended(ss[i], key, pod, cs[i]).2 == Unschedulable
  {
    if n > 0 {
      NothingBeforeTrigger(ss, cs, key, pod, n - 1);
      var s, c := ss[n - 1], cs[n - 1];
      TriggerGate(s.store, key, pod, c.nodes, None, c.inputs, c.order);
      hide PreScored, Reserved;
    }
  }

  // ----- One cycle -----

  lemma {:induction false} IndexStays(s: Stage, key: Key, pod: Pod, c: Cycle)
    requires LegalCycle(s, key, pod, c) && pod.hostIP == "" && pod.Id() in s.index
    ensures pod.Id() in After(s, key, pod, c).index && After(s, key, pod, c).index[pod.Id()] == s.index[pod.Id()]
  {
    if Asks(s, key, pod, c) {
      forall p | p in c.call.items && p.Id() == pod.Id()
        ensures p.hostIP == ""
      {
        assert p == pod;
      }
      PlannerHistory.RequestKeeps(s.index, c.call, pod.Id());
    }
  }

  /** A completed cycle leaves the reserved node in the stored plan. What it planned comes from the
      planner, and is then in the index, or is what was stored before. */
  lemma {:induction false} CycleOutcome(s: Stage, key: Key, pod: Pod, c: Cycle)
    requires GoodServer(s.store) && LegalCycle(s, key, pod, c) && Completed(s, key, pod, c) && pod.hostIP == ""
    ensures var t, planned := After(s, key, pod, c), Scored(s, key, pod, c).1.value;
      && GoodServer(t.store) && Maps(t.store, key, pod.name, c.node)
      && (Asks(s, key, pod, c) ==> pod.Id() in t.index && t.index[pod.Id()] == planned)
      && (!Asks(s, key, pod, c) ==> t.index == s.index && Maps(s.store, key, pod.name, planned))
  {
    hide Run, Contents, GoodServer, Lookup;
    var scored := Scored(s, key, pod, c);
    PreScoreStores(s.store, key, pod, c.nodes, c.inputs, c.order);
    ReserveAgrees(scored.0, key, pod, scored.1.value, c.node, c.lost, c.fate);
    if Asks(s, key, pod, c) {
      hide Maps, Reserved;
      PlannerHistory.PlanIsIndex(s.index, c.call, pod);
    } else {
      PeekIsMap(s.store, key, pod.name, c.inputs.peekLost);
    }
  }

  /** Stored plan and index name the same node for the pod. */
  ghost predicate Agree(s: Stage, key: Key, pod: Pod) {
    pod.Id() in s.index && Maps(s.store, key, pod.name, s.index[pod.Id()])
  }

  ghost predicate NotStored(s: Stage, key: Key, pod: Pod) {
    forall n :: !Maps(s.store, key, pod.name, n)
  }

  /** A completed cycle that starts in agreement, or with nothing stored for the pod, ends in
      agreement exactly if Reserve followed the plan. */
  lemma {:induction false} CycleAgreesIff(s: Stage, key: Key, pod: Pod, c: Cycle)
    requires GoodServer(s.store) && LegalCycle(s, key, pod, c) && Completed(s, key, pod, c) && pod.hostIP == ""
    requires Agree(s, key, pod) || NotStored(s, key, pod)
    ensures var t, planned := After(s, key, pod, c), Scored(s, key, pod, c).1.value;
      && pod.Id() in t.index && t.index[pod.Id()] == planned
      && (Agree(t, key, pod) <==> c.node == planned)
  {
    CycleOutcome(s, key, pod, c);
    hide After, Scored, Completed, Asks, LegalCycle;
  }

  // ----- Any number of cycles -----

  /** After any number of completed cycles the stored plan holds the node reserved last, and the
      index the node planned first; they agree exactly if these are the same. */
  lemma {:induction false} PlanAgreesWithIndexIff(ss: seq<Stage>, cs: seq<Cycle>, key: Key, pod: Pod, n: nat)
    requires IsHistory(ss, cs, key, pod) && 0 < n <= |cs| && pod.hostIP == ""
    requires forall i :: 0 <= i < n ==> Completed(ss[i], key, pod, cs[i])
    requires Agree(ss[0], key, pod) || NotStored(ss[0], key, pod)
    ensures GoodServer(ss[n].store) && Maps(ss[n].store, key, pod.name, cs[n - 1].node)
    ensures var first := Scored(ss[0], key, pod, cs[0]).1;
      && pod.Id() in ss[n].index && first == Some(ss[n].index[pod.Id()])
      && (Agree(ss[n], key, pod) <==> first == Some(cs[n - 1].node))
  {
    assert Completed(ss[0], key, pod, cs[0]) && Scored(ss[0], key, pod, cs[0]).1.Some?;
    hide After, Scored, Completed, LegalCycle, GoodServer;
    if n == 1 {
      CycleOutcome(ss[0], key, pod, cs[0]);
      CycleAgreesIff(ss[0], key, pod, cs[0]);
    } else {
      PlanAgreesWithIndexIff(ss, cs, key, pod, n - 1);
      CycleOutcome(ss[n - 1], key, pod, cs[n - 1]);
      IndexStays(ss[n - 1], key, pod, cs[n - 1]);
    }
  }

  // ----- Two cycles that end in disagreement -----

  /** A cycle whose requests are all answered, and whose stored node is not offered, completes with
      the planner's node. */
  lemma {:induction false} AnsweredCycleCompletes(s: Stage, key: Key, pod: Pod, c: Cycle)
    requires GoodServer(s.store) && LegalCycle(s, key, pod, c) && PodSet(pod) != "" && c.nodes != []
    requires !InPlan(s.store, key, pod, c.nodes, c.inputs)
    requires c.inputs.reply.Planned? && pod.name in c.inputs.reply.assignments
    requires c.inputs.trigger == Some(SCHEDULE) && !c.inputs.readLost && c.inputs.fate == Answered
    requires !c.lost && c.fate == Answered
    ensures Completed(s, key, pod, c) && Asks(s, key, pod, c)
    ensures Scored(s, key, pod, c).1 == Some(c.inputs.reply.assignments[pod.name])
  {
    hide Run, InPlan, GoodServer, Contents, Atomic;
    var op := Update(c.inputs.reply.assignments);
    AnsweredSucceeds(s.store, key, op, c.order);
    var t := Run(s.store, key, op, c.order, false, Answered).0;
    AnsweredSucceeds(t, key, UpdateAssignment(pod.name, c.node), []);
    hide AnswersCall;
  }

  lemma {:induction false} NotOffered(s: Stage, key: Key, pod: Pod, node: string, nodes: seq<string>, i: Inputs)
    requires GoodServer(s.store)
    requires NotStored(s, key, pod) || (Maps(s.store, key, pod.name, node) && node !in nodes)
    ensures !InPlan(s.store, key, pod, nodes, i)
  {
    if Peek(s.store, key, pod.name, i.peekLost).Some? {
      PeekIsMap(s.store, key, pod.name, i.peekLost);
    }
  }

  lemma {:induction false} CycleOffering(s: Stage, key: Key, offered: string, node: string) returns (c: Cycle)
    requires GoodServer(s.store) && offered in {"n1", "n2"}
    requires var pod := PlannerExamples.Replica("a");
      && (pod.Id() in s.index ==> s.index[pod.Id()] == "n1")
      && (NotStored(s, key, pod) || (Maps(s.store, key, pod.name, "n1") && offered != "n1"))
    ensures var pod := PlannerExamples.Replica("a");
      && LegalCycle(s, key, pod, c) && Completed(s, key, pod, c) && c.nodes == [offered] && c.node == node
      && Scored(s, key, pod, c).1 == Some(if pod.Id() in s.index then "n1" else offered)
  {
    var pod := PlannerExamples.Replica("a");
    var planned := if pod.Id() in s.index then "n1" else offered;
    var request := PlannerExamples.OnePlanned(s.index, offered);
    var inputs := Inputs(Some(SCHEDULE), false, Planned(map[pod.name := planned]), false, Answered);
    c := Cycle([offered], inputs, [pod.name], request.0, node, false, Answered);
    assert PodSet(pod) != "" && pod.name == "a";
    hide PlannerExamples.Replica, PlannerHistory.Plan, PlannerHistory.Legal, Planner.Arranged;
    NotOffered(s, key, pod, "n1", [offered], inputs);
    hide Maps, GoodServer, InPlan;
    assert LegalCycle(s, key, pod, c);
    AnsweredCycleCompletes(s, key, pod, c);
  }

  /** The pod is planned and reserved on n1. In its next cycle only n2 is offered; the plugin asks
      the planner again, and still chooses n1. Once n2 is reserved, plan and index differ. */
  lemma {:induction false} UnofferedNodeIsChosen(key: Key) returns (ss: seq<Stage>, cs: seq<Cycle>)
    ensures var pod := PlannerExamples.Replica("a");
      && |cs| == 2 && IsHistory(ss, cs, key, pod)
      && cs[0].nodes == ["n1"] && cs[1].nodes == ["n2"]
      && Completed(ss[0], key, pod, cs[0]) && Completed(ss[1], key, pod, cs[1])
      && Scored(ss[0], key, pod, cs[0]).1 == Scored(ss[1], key, pod, cs[1]).1 == Some("n1")
      && Agree(ss[1], key, pod) && !Agree(ss[2], key, pod)
  {
    var pod := PlannerExamples.Replica("a");
    var s0 := Stage(Server(map[], 0), map[]);
    assert pod.hostIP == "" && "n1"[1] != "n2"[1] && s0.store.objects == map[] && pod.Id() !in s0.index;
    hide *;
    EmptyStage(s0, key, pod);
    var c0 := CycleOffering(s0, key, "n1", "n1");
    CycleOutcome(s0, key, pod, c0);
    CycleAgreesIff(s0, key, pod, c0);
    var s1 := After(s0, key, pod, c0);
    var c1 := CycleOffering(s1, key, "n2", "n2");
    CycleAgreesIff(s1, key, pod, c1);
    ss, cs := TwoCycles(s0, key, pod, c0, c1);
  }

  lemma {:induction false} TwoCycles(s: Stage, key: Key, pod: Pod, c: Cycle, d: Cycle) returns (ss: seq<Stage>,
      cs: seq<Cycle>)
    requires GoodServer(s.store) && LegalCycle(s, key, pod, c) && LegalCycle(After(s, key, pod, c), key, pod, d)
    ensures IsHistory(ss, cs, key, pod) && cs == [c, d]
    ensures ss == [s, After(s, key, pod, c), After(After(s, key, pod, c), key, pod, d)]
  {
    hide LegalCycle, After, GoodServer;
    ss, cs := [s, After(s, key, pod, c), After(After(s, key, pod, c), key, pod, d)], [c, d];
  }

  lemma {:induction false} EmptyStage(s: Stage, key: Key, pod: Pod)
    requires s.store.objects == map[]
    ensures GoodServer(s.store) && NotStored(s, key, pod)
  {
    EmptyStore(s.store);
  }
}
