/** Deletions over time: pod updates, turns of the retry worker and other clients of the store, in
    any order. */
module RetryQueue {
  import opened Cluster
  import opened PlanStore
  import Plans
  import SchedulingCycle
  import opened StorageKey
  import opened Planner

  datatype Stage = Stage(store: Server, queue: seq<Deletion>)

  datatype Event =
    | Update(before: Pod, after: Pod, lost: bool, fate: Fate)
    | Turn(lost: bool, fate: Fate)
    | Elsewhere(next: Server)

  function DeletionOf(hash: (string, string) -> nat, pod: Pod): Deletion {
    Deletion(PlanKey(hash, pod), pod.name)
  }

  ghost function After(hash: (string, string) -> nat, s: Stage, e: Event): Stage {
    match e
    case Update(before, after, lost, fate) =>
      if Terminates(before, after) then
        var (t, queue) := Forgotten(hash, after, s.store, s.queue, lost, fate);
        Stage(t, queue)
      else s
    case Turn(lost, fate) =>
      var (t, queue) := Retried(s.store, s.queue, lost, fate);
      Stage(t, queue)
    case Elsewhere(next) => Stage(next, s.queue)
  }

  ghost predicate IsHistory(hash: (string, string) -> nat, ss: seq<Stage>, es: seq<Event>) {
    && |ss| == |es| + 1 && GoodServer(ss[0].store)
    && forall i :: 0 <= i < |es| ==>
         (es[i].Elsewhere? ==> GoodServer(es[i].next)) && ss[i + 1] == After(hash, ss[i], es[i])
  }

  /** The plan has an entry of the pod. */
  ghost predicate Stored(s: Server, d: Deletion) {
    d.key in Contents(s) && d.pod in Contents(s)[d.key]
  }

  /** The event is a deletion of `d` that could not read the plan. */
  ghost predicate LosesRead(hash: (string, string) -> nat, s: Stage, e: Event, d: Deletion) {
    match e
    case Update(before, after, lost, _) => lost && Terminates(before, after) && DeletionOf(hash, after) == d
    case Turn(lost, _) => lost && s.queue != [] && s.queue[0] == d
    case Elsewhere(_) => false
  }

  /** Another client puts an entry of the pod into the plan. */
  ghost predicate StoresAgain(s: Stage, e: Event, d: Deletion) {
    e.Elsewhere? && Stored(e.next, d) && !Stored(s.store, d)
  }

  /** The pod is gone from the plan, or will be tried again. */
  ghost predicate Settled(s: Stage, d: Deletion) {
    !Stored(s.store, d) || d in s.queue
  }

  lemma {:induction false} KeepsGood(hash: (string, string) -> nat, s: Stage, e: Event)
    requires GoodServer(s.store) && (e.Elsewhere? ==> GoodServer(e.next))
    ensures GoodServer(After(hash, s, e).store)
  {
    hide GoodServer, Removed;
    if e.Update? {
      RemovedIsGone(s.store, DeletionOf(hash, e.after), e.lost, e.fate);
    } else if e.Turn? && s.queue != [] {
      RemovedIsGone(s.store, s.queue[0], e.lost, e.fate);
    }
  }

  lemma {:induction false} TerminationSettles(hash: (string, string) -> nat, s: Stage, e: Event)
    requires GoodServer(s.store) && e.Update? && Terminates(e.before, e.after) && PodSet(e.after) != ""
    requires !LosesRead(hash, s, e, DeletionOf(hash, e.after))
    ensures Settled(After(hash, s, e), DeletionOf(hash, e.after))
  {
    TerminatedPodIsForgotten(hash, e.after, s.store, s.queue, e.lost, e.fate);
    hide Forgotten, Contents, GoodServer;
  }

  lemma {:induction false} StaysSettled(hash: (string, string) -> nat, s: Stage, e: Event, d: Deletion)
    requires GoodServer(s.store) && Settled(s, d)
    requires !LosesRead(hash, s, e, d) && !StoresAgain(s, e, d)
    ensures Settled(After(hash, s, e), d)
  {
    hide Removed, Contents, GoodServer;
    if e.Update? && Terminates(e.before, e.after) && PodSet(e.after) != "" {
      RemovedIsGone(s.store, DeletionOf(hash, e.after), e.lost, e.fate);
    } else if e.Turn? && s.queue != [] {
      RemovedIsGone(s.store, s.queue[0], e.lost, e.fate);
      assert s.queue == [s.queue[0]] + s.queue[1..];
    }
  }

  /** After a pod of a pod set terminated, whatever else happens: the stored plan has no entry of it,
      or its deletion is queued, unless a deletion of it could not read the plan or another client
      stored it again. */
  lemma {:induction false} TerminatedPodStaysSettled(hash: (string, string) -> nat, ss: seq<Stage>, es: seq<Event>,
      a: nat, n: nat)
    requires IsHistory(hash, ss, es) && a < n <= |es|
    requires es[a].Update? && Terminates(es[a].before, es[a].after) && PodSet(es[a].after) != ""
    ensures GoodServer(ss[n].store)
    ensures var d := DeletionOf(hash, es[a].after);
      || Settled(ss[n], d)
      || exists i :: a <= i < n && (LosesRead(hash, ss[i], es[i], d) || StoresAgain(ss[i], es[i], d))
    decreases n
  {
    hide After, LosesRead, StoresAgain, Settled, GoodServer, Terminates;
    var d := DeletionOf(hash, es[a].after);
    HistoryIsGood(hash, ss, es, n - 1);
    HistoryIsGood(hash, ss, es, n);
    var i := n - 1;
    if n > a + 1 {
      TerminatedPodStaysSettled(hash, ss, es, a, n - 1);
    }
    if !LosesRead(hash, ss[i], es[i], d) && !StoresAgain(ss[i], es[i], d) {
      if n == a + 1 {
        TerminationSettles(hash, ss[a], es[a]);
      } else if Settled(ss[i], d) {
        StaysSettled(hash, ss[i], es[i], d);
      }
    }
  }

  lemma {:induction false} HistoryIsGood(hash: (string, string) -> nat, ss: seq<Stage>, es: seq<Event>, n: nat)
    requires IsHistory(hash, ss, es) && n <= |es|
    ensures GoodServer(ss[n].store)
  {
    hide After, GoodServer;
    if n > 0 {
      HistoryIsGood(hash, ss, es, n - 1);
      KeepsGood(hash, ss[n - 1], es[n - 1]);
    }
  }

  /** Every pod update, in the pod's own fields. The index drops the pod exactly if it starts running
      or starts terminating. One that starts terminating, and does not start running with the same
      update, is also out of the stored plan or queued, unless the plan could not be read; any other
      update leaves store and queue alone. */
  lemma {:induction false} UpdateExactly(hash: (string, string) -> nat, m: Index, s: Stage, e: Event)
    requires GoodServer(s.store) && e.Update?
    ensures var runs := e.before.phase != Running && e.after.phase == Running;
      var ends := !e.before.terminating && e.after.terminating;
      var m', t := Updated(m, e.before, e.after), After(hash, s, e);
      && (forall k :: k in m' <==> k in m && (k == e.after.Id() ==> !runs && !ends))
      && (forall k :: k in m' ==> m'[k] == m[k])
      && (ends && !runs && !e.lost && PodSet(e.after) != "" ==> Settled(t, DeletionOf(hash, e.after)))
      && (!ends || runs || PodSet(e.after) == "" ==> t == s)
  {
    if Terminates(e.before, e.after) && PodSet(e.after) != "" && !e.lost {
      TerminationSettles(hash, s, e);
    }
    hide Settled, GoodServer, Removed;
  }

  /** Nor does the termination of a pod change the stored plan of another namespace or pod set. */
  lemma {:induction false} TerminationTouchesOnePlan(hash: (string, string) -> nat, s: Stage, e: Event, q: Pod)
    requires e.Update? && SchedulingCycle.OtherPodSet(e.after, q)
    ensures SameObject(s.store, After(hash, s, e).store, PlanKey(hash, q))
  {
    PlanKeyIff(hash, e.after, q);
    hide PlanKey, Run;
    var d := DeletionOf(hash, e.after);
    RunTouchesOnlyKey(s.store, d.key, Plans.Delete(d.pod), [], e.lost, e.fate, PlanKey(hash, q));
  }

  // ----- Once the API answers -----

  /** An answered deletion need not be repeated. */
  lemma {:induction false} AnsweredIsDone(s: Server, d: Deletion)
    requires GoodServer(s)
    ensures !Removed(s, d, false, Answered).1
  {
    Plans.IntentIsAtomic(Plans.Delete(d.pod), PlanOf(Read(s, d.key, false)), []);
    hide Plans.Intended, Plans.Atomic, Plans.Distinct, Plans.View;
  }

  /** Once every turn is answered, the worker empties the queue in as many turns as it has entries,
      and each turn takes its pod out of the plan. */
  lemma {:induction false} AnsweredTurnsDrain(hash: (string, string) -> nat, ss: seq<Stage>, es: seq<Event>, n: nat)
    requires IsHistory(hash, ss, es) && n <= |es| && n <= |ss[0].queue|
    requires forall i :: 0 <= i < n ==> es[i] == Turn(false, Answered)
    ensures ss[n].queue == ss[0].queue[n..]
    ensures forall i :: 0 <= i < n ==> !Stored(ss[n].store, ss[0].queue[i])
  {
    hide Removed, Stored, GoodServer;
    if n > 0 {
      AnsweredTurnsDrain(hash, ss, es, n - 1);
      HistoryIsGood(hash, ss, es, n - 1);
      var s, d := ss[n - 1], ss[0].queue[n - 1];
      assert s.queue[0] == d && s.queue[1..] == ss[0].queue[n..];
      AnsweredIsDone(s.store, d);
      assert es[n - 1] == Turn(false, Answered) && ss[n] == After(hash, s, es[n - 1]);
      forall i | 0 <= i < n
        ensures !Stored(ss[n].store, ss[0].queue[i])
      {
        RemovalKeepsAway(s.store, d, ss[0].queue[i]);
      }
    }
  }

  lemma {:induction false} RemovalKeepsAway(s: Server, d: Deletion, other: Deletion)
    requires GoodServer(s) && (other == d || !Stored(s, other))
    ensures !Stored(Removed(s, d, false, Answered).0, other)
  {
    AnsweredIsDone(s, d);
    RemovedIsGone(s, d, false, Answered);
  }
}
