/** The quiet-timer protocol of the trigger controller: a mutex, a map of timers, one goroutine
    per entry, an unbuffered quit channel that is written while the mutex is held, and timers
    whose channel holds one tick. Any interleaving of the steps below is possible. */
module QuietTimer {
  import opened Cluster

  const QUIET_TIME_LABEL := "planner.ciena.io/quiet-time"
  const SCHEDULE := "Schedule"

  // ----- Requests -----

  /** What a caller does once it holds the mutex. */
  datatype Request =
    | Stop(key: Key)                    // deleteTimer, or a trigger without the label
    | Nothing                           // the label does not parse
    | Ensure(key: Key, duration: int)   // allocate a timer, or change its duration
    | Reset(key: Key)                   // ScheduleTimerReset

  /** The calls that take the mutex: `Reconcile`, with the labels of the trigger if it could be read
      and the duration its label parses to, and `ScheduleTimerReset`. */
  datatype Call =
    | Reconcile(key: Key, labels: Option<map<string, string>>, parsed: Option<int>)
    | ScheduleTimerReset(key: Key)

  function RequestFor(call: Call): Request {
    match call
    case Reconcile(key, labels, parsed) =>
      if labels.None? || QUIET_TIME_LABEL !in labels.value || labels.value[QUIET_TIME_LABEL] == "" then Stop(key)
      else if parsed.None? then Nothing
      else Ensure(key, parsed.value)
    case ScheduleTimerReset(key) => Reset(key)
  }

  // ----- State -----

  /** Where a quiet-timer goroutine is: in its select, inside a transition (reading the trigger,
      writing it), stopping its timer after the quit signal, or gone. */
  datatype Phase = Waiting | Reading | Writing | Stopping | Done

  /** A trigger reference with its timer and goroutine. `armed`: the timer will fire; `tick`: the
      timer channel holds a tick. The counters record armings and transitions begun and ended. */
  datatype Ref = Ref(
    key: Key, duration: int, armed: bool, tick: bool, phase: Phase,
    armings: nat, begun: nat, ended: nat)

  /** The mutex: free, or its holder's position. */
  datatype Holder =
    | Free
    | Entered(request: Request)
    | Sending(key: Key, id: nat)   // blocked on the quit channel of reference `id`
    | Sent(key: Key)               // quit taken, entry not yet deleted
    | Leaving

  datatype State = State(timers: map<Key, nat>, refs: seq<Ref>, holder: Holder)

  predicate InTransition(r: Ref) { r.phase == Reading || r.phase == Writing }

  /** The goroutine still serves its timer. */
  predicate Live(r: Ref) { r.phase == Waiting || InTransition(r) }

  // ----- Steps -----

  datatype Label =
    | Enter(call: Call)
    | Act
    | Handover
    | Forget
    | Leave
    | Fire(id: nat)
    | TakeTick(id: nat)
    | ReadTrigger(id: nat, state: Option<string>)   // the trigger's state, if it could be read
    | WriteTrigger(id: nat)
    | StopTimer(id: nat)

  function Rearmed(r: Ref, duration: int): Ref {
    r.(duration := duration, armed := true, armings := r.armings + 1)
  }

  function Acted(s: State, request: Request): State {
    match request
    case Stop(key) =>
      if key in s.timers then s.(holder := Sending(key, s.timers[key])) else s.(holder := Leaving)
    case Nothing => s.(holder := Leaving)
    case Ensure(key, d) =>
      if key !in s.timers then
        State(s.timers[key := |s.refs|], s.refs + [Ref(key, d, true, false, Waiting, 1, 0, 0)], Leaving)
      else if s.timers[key] < |s.refs| && s.refs[s.timers[key]].duration != d then
        s.(refs := s.refs[s.timers[key] := Rearmed(s.refs[s.timers[key]], d)], holder := Leaving)
      else s.(holder := Leaving)
    case Reset(key) =>
      if key in s.timers && s.timers[key] < |s.refs| then
        var r := s.refs[s.timers[key]];
        s.(refs := s.refs[s.timers[key] := Rearmed(r, r.duration)], holder := Leaving)
      else s.(holder := Leaving)
  }

  /** A step of one goroutine or timer, if it can be taken. */
  function RefStep(r: Ref, l: Label): Option<Ref> {
    match l
    case Fire(_) => if r.armed then Some(r.(armed := false, tick := true)) else None
    case TakeTick(_) =>
      if r.phase == Waiting && r.tick then Some(r.(tick := false, phase := Reading, begun := r.begun + 1)) else None
    case ReadTrigger(_, state) =>
      if r.phase != Reading then None
      else if state == None || state == Some(SCHEDULE) then Some(r.(phase := Waiting, ended := r.ended + 1))
      else Some(r.(phase := Writing))
    case WriteTrigger(_) =>
      if r.phase == Writing then Some(r.(phase := Waiting, ended := r.ended + 1)) else None
    case StopTimer(_) =>
      if r.phase == Stopping then Some(r.(phase := Done, armed := false)) else None
    case _ => None
  }

  predicate OfRef(l: Label) {
    l.Fire? || l.TakeTick? || l.ReadTrigger? || l.WriteTrigger? || l.StopTimer?
  }

  function Step(s: State, l: Label): Option<State> {
    match l
    case Enter(call) => if s.holder == Free then Some(s.(holder := Entered(RequestFor(call)))) else None
    case Act => if s.holder.Entered? then Some(Acted(s, s.holder.request)) else None
    case Handover =>
      if s.holder.Sending? && s.holder.id < |s.refs| && s.refs[s.holder.id].phase == Waiting then
        Some(s.(refs := s.refs[s.holder.id := s.refs[s.holder.id].(phase := Stopping)], holder := Sent(s.holder.key)))
      else None
    case Forget => if s.holder.Sent? then Some(s.(timers := s.timers - {s.holder.key}, holder := Leaving)) else None
    case Leave => if s.holder == Leaving then Some(s.(holder := Free)) else None
    case _ =>
      if l.id < |s.refs| && RefStep(s.refs[l.id], l).Some? then
        Some(s.(refs := s.refs[l.id := RefStep(s.refs[l.id], l).value]))
      else None
  }

  ghost predicate Init(s: State) {
    s == State(map[], [], Free)
  }

  ghost predicate IsRun(states: seq<State>, labels: seq<Label>) {
    && |states| == |labels| + 1 && Init(states[0])
    && forall i :: 0 <= i < |labels| ==> Step(states[i], labels[i]) == Some(states[i + 1])
  }

  // ----- Invariant -----

  predicate Indexed(s: State, id: nat)
    requires id < |s.refs|
  {
    s.refs[id].key in s.timers && s.timers[s.refs[id].key] == id
  }

  /** Bookkeeping of one reference: no transition without an arming, at most one in flight. */
  predicate Counted(r: Ref) {
    && r.begun + (if r.tick then 1 else 0) + (if r.armed then 1 else 0) <= r.armings
    && r.begun == r.ended + if InTransition(r) then 1 else 0
  }

  ghost predicate Inv(s: State) {
    && (forall k :: k in s.timers ==> s.timers[k] < |s.refs| && s.refs[s.timers[k]].key == k)
    && (s.holder.Sending? ==> s.holder.key in s.timers && s.timers[s.holder.key] == s.holder.id)
    && (s.holder.Sent? ==> s.holder.key in s.timers)
    && (forall id :: 0 <= id < |s.refs| ==> GoodRef(s, id))
  }

  /** A goroutine is live exactly while its reference is in the map, up to the moment it has taken
      the quit signal. */
  predicate GoodRef(s: State, id: nat)
    requires id < |s.refs|
  {
    && Counted(s.refs[id])
    && (Live(s.refs[id]) <==> Indexed(s, id) && s.holder != Sent(s.refs[id].key))
  }

  lemma {:induction false} StepKeepsInv(s: State, l: Label, t: State)
    requires Inv(s) && Step(s, l) == Some(t)
    ensures Inv(t)
  {
    if l == Act {
      ActKeepsInv(s, t);
    } else if OfRef(l) {
      RefStepKeepsInv(s, l, t);
    } else {
      forall id | 0 <= id < |t.refs|
        ensures GoodRef(t, id)
      {
        assert GoodRef(s, id);
      }
    }
  }

  lemma {:induction false} ActKeepsInv(s: State, t: State)
    requires Inv(s) && Step(s, Act) == Some(t)
    ensures Inv(t)
  {
    var q := s.holder.request;
    if q.Ensure? && q.key !in s.timers {
      AllocateKeepsInv(s, q.key, q.duration, t);
    } else if q.Ensure? && s.refs[s.timers[q.key]].duration != q.duration {
      RearmKeepsInv(s, s.timers[q.key], q.duration, t);
    } else if q.Reset? && q.key in s.timers {
      RearmKeepsInv(s, s.timers[q.key], s.refs[s.timers[q.key]].duration, t);
    } else {
      forall id | 0 <= id < |t.refs|
        ensures GoodRef(t, id)
      {
        assert GoodRef(s, id);
      }
    }
  }

  lemma {:induction false} AllocateKeepsInv(s: State, key: Key, d: int, t: State)
    requires Inv(s) && s.holder.Entered? && key !in s.timers
    requires t == State(s.timers[key := |s.refs|], s.refs + [Ref(key, d, true, false, Waiting, 1, 0, 0)], Leaving)
    ensures Inv(t)
  {
    forall id | 0 <= id < |t.refs|
      ensures GoodRef(t, id)
    {
      if id < |s.refs| {
        assert GoodRef(s, id);
      }
    }
  }

  lemma {:induction false} RearmKeepsInv(s: State, id: nat, d: int, t: State)
    requires Inv(s) && s.holder.Entered? && id < |s.refs|
    requires t == s.(refs := s.refs[id := Rearmed(s.refs[id], d)], holder := Leaving)
    ensures Inv(t)
  {
    assert GoodRef(s, id);
    assert Counted(t.refs[id]) && Live(t.refs[id]) == Live(s.refs[id]);
    hide Counted, Live;
    forall k | 0 <= k < |t.refs|
      ensures GoodRef(t, k)
    {
      assert GoodRef(s, k);
    }
  }

  lemma {:induction false} RefStepFacts(r: Ref, l: Label)
    requires Counted(r) && RefStep(r, l).Some?
    ensures var r' := RefStep(r, l).value;
      Counted(r') && Live(r') == Live(r) && r'.key == r.key
  {
  }

  lemma {:induction false} RefStepKeepsInv(s: State, l: Label, t: State)
    requires Inv(s) && OfRef(l) && Step(s, l) == Some(t)
    ensures Inv(t)
  {
    assert GoodRef(s, l.id);
    RefStepFacts(s.refs[l.id], l);
    hide Counted, Live, RefStep;
    forall id | 0 <= id < |t.refs|
      ensures GoodRef(t, id)
    {
      assert GoodRef(s, id);
    }
  }

  lemma {:induction false} RunKeepsInv(states: seq<State>, labels: seq<Label>, n: nat)
    requires IsRun(states, labels) && n < |states|
    ensures Inv(states[n])
  {
    if n > 0 {
      RunKeepsInv(states, labels, n - 1);
      StepKeepsInv(states[n - 1], labels[n - 1], states[n]);
    }
  }

  // ----- Timer map and goroutines -----

  /** Whenever the mutex is free, map entries and live goroutines correspond one to one. */
  lemma {:induction false} EntriesAreGoroutines(states: seq<State>, labels: seq<Label>, n: nat)
    requires IsRun(states, labels) && n < |states| && states[n].holder == Free
    ensures var s := states[n];
      && (forall id :: 0 <= id < |s.refs| && Live(s.refs[id]) ==> Indexed(s, id))
      && (forall k :: k in s.timers ==>
            s.timers[k] < |s.refs| && Live(s.refs[s.timers[k]]) && s.refs[s.timers[k]].key == k)
      && (forall j, k :: j in s.timers && k in s.timers && j != k ==> s.timers[j] != s.timers[k])
  {
    RunKeepsInv(states, labels, n);
    var s := states[n];
    forall id | 0 <= id < |s.refs| && Live(s.refs[id])
      ensures Indexed(s, id)
    {
      assert GoodRef(s, id);
    }
    forall k | k in s.timers
      ensures Live(s.refs[s.timers[k]])
    {
      assert GoodRef(s, s.timers[k]) && Indexed(s, s.timers[k]);
    }
  }

  /** A re-arming always acts on a timer whose goroutine is live. */
  lemma {:induction false} ResetActsOnLiveTimer(states: seq<State>, labels: seq<Label>, n: nat, id: nat)
    requires IsRun(states, labels) && n < |labels| && id < |states[n].refs|
    requires id < |states[n + 1].refs| && states[n + 1].refs[id].armings > states[n].refs[id].armings
    ensures labels[n] == Act && Live(states[n].refs[id]) && Indexed(states[n], id)
  {
    RunKeepsInv(states, labels, n);
    assert Step(states[n], labels[n]) == Some(states[n + 1]);
    assert GoodRef(states[n], id);
  }

  /** In every reachable state no reference has begun more transitions than it was armed. */
  lemma {:induction false} TransitionsNeverExceedArmings(states: seq<State>, labels: seq<Label>, n: nat, id: nat)
    requires IsRun(states, labels) && n < |states| && id < |states[n].refs|
    ensures var r := states[n].refs[id];
      r.ended <= r.begun <= r.armings && r.begun <= r.ended + 1
  {
    RunKeepsInv(states, labels, n);
    assert GoodRef(states[n], id);
  }

  /** A goroutine that took the quit signal never begins or ends a transition again. */
  lemma {:induction false} DeadStaysDead(states: seq<State>, labels: seq<Label>, i: nat, j: nat, id: nat)
    requires IsRun(states, labels) && i <= j < |states| && id < |states[i].refs| && !Live(states[i].refs[id])
    ensures id < |states[j].refs| && !Live(states[j].refs[id])
    ensures states[j].refs[id].begun == states[i].refs[id].begun && states[j].refs[id].ended == states[i].refs[id].ended
    ensures states[j].refs[id].key == states[i].refs[id].key
    decreases j - i
  {
    hide Step, Inv;
    if i < j {
      DeadStaysDead(states, labels, i, j - 1, id);
      RunKeepsInv(states, labels, j - 1);
      assert Step(states[j - 1], labels[j - 1]) == Some(states[j]);
      DeadStep(states[j - 1], labels[j - 1], states[j], id);
    }
  }

  lemma {:induction false} DeadStep(s: State, l: Label, t: State, id: nat)
    requires Inv(s) && Step(s, l) == Some(t) && id < |s.refs| && !Live(s.refs[id])
    ensures id < |t.refs| && !Live(t.refs[id]) && t.refs[id].key == s.refs[id].key
    ensures t.refs[id].begun == s.refs[id].begun && t.refs[id].ended == s.refs[id].ended
  {
    assert s.holder.Sending? ==> s.holder.id != id by {
      if s.holder.Sending? { assert GoodRef(s, s.holder.id) && Indexed(s, s.holder.id); }
    }
  }

  /** No transition after a deletion returned: from the step that drops the entry on, every
      reference that existed for the key is dead, with none of its transitions in flight, and its
      counters never move again. */
  lemma {:induction false} NoTransitionAfterStop(states: seq<State>, labels: seq<Label>, i: nat, j: nat, id: nat)
    requires IsRun(states, labels) && i < |labels| && labels[i] == Forget && i < j < |states|
    requires states[i].holder.Sent? && id < |states[i + 1].refs| && states[i + 1].refs[id].key == states[i].holder.key
    ensures id < |states[j].refs| && !Live(states[j].refs[id]) && states[j].refs[id].begun == states[j].refs[id].ended
    ensures states[j].refs[id].begun == states[i].refs[id].begun
  {
    RunKeepsInv(states, labels, i);
    RunKeepsInv(states, labels, i + 1);
    assert Step(states[i], labels[i]) == Some(states[i + 1]);
    assert !Indexed(states[i + 1], id);
    assert GoodRef(states[i + 1], id);
    DeadStaysDead(states, labels, i + 1, j, id);
  }

  // ----- What a call has done when it returns -----

  /** The call entered at step `i` has returned at `j`: the mutex is free for the first time since. */
  ghost predicate IsReturn(states: seq<State>, labels: seq<Label>, i: nat, j: nat, call: Call) {
    && i < |labels| && labels[i] == Enter(call) && i < j < |states| && states[j].holder == Free
    && forall n :: i < n < j ==> states[n].holder != Free
  }

  /** Nothing was armed or changed its duration from `s` to `t`, reference `id` apart. */
  predicate SameBut(s: State, t: State, id: int) {
    && |s.refs| <= |t.refs|
    && forall k :: 0 <= k < |s.refs| && k != id ==>
         && t.refs[k].key == s.refs[k].key && t.refs[k].duration == s.refs[k].duration
         && t.refs[k].armings == s.refs[k].armings
  }

  predicate Same(s: State, t: State) {
    t.timers == s.timers && |t.refs| == |s.refs| && SameBut(s, t, -1)
  }

  /** The key is in the map with this duration, and its timer was armed so many times. */
  predicate HasTimer(s: State, key: Key, duration: int, armings: nat) {
    && key in s.timers && s.timers[key] < |s.refs|
    && s.refs[s.timers[key]].duration == duration && s.refs[s.timers[key]].armings == armings
  }

  /** The request has been carried out, from `s` to `t`. */
  predicate Settled(s: State, q: Request, t: State) {
    match q
    case Stop(key) => t.timers == s.timers - {key} && |t.refs| == |s.refs| && SameBut(s, t, -1)
    case Nothing => Same(s, t)
    case Ensure(key, d) =>
      if key !in s.timers then
        && t.timers == s.timers[key := |s.refs|] && |t.refs| == |s.refs| + 1
        && HasTimer(t, key, d, 1) && SameBut(s, t, -1)
      else
        && t.timers == s.timers && |t.refs| == |s.refs| && SameBut(s, t, s.timers[key])
        && s.timers[key] < |s.refs|
        && var r := s.refs[s.timers[key]]; HasTimer(t, key, d, if r.duration == d then r.armings else r.armings + 1)
    case Reset(key) =>
      if key !in s.timers then Same(s, t)
      else
        && t.timers == s.timers && |t.refs| == |s.refs| && SameBut(s, t, s.timers[key])
        && s.timers[key] < |s.refs|
        && var r := s.refs[s.timers[key]]; HasTimer(t, key, r.duration, r.armings + 1)
  }

  /** How far the request has got, by the holder's position. */
  predicate Progress(s: State, q: Request, t: State) {
    match t.holder
    case Entered(request) => request == q && Same(s, t)
    case Sending(key, id) => q == Stop(key) && Same(s, t)
    case Sent(key) => q == Stop(key) && Same(s, t)
    case Leaving => Settled(s, q, t)
    case Free => Settled(s, q, t)
  }

  lemma {:induction false} StepProgresses(s: State, q: Request, t: State, l: Label, u: State)
    requires Inv(s) && Inv(t) && Progress(s, q, t) && t.holder != Free && Step(t, l) == Some(u)
    ensures Progress(s, q, u)
  {
    hide Inv, GoodRef;
    if OfRef(l) {
      RefStepTouchesNothing(t, l, u);
      UntouchedProgresses(s, q, t, u);
    } else if l == Act {
      assert Inv(t) ==> forall k :: k in t.timers ==> t.timers[k] < |t.refs| by { MapIsInRange(t); }
    }
  }

  lemma {:induction false} MapIsInRange(s: State)
    ensures Inv(s) ==> forall k :: k in s.timers ==> s.timers[k] < |s.refs|
  {
  }

  /** The same map, the same holder, and nothing armed or changed. */
  predicate Untouched(s: State, t: State) {
    && t.timers == s.timers && t.holder == s.holder && |t.refs| == |s.refs|
    && forall k :: 0 <= k < |s.refs| ==>
         && t.refs[k].key == s.refs[k].key && t.refs[k].duration == s.refs[k].duration
         && t.refs[k].armings == s.refs[k].armings
  }

  lemma {:induction false} UntouchedProgresses(s: State, q: Request, t: State, u: State)
    requires Progress(s, q, t) && Untouched(t, u)
    ensures Progress(s, q, u)
  {
  }

  /** The steps of goroutines and timers neither arm anything nor touch the map. */
  lemma {:induction false} RefStepTouchesNothing(t: State, l: Label, u: State)
    requires OfRef(l) && Step(t, l) == Some(u)
    ensures Untouched(t, u)
  {
  }

  lemma {:induction false} CallProgresses(states: seq<State>, labels: seq<Label>, i: nat, j: nat, n: nat, call: Call)
    requires IsRun(states, labels) && IsReturn(states, labels, i, j, call) && i < n <= j
    ensures Progress(states[i], RequestFor(call), states[n])
    decreases n
  {
    assert Step(states[n - 1], labels[n - 1]) == Some(states[n]);
    RunKeepsInv(states, labels, i);
    if n == i + 1 {
      assert states[n].timers == states[i].timers && states[n].refs == states[i].refs;
    } else {
      CallProgresses(states, labels, i, j, n - 1, call);
      RunKeepsInv(states, labels, n - 1);
      hide Step, Progress, Inv;
      StepProgresses(states[i], RequestFor(call), states[n - 1], labels[n - 1], states[n]);
    }
  }

  /** A trigger that cannot be read, or has no quiet-time label, has no timer once the call returned;
      other timers are as they were. Every reference of it is dead, then and later, and never begins
      another transition. */
  lemma {:induction false} StopCallStops(states: seq<State>, labels: seq<Label>, i: nat, j: nat, key: Key,
      meta: Option<map<string, string>>, parsed: Option<int>)
    requires IsRun(states, labels) && IsReturn(states, labels, i, j, Reconcile(key, meta, parsed))
    requires meta.Some? && "planner.ciena.io/quiet-time" in meta.value ==>
      meta.value["planner.ciena.io/quiet-time"] == ""
    ensures states[j].timers == states[i].timers - {key}
    ensures |states[j].refs| == |states[i].refs| && SameBut(states[i], states[j], -1)
    ensures forall id, n :: 0 <= id < |states[j].refs| && states[j].refs[id].key == key && j <= n < |states| ==>
      && id < |states[n].refs| && !Live(states[n].refs[id])
      && states[n].refs[id].begun == states[j].refs[id].begun == states[j].refs[id].ended
  {
    CallProgresses(states, labels, i, j, j, Reconcile(key, meta, parsed));
    RunKeepsInv(states, labels, j);
    forall id: nat, n: nat | id < |states[j].refs| && states[j].refs[id].key == key && j <= n < |states|
      ensures id < |states[n].refs| && !Live(states[n].refs[id])
      ensures states[n].refs[id].begun == states[j].refs[id].begun == states[j].refs[id].ended
    {
      assert GoodRef(states[j], id) && !Indexed(states[j], id);
      DeadStaysDead(states, labels, j, n, id);
    }
  }

  /** A trigger with a quiet time has a timer of that duration once the call returned, armed anew
      exactly if it is new or its duration changed; other timers are as they were. */
  lemma {:induction false} QuietTimeCallArms(states: seq<State>, labels: seq<Label>, i: nat, j: nat, key: Key,
      meta: map<string, string>, d: int)
    requires IsRun(states, labels) && IsReturn(states, labels, i, j, Reconcile(key, Some(meta), Some(d)))
    requires "planner.ciena.io/quiet-time" in meta && meta["planner.ciena.io/quiet-time"] != ""
    ensures var s, t := states[i], states[j];
      if key !in s.timers then
        t.timers == s.timers[key := |s.refs|] && HasTimer(t, key, d, 1) && SameBut(s, t, -1)
      else
        && s.timers[key] < |s.refs| && t.timers == s.timers && SameBut(s, t, s.timers[key])
        && var r := s.refs[s.timers[key]]; HasTimer(t, key, d, if r.duration == d then r.armings else r.armings + 1)
  {
    CallProgresses(states, labels, i, j, j, Reconcile(key, Some(meta), Some(d)));
  }

  /** A quiet time that does not parse changes nothing. */
  lemma {:induction false} UnparsedCallDoesNothing(states: seq<State>, labels: seq<Label>, i: nat, j: nat, key: Key,
      meta: map<string, string>)
    requires IsRun(states, labels) && IsReturn(states, labels, i, j, Reconcile(key, Some(meta), None))
    requires "planner.ciena.io/quiet-time" in meta && meta["planner.ciena.io/quiet-time"] != ""
    ensures Same(states[i], states[j])
  {
    CallProgresses(states, labels, i, j, j, Reconcile(key, Some(meta), None));
  }

  /** A reset arms the timer of a present key once more, with its own duration, and does nothing for an
      absent one. */
  lemma {:induction false} ResetCallRearms(states: seq<State>, labels: seq<Label>, i: nat, j: nat, key: Key)
    requires IsRun(states, labels) && IsReturn(states, labels, i, j, ScheduleTimerReset(key))
    ensures var s, t := states[i], states[j];
      if key !in s.timers then Same(s, t)
      else
        && s.timers[key] < |s.refs| && t.timers == s.timers && SameBut(s, t, s.timers[key])
        && var r := s.refs[s.timers[key]]; HasTimer(t, key, r.duration, r.armings + 1)
  {
    CallProgresses(states, labels, i, j, j, ScheduleTimerReset(key));
  }

  // ----- What a timer does -----

  /** An armed timer fires into its channel, a waiting goroutine takes the tick and begins a transition,
      which goes on to write the trigger exactly if it was read in another state than Schedule. */
  lemma {:induction false} ArmedTimerTransitions(s: State, id: nat, state: Option<string>)
    requires id < |s.refs| && s.refs[id].armed && s.refs[id].phase == Waiting
    ensures var fired := Step(s, Fire(id));
      && fired.Some? && fired.value.refs[id].tick && !fired.value.refs[id].armed
      && var taken := Step(fired.value, TakeTick(id));
         && taken.Some? && !taken.value.refs[id].tick && taken.value.refs[id].begun == s.refs[id].begun + 1
         && var read := Step(taken.value, ReadTrigger(id, state));
            && read.Some?
            && (Step(read.value, WriteTrigger(id)).Some? <==> state.Some? && state.value != "Schedule")
            && (Step(read.value, WriteTrigger(id)).None? ==> read.value.refs[id].ended == s.refs[id].ended + 1)
            && (Step(read.value, WriteTrigger(id)).Some? ==>
                  Step(read.value, WriteTrigger(id)).value.refs[id].ended == s.refs[id].ended + 1)
  {
  }

  /** A goroutine that took the quit signal stops its timer and is gone. */
  lemma {:induction false} StopTimerDisarms(s: State, id: nat)
    requires id < |s.refs| && s.refs[id].phase == Stopping
    ensures Step(s, StopTimer(id)).Some?
    ensures var t := Step(s, StopTimer(id)).value;
      t.refs[id].phase == Done && !t.refs[id].armed && Step(t, Fire(id)).None? && Step(t, TakeTick(id)).None?
  {
  }

  // ----- Handing over the quit signal -----

  /** How many steps a goroutine and its timer can still take without being re-armed. */
  function Rank(r: Ref): nat {
    (if r.armed then 4 else 0) + (if r.tick then 3 else 0)
    + (if r.phase == Reading then 2 else if r.phase == Writing then 1 else 0)
  }

  /** Transitions a reference can still end without being re-armed. */
  function Pending(r: Ref): nat {
    (if r.armed then 1 else 0) + (if r.tick then 1 else 0) + (if InTransition(r) then 1 else 0)
  }

  /** The mutex holder is blocked on the quit channel of `id` from step `i` to step `j`. */
  ghost predicate Blocked(states: seq<State>, i: nat, j: nat, id: nat) {
    && i <= j < |states|
    && forall n :: i <= n <= j ==> states[n].holder.Sending? && states[n].holder.id == id
  }

  /** The blocked sender's goroutine is live and has a step: it takes the signal, or goes on with
      its transition. */
  lemma {:induction false} HandoverNeverDeadlocks(states: seq<State>, labels: seq<Label>, n: nat)
    requires IsRun(states, labels) && n < |states| && states[n].holder.Sending?
    ensures var s, id := states[n], states[n].holder.id;
      && id < |s.refs| && Live(s.refs[id])
      && (s.refs[id].phase == Waiting ==> Step(s, Handover).Some?)
      && (s.refs[id].phase == Reading ==> forall state :: Step(s, ReadTrigger(id, state)).Some?)
      && (s.refs[id].phase == Writing ==> Step(s, WriteTrigger(id)).Some?)
      && (Rank(s.refs[id]) == 0 ==> s.refs[id].phase == Waiting && !s.refs[id].tick && !s.refs[id].armed)
  {
    RunKeepsInv(states, labels, n);
    assert GoodRef(states[n], states[n].holder.id) && Indexed(states[n], states[n].holder.id);
  }

  /** The number of steps between `i` and `j` taken by goroutine or timer `id`. */
  function StepsOf(labels: seq<Label>, id: nat, i: nat, j: nat): nat
    requires i <= j <= |labels|
    decreases j
  {
    if i == j then 0
    else StepsOf(labels, id, i, j - 1) + if OfRef(labels[j - 1]) && labels[j - 1].id == id then 1 else 0
  }

  lemma {:induction false} BlockedStep(s: State, l: Label, t: State, id: nat)
    requires Inv(s) && Step(s, l) == Some(t)
    requires s.holder.Sending? && s.holder.id == id && t.holder.Sending? && t.holder.id == id
    ensures id < |s.refs| && id < |t.refs|
    ensures var r, r' := s.refs[id], t.refs[id];
      && Rank(r') + (if OfRef(l) && l.id == id then 1 else 0) <= Rank(r)
      && r'.ended + Pending(r') <= r.ended + Pending(r)
      && r'.begun + (if r'.tick then 1 else 0) + (if r'.armed then 1 else 0)
         <= r.begun + (if r.tick then 1 else 0) + (if r.armed then 1 else 0)
  {
    assert GoodRef(s, id) && Indexed(s, id);
  }

  lemma {:induction false} BlockedIsIndexed(states: seq<State>, labels: seq<Label>, i: nat, id: nat)
    requires IsRun(states, labels) && i < |states| && states[i].holder.Sending? && states[i].holder.id == id
    ensures id < |states[i].refs|
  {
    RunKeepsInv(states, labels, i);
  }

  lemma {:induction false} BlockedRun(states: seq<State>, labels: seq<Label>, i: nat, j: nat, id: nat)
    requires IsRun(states, labels) && Blocked(states, i, j, id)
    ensures id < |states[i].refs| && id < |states[j].refs|
    ensures var r, r' := states[i].refs[id], states[j].refs[id];
      && Rank(r') + StepsOf(labels, id, i, j) <= Rank(r)
      && r'.ended + Pending(r') <= r.ended + Pending(r)
      && r'.begun + (if r'.tick then 1 else 0) + (if r'.armed then 1 else 0)
         <= r.begun + (if r.tick then 1 else 0) + (if r.armed then 1 else 0)
    decreases j - i
  {
    hide Step, Rank, Pending, Inv;
    if i == j {
      BlockedIsIndexed(states, labels, i, id);
    } else {
      BlockedRun(states, labels, i, j - 1, id);
      RunKeepsInv(states, labels, j - 1);
      assert Step(states[j - 1], labels[j - 1]) == Some(states[j]);
      BlockedStep(states[j - 1], labels[j - 1], states[j], id);
    }
  }

  /** Bounded handover: however long the sender stays blocked, the goroutine ends at most three
      transitions, begins at most two, and together with its timer takes at most as many steps as
      its rank when the blocking began, which is nine at most. Once it has taken that many, only
      taking the signal is left. */
  lemma {:induction false} BoundedHandover(states: seq<State>, labels: seq<Label>, i: nat, j: nat, id: nat)
    requires IsRun(states, labels) && Blocked(states, i, j, id)
    ensures id < |states[i].refs| && id < |states[j].refs|
    ensures states[j].refs[id].ended <= states[i].refs[id].ended + 3
    ensures states[j].refs[id].begun <= states[i].refs[id].begun + 2
    ensures StepsOf(labels, id, i, j) <= Rank(states[i].refs[id]) <= 9
    ensures StepsOf(labels, id, i, j) == Rank(states[i].refs[id]) ==>
      Step(states[j], Handover).Some? && forall l :: OfRef(l) && l.id == id ==> Step(states[j], l).None?
  {
    BlockedRun(states, labels, i, j, id);
    HandoverNeverDeadlocks(states, labels, j);
  }
}
