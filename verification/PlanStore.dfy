/** The plan store: clients that read a plan and write it back over a versioned API server, in
    any interleaving. Reads can fail, writes can be refused or applied without an answer. */
module PlanStore {
  import opened Cluster
  import opened Plans
  import StorageKey

  // ----- The API server -----

  datatype Object = Object(version: nat, plan: Plan)

  /** `clock` is the next resource version; versions are never reused. */
  datatype Server = Server(objects: map<Key, Object>, clock: nat)

  /** How a write request fares: answered, refused, or applied but answered with an error. */
  datatype Fate = Answered | Refused | Unanswered

  function Read(s: Server, key: Key, lost: bool): Option<Object> {
    if lost || key !in s.objects then None else Some(s.objects[key])
  }

  function PlanOf(read: Option<Object>): Option<Plan> {
    if read.None? then None else Some(read.value.plan)
  }

  function Put(s: Server, key: Key, plan: Plan): Server {
    Server(s.objects[key := Object(s.clock, plan)], s.clock + 1)
  }

  /** The server accepts a creation only if nothing is stored, a replacement only if the version
      is the one that was read, and a removal whenever something is stored. */
  predicate Accepts(s: Server, key: Key, intent: Intent, read: Option<Object>) {
    match intent
    case Create(_) => key !in s.objects
    case Replace(_) => key in s.objects && read.Some? && s.objects[key].version == read.value.version
    case Remove => key in s.objects
    case _ => false
  }

  function Written(s: Server, key: Key, intent: Intent): Server {
    match intent
    case Create(plan) => Put(s, key, plan)
    case Replace(plan) => Put(s, key, plan)
    case Remove => s.(objects := s.objects - {key})
    case _ => s
  }

  predicate Applied(s: Server, key: Key, intent: Intent, read: Option<Object>, fate: Fate) {
    Accepts(s, key, intent, read) && fate != Refused
  }

  /** The second half of every operation: the new server, and whether success is reported. */
  function Commit(s: Server, key: Key, intent: Intent, read: Option<Object>, fate: Fate): (Server, bool) {
    if intent.NoChange? then (s, true)
    else if Applied(s, key, intent, read, fate) then (Written(s, key, intent), fate == Answered)
    else (s, false)
  }

  /** The plans as the clients mean them. */
  function Contents(s: Server): map<Key, map<string, string>> {
    map k | k in s.objects :: View(s.objects[k].plan)
  }

  function At(c: map<Key, map<string, string>>, key: Key): Stored {
    if key in c then Some(c[key]) else None
  }

  function Set(c: map<Key, map<string, string>>, key: Key, v: Stored): map<Key, map<string, string>> {
    if v.Some? then c[key := v.value] else c - {key}
  }

  // ----- Clients -----

  datatype Client = Idle | Loaded(key: Key, op: Op, read: Option<Object>)

  datatype State = State(server: Server, clients: map<nat, Client>)

  datatype Label =
    | Get(c: nat, key: Key, op: Op, lost: bool)
    | Write(c: nat, order: seq<string>, fate: Fate)

  ghost predicate Next(s: State, l: Label, t: State) {
    match l
    case Get(c, key, op, lost) =>
      && c in s.clients && s.clients[c] == Idle
      && t == s.(clients := s.clients[c := Loaded(key, op, Read(s.server, key, lost))])
    case Write(c, order, fate) =>
      && c in s.clients && s.clients[c].Loaded?
      && var Loaded(key, op, read) := s.clients[c];
      && (op.Update? ==> IsOrder(order, op.assignments.Keys))
      && t == State(Commit(s.server, key, Intended(op, PlanOf(read), order), read, fate).0, s.clients[c := Idle])
  }

  /** Whether a write step reports success to the caller. */
  ghost predicate Succeeds(s: State, l: Label)
    requires l.Write? && l.c in s.clients && s.clients[l.c].Loaded?
    requires s.clients[l.c].op.Update? ==> IsOrder(l.order, s.clients[l.c].op.assignments.Keys)
  {
    var Loaded(key, op, read) := s.clients[l.c];
    Commit(s.server, key, Intended(op, PlanOf(read), l.order), read, l.fate).1
  }

  // ----- Invariant -----

  predicate GoodObject(s: Server, o: Object) {
    o.version < s.clock && Distinct(o.plan)
  }

  /** Versions identify contents: a read whose version is still current is current. */
  predicate GoodRead(s: Server, key: Key, o: Object) {
    && GoodObject(s, o)
    && (key in s.objects && s.objects[key].version == o.version ==> s.objects[key].plan == o.plan)
  }

  ghost predicate Inv(s: State) {
    && (forall k :: k in s.server.objects ==> GoodObject(s.server, s.server.objects[k]))
    && (forall c :: c in s.clients && s.clients[c].Loaded? && s.clients[c].read.Some? ==>
          GoodRead(s.server, s.clients[c].key, s.clients[c].read.value))
  }

  lemma {:induction false} NextKeepsInv(s: State, l: Label, t: State)
    requires Inv(s) && Next(s, l, t)
    ensures Inv(t)
  {
    match l
    case Get(c, key, op, lost) =>
    case Write(c, order, fate) =>
      var Loaded(key, op, read) := s.clients[c];
      hide Intended, Atomic, Distinct;
      IntentIsAtomic(op, PlanOf(read), order);
  }

  // ----- Linearization -----

  /** What a step does to the stored maps: nothing, one atomic operation, or wiping a plan. */
  datatype Effect = Silent | Did(key: Key, op: Op) | Wiped(key: Key)

  /** Operations that change nothing take effect when they read; all others when they write. A
      removal is the atomic deletion only if the plan still holds that one pod. */
  ghost function EffectOf(s: State, l: Label): Effect {
    match l
    case Get(c, key, op, lost) =>
      var read := Read(s.server, key, lost);
      if read.Some? && Atomic(op, Seen(PlanOf(read))) == Seen(PlanOf(read)) then Did(key, op) else Silent
    case Write(c, order, fate) =>
      if !(c in s.clients && s.clients[c].Loaded?) then Silent
      else
        var Loaded(key, op, read) := s.clients[c];
        if op.Update? && !IsOrder(order, op.assignments.Keys) then Silent
        else
          var intent := Intended(op, PlanOf(read), order);
          if !Applied(s.server, key, intent, read, fate) then Silent
          else if intent.Remove? && View(s.server.objects[key].plan).Keys != {op.pod} then Wiped(key)
          else Did(key, op)
  }

  ghost function Perform(c: map<Key, map<string, string>>, e: Effect): map<Key, map<string, string>> {
    match e
    case Silent => c
    case Did(key, op) => Set(c, key, Atomic(op, At(c, key)))
    case Wiped(key) => c - {key}
  }

  /** Every step is its effect: one atomic operation on the maps, or a wipe, or nothing. */
  lemma {:induction false} StepIsEffect(s: State, l: Label, t: State)
    requires Inv(s) && Next(s, l, t)
    ensures Contents(t.server) == Perform(Contents(s.server), EffectOf(s, l))
  {
    match l
    case Get(c, key, op, lost) =>
    case Write(c, order, fate) =>
      var Loaded(key, op, read) := s.clients[c];
      var intent := Intended(op, PlanOf(read), order);
      IntentIsAtomic(op, PlanOf(read), order);
      WriteIsEffect(s.server, key, op, intent, read, fate);
  }

  lemma {:induction false} WriteIsEffect(s: Server, key: Key, op: Op, intent: Intent, read: Option<Object>, fate: Fate)
    requires read.Some? ==> GoodRead(s, key, read.value)
    requires match intent
      case Create(plan) => Atomic(op, None) == Some(View(plan))
      case Replace(plan) => Atomic(op, Seen(PlanOf(read))) == Some(View(plan))
      case Remove => op.Delete?
      case _ => true
    ensures var c, c' := Contents(s), Contents(Commit(s, key, intent, read, fate).0);
      if !Applied(s, key, intent, read, fate) then c' == c
      else if intent.Remove? && c[key].Keys != {op.pod} then c' == c - {key}
      else c' == Set(c, key, Atomic(op, At(c, key)))
  {
    hide View, Distinct;
    if Applied(s, key, intent, read, fate) {
      var c, c' := Contents(s), Contents(Written(s, key, intent));
      if intent.Remove? {
        assert c' == c - {key};
      } else {
        assert c' == c[key := View(intent.plan)];
      }
    }
  }

  // ----- Whole runs -----

  ghost predicate Init(s: State) {
    && s.server.objects == map[]
    && forall c :: c in s.clients ==> s.clients[c] == Idle
  }

  ghost predicate IsRun(states: seq<State>, labels: seq<Label>) {
    && |states| == |labels| + 1 && Init(states[0])
    && forall i :: 0 <= i < |labels| ==> Next(states[i], labels[i], states[i + 1])
  }

  lemma {:induction false} RunKeepsInv(states: seq<State>, labels: seq<Label>, n: nat)
    requires IsRun(states, labels) && n < |states|
    ensures Inv(states[n])
  {
    if n > 0 {
      RunKeepsInv(states, labels, n - 1);
      NextKeepsInv(states[n - 1], labels[n - 1], states[n]);
    }
  }

  /** The effects of the first `n` steps, replayed one after the other from an empty store. */
  ghost function Replay(states: seq<State>, labels: seq<Label>, n: nat): map<Key, map<string, string>>
    requires n <= |labels| && n <= |states|
  {
    if n == 0 then map[] else Perform(Replay(states, labels, n - 1), EffectOf(states[n - 1], labels[n - 1]))
  }

  /** In every interleaving the store holds what the effects, replayed in order, produce. */
  lemma {:induction false} StoreIsReplay(states: seq<State>, labels: seq<Label>, n: nat)
    requires IsRun(states, labels) && n < |states|
    ensures Contents(states[n].server) == Replay(states, labels, n)
  {
    if n > 0 {
      StoreIsReplay(states, labels, n - 1);
      RunKeepsInv(states, labels, n - 1);
      StepIsEffect(states[n - 1], labels[n - 1], states[n]);
    } else {
      assert Contents(states[0].server) == map[];
    }
  }

  /** The steps `g` and `w` are the read and the write of one operation of client `c`. */
  ghost predicate IsOperation(labels: seq<Label>, c: nat, g: nat, w: nat) {
    && g < w < |labels|
    && labels[g].Get? && labels[g].c == c && labels[w].Write? && labels[w].c == c
    && forall i :: g < i < w ==> labels[i].c != c
  }

  lemma {:induction false} ClientWaits(states: seq<State>, labels: seq<Label>, c: nat, g: nat, w: nat)
    requires IsRun(states, labels) && g < w < |labels| && labels[g].Get? && labels[g].c == c
    requires forall i :: g < i < w ==> labels[i].c != c
    ensures c in states[w].clients
    ensures states[w].clients[c] ==
      Loaded(labels[g].key, labels[g].op, Read(states[g].server, labels[g].key, labels[g].lost))
    decreases w - g
  {
    assert Next(states[g], labels[g], states[g + 1]);
    if w > g + 1 {
      ClientWaits(states, labels, c, g, w - 1);
      assert Next(states[w - 1], labels[w - 1], states[w]);
    }
  }

  /** Linearizability: an operation that reports success took effect exactly once between its
      read and its write, as its atomic operation or, for a deletion that found only its own pod,
      as a wipe. An operation that was refused took no effect. */
  lemma {:induction false} OperationLinearizes(states: seq<State>, labels: seq<Label>, c: nat, g: nat, w: nat)
    requires IsRun(states, labels) && IsOperation(labels, c, g, w)
    ensures c in states[w].clients && states[w].clients[c].Loaded? && states[w].clients[c].op == labels[g].op
    ensures labels[g].op.Update? ==> IsOrder(labels[w].order, labels[g].op.assignments.Keys)
    ensures var key, op := labels[g].key, labels[g].op;
      var atRead, atWrite := EffectOf(states[g], labels[g]), EffectOf(states[w], labels[w]);
      && (Succeeds(states[w], labels[w]) ==>
            || (atRead == Did(key, op) && atWrite == Silent)
            || (atRead == Silent && atWrite == Did(key, op))
            || (atRead == Silent && atWrite == Wiped(key) && op.Delete?))
      && (!Succeeds(states[w], labels[w]) && labels[w].fate != Unanswered ==> atRead == Silent && atWrite == Silent)
  {
    ClientWaits(states, labels, c, g, w);
    RunKeepsInv(states, labels, g);
    var s, l := states[w], labels[w];
    assert Next(s, l, states[w + 1]);
    var Loaded(key, op, read) := s.clients[c];
    assert read.Some? ==> Distinct(read.value.plan);
    OneEffect(s.server, key, op, read, l.order, l.fate);
  }

  /** An intent changes nothing exactly when the atomic operation changes nothing. */
  lemma {:induction false} OneEffect(s: Server, key: Key, op: Op, read: Option<Object>, order: seq<string>, fate: Fate)
    requires read.Some? ==> Distinct(read.value.plan)
    requires op.Update? ==> IsOrder(order, op.assignments.Keys)
    ensures var intent := Intended(op, PlanOf(read), order);
      && (intent.NoChange? <==> read.Some? && Atomic(op, Seen(PlanOf(read))) == Seen(PlanOf(read)))
      && (intent.Remove? ==> op.Delete?)
  {
    var intent := Intended(op, PlanOf(read), order);
    IntentIsAtomic(op, PlanOf(read), order);
    if read.Some? {
      match op
      case Update(a) =>
        EntriesAre(order, a);
        UpdateReplaces(a, read.value.plan, Entries(order, a));
      case UpdateAssignment(pod, node) =>
        InRenamed(pod, node, read.value.plan);
        if intent.Replace? { AssignChanges(pod, node, read.value.plan); }
      case Delete(pod) =>
        PodsAreKeys(read.value.plan);
    }
  }

  lemma {:induction false} AssignChanges(pod: string, node: string, plan: Plan)
    requires Distinct(plan) && Renamed(pod, node, plan) != []
    ensures pod in View(plan) && View(plan)[pod] != node
  {
    InRenamed(pod, node, plan);
    var e :| e in plan && Stale(pod, node, e);
    ViewHas(plan, pod, e.node);
    assert e == Entry(pod, e.node);
  }

  // ----- What can be lost, and what cannot -----

  /** Only a wipe can drop an entry the writer had not read. */
  lemma {:induction false} OnlyWipesLoseUnreadEntries(s: State, l: Label, t: State, k: Key, pod: string)
    requires Inv(s) && Next(s, l, t)
    requires k in s.server.objects && pod in View(s.server.objects[k].plan)
    requires k !in t.server.objects || pod !in View(t.server.objects[k].plan)
    ensures l.Write? && s.clients[l.c].key == k
    ensures EffectOf(s, l) == Wiped(k)
      || (s.clients[l.c].read.Some? && pod in View(s.clients[l.c].read.value.plan))
  {
    assert l.Write?;
    var Loaded(key, op, read) := s.clients[l.c];
    var intent := Intended(op, PlanOf(read), l.order);
    IntentIsAtomic(op, PlanOf(read), l.order);
    hide Intended, View, Distinct, Atomic;
    assert Applied(s.server, key, intent, read, l.fate) && key == k;
    if intent.Remove? && View(s.server.objects[k].plan).Keys == {op.pod} {
      assert pod == op.pod;
    }
  }

  /** Operations on one pod set never change the plan of another. */
  lemma {:induction false} PodSetIsolation(s: State, l: Label, t: State, hash: (string, string) -> nat, ns: string,
      podset: string, ns': string, podset': string)
    requires Next(s, l, t) && l.Write?
    requires s.clients[l.c].key == Key(ns, StorageKey.Name(hash, ns, podset)) && (ns, podset) != (ns', podset')
    ensures var k := Key(ns', StorageKey.Name(hash, ns', podset'));
      && (k in t.server.objects <==> k in s.server.objects)
      && (k in s.server.objects ==> t.server.objects[k] == s.server.objects[k])
  {
    StorageKey.NamesAreDistinct(hash, ns, podset, ns', podset');
    hide StorageKey.Name, Intended;
  }

  /** The plugin only stores assignments that contain the pod at hand. */
  predicate NonEmpty(op: Op) {
    op.Update? ==> op.assignments != map[]
  }

  ghost predicate NoEmptyPlan(s: State) {
    && (forall k :: k in s.server.objects ==> s.server.objects[k].plan != [])
    && (forall c :: c in s.clients && s.clients[c].Loaded? ==> NonEmpty(s.clients[c].op))
  }

  /** Well-formed plans in every reachable state: no pod twice, and, if no caller stores an empty
      assignment, no empty plan; so first-match lookup is the map. */
  lemma {:induction false} StoredPlansAreWellFormed(states: seq<State>, labels: seq<Label>, n: nat, k: Key)
    requires IsRun(states, labels) && n < |states| && k in states[n].server.objects
    ensures var plan := states[n].server.objects[k].plan;
      && Distinct(plan)
      && ((forall i :: 0 <= i < |labels| && labels[i].Get? ==> NonEmpty(labels[i].op)) ==> plan != [])
      && forall pod, node :: Lookup(plan, pod) == Some(node) <==> pod in View(plan) && View(plan)[pod] == node
  {
    RunKeepsInv(states, labels, n);
    var plan := states[n].server.objects[k].plan;
    if forall i :: 0 <= i < |labels| && labels[i].Get? ==> NonEmpty(labels[i].op) {
      RunKeepsNonEmpty(states, labels, n);
    }
    forall pod, node
      ensures Lookup(plan, pod) == Some(node) <==> pod in View(plan) && View(plan)[pod] == node
    {
      LookupIsMembership(plan, pod, node);
    }
  }

  lemma {:induction false} RunKeepsNonEmpty(states: seq<State>, labels: seq<Label>, n: nat)
    requires IsRun(states, labels) && n < |states|
    requires forall i :: 0 <= i < |labels| && labels[i].Get? ==> NonEmpty(labels[i].op)
    ensures NoEmptyPlan(states[n])
  {
    if n > 0 {
      RunKeepsNonEmpty(states, labels, n - 1);
      RunKeepsInv(states, labels, n - 1);
      NextKeepsNonEmpty(states[n - 1], labels[n - 1], states[n]);
    }
  }

  lemma {:induction false} NextKeepsNonEmpty(s: State, l: Label, t: State)
    requires Inv(s) && NoEmptyPlan(s) && Next(s, l, t) && (l.Get? ==> NonEmpty(l.op))
    ensures NoEmptyPlan(t)
  {
    match l
    case Get(c, key, op, lost) =>
    case Write(c, order, fate) =>
      var Loaded(key, op, read) := s.clients[c];
      IntentIsAtomic(op, PlanOf(read), order);
      hide Intended, Atomic, Distinct, View;
  }

  /** A deletion that read only its own pod, and whose request is applied, always drops the whole
      object. On the stored maps that is the atomic deletion exactly while the plan still holds
      that one pod and no other. */
  lemma {:induction false} EmptyingDeleteIsAtomicIff(s: State, l: Label, t: State)
    requires Inv(s) && Next(s, l, t) && l.Write? && l.fate != Refused
    requires s.clients[l.c].op.Delete? && s.clients[l.c].read.Some?
    requires View(s.clients[l.c].read.value.plan).Keys == {s.clients[l.c].op.pod}
    ensures var Loaded(key, op, _) := s.clients[l.c];
      var c, c' := Contents(s.server), Contents(t.server);
      && (Succeeds(s, l) <==> key in s.server.objects && l.fate == Answered)
      && c' == c - {key}
      && (key in s.server.objects ==>
            (c' == Set(c, key, Atomic(op, At(c, key))) <==> View(s.server.objects[key].plan).Keys == {op.pod}))
  {
    var Loaded(key, op, read) := s.clients[l.c];
    EmptyingIntent(op.pod, read.value.plan, l.order);
    var c := Contents(s.server);
    hide Intended, View, Keep, Distinct;
    assert Contents(t.server) == c - {key};
    if key in s.server.objects && c[key].Keys != {op.pod} {
      assert key in Set(c, key, Atomic(op, At(c, key)));
    }
  }

  lemma {:induction false} EmptyingIntent(pod: string, plan: Plan, order: seq<string>)
    requires Distinct(plan) && View(plan).Keys == {pod}
    ensures Intended(Delete(pod), Some(plan), order) == Remove
  {
    PodsAreKeys(plan);
    DeleteRemoves(pod, plan);
    OnlyKey(View(plan), pod);
    PodsAreKeys(Keep(Others(pod), plan));
  }

  // A run in which that happens: client 2 stores pod a, client 1 reads the plan to delete a,
  // client 2 adds b, and client 1 removes the object.

  function RaceOps(): (Op, Op) { (Update(map["a" := "n"]), Update(map["a" := "n", "b" := "m"])) }

  function RaceLabels(key: Key): seq<Label> {
    [Get(2, key, RaceOps().0, false), Write(2, ["a"], Answered), Get(1, key, Delete("a"), false),
     Get(2, key, RaceOps().1, false), Write(2, ["a", "b"], Answered), Write(1, [], Answered)]
  }

  function RaceStates(key: Key): seq<State> {
    var idle: map<nat, Client> := map[1 := Idle, 2 := Idle];
    var o1, o2 := Object(0, [Entry("a", "n")]), Object(1, [Entry("a", "n"), Entry("b", "m")]);
    var deleting := idle[1 := Loaded(key, Delete("a"), Some(o1))];
    [State(Server(map[], 0), idle),
     State(Server(map[], 0), idle[2 := Loaded(key, RaceOps().0, None)]),
     State(Server(map[key := o1], 1), idle),
     State(Server(map[key := o1], 1), deleting),
     State(Server(map[key := o1], 1), deleting[2 := Loaded(key, RaceOps().1, Some(o1))]),
     State(Server(map[key := o2], 2), deleting),
     State(Server(map[], 2), idle)]
  }

  lemma {:induction false} RaceReads(key: Key)
    ensures forall i :: i in {0, 2, 3} ==> Next(RaceStates(key)[i], RaceLabels(key)[i], RaceStates(key)[i + 1])
  {
  }

  lemma {:induction false} RaceFirstWrite(key: Key)
    ensures Next(RaceStates(key)[1], RaceLabels(key)[1], RaceStates(key)[2])
  {
    StoresA();
    assert RaceStates(key)[2].clients == RaceStates(key)[1].clients[2 := Idle];
  }

  lemma {:induction false} RaceSecondWrite(key: Key)
    ensures Next(RaceStates(key)[4], RaceLabels(key)[4], RaceStates(key)[5])
  {
    hide Keep, Entries;
    AddsB([Entry("a", "n")], [Entry("a", "n"), Entry("b", "m")]);
    assert RaceStates(key)[5].clients == RaceStates(key)[4].clients[2 := Idle];
  }

  lemma {:induction false} RaceRemoval(key: Key)
    ensures Next(RaceStates(key)[5], RaceLabels(key)[5], RaceStates(key)[6])
  {
    RemovesA([Entry("a", "n")]);
    assert RaceStates(key)[6].clients == RaceStates(key)[5].clients[1 := Idle];
    assert RaceStates(key)[5].server.objects - {key} == map[];
  }

  lemma {:induction false} RaceIsRun(key: Key)
    ensures IsRun(RaceStates(key), RaceLabels(key))
  {
    hide Next;
    RaceReads(key);
    RaceFirstWrite(key);
    RaceSecondWrite(key);
    RaceRemoval(key);
    forall i | 0 <= i < 6
      ensures Next(RaceStates(key)[i], RaceLabels(key)[i], RaceStates(key)[i + 1])
    {
      assert i == 0 || i == 1 || i == 2 || i == 3 || i == 4 || i == 5;
    }
  }

  lemma {:induction false} StaleDeleteLosesAnEntry(key: Key)
    ensures IsRun(RaceStates(key), RaceLabels(key))
    ensures "b" in View(RaceStates(key)[5].server.objects[key].plan) && key !in RaceStates(key)[6].server.objects
    ensures EffectOf(RaceStates(key)[5], RaceLabels(key)[5]) == Wiped(key)
    ensures var c := Contents(RaceStates(key)[5].server);
      Contents(RaceStates(key)[6].server) != Set(c, key, Atomic(Delete("a"), At(c, key)))
  {
    RaceIsRun(key);
    hide IsRun, Next;
    var two := [Entry("a", "n"), Entry("b", "m")];
    LookupIsMembership(two, "b", "m");
    assert Entry("b", "m") in two;
    RemovesA([Entry("a", "n")]);
  }

  lemma {:induction false} StoresA()
    ensures UpdateIntent(map["a" := "n"], None, ["a"]) == Create([Entry("a", "n")])
  {
    assert ["a"][..0] == [];
  }

  lemma {:induction false} AddsB(one: Plan, two: Plan)
    requires one == [Entry("a", "n")] && two == [Entry("a", "n"), Entry("b", "m")]
    ensures UpdateIntent(map["a" := "n", "b" := "m"], Some(one), ["a", "b"]) == Replace(two)
  {
    var a := map["a" := "n", "b" := "m"];
    assert ["a", "b"][..1] == ["a"] && ["a"][..0] == [];
    assert Entries(["a"], a) == one;
    assert Entries(["a", "b"], a) == two;
    assert two[..1] == one && one[..0] == [];
    assert one[0] in one;
    assert Keep(NotIn(one), []) == [] && Keep(In(one), []) == [];
    assert Keep(NotIn(one), one) == [] && Keep(In(one), one) == one;
    assert Keep(NotIn(one), two) == [Entry("b", "m")] && Keep(In(one), two) == one;
  }

  lemma {:induction false} RemovesA(one: Plan)
    requires one == [Entry("a", "n")]
    ensures DeleteIntent("a", Some(one)) == Remove
  {
    assert one[..0] == [];
    assert one[0] in one;
    assert Keep(Others("a"), one) == [];
  }

  // ----- The client object -----

  /** One whole operation with nothing in between. */
  function Run(s: Server, key: Key, op: Op, order: seq<string>, lost: bool, fate: Fate): (Server, bool)
    requires op.Update? ==> forall p :: p in order ==> p in op.assignments
  {
    var read := Read(s, key, lost);
    Commit(s, key, Intended(op, PlanOf(read), order), read, fate)
  }

  ghost predicate GoodServer(s: Server) {
    forall k :: k in s.objects ==> GoodObject(s, s.objects[k])
  }

  /** Undisturbed, a successful operation is its atomic operation, deletions included, and
      touches no other plan; a refused one changes nothing. */
  lemma {:induction false} UndisturbedIsAtomic(s: Server, key: Key, op: Op, order: seq<string>, lost: bool, fate: Fate)
    requires GoodServer(s) && (op.Update? ==> IsOrder(order, op.assignments.Keys))
    ensures var (t, ok) := Run(s, key, op, order, lost, fate);
      && GoodServer(t)
      && (ok ==> Contents(t) == Set(Contents(s), key, Atomic(op, At(Contents(s), key))))
      && (!ok && fate != Unanswered ==> t == s)
  {
    var read := Read(s, key, lost);
    var intent := Intended(op, PlanOf(read), order);
    IntentIsAtomic(op, PlanOf(read), order);
    WriteIsEffect(s, key, op, intent, read, fate);
    if intent.NoChange? {
      assert At(Contents(s), key) == Seen(PlanOf(read));
      assert Contents(s) == Set(Contents(s), key, At(Contents(s), key));
    }
  }

  /** When an undisturbed operation reports success. If the plan cannot be read, a deletion fails and
      the others try to create the object; if it can, an operation that has nothing to change succeeds
      at once, and any other exactly if its write is answered. */
  lemma {:induction false} RunSucceedsIff(s: Server, key: Key, op: Op, order: seq<string>, lost: bool, fate: Fate)
    requires GoodServer(s) && (op.Update? ==> IsOrder(order, op.assignments.Keys))
    ensures Run(s, key, op, order, lost, fate).1 <==>
      if lost || key !in s.objects then !op.Delete? && key !in s.objects && fate == Answered
      else Atomic(op, At(Contents(s), key)) == At(Contents(s), key) || fate == Answered
  {
    var read := Read(s, key, lost);
    IntentIsAtomic(op, PlanOf(read), order);
    OneEffect(s, key, op, read, order, fate);
    assert read.Some? ==> At(Contents(s), key) == Seen(PlanOf(read));
    hide Intended, Atomic, Distinct, View, Contents;
  }

  /** An operation leaves the objects of all other keys as they were. */
  ghost predicate SameObject(s: Server, t: Server, k: Key) {
    (k in t.objects <==> k in s.objects) && (k in s.objects ==> t.objects[k] == s.objects[k])
  }

  lemma {:induction false} RunTouchesOnlyKey(s: Server, key: Key, op: Op, order: seq<string>, lost: bool,
      fate: Fate, k: Key)
    requires (op.Update? ==> forall p :: p in order ==> p in op.assignments) && k != key
    ensures SameObject(s, Run(s, key, op, order, lost, fate).0, k)
  {
    hide Intended;
  }

  /** A successful update leaves exactly its assignments exactly if the stored plan held something
      else for one of them, or nothing beyond them; otherwise entries it does not name stay. */
  lemma {:induction false} UpdateReplacesPlanIff(s: Server, key: Key, a: map<string, string>, order: seq<string>,
      lost: bool, fate: Fate)
    requires GoodServer(s) && IsOrder(order, a.Keys) && Run(s, key, Update(a), order, lost, fate).1
    ensures var c, c' := Contents(s), Contents(Run(s, key, Update(a), order, lost, fate).0);
      && key in c'
      && (c'[key] == a <==> (key in c && a.Items <= c[key].Items ==> c[key].Items <= a.Items))
      && (c'[key] != a ==> c' == c)
  {
    UndisturbedIsAtomic(s, key, Update(a), order, lost, fate);
    hide Run;
    var c := Contents(s);
    if key in c && a.Items <= c[key].Items {
      if c[key].Items <= a.Items {
        assert c[key].Items == a.Items;
        SameItems(c[key], a);
      }
    }
  }

  lemma {:induction false} SameItems(a: map<string, string>, b: map<string, string>)
    requires a.Items == b.Items
    ensures a == b
  {
    forall k ensures k in a <==> k in b {
      if k in a { assert (k, a[k]) in b.Items; }
      if k in b { assert (k, b[k]) in a.Items; }
    }
    forall k | k in a ensures a[k] == b[k] {
      assert (k, a[k]) in b.Items;
    }
  }

  /** An update that names one of two stored pods, with its stored node, keeps the other. */
  lemma {:induction false} UpdateKeepsStaleEntry(key: Key)
    ensures var s := Server(map[key := Object(0, [Entry("a", "n"), Entry("b", "m")])], 1);
      GoodServer(s) && Run(s, key, Update(map["a" := "n"]), ["a"], false, Answered) == (s, true)
  {
    var plan := [Entry("a", "n"), Entry("b", "m")];
    assert ["a"][..0] == [];
    var entries := Entries(["a"], map["a" := "n"]);
    assert entries == [plan[0]] && entries[..0] == [];
    assert plan[0] in plan;
    assert Keep(NotIn(plan), entries) == [];
    assert "a"[0] != "b"[0];
  }

  /** A pod to be taken out of a stored plan. */
  datatype Deletion = Deletion(key: Key, pod: string)

  /** The deletion, and whether it has to be repeated. */
  function Removed(s: Server, d: Deletion, lost: bool, fate: Fate): (Server, bool) {
    var (t, ok) := Run(s, d.key, Delete(d.pod), [], lost, fate);
    (t, !ok && Read(s, d.key, lost).Some?)
  }

  /** An undisturbed deletion that need not be repeated has left no entry of its pod, unless the
      plan could not be read; and none ever changes an entry of another pod. */
  lemma {:induction false} RemovedIsGone(s: Server, d: Deletion, lost: bool, fate: Fate)
    requires GoodServer(s)
    ensures var (t, again) := Removed(s, d, lost, fate);
      && GoodServer(t)
      && (!again && !lost ==> d.key !in Contents(t) || d.pod !in Contents(t)[d.key])
      && (forall k, p: string :: p != d.pod || k != d.key ==>
            (k in Contents(t) && p in Contents(t)[k] <==> k in Contents(s) && p in Contents(s)[k]))
  {
    var c := Contents(s);
    RemovedOrSame(s, d, lost, fate);
    DeletionFrame(c, d.key, d.pod);
  }

  lemma {:induction false} DeletionFrame(c: map<Key, map<string, string>>, key: Key, pod: string)
    ensures var c' := Set(c, key, Atomic(Delete(pod), At(c, key)));
      && (key !in c' || pod !in c'[key])
      && (forall k, p: string :: p != pod || k != key ==> (k in c' && p in c'[k] <==> k in c && p in c[k]))
  {
  }

  lemma {:induction false} RemovedOrSame(s: Server, d: Deletion, lost: bool, fate: Fate)
    requires GoodServer(s)
    ensures var (t, again) := Removed(s, d, lost, fate);
      var c, c' := Contents(s), Contents(t);
      var c'' := Set(c, d.key, Atomic(Delete(d.pod), At(c, d.key)));
      && GoodServer(t)
      && (c' == c'' || (c' == c && (again || lost || d.key !in c)))
  {
    UndisturbedIsAtomic(s, d.key, Delete(d.pod), [], lost, fate);
    UndisturbedIsAtomic(s, d.key, Delete(d.pod), [], lost, Answered);
    hide Intended, GoodServer, Atomic, Set;
    assert d.key !in s.objects ==> d.key !in Contents(s);
    hide Contents;
  }

  class SchedulePlannerClient {
    var objects: map<Key, Object>
    var clock: nat

    constructor ()
      ensures objects == map[] && clock == 0
    {
      objects, clock := map[], 0;
    }

    ghost function Remote(): Server
      reads this
    {
      Server(objects, clock)
    }

    method Get(key: Key, lost: bool) returns (read: Option<Object>)
      ensures read == Read(Remote(), key, lost)
    {
      if lost || key !in objects {
        return None;
      }
      read := Some(objects[key]);
    }

    /** The write request of every operation. */
    method Send(key: Key, intent: Intent, read: Option<Object>, fate: Fate) returns (ok: bool)
      modifies this
      ensures (Remote(), ok) == Commit(old(Remote()), key, intent, read, fate)
    {
      ok := fate == Answered;
      match intent
      case GiveUp => ok := false;
      case NoChange => ok := true;
      case Create(plan) =>
        if key in objects || fate == Refused { return false; }
        objects, clock := objects[key := Object(clock, plan)], clock + 1;
      case Replace(plan) =>
        if key !in objects || read.None? || objects[key].version != read.value.version || fate == Refused {
          return false;
        }
        objects, clock := objects[key := Object(clock, plan)], clock + 1;
      case Remove =>
        if key !in objects || fate == Refused { return false; }
        objects := objects - {key};
    }

    method Update(key: Key, assignments: map<string, string>, lost: bool, fate: Fate)
      returns (ok: bool, ghost order: seq<string>)
      modifies this
      ensures IsOrder(order, assignments.Keys)
      ensures (Remote(), ok) == Run(old(Remote()), key, Op.Update(assignments), order, lost, fate)
    {
      var walk := AnyOrder(assignments.Keys);
      order := walk;
      var read := Get(key, lost);
      var intent := PlanUpdate(assignments, if read.None? then None else Some(read.value.plan), walk);
      ok := Send(key, intent, read, fate);
    }

    method UpdateAssignment(key: Key, pod: string, node: string, lost: bool, fate: Fate) returns (ok: bool)
      modifies this
      ensures (Remote(), ok) == Run(old(Remote()), key, Op.UpdateAssignment(pod, node), [], lost, fate)
    {
      var read := Get(key, lost);
      var intent := PlanAssignment(pod, node, if read.None? then None else Some(read.value.plan));
      ok := Send(key, intent, read, fate);
    }

    /** `retry`: the plan was read, but the write failed. */
    method Delete(key: Key, pod: string, lost: bool, fate: Fate) returns (ok: bool, retry: bool)
      modifies this
      ensures (Remote(), ok) == Run(old(Remote()), key, Op.Delete(pod), [], lost, fate)
      ensures (Remote(), retry) == Removed(old(Remote()), Deletion(key, pod), lost, fate)
    {
      var read := Get(key, lost);
      var intent := PlanDelete(pod, if read.None? then None else Some(read.value.plan));
      ok := Send(key, intent, read, fate);
      retry := if read.None? then false else !ok;
    }

    method CheckIfPodPresent(key: Key, pod: string, lost: bool) returns (node: Option<string>)
      ensures node == if lost || key !in objects then None else Lookup(objects[key].plan, pod)
    {
      var read := Get(key, lost);
      if read.None? {
        return None;
      }
      node := FindPod(read.value.plan, pod);
    }
  }

  /** Go's map iteration: any order of the keys. */
  method AnyOrder(keys: set<string>) returns (order: seq<string>)
    ensures IsOrder(order, keys)
  {
    order := [];
    var todo := keys;
    while todo != {}
      invariant todo <= keys
      invariant forall i, j :: 0 <= i < j < |order| ==> order[i] != order[j]
      invariant forall p :: p in order <==> p in keys && p !in todo
    {
      var p :| p in todo;
      order := order + [p];
      todo := todo - {p};
    }
  }
}
