/** The stored plan as a list of entries, and how each client operation rewrites it. */
module Plans {
  import opened Cluster

  datatype Entry = Entry(pod: string, node: string)

  type Plan = seq<Entry>

  /** Each pod is named at most once. */
  predicate Distinct(plan: Plan) {
    forall i, j :: 0 <= i < j < |plan| ==> plan[i].pod != plan[j].pod
  }

  /** `CheckIfPodPresent`: the first entry that names the pod. */
  function Lookup(plan: Plan, pod: string): Option<string> {
    if plan == [] then None
    else if plan[0].pod == pod then Some(plan[0].node)
    else Lookup(plan[1..], pod)
  }

  method FindPod(plan: Plan, pod: string) returns (r: Option<string>)
    ensures r == Lookup(plan, pod)
  {
    for i := 0 to |plan|
      invariant Lookup(plan, pod) == Lookup(plan[i..], pod)
    {
      if plan[i].pod == pod {
        return Some(plan[i].node);
      }
      assert plan[i..][1..] == plan[i + 1..];
    }
    r := None;
  }

  /** On any plan the first entry that names the pod counts. */
  lemma {:induction false} LookupIsFirst(plan: Plan, pod: string)
    ensures Lookup(plan, pod).None? <==> forall e :: e in plan ==> e.pod != pod
    ensures forall i :: 0 <= i < |plan| && plan[i].pod == pod && (forall j :: 0 <= j < i ==> plan[j].pod != pod) ==>
      Lookup(plan, pod) == Some(plan[i].node)
  {
    if plan != [] {
      LookupIsFirst(plan[1..], pod);
      assert plan == [plan[0]] + plan[1..];
      forall i | 0 <= i < |plan| && plan[i].pod == pod && (forall j :: 0 <= j < i ==> plan[j].pod != pod)
        ensures Lookup(plan, pod) == Some(plan[i].node)
      {
        if i > 0 {
          assert plan[1..][i - 1] == plan[i];
          assert forall j :: 0 <= j < i - 1 ==> plan[1..][j] == plan[j + 1];
        }
      }
    }
  }

  /** The plan as a map. */
  function View(plan: Plan): (m: map<string, string>)
    ensures forall p :: p in m ==> Lookup(plan, p) == Some(m[p])
  {
    map p | p in Pods(plan) && Lookup(plan, p).Some? :: Lookup(plan, p).value
  }

  function Pods(plan: Plan): set<string> {
    set e | e in plan :: e.pod
  }

  /** Without repetitions, first-match lookup, the map and membership all agree. */
  lemma {:induction false} LookupIsMembership(plan: Plan, pod: string, node: string)
    requires Distinct(plan)
    ensures Lookup(plan, pod) == Some(node) <==> Entry(pod, node) in plan
    ensures Lookup(plan, pod) == Some(node) <==> pod in View(plan) && View(plan)[pod] == node
  {
    if plan != [] {
      assert plan == [plan[0]] + plan[1..];
      LookupIsMembership(plan[1..], pod, node);
      if Entry(pod, node) in plan[1..] {
        var k :| 0 <= k < |plan[1..]| && plan[1..][k] == Entry(pod, node);
        assert plan[k + 1].pod == pod;
      }
    }
    if Entry(pod, node) in plan {
      assert Entry(pod, node).pod in Pods(plan);
    }
  }

  /** A repetition-free plan is characterised by its entries. */
  lemma {:induction false} ViewIs(plan: Plan, m: map<string, string>)
    requires Distinct(plan)
    requires forall p, n :: Entry(p, n) in plan <==> p in m && m[p] == n
    ensures View(plan) == m
  {
    forall p
      ensures p in View(plan) <==> p in m
      ensures p in m ==> View(plan)[p] == m[p]
    {
      if p in m { LookupIsMembership(plan, p, m[p]); assert Entry(p, m[p]) in plan; }
      if p in View(plan) { LookupIsMembership(plan, p, View(plan)[p]); assert Entry(p, View(plan)[p]) in plan; }
    }
  }

  lemma {:induction false} ViewHas(plan: Plan, p: string, n: string)
    requires Distinct(plan)
    ensures Entry(p, n) in plan <==> p in View(plan) && View(plan)[p] == n
  {
    LookupIsMembership(plan, p, n);
  }

  // ----- Filtering entries -----

  function Keep(f: Entry -> bool, plan: Plan): Plan {
    if plan == [] then []
    else Keep(f, plan[..|plan| - 1]) + if f(plan[|plan| - 1]) then [plan[|plan| - 1]] else []
  }

  function In(plan: Plan): Entry -> bool { (e: Entry) => e in plan }

  function NotIn(plan: Plan): Entry -> bool { (e: Entry) => e !in plan }

  function Current(pod: string, node: string): Entry -> bool { (e: Entry) => !Stale(pod, node, e) }

  function Others(pod: string): Entry -> bool { (e: Entry) => e.pod != pod }

  lemma {:induction false} InKeep(f: Entry -> bool, plan: Plan, e: Entry)
    ensures e in Keep(f, plan) <==> e in plan && f(e)
  {
    if plan != [] {
      InKeep(f, plan[..|plan| - 1], e);
      assert plan == plan[..|plan| - 1] + [plan[|plan| - 1]];
    }
  }

  lemma {:induction false} KeepIsDistinct(f: Entry -> bool, plan: Plan)
    requires Distinct(plan)
    ensures Distinct(Keep(f, plan))
  {
    if plan != [] {
      var n := |plan| - 1;
      KeepIsDistinct(f, plan[..n]);
      forall e | e in Keep(f, plan[..n])
        ensures e.pod != plan[n].pod
      {
        InKeep(f, plan[..n], e);
      }
    }
  }

  lemma {:induction false} ConcatIsDistinct(a: Plan, b: Plan)
    requires Distinct(a) && Distinct(b)
    requires forall x, y :: x in a && y in b ==> x.pod != y.pod
    ensures Distinct(a + b)
  {
  }

  // ----- Update -----

  /** Some order in which the map of assignments is walked. */
  ghost predicate IsOrder(order: seq<string>, keys: set<string>) {
    && (forall i, j :: 0 <= i < j < |order| ==> order[i] != order[j])
    && (forall p :: p in order <==> p in keys)
  }

  function Entries(order: seq<string>, a: map<string, string>): Plan
    requires forall p :: p in order ==> p in a
  {
    if order == [] then []
    else
      var n := |order| - 1;
      Entries(order[..n], a) + [Entry(order[n], a[order[n]])]
  }

  lemma {:induction false} EntriesAre(order: seq<string>, a: map<string, string>)
    requires IsOrder(order, a.Keys)
    ensures Distinct(Entries(order, a)) && View(Entries(order, a)) == a
    ensures forall p, n :: Entry(p, n) in Entries(order, a) <==> p in a && a[p] == n
    ensures |Entries(order, a)| == |order|
  {
    EntriesAt(order, a);
    var es := Entries(order, a);
    forall p, n
      ensures Entry(p, n) in es <==> p in a && a[p] == n
    {
      if p in a && a[p] == n {
        var k :| 0 <= k < |order| && order[k] == p;
        assert es[k] == Entry(p, n);
      }
    }
    ViewIs(es, a);
  }

  lemma {:induction false} EntriesAt(order: seq<string>, a: map<string, string>)
    requires forall p :: p in order ==> p in a
    ensures |Entries(order, a)| == |order|
    ensures forall i :: 0 <= i < |order| ==> Entries(order, a)[i] == Entry(order[i], a[order[i]])
  {
    if order != [] {
      EntriesAt(order[..|order| - 1], a);
    }
  }

  /** What an operation asks the API server to do, once it has seen the stored plan. */
  datatype Intent =
    | GiveUp                 // an error is returned without a write
    | NoChange               // success is returned without a write
    | Create(plan: Plan)
    | Replace(plan: Plan)    // guarded by the version that was read
    | Remove                 // not guarded

  datatype Op =
    | Update(assignments: map<string, string>)
    | UpdateAssignment(pod: string, node: string)
    | Delete(pod: string)

  function Intended(op: Op, read: Option<Plan>, order: seq<string>): Intent
    requires op.Update? ==> forall p :: p in order ==> p in op.assignments
  {
    match op
    case Update(a) => UpdateIntent(a, read, order)
    case UpdateAssignment(pod, node) => AssignIntent(pod, node, read)
    case Delete(pod) => DeleteIntent(pod, read)
  }

  function UpdateIntent(a: map<string, string>, read: Option<Plan>, order: seq<string>): Intent
    requires forall p :: p in order ==> p in a
  {
    match read
    case None => Create(Entries(order, a))
    case Some(plan) =>
      var added := Keep(NotIn(plan), Entries(order, a));
      var current := Keep(In(plan), Entries(order, a));
      if added == [] then NoChange else Replace(current + added)
  }

  method NewEntries(a: map<string, string>, order: seq<string>) returns (newPlan: Plan)
    requires IsOrder(order, a.Keys)
    ensures newPlan == Entries(order, a)
  {
    newPlan := [];
    for i := 0 to |order|
      invariant newPlan == Entries(order[..i], a)
    {
      assert order[..i + 1][..i] == order[..i];
      newPlan := newPlan + [Entry(order[i], a[order[i]])];
    }
    assert order[..|order|] == order;
  }

  lemma {:induction false} KeepNone(f: Entry -> bool, a: map<string, string>)
    ensures Keep(f, Entries([], a)) == []
  {
  }

  lemma {:induction false} KeepOneMore(f: Entry -> bool, order: seq<string>, i: nat, a: map<string, string>)
    requires i < |order| && forall p :: p in order ==> p in a
    ensures Keep(f, Entries(order[..i + 1], a)) == Keep(f, Entries(order[..i], a))
      + if f(Entry(order[i], a[order[i]])) then [Entry(order[i], a[order[i]])] else []
  {
    assert order[..i + 1][..i] == order[..i];
    assert Entries(order[..i + 1], a)[..|Entries(order[..i], a)|] == Entries(order[..i], a);
  }

  method PlanUpdate(a: map<string, string>, read: Option<Plan>, order: seq<string>) returns (intent: Intent)
    requires IsOrder(order, a.Keys)
    ensures intent == UpdateIntent(a, read, order)
  {
    if read.None? {
      var created := NewEntries(a, order);
      return Create(created);
    }
    var presence: set<Entry> := {};
    for i := 0 to |read.value|
      invariant forall e :: e in presence <==> e in read.value[..i]
    {
      presence := presence + {read.value[i]};
    }
    assert read.value[..|read.value|] == read.value;
    var newPlan: Plan, currentPlan: Plan := [], [];
    KeepNone(NotIn(read.value), a);
    KeepNone(In(read.value), a);
    hide IsOrder, Keep, Entries;
    for i := 0 to |order|
      invariant newPlan == Keep(NotIn(read.value), Entries(order[..i], a))
      invariant currentPlan == Keep(In(read.value), Entries(order[..i], a))
    {
      KeepOneMore(NotIn(read.value), order, i, a);
      KeepOneMore(In(read.value), order, i, a);
      var spec := Entry(order[i], a[order[i]]);
      if spec !in presence {
        newPlan := newPlan + [spec];
      } else {
        currentPlan := currentPlan + [spec];
      }
    }
    assert order[..|order|] == order;
    intent := if newPlan == [] then NoChange else Replace(currentPlan + newPlan);
  }

  // ----- UpdateAssignment -----

  predicate Stale(pod: string, node: string, e: Entry) { e.pod == pod && e.node != node }

  function Renamed(pod: string, node: string, plan: Plan): Plan {
    if plan == [] then []
    else Renamed(pod, node, plan[..|plan| - 1]) + if Stale(pod, node, plan[|plan| - 1]) then [Entry(pod, node)] else []
  }

  function AssignIntent(pod: string, node: string, read: Option<Plan>): Intent {
    match read
    case None => Create([Entry(pod, node)])
    case Some(plan) =>
      if Renamed(pod, node, plan) == [] then NoChange
      else Replace(Keep(Current(pod, node), plan) + Renamed(pod, node, plan))
  }

  method PlanAssignment(pod: string, node: string, read: Option<Plan>) returns (intent: Intent)
    ensures intent == AssignIntent(pod, node, read)
  {
    if read.None? {
      return Create([Entry(pod, node)]);
    }
    var plan := read.value;
    var newPlan: Plan, currentPlan: Plan := [], [];
    for i := 0 to |plan|
      invariant newPlan == Renamed(pod, node, plan[..i])
      invariant currentPlan == Keep(Current(pod, node), plan[..i])
    {
      assert plan[..i + 1][..i] == plan[..i];
      if plan[i].pod == pod && plan[i].node != node {
        newPlan := newPlan + [Entry(pod, node)];
      } else {
        currentPlan := currentPlan + [plan[i]];
      }
    }
    assert plan[..|plan|] == plan;
    intent := if newPlan == [] then NoChange else Replace(currentPlan + newPlan);
  }

  // ----- Delete -----

  function DeleteIntent(pod: string, read: Option<Plan>): Intent {
    match read
    case None => GiveUp
    case Some(plan) =>
      var rest := Keep(Others(pod), plan);
      if pod !in Pods(plan) then NoChange else if rest == [] then Remove else Replace(rest)
  }

  method PlanDelete(pod: string, read: Option<Plan>) returns (intent: Intent)
    ensures intent == DeleteIntent(pod, read)
  {
    if read.None? {
      return GiveUp;
    }
    var plan := read.value;
    var newPlan: Plan, found := [], false;
    for i := 0 to |plan|
      invariant newPlan == Keep(Others(pod), plan[..i])
      invariant found <==> pod in Pods(plan[..i])
    {
      assert plan[..i + 1] == plan[..i] + [plan[i]];
      assert plan[..i + 1][..i] == plan[..i];
      if plan[i].pod == pod {
        found := true;
      } else {
        newPlan := newPlan + [plan[i]];
      }
    }
    assert plan[..|plan|] == plan;
    intent := if !found then NoChange else if newPlan == [] then Remove else Replace(newPlan);
  }

  /** A rewritten plan lists what was stored before in front of what is new. */
  lemma {:induction false} StoredComesFirst(op: Op, plan: Plan, order: seq<string>)
    requires Distinct(plan) && (op.Update? ==> IsOrder(order, op.assignments.Keys))
    ensures var i := Intended(op, Some(plan), order);
      i.Replace? ==> forall a, b :: 0 <= a < b < |i.plan| && i.plan[b] in plan ==> i.plan[a] in plan
  {
    match op
    case Update(a) =>
      var added, current := Keep(NotIn(plan), Entries(order, a)), Keep(In(plan), Entries(order, a));
      forall e
        ensures e in added ==> e !in plan
        ensures e in current ==> e in plan
      {
        InKeep(NotIn(plan), Entries(order, a), e);
        InKeep(In(plan), Entries(order, a), e);
      }
    case UpdateAssignment(pod, node) =>
      InRenamed(pod, node, plan);
      if Renamed(pod, node, plan) != [] {
        var stale :| stale in plan && Stale(pod, node, stale);
        assert Renamed(pod, node, plan)[0] in Renamed(pod, node, plan);
        forall e | e in Keep(Current(pod, node), plan)
          ensures e in plan
        {
          InKeep(Current(pod, node), plan, e);
        }
      }
    case Delete(pod) =>
      forall e | e in Keep(Others(pod), plan)
        ensures e in plan
      {
        InKeep(Others(pod), plan, e);
      }
  }

  // ----- What the operations mean on maps -----

  type Stored = Option<map<string, string>>

  /** The operation as one atomic step on the stored map; `None` is "no plan stored". An update
      replaces the whole plan, but only if some assignment is new; an assignment changes a pod
      that is planned and ignores one that is not; deleting the last pod deletes the plan. */
  function Atomic(op: Op, v: Stored): Stored {
    match op
    case Update(a) =>
      if v.Some? && a.Items <= v.value.Items then v else Some(a)
    case UpdateAssignment(pod, node) =>
      if v.None? then Some(map[pod := node])
      else if pod in v.value then Some(v.value[pod := node]) else v
    case Delete(pod) =>
      if v.None? || pod !in v.value then v
      else if v.value.Keys == {pod} then None
      else Some(v.value - {pod})
  }

  function Seen(read: Option<Plan>): Stored {
    if read.None? then None else Some(View(read.value))
  }

  /** Every intent is the atomic operation on what was read, and keeps plans free of repetitions. */
  lemma {:induction false} IntentIsAtomic(op: Op, read: Option<Plan>, order: seq<string>)
    requires read.Some? ==> Distinct(read.value)
    requires op.Update? ==> IsOrder(order, op.assignments.Keys)
    ensures var i := Intended(op, read, order);
      match i
      case GiveUp => op.Delete? && read.None?
      case NoChange => read.Some? && Atomic(op, Seen(read)) == Seen(read)
      case Create(plan) => read.None? && Distinct(plan) && Atomic(op, None) == Some(View(plan))
      case Replace(plan) => read.Some? && Distinct(plan) && plan != [] && Atomic(op, Seen(read)) == Some(View(plan))
      case Remove => read.Some? && op.Delete? && Atomic(op, Seen(read)) == None && View(read.value).Keys == {op.pod}
    ensures Intended(op, read, order).Create? && (op.Update? ==> op.assignments != map[]) ==>
      Intended(op, read, order).plan != []
  {
    match op
    case Update(a) => UpdateIsAtomic(a, read, order);
    case UpdateAssignment(pod, node) => AssignIsAtomic(pod, node, read);
    case Delete(pod) => DeleteIsAtomic(pod, read);
  }

  lemma {:induction false} UpdateIsAtomic(a: map<string, string>, read: Option<Plan>, order: seq<string>)
    requires read.Some? ==> Distinct(read.value)
    requires IsOrder(order, a.Keys)
    ensures var i := UpdateIntent(a, read, order);
      match i
      case NoChange => read.Some? && Atomic(Update(a), Seen(read)) == Seen(read)
      case Create(plan) => read.None? && Distinct(plan) && View(plan) == a && (a != map[] ==> plan != [])
      case Replace(plan) =>
        read.Some? && Distinct(plan) && plan != [] && Atomic(Update(a), Seen(read)) == Some(View(plan))
      case _ => false
  {
    EntriesAre(order, a);
    var es := Entries(order, a);
    if read.Some? {
      UpdateReplaces(a, read.value, es);
    } else if a != map[] {
      var p :| p in a;
      assert p in order;
    }
  }

  lemma {:induction false} UpdateReplaces(a: map<string, string>, plan: Plan, es: Plan)
    requires Distinct(plan) && Distinct(es)
    requires forall p, n :: Entry(p, n) in es <==> p in a && a[p] == n
    ensures var added, current := Keep(NotIn(plan), es), Keep(In(plan), es);
      && (added == [] <==> a.Items <= View(plan).Items)
      && Distinct(current + added) && View(current + added) == a
  {
    var added, current := Keep(NotIn(plan), es), Keep(In(plan), es);
    KeepIsDistinct(NotIn(plan), es);
    KeepIsDistinct(In(plan), es);
    forall e
      ensures e in added <==> e in es && e !in plan
      ensures e in current <==> e in es && e in plan
    {
      InKeep(NotIn(plan), es, e);
      InKeep(In(plan), es, e);
    }
    forall x, y | x in current && y in added
      ensures x.pod != y.pod
    {
      assert Entry(x.pod, x.node) in es && Entry(y.pod, y.node) in es;
    }
    ConcatIsDistinct(current, added);
    assert forall p, n :: Entry(p, n) in current + added <==> Entry(p, n) in es;
    ViewIs(current + added, a);
    FreshIsNew(a, plan, added);
  }

  lemma {:induction false} FreshIsNew(a: map<string, string>, plan: Plan, added: Plan)
    requires Distinct(plan)
    requires forall p, n :: Entry(p, n) in added <==> p in a && a[p] == n && Entry(p, n) !in plan
    ensures added == [] <==> a.Items <= View(plan).Items
  {
    if added == [] {
      forall i | i in a.Items
        ensures i in View(plan).Items
      {
        assert Entry(i.0, i.1) !in added;
        ViewHas(plan, i.0, i.1);
      }
    } else {
      var e := added[0];
      assert Entry(e.pod, e.node) in added;
      ViewHas(plan, e.pod, e.node);
      assert (e.pod, e.node) in a.Items;
      assert (e.pod, e.node) !in View(plan).Items;
    }
  }

  lemma {:induction false} InRenamed(pod: string, node: string, plan: Plan)
    requires Distinct(plan)
    ensures |Renamed(pod, node, plan)| <= 1
    ensures Renamed(pod, node, plan) != [] <==> exists e :: e in plan && Stale(pod, node, e)
    ensures forall e :: e in Renamed(pod, node, plan) ==> e == Entry(pod, node)
  {
    if plan != [] {
      var n := |plan| - 1;
      InRenamed(pod, node, plan[..n]);
      assert plan == plan[..n] + [plan[n]];
    }
  }

  lemma {:induction false} AssignIsAtomic(pod: string, node: string, read: Option<Plan>)
    requires read.Some? ==> Distinct(read.value)
    ensures var i := AssignIntent(pod, node, read);
      match i
      case NoChange => read.Some? && Atomic(UpdateAssignment(pod, node), Seen(read)) == Seen(read)
      case Create(plan) => read.None? && Distinct(plan) && plan != [] && View(plan) == map[pod := node]
      case Replace(plan) =>
        && read.Some? && Distinct(plan) && plan != []
        && Atomic(UpdateAssignment(pod, node), Seen(read)) == Some(View(plan))
      case _ => false
  {
    if read.None? {
      ViewIs([Entry(pod, node)], map[pod := node]);
      return;
    }
    var plan := read.value;
    var kept, moved := Keep(Current(pod, node), plan), Renamed(pod, node, plan);
    InRenamed(pod, node, plan);
    if moved == [] {
      if pod in View(plan) {
        ViewHas(plan, pod, View(plan)[pod]);
        assert !Stale(pod, node, Entry(pod, View(plan)[pod]));
        assert View(plan)[pod := node] == View(plan);
      }
    } else {
      AssignReplaces(pod, node, plan);
    }
  }

  lemma {:induction false} AssignReplaces(pod: string, node: string, plan: Plan)
    requires Distinct(plan) && Renamed(pod, node, plan) != []
    ensures var next := Keep(Current(pod, node), plan) + Renamed(pod, node, plan);
      pod in View(plan) && Distinct(next) && View(next) == View(plan)[pod := node]
  {
    var kept, moved := Keep(Current(pod, node), plan), Renamed(pod, node, plan);
    InRenamed(pod, node, plan);
    assert moved[0] in moved;
    var stale :| stale in plan && Stale(pod, node, stale);
    ViewHas(plan, pod, stale.node);
    assert stale == Entry(pod, stale.node);
    KeepIsDistinct(Current(pod, node), plan);
    forall e
      ensures e in kept <==> e in plan && e.pod != pod
    {
      InKeep(Current(pod, node), plan, e);
    }
    ConcatIsDistinct(kept, moved);
    forall p, n
      ensures Entry(p, n) in kept + moved <==> p in View(plan)[pod := node] && View(plan)[pod := node][p] == n
    {
      ViewHas(plan, p, n);
    }
    ViewIs(kept + moved, View(plan)[pod := node]);
  }

  lemma {:induction false} DeleteIsAtomic(pod: string, read: Option<Plan>)
    requires read.Some? ==> Distinct(read.value)
    ensures var i := DeleteIntent(pod, read);
      match i
      case GiveUp => read.None?
      case NoChange => read.Some? && Atomic(Delete(pod), Seen(read)) == Seen(read)
      case Replace(plan) =>
        read.Some? && Distinct(plan) && plan != [] && Atomic(Delete(pod), Seen(read)) == Some(View(plan))
      case Remove => read.Some? && Atomic(Delete(pod), Seen(read)) == None && View(read.value).Keys == {pod}
      case _ => false
  {
    if read.Some? {
      hide Distinct, View, Keep, Pods;
      var m, rest := View(read.value), Keep(Others(pod), read.value);
      DeleteRemoves(pod, read.value);
      PodsAreKeys(read.value);
      PodsAreKeys(rest);
      OnlyKey(m, pod);
    }
  }

  lemma {:induction false} OnlyKey(m: map<string, string>, k: string)
    ensures k in m ==> (m.Keys == {k} <==> m - {k} == map[])
  {
    assert m - {k} == map[] <==> (m - {k}).Keys == {};
    assert (m - {k}).Keys == m.Keys - {k};
    assert k in m ==> (m.Keys - {k} == {} <==> m.Keys == {k});
  }

  lemma {:induction false} DeleteRemoves(pod: string, plan: Plan)
    requires Distinct(plan)
    ensures var rest := Keep(Others(pod), plan);
      Distinct(rest) && View(rest) == View(plan) - {pod}
  {
    var rest, m := Keep(Others(pod), plan), View(plan);
    KeepIsDistinct(Others(pod), plan);
    forall p, n
      ensures Entry(p, n) in rest <==> p in m - {pod} && (m - {pod})[p] == n
    {
      InKeep(Others(pod), plan, Entry(p, n));
      ViewHas(plan, p, n);
    }
    ViewIs(rest, m - {pod});
  }

  lemma {:induction false} PodsAreKeys(plan: Plan)
    requires Distinct(plan)
    ensures Pods(plan) == View(plan).Keys
    ensures plan == [] <==> View(plan) == map[]
  {
    forall e | e in plan
      ensures e.pod in View(plan)
    {
      ViewHas(plan, e.pod, e.node);
      assert e == Entry(e.pod, e.node);
    }
    if plan != [] {
      assert plan[0].pod in View(plan);
    }
  }
}
