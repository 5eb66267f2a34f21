/** Resource arithmetic of the node-fit filter: how a pod's request is accumulated, its closed
    form, and when the check against a node's allocatable resources succeeds. */
module Resources {
  import opened Cluster

  const TWO_63: int := 0x8000_0000_0000_0000
  const TWO_64: int := 0x1_0000_0000_0000_0000

  /** Signed 64-bit addition of 64-bit operands, with wrap-around. */
  function Add64(a: int, b: int): int {
    var sum := a + b;
    if sum >= TWO_63 then sum - TWO_64 else if sum < -TWO_63 then sum + TWO_64 else sum
  }

  function Get(m: map<ResourceName, int>, name: ResourceName): int {
    if name in m then m[name] else 0
  }

  /** Names the switch statements fall through to their scalar case for. */
  predicate Scalar(isScalar: ResourceName -> bool, name: ResourceName) {
    name.Other? && isScalar(name)
  }

  /** The fields of a resource collection, as a value. */
  datatype Totals = Totals(milliCPU: int, memory: int, ephemeral: int, pods: int, scalars: map<ResourceName, int>) {
    function Level(name: ResourceName): int {
      if name == CPU then milliCPU
      else if name == Memory then memory
      else if name == EphemeralStorage then ephemeral
      else if name == Pods then pods
      else Get(scalars, name)
    }
  }

  const NOTHING := Totals(0, 0, 0, 0, map[])

  /** `Add`: every listed quantity is added; ephemeral storage is skipped. */
  function Added(isScalar: ResourceName -> bool, t: Totals, rl: ResourceList): Totals {
    Totals(
      if CPU in rl then Add64(t.milliCPU, rl[CPU].milli) else t.milliCPU,
      if Memory in rl then Add64(t.memory, rl[Memory].value) else t.memory,
      t.ephemeral,
      if Pods in rl then Add64(t.pods, rl[Pods].value) else t.pods,
      AddedScalars(isScalar, t.scalars, rl))
  }

  function AddedScalars(isScalar: ResourceName -> bool, m: map<ResourceName, int>, rl: ResourceList)
    : (r: map<ResourceName, int>)
    ensures r.Keys == m.Keys + Scalars(isScalar, rl)
    ensures forall n :: n in r ==> r[n] == if n in Scalars(isScalar, rl) then Add64(Get(m, n), rl[n].value) else m[n]
  {
    map n | n in m.Keys + Scalars(isScalar, rl) ::
      if n in Scalars(isScalar, rl) then Add64(Get(m, n), rl[n].value) else m[n]
  }

  function Scalars(isScalar: ResourceName -> bool, rl: ResourceList): (r: set<ResourceName>)
    ensures forall n :: n in r <==> n in rl && Scalar(isScalar, n)
  {
    set n | n in rl && Scalar(isScalar, n)
  }

  /** `SetMaxResource`: every listed quantity raises its field; the pod count is skipped. */
  function Raised(isScalar: ResourceName -> bool, t: Totals, rl: ResourceList): Totals {
    Totals(
      if CPU in rl then Max(t.milliCPU, rl[CPU].milli) else t.milliCPU,
      if Memory in rl then Max(t.memory, rl[Memory].value) else t.memory,
      if EphemeralStorage in rl then Max(t.ephemeral, rl[EphemeralStorage].value) else t.ephemeral,
      t.pods,
      RaisedScalars(isScalar, t.scalars, rl))
  }

  function RaisedScalars(isScalar: ResourceName -> bool, m: map<ResourceName, int>, rl: ResourceList)
    : (r: map<ResourceName, int>)
    ensures r.Keys == m.Keys + Lifting(isScalar, m, rl)
    ensures forall n :: n in r ==> r[n] == if n in Lifting(isScalar, m, rl) then rl[n].value else m[n]
  {
    map n | n in m.Keys + Lifting(isScalar, m, rl) :: if n in Lifting(isScalar, m, rl) then rl[n].value else m[n]
  }

  function Lifting(isScalar: ResourceName -> bool, m: map<ResourceName, int>, rl: ResourceList)
    : (r: set<ResourceName>)
    ensures forall n :: n in r <==> n in rl && Scalar(isScalar, n) && rl[n].value > Get(m, n)
  {
    set n | n in rl && Scalar(isScalar, n) && rl[n].value > Get(m, n)
  }

  function Max(a: int, b: int): int { if b > a then b else a }

  /** The mutable collection; Go iterates its maps in no particular order, hence the
      arbitrary choice of the next name. */
  class Resource {
    var milliCPU: int
    var memory: int
    var ephemeralStorage: int
    var allowedPodNumber: int
    var scalarResources: map<ResourceName, int>

    constructor ()
      ensures Contents() == NOTHING
    {
      milliCPU, memory, ephemeralStorage, allowedPodNumber, scalarResources := 0, 0, 0, 0, map[];
    }

    ghost function Contents(): Totals
      reads this
    {
      Totals(milliCPU, memory, ephemeralStorage, allowedPodNumber, scalarResources)
    }

    method AddScalar(name: ResourceName, quantity: int)
      modifies this
      ensures Contents() ==
        old(Contents()).(scalars := old(scalarResources)[name := Add64(Get(old(scalarResources), name), quantity)])
    {
      scalarResources := scalarResources[name := Add64(Get(scalarResources, name), quantity)];
    }

    /** The switch inside `Add`. */
    method AddOne(name: ResourceName, q: Quantity, isScalar: ResourceName -> bool)
      modifies this
      ensures Contents() == AddedOne(isScalar, old(Contents()), name, q)
    {
      if name == CPU {
        milliCPU := Add64(milliCPU, q.milli);
      } else if name == Memory {
        memory := Add64(memory, q.value);
      } else if name == Pods {
        allowedPodNumber := Add64(allowedPodNumber, q.value);
      } else if name == EphemeralStorage {
      } else if isScalar(name) {
        AddScalar(name, q.value);
      }
    }

    method Add(rl: ResourceList, isScalar: ResourceName -> bool)
      modifies this
      ensures Contents() == Added(isScalar, old(Contents()), rl)
    {
      ghost var was := Contents();
      var todo := rl.Keys;
      assert PartlyAdded(isScalar, was, rl, rl.Keys, Contents());
      while todo != {}
        invariant todo <= rl.Keys
        invariant PartlyAdded(isScalar, was, rl, todo, Contents())
      {
        var name :| name in todo;
        OneMoreAdded(isScalar, was, rl, todo, name, Contents());
        AddOne(name, rl[name], isScalar);
        todo := todo - {name};
      }
      AllAdded(isScalar, was, rl, Contents());
    }

    /** The switch inside `SetMaxResource`. */
    method RaiseOne(name: ResourceName, q: Quantity, isScalar: ResourceName -> bool)
      modifies this
      ensures Contents() == RaisedOne(isScalar, old(Contents()), name, q)
    {
      if name == Memory {
        if q.value > memory { memory := q.value; }
      } else if name == CPU {
        if q.milli > milliCPU { milliCPU := q.milli; }
      } else if name == EphemeralStorage {
        if q.value > ephemeralStorage { ephemeralStorage := q.value; }
      } else if name != Pods && isScalar(name) {
        if q.value > Get(scalarResources, name) {
          scalarResources := scalarResources[name := q.value];
        }
      }
    }

    method SetMaxResource(rl: ResourceList, isScalar: ResourceName -> bool)
      modifies this
      ensures Contents() == Raised(isScalar, old(Contents()), rl)
    {
      ghost var was := Contents();
      var todo := rl.Keys;
      assert PartlyRaised(isScalar, was, rl, rl.Keys, Contents());
      while todo != {}
        invariant todo <= rl.Keys
        invariant PartlyRaised(isScalar, was, rl, todo, Contents())
      {
        var name :| name in todo;
        OneMoreRaised(isScalar, was, rl, todo, name, Contents());
        RaiseOne(name, rl[name], isScalar);
        todo := todo - {name};
      }
      AllRaised(isScalar, was, rl, Contents());
    }
  }

  function AddedOne(isScalar: ResourceName -> bool, t: Totals, name: ResourceName, q: Quantity): Totals {
    match name
    case CPU => t.(milliCPU := Add64(t.milliCPU, q.milli))
    case Memory => t.(memory := Add64(t.memory, q.value))
    case Pods => t.(pods := Add64(t.pods, q.value))
    case EphemeralStorage => t
    case Other(_) =>
      if isScalar(name) then t.(scalars := t.scalars[name := Add64(Get(t.scalars, name), q.value)]) else t
  }

  function RaisedOne(isScalar: ResourceName -> bool, t: Totals, name: ResourceName, q: Quantity): Totals {
    match name
    case CPU => t.(milliCPU := Max(t.milliCPU, q.milli))
    case Memory => t.(memory := Max(t.memory, q.value))
    case Pods => t
    case EphemeralStorage => t.(ephemeral := Max(t.ephemeral, q.value))
    case Other(_) =>
      if isScalar(name) && q.value > Get(t.scalars, name) then t.(scalars := t.scalars[name := q.value]) else t
  }

  /** `t` is `was` with every listed name outside `todo` added. */
  ghost predicate PartlyAdded(isScalar: ResourceName -> bool, was: Totals, rl: ResourceList,
      todo: set<ResourceName>, t: Totals) {
    && t.milliCPU == (if CPU in rl && CPU !in todo then Add64(was.milliCPU, rl[CPU].milli) else was.milliCPU)
    && t.memory == (if Memory in rl && Memory !in todo then Add64(was.memory, rl[Memory].value) else was.memory)
    && t.pods == (if Pods in rl && Pods !in todo then Add64(was.pods, rl[Pods].value) else was.pods)
    && t.ephemeral == was.ephemeral
    && t.scalars.Keys == was.scalars.Keys + (Scalars(isScalar, rl) - todo)
    && forall n :: n in t.scalars ==>
         t.scalars[n] ==
           if n in Scalars(isScalar, rl) - todo then Add64(Get(was.scalars, n), rl[n].value) else was.scalars[n]
  }

  /** Any order of the names gives the same totals: each name contributes once, on its own. */
  lemma {:induction false} OneMoreAdded(isScalar: ResourceName -> bool, was: Totals, rl: ResourceList,
      todo: set<ResourceName>, name: ResourceName, t: Totals)
    requires todo <= rl.Keys && name in todo && PartlyAdded(isScalar, was, rl, todo, t)
    ensures PartlyAdded(isScalar, was, rl, todo - {name}, AddedOne(isScalar, t, name, rl[name]))
  {
  }

  lemma {:induction false} AllAdded(isScalar: ResourceName -> bool, was: Totals, rl: ResourceList, t: Totals)
    requires PartlyAdded(isScalar, was, rl, {}, t)
    ensures t == Added(isScalar, was, rl)
  {
    assert t.scalars == AddedScalars(isScalar, was.scalars, rl);
  }

  /** `t` is `was` with every listed name outside `todo` taken into account. */
  ghost predicate PartlyRaised(isScalar: ResourceName -> bool, was: Totals, rl: ResourceList,
      todo: set<ResourceName>, t: Totals) {
    && t.milliCPU == (if CPU in rl && CPU !in todo then Max(was.milliCPU, rl[CPU].milli) else was.milliCPU)
    && t.memory == (if Memory in rl && Memory !in todo then Max(was.memory, rl[Memory].value) else was.memory)
    && t.pods == was.pods
    && t.ephemeral == (if EphemeralStorage in rl && EphemeralStorage !in todo
                       then Max(was.ephemeral, rl[EphemeralStorage].value) else was.ephemeral)
    && t.scalars.Keys == was.scalars.Keys + (Lifting(isScalar, was.scalars, rl) - todo)
    && forall n :: n in t.scalars ==>
         t.scalars[n] == if n in Lifting(isScalar, was.scalars, rl) - todo then rl[n].value else was.scalars[n]
  }

  lemma {:induction false} OneMoreRaised(isScalar: ResourceName -> bool, was: Totals, rl: ResourceList,
      todo: set<ResourceName>, name: ResourceName, t: Totals)
    requires todo <= rl.Keys && name in todo && PartlyRaised(isScalar, was, rl, todo, t)
    ensures PartlyRaised(isScalar, was, rl, todo - {name}, RaisedOne(isScalar, t, name, rl[name]))
  {
  }

  lemma {:induction false} AllRaised(isScalar: ResourceName -> bool, was: Totals, rl: ResourceList, t: Totals)
    requires PartlyRaised(isScalar, was, rl, {}, t)
    ensures t == Raised(isScalar, was, rl)
  {
    assert t.scalars == RaisedScalars(isScalar, was.scalars, rl);
  }

  // ----- A pod's request -----

  function SumUp(isScalar: ResourceName -> bool, cs: seq<Container>): Totals {
    if cs == [] then NOTHING
    else Added(isScalar, SumUp(isScalar, cs[..|cs| - 1]), cs[|cs| - 1].requests)
  }

  function RaiseBy(isScalar: ResourceName -> bool, t: Totals, cs: seq<Container>): Totals {
    if cs == [] then t
    else Raised(isScalar, RaiseBy(isScalar, t, cs[..|cs| - 1]), cs[|cs| - 1].requests)
  }

  /** What `computePodResourceRequest` leaves in its result. */
  function Request(isScalar: ResourceName -> bool, pod: Pod): Totals {
    RaiseBy(isScalar, SumUp(isScalar, pod.containers), pod.initContainers)
  }

  method ComputePodResourceRequest(pod: Pod, isScalar: ResourceName -> bool) returns (result: Resource)
    ensures fresh(result)
    ensures result.Contents() == Request(isScalar, pod)
  {
    result := new Resource();
    for i := 0 to |pod.containers|
      invariant fresh(result)
      invariant result.Contents() == SumUp(isScalar, pod.containers[..i])
    {
      result.Add(pod.containers[i].requests, isScalar);
      assert pod.containers[..i + 1][..i] == pod.containers[..i];
    }
    assert pod.containers[..|pod.containers|] == pod.containers;
    for i := 0 to |pod.initContainers|
      invariant fresh(result)
      invariant result.Contents() ==
        RaiseBy(isScalar, SumUp(isScalar, pod.containers), pod.initContainers[..i])
    {
      result.SetMaxResource(pod.initContainers[i].requests, isScalar);
      assert pod.initContainers[..i + 1][..i] == pod.initContainers[..i];
    }
    assert pod.initContainers[..|pod.initContainers|] == pod.initContainers;
  }

  // ----- Closed form -----

  /** How much of a resource one list asks for, in the unit the program keeps it in. */
  function Amount(rl: ResourceList, name: ResourceName): int {
    if name !in rl then 0 else if name == CPU then rl[name].milli else rl[name].value
  }

  function Sum(cs: seq<Container>, name: ResourceName): int {
    if cs == [] then 0 else Sum(cs[..|cs| - 1], name) + Amount(cs[|cs| - 1].requests, name)
  }

  function Peak(cs: seq<Container>, name: ResourceName): int {
    if cs == [] then 0 else Max(Peak(cs[..|cs| - 1], name), Amount(cs[|cs| - 1].requests, name))
  }

  /** One more container asks for its own quantities on top: CPU in thousandths, all else in units. */
  lemma {:induction false} SumAppends(cs: seq<Container>, c: Container, name: ResourceName)
    ensures Sum([], name) == 0
    ensures Sum(cs + [c], name) - Sum(cs, name) ==
      if name !in c.requests then 0 else if name == CPU then c.requests[name].milli else c.requests[name].value
  {
    assert (cs + [c])[..|cs|] == cs;
  }

  /** One more init container only raises the peak, to its own quantity. */
  lemma {:induction false} PeakAppends(cs: seq<Container>, c: Container, name: ResourceName)
    ensures Peak([], name) == 0
    ensures var q :=
        if name !in c.requests then 0 else if name == CPU then c.requests[name].milli else c.requests[name].value;
      Peak(cs + [c], name) == if q > Peak(cs, name) then q else Peak(cs, name)
  {
    assert (cs + [c])[..|cs|] == cs;
  }

  /** `Add`, resource by resource: CPU in thousandths, memory, the pod count and scalars go up by what the
      list holds, ephemeral storage never does. */
  lemma {:induction false} AddExactly(isScalar: ResourceName -> bool, t: Totals, rl: ResourceList, name: ResourceName)
    requires name.Other? ==> isScalar(name)
    ensures var q := if name !in rl then 0 else if name == CPU then rl[name].milli else rl[name].value;
      var was, now := t.Level(name), Added(isScalar, t, rl).Level(name);
      && (name == EphemeralStorage ==> now == was)
      && (name != EphemeralStorage && -TWO_63 <= was + q < TWO_63 ==> now == was + q)
  {
  }

  /** `SetMaxResource`, resource by resource: each is raised to what the list holds, the pod count never. */
  lemma {:induction false} SetMaxExactly(isScalar: ResourceName -> bool, t: Totals, rl: ResourceList,
      name: ResourceName)
    requires name.Other? ==> isScalar(name)
    ensures var q := if name !in rl then 0 else if name == CPU then rl[name].milli else rl[name].value;
      var was, now := t.Level(name), Raised(isScalar, t, rl).Level(name);
      now == if name in rl && name != Pods && q > was then q else was
  {
  }

  /** Resources counted for ordinary containers. */
  predicate Summed(isScalar: ResourceName -> bool, name: ResourceName) {
    name == CPU || name == Memory || Scalar(isScalar, name)
  }

  predicate NonNegative(cs: seq<Container>, name: ResourceName) {
    forall i :: 0 <= i < |cs| ==> Amount(cs[i].requests, name) >= 0
  }

  lemma {:induction false} SumGrows(cs: seq<Container>, name: ResourceName)
    requires NonNegative(cs, name)
    ensures 0 <= Sum(cs, name)
  {
    if cs != [] {
      assert NonNegative(cs[..|cs| - 1], name);
      SumGrows(cs[..|cs| - 1], name);
    }
  }

  lemma {:induction false} SumUpLevel(isScalar: ResourceName -> bool, cs: seq<Container>, name: ResourceName)
    requires Summed(isScalar, name) && NonNegative(cs, name) && Sum(cs, name) < TWO_63
    ensures SumUp(isScalar, cs).Level(name) == Sum(cs, name)
  {
    if cs != [] {
      var n := |cs| - 1;
      assert NonNegative(cs[..n], name);
      assert Amount(cs[n].requests, name) >= 0;
      SumGrows(cs[..n], name);
      SumUpLevel(isScalar, cs[..n], name);
    }
  }

  lemma {:induction false} RaiseByLevel(isScalar: ResourceName -> bool, t: Totals, cs: seq<Container>,
      name: ResourceName)
    requires Summed(isScalar, name) || name == EphemeralStorage
    requires t.Level(name) >= 0
    ensures RaiseBy(isScalar, t, cs).Level(name) == Max(t.Level(name), Peak(cs, name))
    ensures Peak(cs, name) >= 0
  {
    if cs != [] {
      RaiseByLevel(isScalar, t, cs[..|cs| - 1], name);
    }
  }

  lemma {:induction false} EphemeralIsNeverSummed(isScalar: ResourceName -> bool, cs: seq<Container>)
    ensures SumUp(isScalar, cs).ephemeral == 0
  {
    if cs != [] {
      EphemeralIsNeverSummed(isScalar, cs[..|cs| - 1]);
    }
  }

  /** What the pod needs: the larger of what its containers need together and what any one
      init container needs; ordinary containers' ephemeral storage does not count. */
  function Needed(pod: Pod, name: ResourceName): int {
    if name == EphemeralStorage then Peak(pod.initContainers, name)
    else Max(Sum(pod.containers, name), Peak(pod.initContainers, name))
  }

  /** Quantities the closed form is stated for: not negative, and no 64-bit overflow. */
  predicate Sound(pod: Pod, name: ResourceName) {
    NonNegative(pod.containers, name) && Sum(pod.containers, name) < TWO_63
  }

  lemma {:induction false} RequestClosedForm(isScalar: ResourceName -> bool, pod: Pod, name: ResourceName)
    requires Summed(isScalar, name) || name == EphemeralStorage
    requires name == EphemeralStorage || Sound(pod, name)
    ensures Request(isScalar, pod).Level(name) == Needed(pod, name) >= 0
  {
    var t := SumUp(isScalar, pod.containers);
    if name == EphemeralStorage {
      EphemeralIsNeverSummed(isScalar, pod.containers);
    } else {
      SumGrows(pod.containers, name);
      SumUpLevel(isScalar, pod.containers, name);
    }
    RaiseByLevel(isScalar, t, pod.initContainers, name);
  }

  // ----- The check against a node -----

  function Allocatable(isScalar: ResourceName -> bool, node: Node): Totals {
    Added(isScalar, NOTHING, node.allocatable)
  }

  /** The branches of the check: an all-zero request passes at once. */
  predicate ResourcesFit(request: Totals, allocatable: Totals) {
    || (request.milliCPU == 0 && request.memory == 0 && request.ephemeral == 0 && request.scalars == map[])
    || (&& request.milliCPU <= allocatable.milliCPU
        && request.memory <= allocatable.memory
        && request.ephemeral <= allocatable.ephemeral
        && forall n :: n in request.scalars ==> request.scalars[n] <= Get(allocatable.scalars, n))
  }

  /** The check as written: reasons are collected and any reason fails the node. */
  method CheckResources(pod: Pod, node: Node, isScalar: ResourceName -> bool) returns (ok: bool)
    ensures ok == ResourcesFit(Request(isScalar, pod), Allocatable(isScalar, node))
  {
    var allocatable := new Resource();
    allocatable.Add(node.allocatable, isScalar);
    var request := ComputePodResourceRequest(pod, isScalar);
    if request.milliCPU == 0 && request.memory == 0 && request.ephemeralStorage == 0
       && |request.scalarResources| == 0 {
      return true;
    }
    var reasons: seq<ResourceName> := [];
    if allocatable.milliCPU < request.milliCPU { reasons := reasons + [CPU]; }
    if allocatable.memory < request.memory { reasons := reasons + [Memory]; }
    if allocatable.ephemeralStorage < request.ephemeralStorage { reasons := reasons + [EphemeralStorage]; }
    ghost var basic := |reasons|;
    var todo := request.scalarResources.Keys;
    while todo != {}
      invariant todo <= request.scalarResources.Keys
      invariant |reasons| >= basic
      invariant |reasons| == basic <==>
        forall n :: n in request.scalarResources && n !in todo ==>
          request.scalarResources[n] <= Get(allocatable.scalarResources, n)
      decreases |todo|
    {
      var name :| name in todo;
      if Get(allocatable.scalarResources, name) < request.scalarResources[name] {
        reasons := reasons + [name];
      }
      todo := todo - {name};
    }
    ok := reasons == [];
  }

  predicate Counted(isScalar: ResourceName -> bool, name: ResourceName) {
    Summed(isScalar, name) || name == EphemeralStorage
  }

  /** Fit in closed form: the check passes exactly when every need is covered by what the node
      offers, where no node offers ephemeral storage. */
  lemma {:induction false} FitClosedForm(isScalar: ResourceName -> bool, pod: Pod, node: Node)
    requires forall name :: Summed(isScalar, name) ==> Sound(pod, name)
    requires forall name :: name in node.allocatable ==> 0 <= Amount(node.allocatable, name) < TWO_63
    ensures ResourcesFit(Request(isScalar, pod), Allocatable(isScalar, node)) <==>
      forall name :: Counted(isScalar, name) ==>
        Needed(pod, name) <= if name == EphemeralStorage then 0 else Amount(node.allocatable, name)
  {
    hide Request, Sum, Peak, Sound;
    var request, allocatable := Request(isScalar, pod), Allocatable(isScalar, node);
    forall name | Counted(isScalar, name)
      ensures request.Level(name) == Needed(pod, name) >= 0
      ensures 0 <= allocatable.Level(name) == if name == EphemeralStorage then 0 else Amount(node.allocatable, name)
    {
      RequestClosedForm(isScalar, pod, name);
    }
    ScalarsAreScalar(isScalar, pod);
    hide Allocatable, Needed, Amount;
    forall n | n in request.scalars
      ensures Counted(isScalar, n) && request.scalars[n] == request.Level(n)
      ensures Get(allocatable.scalars, n) == allocatable.Level(n)
    {
    }
    assert Counted(isScalar, CPU) && Counted(isScalar, Memory) && Counted(isScalar, EphemeralStorage);
  }

  lemma {:induction false} ScalarsAreScalar(isScalar: ResourceName -> bool, pod: Pod)
    ensures forall n :: n in Request(isScalar, pod).scalars ==> Scalar(isScalar, n)
  {
    SumScalars(isScalar, pod.containers);
    RaiseScalars(isScalar, SumUp(isScalar, pod.containers), pod.initContainers);
  }

  lemma {:induction false} SumScalars(isScalar: ResourceName -> bool, cs: seq<Container>)
    ensures forall n :: n in SumUp(isScalar, cs).scalars ==> Scalar(isScalar, n)
  {
    if cs != [] { SumScalars(isScalar, cs[..|cs| - 1]); }
  }

  lemma {:induction false} RaiseScalars(isScalar: ResourceName -> bool, t: Totals, cs: seq<Container>)
    requires forall n :: n in t.scalars ==> Scalar(isScalar, n)
    ensures forall n :: n in RaiseBy(isScalar, t, cs).scalars ==> Scalar(isScalar, n)
  {
    if cs != [] { RaiseScalars(isScalar, t, cs[..|cs| - 1]); }
  }

  /** An init container that asks for ephemeral storage fits nowhere: `Add` never credits a
      node with any. */
  lemma {:induction false} EphemeralInitRequestFitsNowhere(isScalar: ResourceName -> bool, pod: Pod, node: Node, i: nat)
    requires i < |pod.initContainers| && Amount(pod.initContainers[i].requests, EphemeralStorage) > 0
    ensures !ResourcesFit(Request(isScalar, pod), Allocatable(isScalar, node))
  {
    var t := SumUp(isScalar, pod.containers);
    EphemeralIsNeverSummed(isScalar, pod.containers);
    RaiseByLevel(isScalar, t, pod.initContainers, EphemeralStorage);
    PeakCovers(pod.initContainers, EphemeralStorage, i);
  }

  /** The check that was meant: the node's ephemeral storage is credited like everything else. */
  ghost predicate Covers(isScalar: ResourceName -> bool, pod: Pod, node: Node) {
    forall name :: Counted(isScalar, name) ==> Needed(pod, name) <= Amount(node.allocatable, name)
  }

  /** The check agrees with the one that was meant exactly if a pod that the node covers needs no
      ephemeral storage for its init containers; and it never accepts more. */
  lemma {:induction false} FitIsCoverageIff(isScalar: ResourceName -> bool, pod: Pod, node: Node)
    requires forall name :: Summed(isScalar, name) ==> Sound(pod, name)
    requires forall name :: name in node.allocatable ==> 0 <= Amount(node.allocatable, name) < TWO_63
    ensures var fits := ResourcesFit(Request(isScalar, pod), Allocatable(isScalar, node));
      && ((fits <==> Covers(isScalar, pod, node)) <==>
            (Covers(isScalar, pod, node) ==> Needed(pod, EphemeralStorage) <= 0))
      && (fits ==> Covers(isScalar, pod, node))
  {
    FitClosedForm(isScalar, pod, node);
    hide ResourcesFit, Request, Allocatable, Needed, Amount, Sound;
    assert Counted(isScalar, EphemeralStorage);
    EphemeralIsNotNegative(node);
  }

  lemma {:induction false} EphemeralIsNotNegative(node: Node)
    requires forall name :: name in node.allocatable ==> 0 <= Amount(node.allocatable, name)
    ensures 0 <= Amount(node.allocatable, EphemeralStorage)
  {
  }

  lemma {:induction false} PeakCovers(cs: seq<Container>, name: ResourceName, i: nat)
    requires i < |cs|
    ensures Peak(cs, name) >= Amount(cs[i].requests, name)
  {
    if i < |cs| - 1 { PeakCovers(cs[..|cs| - 1], name, i); }
  }
}
