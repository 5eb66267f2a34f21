/** Values the planner reads from the Kubernetes API: pods, nodes and their parts. */
module Cluster {
  datatype Option<+T> = None | Some(value: T)

  datatype Key = Key(namespace: string, name: string)

  datatype Phase = Pending | Running | Succeeded | Failed | Unknown

  datatype Effect = NoSchedule | PreferNoSchedule | NoExecute

  /** A quantity, through the two roundings the program reads. */
  datatype Quantity = Quantity(value: int, milli: int)

  /** The resource names the program tells apart, and all others. */
  datatype ResourceName = CPU | Memory | Pods | EphemeralStorage | Other(name: string)

  type ResourceList = map<ResourceName, Quantity>

  datatype Container = Container(image: string, requests: ResourceList)

  datatype Owner = Owner(kind: string, name: string)

  datatype Term = Term(namespaces: set<string>, selector: string)

  datatype WeightedTerm = WeightedTerm(weight: int, term: Term)

  datatype AntiAffinity = AntiAffinity(required: seq<Term>, preferred: seq<WeightedTerm>)

  datatype Pod = Pod(
    namespace: string,
    name: string,
    phase: Phase,
    terminating: bool,
    hostIP: string,
    labels: map<string, string>,
    owners: seq<Owner>,
    containers: seq<Container>,
    initContainers: seq<Container>,
    antiAffinity: Option<AntiAffinity>)
  {
    function Id(): Key { Key(namespace, name) }
  }

  datatype Node = Node(
    name: string,
    addresses: seq<string>,
    taints: seq<Effect>,
    allocatable: ResourceList)
}
