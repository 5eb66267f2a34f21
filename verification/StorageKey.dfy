/** The name under which the plan of a pod set is stored. */
module StorageKey {
  import opened Cluster

  const POD_SET_LABEL := "planner.ciena.io/pod-set"

  const ALPHANUMS := "bcdfghjklmnpqrstvwxz2456789"

  function Decimal(n: nat): string {
    if n < 10 then [('0' as int + n) as char] else Decimal(n / 10) + [('0' as int + n % 10) as char]
  }

  /** Maps every character into the safe alphabet. */
  function SafeEncode(s: string): string {
    if s == [] then [] else SafeEncode(s[..|s| - 1]) + [ALPHANUMS[s[|s| - 1] as int % |ALPHANUMS|]]
  }

  /** `getName`; the 32-bit hash of namespace and pod set may be any function. */
  function Name(hash: (string, string) -> nat, namespace: string, podset: string): string {
    podset + "-" + SafeEncode(Decimal(hash(namespace, podset)))
  }

  function PodSet(pod: Pod): string {
    if POD_SET_LABEL in pod.labels then pod.labels[POD_SET_LABEL] else ""
  }

  /** Where the plan of the pod's pod set is stored. */
  function PlanKey(hash: (string, string) -> nat, pod: Pod): Key {
    Key(pod.namespace, Name(hash, pod.namespace, PodSet(pod)))
  }

  predicate NoDash(s: string) { '-' !in s }

  lemma {:induction false} EncodedHasNoDash(s: string)
    ensures NoDash(SafeEncode(s))
  {
    assert NoDash(ALPHANUMS);
    if s != [] {
      EncodedHasNoDash(s[..|s| - 1]);
      assert ALPHANUMS[s[|s| - 1] as int % |ALPHANUMS|] in ALPHANUMS;
    }
  }

  lemma {:induction false} LastDashSplits(a: string, b: string, x: string, y: string)
    requires NoDash(x) && NoDash(y) && a + "-" + x == b + "-" + y
    ensures a == b && x == y
  {
    var l, r := a + "-" + x, b + "-" + y;
    assert l[|a|] == '-' && r[|b|] == '-';
    assert forall i :: |a| < i < |l| ==> l[i] == x[i - |a| - 1] && l[i] != '-';
    assert forall i :: |b| < i < |r| ==> r[i] == y[i - |b| - 1] && r[i] != '-';
    assert |a| == |b|;
    assert l[..|a|] == a && r[..|b|] == b;
    assert l[|a| + 1..] == x && r[|b| + 1..] == y;
  }

  /** Pod-set isolation: within a namespace different pod sets get different names whatever the
      hash, so (namespace, name) identifies the pod set. */
  lemma {:induction false} NamesAreDistinct(hash: (string, string) -> nat, ns: string, podset: string, ns': string,
      podset': string)
    ensures (ns, Name(hash, ns, podset)) == (ns', Name(hash, ns', podset')) <==> (ns, podset) == (ns', podset')
  {
    var x, y := SafeEncode(Decimal(hash(ns, podset))), SafeEncode(Decimal(hash(ns', podset')));
    EncodedHasNoDash(Decimal(hash(ns, podset)));
    EncodedHasNoDash(Decimal(hash(ns', podset')));
    if Name(hash, ns, podset) == Name(hash, ns', podset') {
      LastDashSplits(podset, podset', x, y);
    }
  }

  /** Two pods have their plan in the same object exactly if they are in the same namespace and have
      the same pod-set label; a missing label counts as an empty one. */
  lemma {:induction false} PlanKeyIff(hash: (string, string) -> nat, p: Pod, q: Pod)
    ensures PlanKey(hash, p) == PlanKey(hash, q) <==>
      && p.namespace == q.namespace
      && (if "planner.ciena.io/pod-set" in p.labels then p.labels["planner.ciena.io/pod-set"] else "") ==
         (if "planner.ciena.io/pod-set" in q.labels then q.labels["planner.ciena.io/pod-set"] else "")
  {
    NamesAreDistinct(hash, p.namespace, PodSet(p), q.namespace, PodSet(q));
    hide Name;
  }

  /** An example of a name: pod set, dash, and the digits of the hash in the safe alphabet. */
  lemma {:induction false} NameOfWeb(hash: (string, string) -> nat)
    requires hash("default", "web") == 102
    ensures Name(hash, "default", "web") == "web-546"
  {
    hide SafeEncode;
    var one, ten := Decimal(1), Decimal(10);
    assert one == "1" && ten == "10" && Decimal(102) == "102";
    hide Decimal;
    EncodeAppends("", '1');
    EncodeAppends("1", '0');
    EncodeAppends("10", '2');
    assert "" + ['1'] == "1" && "1" + ['0'] == "10" && "10" + ['2'] == "102";
  }

  lemma {:induction false} EncodeAppends(s: string, c: char)
    ensures SafeEncode("") == "" && SafeEncode(s + [c]) == SafeEncode(s) + [ALPHANUMS[c as int % 27]]
  {
    assert (s + [c])[..|s|] == s && |ALPHANUMS| == 27;
  }
}
