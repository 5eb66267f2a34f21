/** The keys by which two pods count as duplicates: one joined string per owner and container,
    sorted. Equality of the sorted lists is shown to mean equality of what the keys describe. */
module DuplicateKeys {
  import opened Cluster

  // ----- Sorting strings -----

  /** Lexicographic order. */
  predicate Leq(a: string, b: string) {
    a == [] || (b != [] && (a[0] < b[0] || (a[0] == b[0] && Leq(a[1..], b[1..]))))
  }

  lemma {:induction false} LeqOrders(a: string, b: string)
    ensures Leq(a, b) || Leq(b, a)
    ensures Leq(a, b) && Leq(b, a) ==> a == b
  {
    if a != [] && b != [] && a[0] == b[0] {
      LeqOrders(a[1..], b[1..]);
      assert a == [a[0]] + a[1..] && b == [b[0]] + b[1..];
    }
  }

  lemma {:induction false} LeqTransitive(a: string, b: string, c: string)
    requires Leq(a, b) && Leq(b, c)
    ensures Leq(a, c)
  {
    if a != [] && a[0] == b[0] == c[0] {
      LeqTransitive(a[1..], b[1..], c[1..]);
    }
  }

  predicate Sorted(s: seq<string>) {
    forall i, j :: 0 <= i < j < |s| ==> Leq(s[i], s[j])
  }

  function Insert(x: string, s: seq<string>): seq<string> {
    if s == [] || Leq(x, s[0]) then [x] + s else [s[0]] + Insert(x, s[1..])
  }

  function Sort(s: seq<string>): seq<string> {
    if s == [] then [] else Insert(s[0], Sort(s[1..]))
  }

  lemma {:induction false} InsertSorts(x: string, s: seq<string>)
    requires Sorted(s)
    ensures Sorted(Insert(x, s)) && multiset(Insert(x, s)) == multiset(s) + multiset{x}
  {
    if s == [] {
    } else if Leq(x, s[0]) {
      forall j | 0 <= j < |s| ensures Leq(x, s[j]) {
        if j > 0 { LeqTransitive(x, s[0], s[j]); }
      }
    } else {
      var r := Insert(x, s[1..]);
      LeqOrders(x, s[0]);
      InsertSorts(x, s[1..]);
      assert s == [s[0]] + s[1..];
      forall j | 0 <= j < |r| ensures Leq(s[0], r[j]) {
        assert r[j] in multiset(s[1..]) + multiset{x};
        assert r[j] == x || r[j] in s[1..];
      }
    }
  }

  lemma {:induction false} SortSorts(s: seq<string>)
    ensures Sorted(Sort(s)) && multiset(Sort(s)) == multiset(s)
  {
    if s != [] {
      SortSorts(s[1..]);
      InsertSorts(s[0], Sort(s[1..]));
      assert s == [s[0]] + s[1..];
    }
  }

  lemma {:induction false} HeadIsLeast(a: seq<string>, x: string)
    requires Sorted(a) && x in a
    ensures Leq(a[0], x)
  {
    var j :| 0 <= j < |a| && a[j] == x;
    LeqOrders(x, x);
  }

  lemma {:induction false} TailCounts(a: seq<string>)
    requires a != []
    ensures multiset(a[1..]) == multiset(a) - multiset{a[0]}
  {
    assert a == [a[0]] + a[1..];
  }

  lemma {:induction false} SameHead(a: seq<string>, b: seq<string>)
    requires Sorted(a) && Sorted(b) && multiset(a) == multiset(b) && a != [] && b != []
    ensures a[0] == b[0] && multiset(a[1..]) == multiset(b[1..])
  {
    hide Leq, Sorted;
    assert a[0] in multiset(b) && b[0] in multiset(a);
    HeadIsLeast(a, b[0]);
    HeadIsLeast(b, a[0]);
    LeqOrders(a[0], b[0]);
    TailCounts(a);
    TailCounts(b);
  }

  lemma {:induction false} SortedIsUnique(a: seq<string>, b: seq<string>)
    requires Sorted(a) && Sorted(b) && multiset(a) == multiset(b)
    ensures a == b
  {
    assert |multiset(a)| == |a| && |multiset(b)| == |b|;
    if a != [] {
      SameHead(a, b);
      SortedIsUnique(a[1..], b[1..]);
      assert a == [a[0]] + a[1..] && b == [b[0]] + b[1..];
    }
  }

  /** Sorting forgets the order and nothing else. */
  lemma {:induction false} SortEqualsIffPermutation(a: seq<string>, b: seq<string>)
    ensures Sort(a) == Sort(b) <==> multiset(a) == multiset(b)
  {
    SortSorts(a);
    SortSorts(b);
    if multiset(a) == multiset(b) {
      SortedIsUnique(Sort(a), Sort(b));
    }
  }

  // ----- Keys -----

  /** What one key stands for. */
  datatype Origin = Origin(namespace: string, kind: string, owner: string, image: string)

  function Joined(o: Origin): string {
    o.namespace + "/" + o.kind + "/" + o.owner + "/" + o.image
  }

  function OriginsOf(namespace: string, owner: Owner, containers: seq<Container>): seq<Origin> {
    if containers == [] then []
    else OriginsOf(namespace, owner, containers[..|containers| - 1])
         + [Origin(namespace, owner.kind, owner.name, containers[|containers| - 1].image)]
  }

  function Origins(namespace: string, owners: seq<Owner>, containers: seq<Container>): seq<Origin> {
    if owners == [] then []
    else Origins(namespace, owners[..|owners| - 1], containers)
         + OriginsOf(namespace, owners[|owners| - 1], containers)
  }

  function PodOrigins(pod: Pod): seq<Origin> {
    Origins(pod.namespace, pod.owners, pod.containers)
  }

  function JoinAll(os: seq<Origin>): seq<string> {
    if os == [] then [] else JoinAll(os[..|os| - 1]) + [Joined(os[|os| - 1])]
  }

  /** The sorted keys of a pod. */
  function ContainerKeys(pod: Pod): seq<string> {
    Sort(JoinAll(PodOrigins(pod)))
  }

  /** The nested loops that collect the keys. */
  method GetPodContainerKeys(pod: Pod) returns (keys: seq<string>)
    ensures keys == ContainerKeys(pod)
  {
    hide Joined, Sort;
    keys := [];
    ghost var os: seq<Origin> := [];
    for i := 0 to |pod.owners|
      invariant os == Origins(pod.namespace, pod.owners[..i], pod.containers)
      invariant keys == JoinAll(os)
    {
      var owner := pod.owners[i];
      ghost var before := os;
      for j := 0 to |pod.containers|
        invariant os == before + OriginsOf(pod.namespace, owner, pod.containers[..j])
        invariant keys == JoinAll(os)
      {
        var o := Origin(pod.namespace, owner.kind, owner.name, pod.containers[j].image);
        assert pod.containers[..j + 1][..j] == pod.containers[..j];
        assert (os + [o])[..|os|] == os;
        os := os + [o];
        keys := keys + [Joined(o)];
      }
      assert pod.containers[..|pod.containers|] == pod.containers;
      assert pod.owners[..i + 1][..i] == pod.owners[..i];
    }
    assert pod.owners[..|pod.owners|] == pod.owners;
    keys := Sort(keys);
  }

  predicate NoSlash(s: string) { '/' !in s }

  /** Kubernetes names and kinds: no slash in front of the image. */
  predicate Plain(o: Origin) {
    NoSlash(o.namespace) && NoSlash(o.kind) && NoSlash(o.owner)
  }

  predicate AllPlain(os: seq<Origin>) {
    forall i :: 0 <= i < |os| ==> Plain(os[i])
  }

  lemma {:induction false} SplitAtSlash(a: string, b: string, x: string, y: string)
    requires NoSlash(a) && NoSlash(b) && a + "/" + x == b + "/" + y
    ensures a == b && x == y
  {
    var l, r := a + "/" + x, b + "/" + y;
    assert l[|a|] == '/' && r[|b|] == '/';
    assert forall i :: 0 <= i < |a| ==> l[i] == a[i] && a[i] != '/';
    assert forall i :: 0 <= i < |b| ==> r[i] == b[i] && b[i] != '/';
    assert |a| == |b|;
    assert l[..|a|] == a && r[..|b|] == b;
    assert l[|a| + 1..] == x && r[|b| + 1..] == y;
  }

  lemma {:induction false} JoinedInjective(o: Origin, p: Origin)
    requires Plain(o) && Plain(p)
    ensures Joined(o) == Joined(p) <==> o == p
  {
    if Joined(o) == Joined(p) {
      var x, y := o.owner + "/" + o.image, p.owner + "/" + p.image;
      var u, v := o.kind + "/" + x, p.kind + "/" + y;
      assert Joined(o) == o.namespace + "/" + u && Joined(p) == p.namespace + "/" + v;
      SplitAtSlash(o.namespace, p.namespace, u, v);
      SplitAtSlash(o.kind, p.kind, x, y);
      SplitAtSlash(o.owner, p.owner, o.image, p.image);
    }
  }

  lemma {:induction false} JoinCounts(os: seq<Origin>, o: Origin)
    requires Plain(o) && AllPlain(os)
    ensures multiset(JoinAll(os))[Joined(o)] == multiset(os)[o]
  {
    if os != [] {
      var n := |os| - 1;
      JoinCounts(os[..n], o);
      JoinedInjective(o, os[n]);
      assert os == os[..n] + [os[n]];
    }
  }

  lemma {:induction false} JoinedFromSome(os: seq<Origin>, k: string)
    requires k in JoinAll(os)
    ensures exists i :: 0 <= i < |os| && Joined(os[i]) == k
  {
    var n := |os| - 1;
    if k != Joined(os[n]) {
      JoinedFromSome(os[..n], k);
      var i :| 0 <= i < n && Joined(os[..n][i]) == k;
      assert Joined(os[i]) == k;
    }
  }

  lemma {:induction false} JoinAllReflects(a: seq<Origin>, b: seq<Origin>)
    requires AllPlain(a) && AllPlain(b) && multiset(JoinAll(a)) == multiset(JoinAll(b))
    ensures multiset(a) == multiset(b)
  {
    forall o
      ensures multiset(a)[o] == multiset(b)[o]
    {
      if Plain(o) {
        JoinCounts(a, o);
        JoinCounts(b, o);
      } else {
        assert o !in a && o !in b;
      }
    }
  }

  lemma {:induction false} JoinAllKeeps(a: seq<Origin>, b: seq<Origin>)
    requires AllPlain(a) && AllPlain(b) && multiset(a) == multiset(b)
    ensures multiset(JoinAll(a)) == multiset(JoinAll(b))
  {
    forall k
      ensures multiset(JoinAll(a))[k] == multiset(JoinAll(b))[k]
    {
      if k in JoinAll(a) {
        JoinedFromSome(a, k);
        var i :| 0 <= i < |a| && Joined(a[i]) == k;
        JoinCounts(a, a[i]);
        JoinCounts(b, a[i]);
      } else if k in JoinAll(b) {
        JoinedFromSome(b, k);
        var i :| 0 <= i < |b| && Joined(b[i]) == k;
        JoinCounts(a, b[i]);
        JoinCounts(b, b[i]);
      }
    }
  }

  lemma {:induction false} JoinAllKeepsEquality(a: seq<Origin>, b: seq<Origin>)
    requires AllPlain(a) && AllPlain(b)
    ensures multiset(JoinAll(a)) == multiset(JoinAll(b)) <==> multiset(a) == multiset(b)
  {
    if multiset(JoinAll(a)) == multiset(JoinAll(b)) { JoinAllReflects(a, b); }
    if multiset(a) == multiset(b) { JoinAllKeeps(a, b); }
  }

  lemma {:induction false} OriginsArePlain(namespace: string, owners: seq<Owner>, containers: seq<Container>)
    requires NoSlash(namespace)
    requires forall i :: 0 <= i < |owners| ==> NoSlash(owners[i].kind) && NoSlash(owners[i].name)
    ensures AllPlain(Origins(namespace, owners, containers))
  {
    if owners != [] {
      OriginsArePlain(namespace, owners[..|owners| - 1], containers);
      OwnerOriginsArePlain(namespace, owners[|owners| - 1], containers);
    }
  }

  lemma {:induction false} OwnerOriginsArePlain(namespace: string, owner: Owner, containers: seq<Container>)
    requires NoSlash(namespace) && NoSlash(owner.kind) && NoSlash(owner.name)
    ensures AllPlain(OriginsOf(namespace, owner, containers))
  {
    if containers != [] {
      OwnerOriginsArePlain(namespace, owner, containers[..|containers| - 1]);
    }
  }

  predicate PlainPod(p: Pod) {
    NoSlash(p.namespace)
    && forall i :: 0 <= i < |p.owners| ==> NoSlash(p.owners[i].kind) && NoSlash(p.owners[i].name)
  }

  /** Two pods count as duplicates exactly when their keys describe the same multiset of
      (namespace, owner kind, owner name, image). */
  lemma {:induction false} DuplicateMeansSameOrigins(p: Pod, q: Pod)
    requires PlainPod(p) && PlainPod(q)
    ensures ContainerKeys(p) == ContainerKeys(q) <==> multiset(PodOrigins(p)) == multiset(PodOrigins(q))
  {
    OriginsArePlain(p.namespace, p.owners, p.containers);
    OriginsArePlain(q.namespace, q.owners, q.containers);
    JoinAllKeepsEquality(PodOrigins(p), PodOrigins(q));
    SortEqualsIffPermutation(JoinAll(PodOrigins(p)), JoinAll(PodOrigins(q)));
  }

  // ----- The documented relation -----

  /** What the comment above the filter calls a duplicate: same namespace, an owner in common, and
      at least one image in common. */
  ghost predicate DocumentedDuplicate(p: Pod, q: Pod) {
    && p.namespace == q.namespace
    && (exists o :: o in p.owners && o in q.owners)
    && (exists image :: ImageCount(p.containers, image) > 0 && ImageCount(q.containers, image) > 0)
  }

  /** How many of the containers run the image. */
  function ImageCount(containers: seq<Container>, image: string): nat {
    if containers == [] then 0
    else
      var n := |containers| - 1;
      ImageCount(containers[..n], image) + if containers[n].image == image then 1 else 0
  }

  /** No keys at all. */
  predicate Keyless(p: Pod) { p.owners == [] || p.containers == [] }

  /** How many (owner, container) pairs of the pod have this owner and image. */
  function PairCount(owners: seq<Owner>, containers: seq<Container>, owner: Owner, image: string): nat {
    Times(multiset(owners)[owner], ImageCount(containers, image))
  }

  function Times(a: nat, b: nat): nat { a * b }

  lemma {:induction false} TimesFacts(a: nat, b: nat)
    ensures Times(a + 1, b) == Times(a, b) + b && Times(1, b) == b && Times(0, b) == 0
    ensures Times(a, b) > 0 <==> a > 0 && b > 0
  {
    assert (a + 1) * b == a * b + b;
  }

  lemma {:induction false} OwnerOriginCount(namespace: string, owner: Owner, containers: seq<Container>, o: Origin)
    ensures multiset(OriginsOf(namespace, owner, containers))[o] ==
      if o.namespace == namespace && Owner(o.kind, o.owner) == owner then ImageCount(containers, o.image) else 0
  {
    if containers != [] {
      OwnerOriginCount(namespace, owner, containers[..|containers| - 1], o);
    }
  }

  /** An origin occurs once for every occurrence of its owner and every container of its image. */
  lemma {:induction false} OriginCount(namespace: string, owners: seq<Owner>, containers: seq<Container>, o: Origin)
    ensures multiset(Origins(namespace, owners, containers))[o] ==
      if o.namespace == namespace then PairCount(owners, containers, Owner(o.kind, o.owner), o.image) else 0
  {
    hide PairCount, ImageCount, OriginsOf;
    if owners == [] {
      NoPairs(containers, Owner(o.kind, o.owner), o.image);
    } else {
      var n := |owners| - 1;
      OriginCount(namespace, owners[..n], containers, o);
      OwnerOriginCount(namespace, owners[n], containers, o);
      OneMoreOwner(owners[..n], owners[n], containers, Owner(o.kind, o.owner), o.image);
      assert owners == owners[..n] + [owners[n]];
    }
  }

  lemma {:induction false} NoPairs(containers: seq<Container>, owner: Owner, image: string)
    ensures PairCount([], containers, owner, image) == 0
  {
    TimesFacts(0, ImageCount(containers, image));
  }

  lemma {:induction false} OneMoreOwner(owners: seq<Owner>, x: Owner, containers: seq<Container>, owner: Owner,
      image: string)
    ensures PairCount(owners + [x], containers, owner, image) ==
      PairCount(owners, containers, owner, image) + if owner == x then ImageCount(containers, image) else 0
  {
    hide Times, ImageCount;
    TimesFacts(multiset(owners)[owner], ImageCount(containers, image));
  }

  /** Owners and images occur equally often, pair by pair. */
  ghost predicate SamePairs(p: Pod, q: Pod) {
    forall owner, image ::
      PairCount(p.owners, p.containers, owner, image) == PairCount(q.owners, q.containers, owner, image)
  }

  lemma {:induction false} OriginsByPairs(p: Pod, q: Pod)
    requires p.namespace == q.namespace
    ensures multiset(PodOrigins(p)) == multiset(PodOrigins(q)) <==> SamePairs(p, q)
  {
    hide PairCount, Origins;
    var a, b := multiset(PodOrigins(p)), multiset(PodOrigins(q));
    if a == b {
      forall owner: Owner, image
        ensures PairCount(p.owners, p.containers, owner, image) == PairCount(q.owners, q.containers, owner, image)
      {
        var o := Origin(p.namespace, owner.kind, owner.name, image);
        OriginCount(p.namespace, p.owners, p.containers, o);
        OriginCount(q.namespace, q.owners, q.containers, o);
      }
    }
    if SamePairs(p, q) {
      forall o
        ensures a[o] == b[o]
      {
        OriginCount(p.namespace, p.owners, p.containers, o);
        OriginCount(q.namespace, q.owners, q.containers, o);
      }
    }
  }

  lemma {:induction false} KeylessOrigins(p: Pod)
    ensures PodOrigins(p) == [] <==> Keyless(p)
  {
    if Keyless(p) {
      if PodOrigins(p) != [] {
        assert PodOrigins(p)[0] in PodOrigins(p);
        OriginIn(p, PodOrigins(p)[0]);
      }
    } else {
      var owner, image := p.owners[|p.owners| - 1], p.containers[|p.containers| - 1].image;
      OriginIn(p, Origin(p.namespace, owner.kind, owner.name, image));
    }
  }

  lemma {:induction false} SharedOrigin(p: Pod, q: Pod)
    ensures DocumentedDuplicate(p, q) <==> exists o :: o in PodOrigins(p) && o in PodOrigins(q)
  {
    if DocumentedDuplicate(p, q) {
      var owner :| owner in p.owners && owner in q.owners;
      var image :| ImageCount(p.containers, image) > 0 && ImageCount(q.containers, image) > 0;
      var o := Origin(p.namespace, owner.kind, owner.name, image);
      OriginIn(p, o);
      OriginIn(q, o);
    }
    if o :| o in PodOrigins(p) && o in PodOrigins(q) {
      OriginIn(p, o);
      OriginIn(q, o);
    }
  }

  lemma {:induction false} OriginIn(p: Pod, o: Origin)
    ensures o in PodOrigins(p) <==>
      o.namespace == p.namespace && Owner(o.kind, o.owner) in p.owners && ImageCount(p.containers, o.image) > 0
  {
    OriginCount(p.namespace, p.owners, p.containers, o);
    assert o in PodOrigins(p) <==> multiset(PodOrigins(p))[o] > 0;
    assert Owner(o.kind, o.owner) in p.owners <==> multiset(p.owners)[Owner(o.kind, o.owner)] > 0;
    TimesFacts(multiset(p.owners)[Owner(o.kind, o.owner)], ImageCount(p.containers, o.image));
    hide Times, Origins;
  }

  /** The code finds a duplicate that the comment does not describe exactly when neither pod has
      any key: no owner, or no container. */
  lemma {:induction false} UndocumentedDuplicateIff(p: Pod, q: Pod)
    requires PlainPod(p) && PlainPod(q)
    ensures ContainerKeys(p) == ContainerKeys(q) && !DocumentedDuplicate(p, q) <==> Keyless(p) && Keyless(q)
  {
    hide ContainerKeys, DocumentedDuplicate, Keyless, PodOrigins, PlainPod;
    DuplicateMeansSameOrigins(p, q);
    SharedOrigin(p, q);
    KeylessOrigins(p);
    KeylessOrigins(q);
    var a, b := PodOrigins(p), PodOrigins(q);
    assert |multiset(a)| == |a| && |multiset(b)| == |b|;
    if multiset(a) == multiset(b) && a != [] {
      assert a[0] in a && a[0] in multiset(a) && a[0] in b;
    }
    if a == [] == b {
      assert !exists o :: o in a && o in b;
    }
  }

  /** The code misses a duplicate that the comment describes exactly when some owner and image of
      the two pods occur a different number of times: one shared image is not enough. */
  lemma {:induction false} MissedDuplicateIff(p: Pod, q: Pod)
    requires PlainPod(p) && PlainPod(q) && DocumentedDuplicate(p, q)
    ensures ContainerKeys(p) != ContainerKeys(q) <==> !SamePairs(p, q)
  {
    DuplicateMeansSameOrigins(p, q);
    OriginsByPairs(p, q);
  }

  /** Code and comment agree exactly on these pairs: documented duplicates with the same owners and
      images, occurrence by occurrence, and other pods of which one has a key. */
  lemma {:induction false} CodeMatchesCommentIff(p: Pod, q: Pod)
    requires PlainPod(p) && PlainPod(q)
    ensures (ContainerKeys(p) == ContainerKeys(q) <==> DocumentedDuplicate(p, q)) <==>
      (if DocumentedDuplicate(p, q) then SamePairs(p, q) else !(Keyless(p) && Keyless(q)))
  {
    UndocumentedDuplicateIff(p, q);
    hide ContainerKeys, DocumentedDuplicate, Keyless, SamePairs;
    if DocumentedDuplicate(p, q) {
      MissedDuplicateIff(p, q);
    }
  }

  ghost predicate SameImages(p: Pod, q: Pod) {
    forall image :: ImageCount(p.containers, image) == ImageCount(q.containers, image)
  }

  /** Pods of one owner each: they are duplicates exactly when namespace and owner are the same and
      every image occurs equally often; with one container each, code and comment agree. */
  lemma {:induction false} OneOwnerEach(p: Pod, q: Pod)
    requires PlainPod(p) && PlainPod(q) && |p.owners| == |q.owners| == 1
    requires p.containers != [] && q.containers != []
    ensures ContainerKeys(p) == ContainerKeys(q) <==>
      p.namespace == q.namespace && p.owners == q.owners && SameImages(p, q)
    ensures |p.containers| == |q.containers| == 1 ==>
      (ContainerKeys(p) == ContainerKeys(q) <==> DocumentedDuplicate(p, q))
  {
    UndocumentedDuplicateIff(p, q);
    hide ContainerKeys, PlainPod;
    var x, y := p.owners[0], q.owners[0];
    assert p.owners == [x] && q.owners == [y];
    if DocumentedDuplicate(p, q) {
      MissedDuplicateIff(p, q);
      assert x == y;
      OneOwnerPairs(p, q, x);
      hide SamePairs;
      if |p.containers| == |q.containers| == 1 {
        OneImage(p.containers);
        OneImage(q.containers);
      }
    } else {
      var image := p.containers[|p.containers| - 1].image;
      assert ImageCount(p.containers, image) > 0;
      assert x in p.owners && y in q.owners;
      if p.namespace == q.namespace && x == y && SameImages(p, q) {
        assert false;
      }
    }
  }

  lemma {:induction false} OneOwnerPairs(p: Pod, q: Pod, x: Owner)
    requires p.owners == [x] == q.owners
    ensures SamePairs(p, q) <==> SameImages(p, q)
  {
    hide ImageCount, Times;
    forall owner, image
      ensures PairCount([x], p.containers, owner, image) == if owner == x then ImageCount(p.containers, image) else 0
      ensures PairCount([x], q.containers, owner, image) == if owner == x then ImageCount(q.containers, image) else 0
    {
      TimesFacts(0, ImageCount(p.containers, image));
      TimesFacts(0, ImageCount(q.containers, image));
    }
    if SamePairs(p, q) {
      forall image
        ensures ImageCount(p.containers, image) == ImageCount(q.containers, image)
      {
        assert PairCount([x], p.containers, x, image) == PairCount([x], q.containers, x, image);
      }
    } else {
      hide PairCount;
      var owner, image :| PairCount([x], p.containers, owner, image) != PairCount([x], q.containers, owner, image);
      assert owner == x;
      assert ImageCount(p.containers, image) != ImageCount(q.containers, image);
    }
  }

  lemma {:induction false} OneImage(cs: seq<Container>)
    requires |cs| == 1
    ensures forall image :: ImageCount(cs, image) == if image == cs[0].image then 1 else 0
  {
    assert cs[..0] == [];
  }

  // ----- Two inputs on which code and comment disagree -----

  function Worker(name: string, owners: seq<Owner>, images: seq<string>): Pod {
    Pod("default", name, Pending, false, "", map[], owners,
        seq(|images|, i requires 0 <= i < |images| => Container(images[i], map[])), [], None)
  }

  /** One owner, two images each, one of them shared: a documented duplicate the code does not find. */
  lemma {:induction false} OneSharedImageIsMissed()
    ensures var p := Worker("a", [Owner("ReplicaSet", "web")], ["app", "log"]);
      var q := Worker("b", [Owner("ReplicaSet", "web")], ["app", "proxy"]);
      DocumentedDuplicate(p, q) && ContainerKeys(p) != ContainerKeys(q)
  {
    hide ContainerKeys, ImageCount, SamePairs;
    var owner := Owner("ReplicaSet", "web");
    var p, q := Worker("a", [owner], ["app", "log"]), Worker("b", [owner], ["app", "proxy"]);
    ImagesOf("a", [owner], "app", "log");
    ImagesOf("b", [owner], "app", "proxy");
    assert "log"[0] == 'l' && "app"[0] == 'a' && "proxy"[0] == 'p';
    assert owner in p.owners && owner in q.owners;
    assert ImageCount(p.containers, "app") == 1 == ImageCount(q.containers, "app");
    assert ImageCount(p.containers, "log") == 1 && ImageCount(q.containers, "log") == 0;
    OneOwnerEach(p, q);
  }

  lemma {:induction false} ImagesOf(name: string, owners: seq<Owner>, x: string, y: string)
    requires x != y
    ensures var cs := Worker(name, owners, [x, y]).containers;
      forall image :: ImageCount(cs, image) == if image in {x, y} then 1 else 0
  {
    TwoImages(Worker(name, owners, [x, y]).containers);
  }

  lemma {:induction false} TwoImages(cs: seq<Container>)
    requires |cs| == 2
    ensures forall image ::
      ImageCount(cs, image) == (if image == cs[0].image then 1 else 0) + (if image == cs[1].image then 1 else 0)
  {
    assert cs[..1] == [cs[0]] && [cs[0]][..0] == [];
    OneImage([cs[0]]);
  }

  /** Two pods without owners: the code finds a duplicate, whatever their images. */
  lemma {:induction false} OwnerlessPodsAreDuplicates()
    ensures var p, q := Worker("a", [], ["app"]), Worker("b", [], ["proxy"]);
      ContainerKeys(p) == ContainerKeys(q) && !DocumentedDuplicate(p, q)
  {
    UndocumentedDuplicateIff(Worker("a", [], ["app"]), Worker("b", [], ["proxy"]));
  }
}
