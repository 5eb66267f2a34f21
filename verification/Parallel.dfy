/** The worker pool that runs a check on every node: chunk sizes, the chunk queue, and the
    proof that every interleaving collects exactly what a sequential pass would. */
module Parallel {
  const DEFAULT_PARALLELISM: nat := 16

  function Parallelism(requested: int): (p: nat)
    ensures p > 0
  {
    if requested <= 0 then DEFAULT_PARALLELISM else requested
  }

  /** The integer part of the square root. */
  function Root(n: nat): (r: nat)
    ensures r * r <= n < (r + 1) * (r + 1)
  {
    if n == 0 then 0
    else
      var r := Root(n - 1);
      if (r + 1) * (r + 1) <= n then r + 1 else r
  }

  /** Work taken from the queue at a time: at least 1, at most the root of the pieces and an
      even share plus one. */
  function ChunkSize(pieces: nat, parallelism: nat): (size: nat)
    requires parallelism > 0
    ensures size >= 1
    ensures pieces >= 1 ==> size * size <= pieces && size <= pieces / parallelism + 1
  {
    var root := Root(pieces);
    var share := pieces / parallelism + 1;
    if share < root then
      Squares(share, root);
      share
    else if root < 1 then 1
    else root
  }

  lemma {:induction false} Squares(a: nat, b: nat)
    requires a <= b
    ensures a * a <= b * b
  {
    assert a * a <= a * b <= b * b;
  }

  /** It is the largest size within both limits. */
  lemma {:induction false} ChunkSizeIsLargest(pieces: nat, parallelism: nat, d: nat)
    requires parallelism > 0 && d * d <= pieces && d <= pieces / parallelism + 1
    ensures d <= ChunkSize(pieces, parallelism)
  {
    var root := Root(pieces);
    if d > root {
      Squares(root + 1, d);
    }
  }

  /** One parallel pass: `pieces` checks, taken from the queue `chunk` at a time. */
  datatype Job = Job(pieces: nat, chunk: nat, accepts: nat -> bool) {
    function Chunks(): nat
      requires chunk > 0
    {
      (pieces + chunk - 1) / chunk
    }

    function Start(k: nat): nat { k * chunk }

    function End(k: nat): nat {
      if (k * chunk) + chunk > pieces then pieces else k * chunk + chunk
    }

    ghost predicate Valid() { pieces > 0 && chunk > 0 }
  }

  datatype Worker = Ready | Working(next: nat, end: nat) | Gone

  /** `handled` are the pieces whose check has run; `found` is the shared result slice. */
  datatype Pool = Pool(
    nextChunk: nat,
    workers: seq<Worker>,
    handled: set<nat>,
    found: seq<nat>,
    cancelled: bool)

  datatype Action =
    | Take(w: nat)
    | Drain(w: nat)
    | Check(w: nat, lost: bool)
    | EndChunk(w: nat)
    | Quit(w: nat)
    | Cancel

  ghost predicate Init(j: Job, s: Pool) {
    && s.nextChunk == 0 && s.handled == {} && s.found == [] && !s.cancelled
    && s.workers != []
    && forall w :: 0 <= w < |s.workers| ==> s.workers[w] == Ready
  }

  /** One step of one worker, or the cancellation of the shared context. A check that runs
      under a cancelled context may lose a node that would have passed. */
  ghost predicate Next(j: Job, s: Pool, a: Action, t: Pool)
    requires j.Valid()
  {
    match a
    case Take(w) =>
      && w < |s.workers| && s.workers[w] == Ready && s.nextChunk < j.Chunks()
      && t == s.(nextChunk := s.nextChunk + 1,
                 workers := s.workers[w := Working(j.Start(s.nextChunk), j.End(s.nextChunk))])
    case Drain(w) =>
      && w < |s.workers| && s.workers[w] == Ready && s.nextChunk == j.Chunks()
      && t == s.(workers := s.workers[w := Gone])
    case Check(w, lost) =>
      && w < |s.workers| && s.workers[w].Working? && s.workers[w].next < s.workers[w].end
      && (lost ==> s.cancelled)
      && var i := s.workers[w].next;
         t == s.(workers := s.workers[w := Working(i + 1, s.workers[w].end)],
                 handled := s.handled + {i},
                 found := if j.accepts(i) && !lost then s.found + [i] else s.found)
    case EndChunk(w) =>
      && w < |s.workers| && s.workers[w].Working? && s.workers[w].next >= s.workers[w].end
      && t == s.(workers := s.workers[w := Ready])
    case Quit(w) =>
      && w < |s.workers| && s.workers[w].Working? && s.workers[w].next < s.workers[w].end && s.cancelled
      && t == s.(workers := s.workers[w := Gone])
    case Cancel =>
      t == s.(cancelled := true)
  }

  /** Piece `i` is still in the queue. */
  ghost predicate Queued(j: Job, s: Pool, i: nat) {
    j.Start(s.nextChunk) <= i < j.pieces
  }

  ghost predicate HeldBy(s: Pool, w: nat, i: nat)
    requires w < |s.workers|
  {
    s.workers[w].Working? && s.workers[w].next <= i < s.workers[w].end
  }

  /** Every piece is in at most one place, and in exactly one while nothing is cancelled. */
  ghost predicate Inv(j: Job, s: Pool)
    requires j.Valid()
  {
    && s.workers != []
    && s.nextChunk <= j.Chunks()
    && (forall w :: 0 <= w < |s.workers| && s.workers[w].Working? ==>
          s.workers[w].end <= j.pieces && s.workers[w].end <= j.Start(s.nextChunk))
    && (forall v, w, i: nat :: 0 <= v < w < |s.workers| && HeldBy(s, v, i) ==> !HeldBy(s, w, i))
    && (forall i :: i in s.handled ==> i < j.pieces && !Queued(j, s, i))
    && (forall w, i :: 0 <= w < |s.workers| && i in s.handled ==> !HeldBy(s, w, i))
    && (!s.cancelled ==> forall i: nat :: i < j.pieces ==>
          i in s.handled || Queued(j, s, i) || exists w :: 0 <= w < |s.workers| && HeldBy(s, w, i))
    && (!s.cancelled ==> forall w :: 0 <= w < |s.workers| && s.workers[w] == Gone ==> s.nextChunk == j.Chunks())
    && (forall a, b :: 0 <= a < b < |s.found| ==> s.found[a] != s.found[b])
    && (forall i :: i in s.found ==> i in s.handled && j.accepts(i))
    && (!s.cancelled ==> forall i :: i in s.handled && j.accepts(i) ==> i in s.found)
  }

  lemma {:induction false} ChunkBounds(j: Job, k: nat)
    requires j.Valid()
    ensures j.Start(k + 1) == j.Start(k) + j.chunk
    ensures k < j.Chunks() <==> j.Start(k) < j.pieces
    ensures j.End(k) <= j.pieces && j.End(k) <= j.Start(k + 1)
    ensures k < j.Chunks() ==> j.Start(k) < j.End(k)
    ensures j.End(k) == j.pieces || j.End(k) == j.Start(k + 1)
  {
    var n := j.pieces + j.chunk - 1;
    DivBounds(n, j.chunk);
    Successor(k, j.chunk);
    if k < j.Chunks() {
      Monotone(k + 1, j.Chunks(), j.chunk);
    } else {
      Monotone(j.Chunks(), k, j.chunk);
    }
  }

  lemma {:induction false} DivBounds(n: nat, c: nat)
    requires c > 0
    ensures (n / c) * c <= n < (n / c) * c + c
  {
    assert n == (n / c) * c + n % c;
  }

  lemma {:induction false} Successor(k: nat, c: nat)
    ensures (k + 1) * c == k * c + c
  {
  }

  lemma {:induction false} Monotone(a: nat, b: nat, c: nat)
    requires a <= b
    ensures a * c <= b * c
  {
  }

  lemma {:induction false} NextKeepsInv(j: Job, s: Pool, a: Action, t: Pool)
    requires j.Valid() && Inv(j, s) && Next(j, s, a, t)
    ensures Inv(j, t)
  {
    match a
    case Take(w) => TakeKeepsInv(j, s, w, t);
    case Check(w, lost) => CheckKeepsInv(j, s, w, lost, t);
    case Drain(w) => LeaveKeepsInv(j, s, w, Gone, t);
    case EndChunk(w) => LeaveKeepsInv(j, s, w, Ready, t);
    case Quit(w) => LeaveKeepsInv(j, s, w, Gone, t);
    case Cancel =>
      assert forall v, i: nat :: 0 <= v < |t.workers| ==> HeldBy(t, v, i) == HeldBy(s, v, i);
      assert forall i: nat :: Queued(j, t, i) == Queued(j, s, i);
  }

  /** A worker may let go of its range only when it is empty or the context is cancelled. */
  lemma {:induction false} LeaveKeepsInv(j: Job, s: Pool, w: nat, r: Worker, t: Pool)
    requires j.Valid() && Inv(j, s)
    requires w < |s.workers| && (r.Ready? || r.Gone?) && t == s.(workers := s.workers[w := r])
    requires s.cancelled || forall i: nat :: !HeldBy(s, w, i)
    requires s.cancelled || r.Ready? || s.nextChunk == j.Chunks()
    ensures Inv(j, t)
  {
    assert forall v, i: nat :: 0 <= v < |t.workers| && v != w ==> HeldBy(t, v, i) == HeldBy(s, v, i);
    assert forall i: nat :: !HeldBy(t, w, i);
    assert forall i: nat :: Queued(j, t, i) == Queued(j, s, i);
  }

  lemma {:induction false} TakeKeepsInv(j: Job, s: Pool, w: nat, t: Pool)
    requires j.Valid() && Inv(j, s) && Next(j, s, Take(w), t)
    ensures Inv(j, t)
  {
    var k := s.nextChunk;
    ChunkBounds(j, k);
    assert forall v, i: nat :: 0 <= v < |t.workers| && v != w ==> HeldBy(t, v, i) == HeldBy(s, v, i);
    assert forall i: nat :: HeldBy(t, w, i) <==> j.Start(k) <= i < j.End(k);
    assert forall i: nat :: Queued(j, s, i) <==> Queued(j, t, i) || HeldBy(t, w, i);
    assert forall v, i: nat :: 0 <= v < |s.workers| && HeldBy(s, v, i) ==> i < j.Start(k);
  }

  lemma {:induction false} CheckKeepsInv(j: Job, s: Pool, w: nat, lost: bool, t: Pool)
    requires j.Valid() && Inv(j, s) && Next(j, s, Check(w, lost), t)
    ensures Inv(j, t)
  {
    var p := s.workers[w].next;
    assert HeldBy(s, w, p);
    assert forall v, i: nat :: 0 <= v < |t.workers| && v != w ==> HeldBy(t, v, i) == HeldBy(s, v, i);
    assert forall i: nat :: HeldBy(s, w, i) <==> HeldBy(t, w, i) || i == p;
    assert p !in s.handled && p !in s.found;
  }

  // ----- Whole runs -----

  ghost predicate IsRun(j: Job, states: seq<Pool>, actions: seq<Action>)
    requires j.Valid()
  {
    && |states| == |actions| + 1
    && Init(j, states[0])
    && forall i :: 0 <= i < |actions| ==> Next(j, states[i], actions[i], states[i + 1])
  }

  lemma {:induction false} RunKeepsInv(j: Job, states: seq<Pool>, actions: seq<Action>, n: nat)
    requires j.Valid() && IsRun(j, states, actions) && n < |states|
    ensures Inv(j, states[n])
  {
    if n > 0 {
      RunKeepsInv(j, states, actions, n - 1);
      NextKeepsInv(j, states[n - 1], actions[n - 1], states[n]);
    } else {
      ChunkBounds(j, 0);
    }
  }

  /** What a sequential pass over the pieces collects. */
  function Sequential(j: Job, upTo: nat): seq<nat> {
    if upTo == 0 then []
    else Sequential(j, upTo - 1) + if j.accepts(upTo - 1) then [upTo - 1] else []
  }

  /** It collects each accepted piece once, in order. */
  lemma {:induction false} SequentialCollects(j: Job, upTo: nat)
    ensures var s := Sequential(j, upTo);
      && (forall a, b :: 0 <= a < b < |s| ==> s[a] < s[b])
      && (forall i: nat :: i in s <==> i < upTo && j.accepts(i))
  {
    if upTo > 0 {
      SequentialCollects(j, upTo - 1);
      var before := Sequential(j, upTo - 1);
      forall k | 0 <= k < |before| ensures before[k] < upTo - 1 {
        assert before[k] in before;
      }
    }
  }

  lemma {:induction false} CountDistinct(s: seq<nat>, i: nat)
    requires forall a, b :: 0 <= a < b < |s| ==> s[a] != s[b]
    ensures multiset(s)[i] == if i in s then 1 else 0
  {
    if s != [] {
      var r := s[..|s| - 1];
      CountDistinct(r, i);
      assert s == r + [s[|s| - 1]];
    }
  }

  lemma {:induction false} SequentialCounts(j: Job, upTo: nat, i: nat)
    ensures multiset(Sequential(j, upTo))[i] == if i < upTo && j.accepts(i) then 1 else 0
  {
    SequentialCollects(j, upTo);
    CountDistinct(Sequential(j, upTo), i);
  }

  /** In every interleaving, once all workers have returned, the collected pieces are a
      permutation of the sequential result; after a cancellation, a part of it. */
  lemma {:induction false} ParallelRefinesSequential(j: Job, states: seq<Pool>, actions: seq<Action>)
    requires j.Valid() && IsRun(j, states, actions)
    requires forall w :: 0 <= w < |states[|actions|].workers| ==> states[|actions|].workers[w] == Gone
    ensures multiset(states[|actions|].found) <= multiset(Sequential(j, j.pieces))
    ensures !states[|actions|].cancelled ==>
      multiset(states[|actions|].found) == multiset(Sequential(j, j.pieces))
  {
    var s := states[|actions|];
    RunKeepsInv(j, states, actions, |actions|);
    ChunkBounds(j, j.Chunks());
    assert s.workers[0] == Gone;
    forall i: nat
      ensures multiset(s.found)[i] <= multiset(Sequential(j, j.pieces))[i]
      ensures !s.cancelled ==> multiset(s.found)[i] == multiset(Sequential(j, j.pieces))[i]
    {
      CountDistinct(s.found, i);
      SequentialCounts(j, j.pieces, i);
      if !s.cancelled && i < j.pieces {
        assert !Queued(j, s, i);
        assert forall w :: 0 <= w < |s.workers| ==> !HeldBy(s, w, i);
      }
    }
  }

  /** The same result, piece by piece. */
  lemma {:induction false} FoundPieces(j: Job, states: seq<Pool>, actions: seq<Action>)
    requires j.Valid() && IsRun(j, states, actions)
    requires forall w :: 0 <= w < |states[|actions|].workers| ==> states[|actions|].workers[w] == Gone
    ensures forall i :: i in states[|actions|].found ==> i < j.pieces && j.accepts(i)
    ensures forall a, b :: 0 <= a < b < |states[|actions|].found| ==>
      states[|actions|].found[a] != states[|actions|].found[b]
    ensures !states[|actions|].cancelled ==>
      forall i: nat :: i < j.pieces && j.accepts(i) ==> i in states[|actions|].found
  {
    var s := states[|actions|];
    RunKeepsInv(j, states, actions, |actions|);
    ParallelRefinesSequential(j, states, actions);
    forall i: nat
      ensures multiset(Sequential(j, j.pieces))[i] == if i < j.pieces && j.accepts(i) then 1 else 0
    {
      SequentialCounts(j, j.pieces, i);
    }
    if !s.cancelled {
      forall i: nat | i < j.pieces && j.accepts(i)
        ensures i in s.found
      {
        assert i in multiset(s.found);
      }
    }
  }

  lemma {:induction false} SequentialSize(j: Job, upTo: nat)
    requires forall i: nat :: i < upTo ==> j.accepts(i)
    ensures |Sequential(j, upTo)| == upTo
  {
    if upTo > 0 {
      SequentialSize(j, upTo - 1);
    }
  }

  /** If every piece is accepted, all of them are found, or fewer after a cancellation. */
  lemma {:induction false} FoundCount(j: Job, states: seq<Pool>, actions: seq<Action>)
    requires j.Valid() && IsRun(j, states, actions) && forall i: nat :: i < j.pieces ==> j.accepts(i)
    requires forall w :: 0 <= w < |states[|actions|].workers| ==> states[|actions|].workers[w] == Gone
    ensures |states[|actions|].found| <= j.pieces
    ensures !states[|actions|].cancelled ==> |states[|actions|].found| == j.pieces
  {
    ParallelRefinesSequential(j, states, actions);
    SequentialSize(j, j.pieces);
    var all, found := Sequential(j, j.pieces), states[|actions|].found;
    assert |multiset(all)| == |all| && |multiset(found)| == |found|;
    assert |multiset(all) - multiset(found)| == |multiset(all)| - |multiset(found)|;
  }
}
