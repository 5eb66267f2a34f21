/** Node selection: the reservoir-sampling loop of `selectNode` and the exact
    counting theorem behind its comment "take a probability of 1/cntOfMaxScores". */
module Selection {
  import opened Cluster

  datatype NodeScore = NodeScore(name: string, score: int)

  /** The highest score of a non-empty list. */
  function Best(s: seq<NodeScore>): int
    requires s != []
  {
    var last := s[|s| - 1].score;
    if |s| == 1 || last > Best(s[..|s| - 1]) then last else Best(s[..|s| - 1])
  }

  /** How many entries carry the highest score. */
  function Ties(s: seq<NodeScore>): nat
    requires s != []
  {
    var last := s[|s| - 1].score;
    if |s| == 1 || last > Best(s[..|s| - 1]) then 1
    else if last == Best(s[..|s| - 1]) then Ties(s[..|s| - 1]) + 1
    else Ties(s[..|s| - 1])
  }

  /** The bounds handed to the random source, one per tie met, in order. */
  function Bounds(s: seq<NodeScore>): seq<nat>
    requires s != []
  {
    if |s| == 1 then []
    else
      var p := s[..|s| - 1];
      if s[|s| - 1].score == Best(p) then Bounds(p) + [Ties(s)] else Bounds(p)
  }

  /** A draw sequence the random source may produce: one number below each bound. */
  predicate ValidDraws(bounds: seq<nat>, d: seq<nat>) {
    |d| == |bounds| && forall i :: 0 <= i < |d| ==> d[i] < bounds[i]
  }

  /** The entry the sampling loop ends on. */
  function Pick(s: seq<NodeScore>, d: seq<nat>): (k: nat)
    requires s != [] && ValidDraws(Bounds(s), d)
    ensures k < |s|
  {
    var n := |s| - 1;
    if n == 0 then 0
    else
      var p := s[..n];
      if s[n].score > Best(p) then n
      else if s[n].score < Best(p) then Pick(p, d)
      else if d[|d| - 1] == 0 then n
      else Pick(p, d[..|d| - 1])
  }

  /** `Best` is the maximum, and `Pick` only ever returns an entry that reaches it. */
  lemma {:induction false} PickIsBest(s: seq<NodeScore>, d: seq<nat>)
    requires s != [] && ValidDraws(Bounds(s), d)
    ensures s[Pick(s, d)].score == Best(s)
    ensures forall i :: 0 <= i < |s| ==> s[i].score <= Best(s)
  {
    var n := |s| - 1;
    if n > 0 {
      var p := s[..n];
      var d' := if s[n].score == Best(p) then d[..|d| - 1] else d;
      assert ValidDraws(Bounds(p), d');
      PickIsBest(p, d');
      assert forall i :: 0 <= i < n ==> s[i] == p[i];
    }
  }

  /** The sampling loop of the planner; the random source is `r`, any number below the count. */
  method SelectNode(scores: seq<NodeScore>) returns (selected: Option<string>, ghost draws: seq<nat>)
    ensures selected == None <==> scores == []
    ensures scores != [] ==>
      && ValidDraws(Bounds(scores), draws)
      && selected == Some(scores[Pick(scores, draws)].name)
  {
    draws := [];
    if scores == [] {
      return None, draws;
    }
    var node, maxScore, count := scores[0].name, scores[0].score, 1;
    var i := 1;
    while i < |scores|
      invariant 1 <= i <= |scores|
      invariant maxScore == Best(scores[..i]) && count == Ties(scores[..i])
      invariant ValidDraws(Bounds(scores[..i]), draws)
      invariant node == scores[Pick(scores[..i], draws)].name
    {
      ghost var p := scores[..i];
      ghost var q := scores[..i + 1];
      assert q[..i] == p && q[i] == scores[i];
      if scores[i].score > maxScore {
        node, maxScore, count := scores[i].name, scores[i].score, 1;
      } else if scores[i].score == maxScore {
        count := count + 1;
        var r: nat :| r < count;
        if r == 0 {
          node := scores[i].name;
        }
        ghost var d' := draws + [r];
        assert d'[..|draws|] == draws;
        assert ValidDraws(Bounds(q), d');
        draws := d';
      }
      i := i + 1;
    }
    assert scores[..i] == scores;
    selected := Some(node);
  }

  // ----- Counting draw sequences -----

  /** Every sequence the random source may produce for the given bounds. */
  ghost function AllDraws(bounds: seq<nat>): set<seq<nat>> {
    if bounds == [] then {[]}
    else Extend(AllDraws(bounds[..|bounds| - 1]), 0, bounds[|bounds| - 1])
  }

  /** The sequences of `a`, each followed by `x`. */
  ghost function Append(a: set<seq<nat>>, x: nat): set<seq<nat>> {
    set d | d in a :: d + [x]
  }

  /** The sequences of `a`, each followed by every number from `lo` up to `hi`. */
  ghost function Extend(a: set<seq<nat>>, lo: nat, hi: nat): set<seq<nat>>
    decreases hi
  {
    if lo >= hi then {} else Extend(a, lo, hi - 1) + Append(a, hi - 1)
  }

  lemma {:induction false} InAppend(a: set<seq<nat>>, x: nat, d: seq<nat>)
    ensures d in Append(a, x) <==> d != [] && d[..|d| - 1] in a && d[|d| - 1] == x
  {
    if d in Append(a, x) {
      var e :| e in a && d == e + [x];
      assert d[..|d| - 1] == e;
    }
    if d != [] && d[|d| - 1] == x {
      assert d == d[..|d| - 1] + [x];
    }
  }

  lemma {:induction false} InExtend(a: set<seq<nat>>, lo: nat, hi: nat, d: seq<nat>)
    ensures d in Extend(a, lo, hi) <==> d != [] && d[..|d| - 1] in a && lo <= d[|d| - 1] < hi
    decreases hi
  {
    if lo < hi {
      InExtend(a, lo, hi - 1, d);
      InAppend(a, hi - 1, d);
    }
  }

  lemma {:induction false} AllDrawsAreValid(bounds: seq<nat>, d: seq<nat>)
    ensures d in AllDraws(bounds) <==> ValidDraws(bounds, d)
  {
    if bounds != [] {
      var n := |bounds| - 1;
      InExtend(AllDraws(bounds[..n]), 0, bounds[n], d);
      if d != [] {
        AllDrawsAreValid(bounds[..n], d[..|d| - 1]);
      }
    }
  }

  lemma {:induction false} AppendSize(a: set<seq<nat>>, x: nat)
    ensures |Append(a, x)| == |a|
  {
    if a != {} {
      var d0 :| d0 in a;
      var rest := a - {d0};
      AppendSize(rest, x);
      InAppend(rest, x, d0 + [x]);
      assert (d0 + [x])[..|d0|] == d0;
      assert Append(a, x) == Append(rest, x) + {d0 + [x]};
    }
  }

  lemma {:induction false} ExtendGrows(a: set<seq<nat>>, lo: nat, hi: nat)
    requires lo < hi
    ensures |Extend(a, lo, hi)| == |Extend(a, lo, hi - 1)| + |a|
  {
    AppendSize(a, hi - 1);
    var below, top := Extend(a, lo, hi - 1), Append(a, hi - 1);
    forall d | d in below
      ensures d !in top
    {
      InExtend(a, lo, hi - 1, d);
      InAppend(a, hi - 1, d);
    }
    assert below !! top;
  }

  /** Multiplication by repeated addition, to keep the count below free of products. */
  function Times(a: nat, n: nat): nat {
    if n == 0 then 0 else Times(a, n - 1) + a
  }

  lemma {:induction false} TimesIsProduct(a: nat, n: nat)
    ensures Times(a, n) == a * n
  {
    if n > 0 { TimesIsProduct(a, n - 1); }
  }

  lemma {:induction false} ExtendCount(a: set<seq<nat>>, lo: nat, n: nat)
    ensures |Extend(a, lo, lo + n)| == Times(|a|, n)
    decreases n
  {
    if n == 0 {
      assert Extend(a, lo, lo) == {};
    } else {
      hide Extend;
      ExtendCount(a, lo, n - 1);
      ExtendGrows(a, lo, lo + n);
      assert lo + n - 1 == lo + (n - 1);
    }
  }

  lemma {:induction false} ExtendSize(a: set<seq<nat>>, lo: nat, n: nat)
    ensures |Extend(a, lo, lo + n)| == |a| * n
  {
    hide Extend, Times;
    ExtendCount(a, lo, n);
    TimesIsProduct(|a|, n);
  }

  /** The draw sequences for which the loop ends on entry `k`. */
  ghost function Choosing(s: seq<NodeScore>, k: nat): set<seq<nat>>
    requires s != []
  {
    set d | d in AllDraws(Bounds(s)) && ValidDraws(Bounds(s), d) && Pick(s, d) == k
  }

  /** On a tie the new entry takes the draws ending in 0; an earlier choice keeps all others. */
  lemma {:induction false} ChoosingOnTie(s: seq<NodeScore>, k: nat)
    requires |s| > 1 && s[|s| - 1].score == Best(s[..|s| - 1]) && k < |s|
    ensures Choosing(s, k) ==
      if k == |s| - 1 then Extend(AllDraws(Bounds(s[..|s| - 1])), 0, 1)
      else Extend(Choosing(s[..|s| - 1], k), 1, Ties(s))
  {
    var n := |s| - 1;
    var p, b := s[..n], Bounds(s);
    assert b[..|b| - 1] == Bounds(p) && b[|b| - 1] == Ties(s);
    forall d
      ensures d in Choosing(s, k) <==>
        d in if k == n then Extend(AllDraws(Bounds(p)), 0, 1) else Extend(Choosing(p, k), 1, Ties(s))
    {
      InExtend(AllDraws(Bounds(p)), 0, Ties(s), d);
      InExtend(AllDraws(Bounds(p)), 0, 1, d);
      InExtend(Choosing(p, k), 1, Ties(s), d);
      AllDrawsAreValid(b, d);
      if d != [] {
        AllDrawsAreValid(Bounds(p), d[..|d| - 1]);
      }
    }
  }

  /** Without a tie the draws are those of the shorter list. */
  lemma {:induction false} ChoosingWithoutTie(s: seq<NodeScore>, k: nat)
    requires |s| > 1 && s[|s| - 1].score != Best(s[..|s| - 1])
    ensures s[|s| - 1].score < Best(s[..|s| - 1]) ==> Choosing(s, k) == Choosing(s[..|s| - 1], k)
    ensures s[|s| - 1].score > Best(s[..|s| - 1]) && k == |s| - 1 ==> Choosing(s, k) == AllDraws(Bounds(s))
    ensures s[|s| - 1].score > Best(s[..|s| - 1]) && k < |s| - 1 ==> Choosing(s, k) == {}
  {
    forall d | d in AllDraws(Bounds(s))
      ensures ValidDraws(Bounds(s), d)
    {
      AllDrawsAreValid(Bounds(s), d);
    }
  }

  /** The counted space is never empty: the all-zero sequence is always possible. */
  lemma {:induction false} DrawsExist(s: seq<NodeScore>)
    requires s != []
    ensures |AllDraws(Bounds(s))| > 0
  {
    if |s| == 1 {
      assert [] in AllDraws(Bounds(s));
    } else {
      DrawsExist(s[..|s| - 1]);
      if s[|s| - 1].score == Best(s[..|s| - 1]) {
        TotalOnTie(s);
      }
    }
  }

  /** Fair tie-breaking: among all draw sequences, each of the m entries with the highest
      score is chosen by exactly one in m, and every other entry by none. */
  lemma {:induction false} FairTieBreaking(s: seq<NodeScore>, k: nat)
    requires k < |s|
    ensures s[k].score == Best(s) ==> |Choosing(s, k)| * Ties(s) == |AllDraws(Bounds(s))|
    ensures s[k].score != Best(s) ==> |Choosing(s, k)| == 0
  {
    var n := |s| - 1;
    if n == 0 {
      assert ValidDraws(Bounds(s), []);
      assert Choosing(s, k) == {[]};
    } else {
      var p := s[..n];
      if k < n {
        FairTieBreaking(p, k);
        BestBoundsAll(p, k);
      }
      if s[n].score == Best(p) {
        assert Ties(s) - 1 == Ties(p) && Best(s) == Best(p);
        hide *;
        FairOnTie(s, k);
      } else {
        ChoosingWithoutTie(s, k);
      }
    }
  }

  lemma {:induction false} DrawsOnTie(s: seq<NodeScore>)
    requires |s| > 1 && s[|s| - 1].score == Best(s[..|s| - 1])
    ensures AllDraws(Bounds(s)) == Extend(AllDraws(Bounds(s[..|s| - 1])), 0, Ties(s))
  {
    assert Bounds(s)[..|Bounds(s)| - 1] == Bounds(s[..|s| - 1]);
  }

  lemma {:induction false} TotalOnTie(s: seq<NodeScore>)
    requires |s| > 1 && s[|s| - 1].score == Best(s[..|s| - 1])
    ensures |AllDraws(Bounds(s))| == |AllDraws(Bounds(s[..|s| - 1]))| * Ties(s)
  {
    hide AllDraws, Extend, Bounds;
    DrawsOnTie(s);
    ExtendSize(AllDraws(Bounds(s[..|s| - 1])), 0, Ties(s));
  }

  lemma {:induction false} ChosenOnTie(s: seq<NodeScore>, k: nat)
    requires k < |s| && |s| > 1 && s[|s| - 1].score == Best(s[..|s| - 1])
    ensures |Choosing(s, k)| ==
      if k == |s| - 1 then |AllDraws(Bounds(s[..|s| - 1]))|
      else |Choosing(s[..|s| - 1], k)| * (Ties(s) - 1)
  {
    hide AllDraws, Extend, Bounds, Choosing;
    ChoosingOnTie(s, k);
    if k == |s| - 1 {
      ExtendSize(AllDraws(Bounds(s[..|s| - 1])), 0, 1);
    } else {
      ExtendSize(Choosing(s[..|s| - 1], k), 1, Ties(s) - 1);
    }
  }

  lemma {:induction false} FairOnTie(s: seq<NodeScore>, k: nat)
    requires k < |s| && |s| > 1 && s[|s| - 1].score == Best(s[..|s| - 1])
    requires k < |s| - 1 && s[k].score == Best(s) ==>
      |Choosing(s[..|s| - 1], k)| * (Ties(s) - 1) == |AllDraws(Bounds(s[..|s| - 1]))|
    requires k < |s| - 1 && s[k].score != Best(s) ==> |Choosing(s[..|s| - 1], k)| == 0
    ensures s[k].score == Best(s) ==> |Choosing(s, k)| * Ties(s) == |AllDraws(Bounds(s))|
    ensures s[k].score != Best(s) ==> |Choosing(s, k)| == 0
  {
    TotalOnTie(s);
    ChosenOnTie(s, k);
    if s[k].score == Best(s) {
      assert |Choosing(s, k)| == |AllDraws(Bounds(s[..|s| - 1]))|;
    }
  }

  lemma {:induction false} BestBoundsAll(s: seq<NodeScore>, k: nat)
    requires k < |s|
    ensures s[k].score <= Best(s)
  {
    if |s| > 1 && k < |s| - 1 {
      BestBoundsAll(s[..|s| - 1], k);
    }
  }

  /** The tie count is the number of entries that reach the maximum. */
  lemma {:induction false} TiesCountsMaxima(s: seq<NodeScore>)
    requires s != []
    ensures Ties(s) == |set i | 0 <= i < |s| && s[i].score == Best(s)|
  {
    var n := |s| - 1;
    var tied := set i | 0 <= i < |s| && s[i].score == Best(s);
    if n == 0 {
      assert tied == {0};
    } else {
      var p := s[..n];
      TiesCountsMaxima(p);
      var tied' := set i | 0 <= i < |p| && p[i].score == Best(p);
      forall i | 0 <= i < n ensures s[i].score <= Best(p) { BestBoundsAll(p, i); }
      if s[n].score > Best(p) {
        assert tied == {n};
      } else if s[n].score == Best(p) {
        assert tied == tied' + {n};
      } else {
        assert tied == tied';
      }
    }
  }
}
